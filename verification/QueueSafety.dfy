/** What every run of the controller keeps of the event queue: order, ownership, no loss, no second completion. */
module QueueSafety {
  import opened Wrappers
  import opened StoreTables
  import opened Controller

  // ----- the shape of the queue

  /** Rows in sequence order are finished ones, then at most one being processed, then the waiting ones. */
  ghost predicate Shaped(queue: seq<QueueRow>) {
    exists done, waiting :: ShapedAt(queue, done, waiting)
  }

  ghost predicate ShapedAt(queue: seq<QueueRow>, done: int, waiting: int) {
    && 0 <= done <= waiting <= |queue| && waiting <= done + 1
    && (forall i :: 0 <= i < done ==> !Live(queue[i].status))
    && (forall i :: done <= i < waiting ==> queue[i].status == Processing)
    && (forall i :: waiting <= i < |queue| ==> queue[i].status == Queued)
  }

  /** The same, as a relation between any two rows. */
  ghost predicate Ordered(queue: seq<QueueRow>) {
    forall i, j :: 0 <= i < j < |queue| && Live(queue[i].status) ==> queue[j].status == Queued
  }

  lemma {:induction false} OrderedIffShaped(queue: seq<QueueRow>)
    ensures Ordered(queue) <==> Shaped(queue)
  {
    if Ordered(queue) {
      var done := 0;
      while done < |queue| && !Live(queue[done].status)
        invariant done <= |queue|
        invariant forall i :: 0 <= i < done ==> !Live(queue[i].status)
      {
        done := done + 1;
      }
      assert forall j :: done < j < |queue| ==> queue[j].status == Queued;
      assert ShapedAt(queue, done, if done < |queue| && queue[done].status == Processing then done + 1 else done);
    }
    if Shaped(queue) {
      var done, waiting :| ShapedAt(queue, done, waiting);
      forall i, j | 0 <= i < j < |queue| && Live(queue[i].status) ensures queue[j].status == Queued {
        assert done <= i && waiting <= j;
      }
    }
  }

  /** The first row that is not finished. */
  ghost predicate IsHead(queue: seq<QueueRow>, i: int) {
    0 <= i < |queue| && Live(queue[i].status) && forall j :: 0 <= j < i ==> !Live(queue[j].status)
  }

  // ----- what each transaction does to the rows

  /** Only the row of this id differs, and it now has this status. */
  ghost predicate OneRow(before: seq<QueueRow>, after: seq<QueueRow>, id: EventId, status: RowStatus) {
    && (forall r :: r in after && r.event.id != id ==> r in before)
    && (forall r :: r in before && r.event.id != id ==> r in after)
    && (forall r :: r in after && r.event.id == id ==> r.status == status)
  }

  lemma StatusRows(queue: seq<QueueRow>, id: EventId, status: RowStatus)
    ensures OneRow(queue, WithStatus(queue, id, status), id, status)
    ensures forall r :: r in queue && r.event.id == id ==> r.(status := status) in WithStatus(queue, id, status)
  {
    var after := WithStatus(queue, id, status);
    forall r | r in queue ensures (if r.event.id == id then r.(status := status) else r) in after {
      var i :| 0 <= i < |queue| && queue[i] == r;
      assert after[i] == if r.event.id == id then r.(status := status) else r;
    }
  }

  lemma EnqueueRows(t: Tables, event: Event)
    requires QueueKeys(t.queue, t.nextSequence) && !StoreTables.Enqueue(t, event).1.duplicate
    ensures var after := StoreTables.Enqueue(t, event).0.queue;
            OneRow(t.queue, after, event.id, Queued) && QueueRow(t.nextSequence, event, Queued) in after
    ensures forall r :: r in t.queue && r.event.id == event.id ==> r.status == Failed
  {
    WithoutRows(t.queue, event.id);
    var after := StoreTables.Enqueue(t, event).0.queue;
    var rest := Without(t.queue, event.id);
    assert after == rest + [QueueRow(t.nextSequence, event, Queued)];
    assert forall r :: r in after <==> r in rest || r == QueueRow(t.nextSequence, event, Queued);
  }

  lemma WithoutRows(queue: seq<QueueRow>, id: EventId)
    requires UniqueEvents(queue)
    ensures forall r :: r in Without(queue, id) <==> r in queue && r.event.id != id
    ensures forall r :: r in queue && r.event.id == id ==> Find(queue, id) < |queue| && r == queue[Find(queue, id)]
  {
    var k := Find(queue, id);
    if k < |queue| {
      assert Without(queue, id) == queue[..k] + queue[k + 1..];
      Around(queue, k);
    }
  }

  lemma Around(queue: seq<QueueRow>, k: nat)
    requires UniqueEvents(queue) && k < |queue|
    ensures forall r :: r in queue[..k] + queue[k + 1..] <==> r in queue && r.event.id != queue[k].event.id
    ensures forall r :: r in queue && r.event.id == queue[k].event.id ==> r == queue[k]
  {
    var before, after := queue[..k], queue[k + 1..];
    assert queue == before + [queue[k]] + after;
    assert forall i :: 0 <= i < |after| ==> after[i] == queue[k + 1 + i];
  }

  lemma EnqueueOrdered(t: Tables, event: Event)
    requires QueueKeys(t.queue, t.nextSequence) && Ordered(t.queue)
    ensures Ordered(StoreTables.Enqueue(t, event).0.queue)
  {
    WithoutOrdered(t.queue, event.id);
  }

  lemma WithoutOrdered(queue: seq<QueueRow>, id: EventId)
    requires UniqueEvents(queue) && Ordered(queue)
    ensures Ordered(Without(queue, id))
  {
    WithoutRow(queue, id);
    var rest := Without(queue, id);
    var k := Find(queue, id);
    forall i, j | 0 <= i < j < |rest| && Live(rest[i].status) ensures rest[j].status == Queued {
      if k < |queue| {
        assert rest[i] == queue[if i < k then i else i + 1] && rest[j] == queue[if j < k then j else j + 1];
      }
    }
  }

  lemma SetRowKeepsKeys(queue: seq<QueueRow>, next: nat, i: nat, status: RowStatus)
    requires QueueKeys(queue, next) && i < |queue|
    ensures QueueKeys(queue[i := queue[i].(status := status)], next)
  {
  }

  /** A claim takes the head of the queue, provided nothing else is being processed. */
  lemma ClaimTakesHead(t: Tables)
    requires QueueKeys(t.queue, t.nextSequence) && Ordered(t.queue)
    requires forall r :: r in t.queue ==> r.status != Processing
    requires Claim(t).1.Some?
    ensures var i := FirstQueued(t.queue);
            && IsHead(t.queue, i) && t.queue[i].event == Claim(t).1.value
            && Claim(t).0.queue == t.queue[i := t.queue[i].(status := Processing)]
            && Ordered(Claim(t).0.queue)
            && SequenceOf(t, t.queue[i].event.id) == t.queue[i].sequence
  {
    var i := FirstQueued(t.queue);
    var id := t.queue[i].event.id;
    assert forall j :: 0 <= j < |t.queue| ==> t.queue[j] in t.queue;
    assert Find(t.queue, id) == i;
    OnlyStatus(t.queue, i, Processing);
  }

  /** The row of an event being processed is the head of the queue; finishing it keeps the order. */
  lemma ProcessingIsHead(t: Tables, event: Event, status: RowStatus)
    requires QueueKeys(t.queue, t.nextSequence) && Ordered(t.queue) && !Live(status)
    requires Busy(t.queue, event)
    ensures var i := Find(t.queue, event.id);
            && IsHead(t.queue, i) && t.queue[i].status == Processing && t.queue[i].event == event
            && SequenceOf(t, event.id) == t.queue[i].sequence
            && WithStatus(t.queue, event.id, status) == t.queue[i := t.queue[i].(status := status)]
            && Ordered(WithStatus(t.queue, event.id, status))
  {
    var r :| r in t.queue && r.event == event && r.status == Processing;
    var k :| 0 <= k < |t.queue| && t.queue[k] == r;
    assert Find(t.queue, event.id) == k;
    OnlyStatus(t.queue, k, status);
    HeadFinished(t.queue, k, status);
  }

  lemma OnlyStatus(queue: seq<QueueRow>, k: nat, status: RowStatus)
    requires UniqueEvents(queue) && k < |queue|
    ensures WithStatus(queue, queue[k].event.id, status) == queue[k := queue[k].(status := status)]
  {
  }

  lemma HeadFinished(queue: seq<QueueRow>, k: nat, status: RowStatus)
    requires Ordered(queue) && k < |queue| && queue[k].status == Processing && !Live(status)
    ensures IsHead(queue, k) && Ordered(queue[k := queue[k].(status := status)])
  {
  }

  ghost predicate Busy(queue: seq<QueueRow>, event: Event) {
    exists r :: r in queue && r.event == event && r.status == Processing
  }

  // ----- the invariant

  function HeldBy(worker: WorkerPc): Option<Event> {
    match worker
    case Reserved(event) => Some(event)
    case InReceive(event) => Some(event)
    case Finishing(event, _) => Some(event)
    case _ => None
  }

  predicate Starting(m: ManagerPc) {
    m == ClearingStop || m == SettingWake || m == Spawning
  }

  ghost predicate OnlyBusy(queue: seq<QueueRow>, event: Option<Event>) {
    forall r :: r in queue && r.status == Processing ==> event == Some(r.event)
  }

  /** Who may be working on what. */
  ghost predicate Ownership(queue: seq<QueueRow>, p: Process) {
    && (p.worker != NotRunning ==> OnlyBusy(queue, HeldBy(p.worker)))
    && (HeldBy(p.worker).Some? ==> Busy(queue, HeldBy(p.worker).value))
    && (p.manager == Recovering || Starting(p.manager) ==> p.worker == NotRunning)
    && (Starting(p.manager) ==> OnlyBusy(queue, None))
    && (p.worker.InReceive? <==> p.holder.Receiving? && p.holder.byWorker)
    && (p.worker.InReceive? ==> p.holder.event == p.worker.event && !p.holder.pc.Recording? && !p.holder.pc.Forgetting?)
  }

  ghost predicate Distinct(ids: seq<EventId>) {
    forall i, j :: 0 <= i < j < |ids| ==> ids[i] != ids[j]
  }

  predicate Decided(decisions: map<EventId, Decision>, id: EventId) {
    id in decisions && (decisions[id].status == ProposalMade || decisions[id].status == NoAction)
  }

  /** A row that is not failed has its id reserved, and so has every completed id; a completed id has no live row;
      a completed row has a decision. */
  ghost predicate Reservation(queue: seq<QueueRow>, received: set<EventId>, decisions: map<EventId, Decision>,
                              completed: seq<EventId>) {
    && (forall r :: r in queue && r.status != Failed ==> r.event.id in received)
    && (forall id :: id in completed ==> id in received)
    && (forall r :: r in queue && Live(r.status) ==> r.event.id !in completed)
    && (forall r :: r in queue && r.status == Completed ==> r.event.id in completed && Decided(decisions, r.event.id))
  }

  ghost predicate HasRow(queue: seq<QueueRow>, id: EventId) {
    exists r :: r in queue && r.event.id == id
  }

  ghost predicate AllHaveRows(queue: seq<QueueRow>, ids: set<EventId>) {
    forall id :: id in ids ==> HasRow(queue, id)
  }

  /** An id the synchronous path has reserved and not yet decided or given up. */
  ghost predicate SyncOwns(queue: seq<QueueRow>, received: set<EventId>, completed: seq<EventId>, id: EventId) {
    && id in received && id !in completed
    && forall r :: r in queue && r.event.id == id ==> r.status == Failed
  }

  predicate InSync(h: Holder) {
    h.Receiving? && !h.byWorker && !h.pc.Validating? && !h.pc.Recording?
  }

  ghost predicate Holding(s: State, p: Process) {
    && (InSync(p.holder) ==> SyncOwns(s.tables.queue, s.tables.received, s.history.completed, p.holder.event.id))
    && (p.worker.Finishing? && !p.worker.failed ==> Decided(s.tables.decisions, p.worker.event.id))
  }

  ghost predicate OrderInv(s: State) {
    QueueKeys(s.tables.queue, s.tables.nextSequence) && Ordered(s.tables.queue)
  }

  ghost predicate RowInv(s: State) {
    && Reservation(s.tables.queue, s.tables.received, s.tables.decisions, s.history.completed)
    && AllHaveRows(s.tables.queue, s.history.accepted)
    && Distinct(s.history.completed)
    && (s.process.Some? ==> Ownership(s.tables.queue, s.process.value) && Holding(s, s.process.value))
  }

  ghost predicate QueueInv(s: State) {
    OrderInv(s) && RowInv(s)
  }

  // ----- every step keeps it

  lemma RowsKept(before: seq<QueueRow>, after: seq<QueueRow>, id: EventId, status: RowStatus, ids: set<EventId>)
    requires OneRow(before, after, id, status) && AllHaveRows(before, ids)
    requires id in ids ==> HasRow(after, id)
    ensures AllHaveRows(after, ids)
  {
    forall other | other in ids ensures HasRow(after, other) {
      var r :| r in before && r.event.id == other;
      assert r.event.id != id ==> r in after;
    }
  }

  /** Nothing the invariant looks at differs, except what the threads are at. */
  lemma SameRows(s: State, next: State)
    requires RowInv(s) && next.history.accepted == s.history.accepted && next.history.completed == s.history.completed
    requires next.tables.queue == s.tables.queue && next.tables.received == s.tables.received
    requires next.tables.decisions == s.tables.decisions
    requires next.process.Some? ==>
               Ownership(s.tables.queue, next.process.value) && Holding(s, next.process.value)
    ensures RowInv(next)
  {
  }

  lemma EnqueueKeepsRowInv(s: State, p: Process, client: nat, event: Event)
    requires QueueInv(s) && s.process == Some(p) && RunningStep(s, p, Enqueue(client, event)).Some?
    ensures RowInv(RunningStep(s, p, Enqueue(client, event)).value)
  {
    var t := s.tables;
    var (after, reply) := StoreTables.Enqueue(t, event);
    var next := RunningStep(s, p, Enqueue(client, event)).value;
    if reply.duplicate {
      SameRows(s, next);
    } else {
      EnqueueRows(t, event);
      EnqueueReserves(t, event, s.history.completed);
      AcceptedHaveRows(t.queue, after.queue, event, s.history.accepted);
      OtherRowsAlone(t.queue, after.queue, event.id, Queued, p);
      EnqueueKeepsHolding(s, next, p, event);
    }
  }

  lemma EnqueueReserves(t: Tables, event: Event, completed: seq<EventId>)
    requires QueueKeys(t.queue, t.nextSequence) && !StoreTables.Enqueue(t, event).1.duplicate
    requires Reservation(t.queue, t.received, t.decisions, completed)
    ensures var after := StoreTables.Enqueue(t, event).0;
            Reservation(after.queue, after.received, after.decisions, completed)
  {
    EnqueueRows(t, event);
    var after := StoreTables.Enqueue(t, event).0;
    RowReserves(t.queue, after.queue, event.id, t.received, t.decisions, after.decisions, completed);
  }

  lemma RowReserves(before: seq<QueueRow>, after: seq<QueueRow>, id: EventId, received: set<EventId>,
                    decisions: map<EventId, Decision>, later: map<EventId, Decision>, completed: seq<EventId>)
    requires OneRow(before, after, id, Queued) && Reservation(before, received, decisions, completed)
    requires id !in received && forall other :: other != id && Decided(decisions, other) ==> Decided(later, other)
    ensures Reservation(after, received + {id}, later, completed)
  {
    forall r | r in after
      ensures r.status != Failed ==> r.event.id in received + {id}
      ensures Live(r.status) ==> r.event.id !in completed
      ensures r.status == Completed ==> r.event.id in completed && Decided(later, r.event.id)
    {
      if r.event.id != id {
        assert r in before;
      }
    }
  }

  lemma AcceptedHaveRows(before: seq<QueueRow>, after: seq<QueueRow>, event: Event, ids: set<EventId>)
    requires OneRow(before, after, event.id, Queued) && AllHaveRows(before, ids) && HasRow(after, event.id)
    ensures AllHaveRows(after, ids + {event.id})
  {
    forall id | id in ids + {event.id} ensures HasRow(after, id) {
      if id != event.id {
        var r :| r in before && r.event.id == id;
        assert r in after;
      }
    }
  }

  lemma EnqueueKeepsHolding(s: State, next: State, p: Process, event: Event)
    requires QueueInv(s) && s.process == Some(p) && !StoreTables.Enqueue(s.tables, event).1.duplicate
    requires next.tables == StoreTables.Enqueue(s.tables, event).0 && next.history.completed == s.history.completed
    ensures Holding(next, p)
  {
    EnqueueRows(s.tables, event);
    if p.worker.Finishing? && !p.worker.failed {
      var r :| r in s.tables.queue && r.event == p.worker.event && r.status == Processing;
    }
  }

  /** A change to a row that was not, and is not now, being processed leaves ownership alone. */
  lemma OtherRowsAlone(before: seq<QueueRow>, after: seq<QueueRow>, id: EventId, status: RowStatus, p: Process)
    requires OneRow(before, after, id, status) && status != Processing
    requires forall r :: r in before && r.event.id == id ==> r.status != Processing
    requires Ownership(before, p)
    ensures Ownership(after, p)
  {
    if HeldBy(p.worker).Some? {
      var r :| r in before && r.event == HeldBy(p.worker).value && r.status == Processing;
      assert r in after;
    }
  }

  lemma RequeuedOrder(queue: seq<QueueRow>, next: nat)
    requires QueueKeys(queue, next) && Ordered(queue)
    ensures QueueKeys(Requeued(queue), next) && Ordered(Requeued(queue))
  {
  }

  lemma RequeuedRows(queue: seq<QueueRow>)
    ensures OnlyBusy(Requeued(queue), None)
    ensures forall r :: r in Requeued(queue) ==> r in queue || (r.status == Queued && r.(status := Processing) in queue)
    ensures forall r :: r in queue ==> (if r.status == Processing then r.(status := Queued) else r) in Requeued(queue)
  {
    var after := Requeued(queue);
    forall r | r in queue ensures (if r.status == Processing then r.(status := Queued) else r) in after {
      var i :| 0 <= i < |queue| && queue[i] == r;
      assert after[i] == if r.status == Processing then r.(status := Queued) else r;
    }
    forall r | r in after ensures r in queue || (r.status == Queued && r.(status := Processing) in queue) {
      var i :| 0 <= i < |queue| && after[i] == r;
      assert queue[i] in queue;
      assert queue[i] == r || queue[i] == r.(status := Processing);
    }
  }

  lemma RecoveredDecisions(t: Tables)
    requires QueueKeys(t.queue, t.nextSequence)
    ensures forall r :: r in t.queue && r.status != Processing && r.event.id in t.decisions ==>
              r.event.id in Recover(t).decisions && Recover(t).decisions[r.event.id] == t.decisions[r.event.id]
  {
    forall r | r in t.queue && r.status != Processing
      ensures Find(t.queue, r.event.id) < |t.queue| && t.queue[Find(t.queue, r.event.id)] == r
    {
      var i :| 0 <= i < |t.queue| && t.queue[i] == r;
      assert Find(t.queue, r.event.id) == i;
    }
  }

  lemma RecoverKeepsRowInv(s: State, p: Process)
    requires RowInv(s) && s.process == Some(p) && p.manager == Recovering
    requires QueueKeys(s.tables.queue, s.tables.nextSequence)
    ensures RowInv(ManagerStepFrom(s, p).value)
  {
    RequeuedRows(s.tables.queue);
    RecoveredDecisions(s.tables);
    RequeuedKeep(s, p, Recover(s.tables).decisions);
  }

  lemma RequeuedKeep(s: State, p: Process, decisions: map<EventId, Decision>)
    requires RowInv(s) && s.process == Some(p) && p.manager == Recovering
    requires forall r :: r in s.tables.queue && r.status != Processing && r.event.id in s.tables.decisions ==>
               r.event.id in decisions && decisions[r.event.id] == s.tables.decisions[r.event.id]
    ensures RowInv(s.(tables := s.tables.(queue := Requeued(s.tables.queue), decisions := decisions),
                      process := Some(p.(manager := ClearingStop))))
  {
    var queue := s.tables.queue;
    RequeuedRows(queue);
    forall id | id in s.history.accepted ensures HasRow(Requeued(queue), id) {
      var r :| r in queue && r.event.id == id;
      assert (if r.status == Processing then r.(status := Queued) else r) in Requeued(queue);
    }
  }

  /** The only row with this row's id. */
  ghost predicate Sole(queue: seq<QueueRow>, row: QueueRow) {
    row in queue && forall r :: r in queue && r.event.id == row.event.id ==> r == row
  }

  lemma RowIsSole(queue: seq<QueueRow>, next: nat, i: nat)
    requires QueueKeys(queue, next) && i < |queue|
    ensures Sole(queue, queue[i])
  {
    forall r | r in queue && r.event.id == queue[i].event.id ensures r == queue[i] {
      var j :| 0 <= j < |queue| && queue[j] == r;
    }
  }

  lemma ClaimKeepsOrderInv(s: State, p: Process)
    requires QueueInv(s) && s.process == Some(p) && p.worker == Claiming
    ensures OrderInv(WorkerStepFrom(s, p).value)
    ensures Claim(s.tables).1.Some? ==>
              exists row :: Sole(s.tables.queue, row) && row.status == Queued && row.event == Claim(s.tables).1.value
  {
    var t := s.tables;
    if Claim(t).1.Some? {
      ClaimTakesHead(t);
      SetRowKeepsKeys(t.queue, t.nextSequence, FirstQueued(t.queue), Processing);
      RowIsSole(t.queue, t.nextSequence, FirstQueued(t.queue));
    }
  }

  lemma ClaimKeepsRowInv(s: State, p: Process)
    requires RowInv(s) && s.process == Some(p) && p.worker == Claiming
    requires Claim(s.tables).1.Some? ==>
               exists row :: Sole(s.tables.queue, row) && row.status == Queued && row.event == Claim(s.tables).1.value
    ensures RowInv(WorkerStepFrom(s, p).value)
  {
    var t := s.tables;
    var (after, claimed) := Claim(t);
    if claimed.Some? {
      var row :| Sole(t.queue, row) && row.status == Queued && row.event == claimed.value;
      StatusRows(t.queue, row.event.id, Processing);
      assert row.(status := Processing) in after.queue;
      RowsKept(t.queue, after.queue, row.event.id, Processing, s.history.accepted);
      ClaimReserves(t, row, s.history.completed);
      ClaimOwned(s, p, row);
    } else {
      SameRows(s, WorkerStepFrom(s, p).value);
    }
  }

  lemma ClaimReserves(t: Tables, row: QueueRow, completed: seq<EventId>)
    requires Reservation(t.queue, t.received, t.decisions, completed)
    requires Claim(t).1 == Some(row.event) && Sole(t.queue, row) && row.status == Queued
    ensures var after := Claim(t).0; Reservation(after.queue, after.received, after.decisions, completed)
  {
    StatusRows(t.queue, row.event.id, Processing);
  }

  lemma ClaimOwned(s: State, p: Process, row: QueueRow)
    requires RowInv(s) && s.process == Some(p) && p.worker == Claiming
    requires Claim(s.tables).1 == Some(row.event) && Sole(s.tables.queue, row) && row.status == Queued
    ensures var next := WorkerStepFrom(s, p).value; var q := p.(worker := Reserved(row.event));
            Ownership(next.tables.queue, q) && Holding(next, q)
  {
    var queue, after := s.tables.queue, Claim(s.tables).0.queue;
    StatusRows(queue, row.event.id, Processing);
    assert row.(status := Processing) in after;
    forall r | r in after && r.status == Processing ensures r.event == row.event {
      if r.event.id == row.event.id { StatusFrom(queue, row.event.id, Processing, r); }
    }
  }

  lemma StatusFrom(queue: seq<QueueRow>, id: EventId, status: RowStatus, r: QueueRow)
    requires r in WithStatus(queue, id, status) && r.event.id == id
    ensures exists was :: was in queue && was.event == r.event && was.sequence == r.sequence
  {
    var i :| 0 <= i < |queue| && WithStatus(queue, id, status)[i] == r;
    assert queue[i] in queue;
  }

  lemma FinishKeepsOrderInv(s: State, p: Process)
    requires QueueInv(s) && s.process == Some(p) && p.worker.Finishing?
    ensures OrderInv(WorkerStepFrom(s, p).value)
    ensures exists row :: Sole(s.tables.queue, row) && row.status == Processing && row.event == p.worker.event
  {
    var t := s.tables;
    var status := if p.worker.failed then Failed else Completed;
    var i := Find(t.queue, p.worker.event.id);
    ProcessingIsHead(t, p.worker.event, status);
    SetRowKeepsKeys(t.queue, t.nextSequence, i, status);
    RowIsSole(t.queue, t.nextSequence, i);
  }

  lemma FinishKeepsRowInv(s: State, p: Process, row: QueueRow)
    requires RowInv(s) && s.process == Some(p) && p.worker.Finishing?
    requires Sole(s.tables.queue, row) && row.status == Processing && row.event == p.worker.event
    ensures RowInv(WorkerStepFrom(s, p).value)
  {
    var t := s.tables;
    var id := p.worker.event.id;
    var status := if p.worker.failed then Failed else Completed;
    var after := Finish(t, p.worker.event, p.worker.failed);
    StatusRows(t.queue, id, status);
    assert row.(status := status) in after.queue;
    RowsKept(t.queue, after.queue, id, status, s.history.accepted);
    if !p.worker.failed { CompletedOnce(s.history.completed, id); }
    FinishReserves(t, p.worker.event, p.worker.failed, row, s.history.completed);
    FinishOwned(s, p, row);
  }

  /** The finished row is completed, or has given its reservation up. */
  lemma FinishReserves(t: Tables, event: Event, failed: bool, row: QueueRow, completed: seq<EventId>)
    requires Reservation(t.queue, t.received, t.decisions, completed)
    requires Sole(t.queue, row) && row.status == Processing && row.event == event
    requires !failed ==> Decided(t.decisions, event.id)
    ensures var after := Finish(t, event, failed);
            Reservation(after.queue, after.received, after.decisions, completed + if failed then [] else [event.id])
  {
    StatusRows(t.queue, event.id, if failed then Failed else Completed);
  }

  lemma FinishOwned(s: State, p: Process, row: QueueRow)
    requires RowInv(s) && s.process == Some(p) && p.worker.Finishing?
    requires Sole(s.tables.queue, row) && row.status == Processing && row.event == p.worker.event
    ensures var next := WorkerStepFrom(s, p).value; var q := p.(worker := Draining);
            Ownership(next.tables.queue, q) && Holding(next, q)
  {
    StatusRows(s.tables.queue, p.worker.event.id, if p.worker.failed then Failed else Completed);
  }

  predicate WritesDecision(pc: ReceivePc, choice: ReceiveChoice) {
    choice != Raise && (pc.Marking? || pc.ReportingFailure? || pc.Saving?
        || (pc.EvaluatingPolicy? && choice == Progress))
  }

  predicate WritesReservation(pc: ReceivePc, choice: ReceiveChoice) {
    choice != Raise && (pc.Recording? || pc.Forgetting?)
  }

  ghost predicate WorkersRow(s: State, p: Process) {
    p.holder.Receiving? && p.holder.byWorker ==>
      exists row :: Sole(s.tables.queue, row) && row.status == Processing && row.event == p.holder.event
  }

  lemma QuietWrites(t: Tables, h: Holder, choice: ReceiveChoice)
    requires h.Receiving? && !WritesDecision(h.pc, choice) && !WritesReservation(h.pc, choice)
    ensures var next := ReceiveWrites(t, h, choice);
            next.queue == t.queue && next.received == t.received && next.decisions == t.decisions
    ensures ReceiveCompletes(h, choice) == []
  {
  }

  /** The receiving thread has moved on, or has left. */
  predicate MovedOn(p: Process, q: Process)
    requires p.holder.Receiving?
  {
    && q.manager == p.manager
    && (q == Leave(p, true)
        || (&& q.worker == p.worker && q.holder.Receiving? && q.holder.byWorker == p.holder.byWorker
            && q.holder.event == p.holder.event && !q.holder.pc.Forgetting? && (InSync(q.holder) ==> InSync(p.holder))
            && (q.holder.byWorker ==> !q.holder.pc.Recording?)))
  }

  lemma QuietNext(t: Tables, p: Process, choice: ReceiveChoice)
    requires p.holder.Receiving? && ReceiveNext(t, p, choice).Some?
    requires !WritesDecision(p.holder.pc, choice) && !WritesReservation(p.holder.pc, choice)
    requires p.holder.byWorker ==> !p.holder.pc.Recording?
    ensures MovedOn(p, ReceiveNext(t, p, choice).value)
  {
    if p.holder.pc.EvaluatingPolicy? { EvaluatingNext(t, p, choice); }
  }

  lemma EvaluatingNext(t: Tables, p: Process, choice: ReceiveChoice)
    requires p.holder.Receiving? && ReceiveNext(t, p, choice).Some?
    requires p.holder.pc.EvaluatingPolicy? && !WritesDecision(p.holder.pc, choice)
    ensures MovedOn(p, ReceiveNext(t, p, choice).value)
  {
  }

  lemma MovedOnKeeps(s: State, p: Process, q: Process)
    requires RowInv(s) && s.process == Some(p) && p.holder.Receiving? && MovedOn(p, q)
    ensures Ownership(s.tables.queue, q) && Holding(s, q)
  {
  }

  lemma QuietReceiveKeepsRowInv(s: State, p: Process, choice: ReceiveChoice)
    requires RowInv(s) && s.process == Some(p) && p.holder.Receiving? && ReceiveStepFrom(s, p, choice).Some?
    requires !WritesDecision(p.holder.pc, choice) && !WritesReservation(p.holder.pc, choice)
    ensures RowInv(ReceiveStepFrom(s, p, choice).value)
  {
    QuietWrites(s.tables, p.holder, choice);
    QuietNext(s.tables, p, choice);
    MovedOnKeeps(s, p, ReceiveNext(s.tables, p, choice).value);
    SameRows(s, ReceiveStepFrom(s, p, choice).value);
  }

  lemma ReservingReceiveKeepsRowInv(s: State, p: Process, choice: ReceiveChoice)
    requires RowInv(s) && s.process == Some(p) && p.holder.Receiving? && ReceiveStepFrom(s, p, choice).Some?
    requires WritesReservation(p.holder.pc, choice)
    ensures RowInv(ReceiveStepFrom(s, p, choice).value)
  {
    assert !p.holder.byWorker;
    if p.holder.pc.Recording? {
      RecordingKeepsRowInv(s, p, choice);
    } else {
      ForgettingKeepsRowInv(s, p, choice);
    }
  }

  lemma RecordingKeepsRowInv(s: State, p: Process, choice: ReceiveChoice)
    requires RowInv(s) && s.process == Some(p) && p.holder.Receiving? && ReceiveStepFrom(s, p, choice).Some?
    requires choice != Raise && p.holder.pc.Recording? && !p.holder.byWorker
    ensures RowInv(ReceiveStepFrom(s, p, choice).value)
  {
    var id := p.holder.event.id;
    var next := ReceiveStepFrom(s, p, choice).value;
    if id in s.tables.received {
      SameRows(s, next);
    } else {
      NewReservation(s.tables.queue, s.tables.received, s.tables.decisions, s.history.completed, id);
      assert Ownership(s.tables.queue, next.process.value);
      assert Holding(next, next.process.value);
    }
  }

  /** An id that was not reserved has no row that has not failed, and was not completed. */
  lemma NewReservation(queue: seq<QueueRow>, received: set<EventId>, decisions: map<EventId, Decision>,
                       completed: seq<EventId>, id: EventId)
    requires Reservation(queue, received, decisions, completed) && id !in received
    ensures Reservation(queue, received + {id}, decisions, completed)
    ensures SyncOwns(queue, received + {id}, completed, id)
  {
  }

  lemma ForgettingKeepsRowInv(s: State, p: Process, choice: ReceiveChoice)
    requires RowInv(s) && s.process == Some(p) && p.holder.Receiving? && ReceiveStepFrom(s, p, choice).Some?
    requires choice != Raise && p.holder.pc.Forgetting? && !p.holder.byWorker
    ensures RowInv(ReceiveStepFrom(s, p, choice).value)
  {
  }

  /** A decision may be written for an id none of whose rows is completed. */
  lemma DecisionWritten(s: State, p: Process, id: EventId, decision: Decision)
    requires RowInv(s) && s.process == Some(p)
    requires forall r :: r in s.tables.queue && r.event.id == id ==> r.status != Completed
    requires p.worker.Finishing? && !p.worker.failed ==> p.worker.event.id != id
    ensures RowInv(s.(tables := s.tables.(decisions := s.tables.decisions[id := decision])))
  {
  }

  lemma DecidingReceiveKeepsRowInv(s: State, p: Process, choice: ReceiveChoice)
    requires RowInv(s) && s.process == Some(p) && p.holder.Receiving? && ReceiveStepFrom(s, p, choice).Some?
    requires WritesDecision(p.holder.pc, choice) && WorkersRow(s, p)
    ensures RowInv(ReceiveStepFrom(s, p, choice).value)
  {
    var id := p.holder.event.id;
    var next := ReceiveWrites(s.tables, p.holder, choice);
    if p.worker.Finishing? {
      assert Busy(s.tables.queue, p.worker.event);
    }
    DecisionWritten(s, p, id, next.decisions[id]);
    var saved := s.(tables := s.tables.(decisions := next.decisions));
    assert next == saved.tables;
    if p.holder.pc.Saving? && !p.holder.byWorker {
      SyncSaves(saved, p, choice);
    } else {
      DecidedNext(s.tables, p, choice);
      DecidedKeeps(saved, p, ReceiveNext(s.tables, p, choice).value);
      SameRows(saved, ReceiveStepFrom(s, p, choice).value);
    }
  }

  /** The receiving thread has moved on, or has left with a decision made or an error. */
  predicate WentOn(p: Process, q: Process, made: bool)
    requires p.holder.Receiving?
  {
    && q.manager == p.manager
    && ((p.holder.byWorker && q == Leave(p, !made))
        || (&& q.worker == p.worker && q.holder.Receiving? && q.holder.byWorker == p.holder.byWorker
            && q.holder.event == p.holder.event && (InSync(q.holder) ==> InSync(p.holder))
            && (q.holder.byWorker ==> !q.holder.pc.Recording? && !q.holder.pc.Forgetting?)))
  }

  lemma DecidedNext(t: Tables, p: Process, choice: ReceiveChoice)
    requires p.holder.Receiving? && ReceiveNext(t, p, choice).Some? && WritesDecision(p.holder.pc, choice)
    requires !(p.holder.pc.Saving? && !p.holder.byWorker)
    ensures WentOn(p, ReceiveNext(t, p, choice).value, p.holder.pc.Saving?)
    ensures p.holder.pc.Saving? ==> Decided(ReceiveWrites(t, p.holder, choice).decisions, p.holder.event.id)
    ensures ReceiveCompletes(p.holder, choice) == []
  {
  }

  lemma DecidedKeeps(s: State, p: Process, q: Process)
    requires RowInv(s) && s.process == Some(p) && p.holder.Receiving?
    requires WentOn(p, q, p.holder.pc.Saving?)
    requires p.holder.pc.Saving? ==> Decided(s.tables.decisions, p.holder.event.id)
    ensures Ownership(s.tables.queue, q) && Holding(s, q)
  {
  }

  /** The synchronous path completes its event. */
  lemma SyncSaves(s: State, p: Process, choice: ReceiveChoice)
    requires RowInv(s) && s.process == Some(p) && p.holder.Receiving? && !p.holder.byWorker && p.holder.pc.Saving?
    ensures RowInv(s.(process := Some(Leave(p, false)),
                      history := s.history.(completed := s.history.completed + [p.holder.event.id])))
  {
    var id, completed := p.holder.event.id, s.history.completed;
    CompletedOnce(completed, id);
    SyncCompletes(s.tables.queue, s.tables.received, s.tables.decisions, completed, id);
  }

  lemma CompletedOnce(completed: seq<EventId>, id: EventId)
    requires Distinct(completed) && id !in completed
    ensures Distinct(completed + [id])
    ensures forall other :: other in completed + [id] <==> other in completed || other == id
  {
  }

  lemma SyncCompletes(queue: seq<QueueRow>, received: set<EventId>, decisions: map<EventId, Decision>,
                      completed: seq<EventId>, id: EventId)
    requires Reservation(queue, received, decisions, completed) && SyncOwns(queue, received, completed, id)
    ensures Reservation(queue, received, decisions, completed + [id])
  {
  }

  lemma HolderRow(s: State, p: Process)
    requires QueueInv(s) && s.process == Some(p)
    ensures WorkersRow(s, p)
  {
    if p.holder.Receiving? && p.holder.byWorker {
      var row :| row in s.tables.queue && row.event == p.holder.event && row.status == Processing;
      var i :| 0 <= i < |s.tables.queue| && s.tables.queue[i] == row;
      RowIsSole(s.tables.queue, s.tables.nextSequence, i);
    }
  }

  lemma ReceiveKeepsRowInv(s: State, p: Process, choice: ReceiveChoice)
    requires QueueInv(s) && s.process == Some(p) && p.holder.Receiving? && ReceiveStepFrom(s, p, choice).Some?
    ensures RowInv(ReceiveStepFrom(s, p, choice).value)
  {
    if WritesDecision(p.holder.pc, choice) {
      HolderRow(s, p);
      DecidingReceiveKeepsRowInv(s, p, choice);
    } else if WritesReservation(p.holder.pc, choice) {
      ReservingReceiveKeepsRowInv(s, p, choice);
    } else {
      QuietReceiveKeepsRowInv(s, p, choice);
    }
  }

  /** The actions that leave the queue tables and the receiving thread alone. */
  predicate Elsewhere(a: Action) {
    a.Boot? || a.Crash? || a.SetWake? || a.Start? || a.Stop? || a.WorkerDies? || a.BeginReceive? || a.BeginApprove?
    || a.ApproveStep? || a.Reject?
  }

  /** The worker keeps its place or has died outside _receive_event, the manager is not about to start a worker beside
      it, and the lock is not taken for the worker. */
  predicate Calm(p: Process, q: Process) {
    && (q.worker == p.worker || (q.worker == NotRunning && !p.worker.InReceive?))
    && (q.manager == p.manager || q.manager == RaisingWake
        || (q.manager == Recovering && q.worker == NotRunning && p.worker == NotRunning))
    && (q.holder == p.holder
        || (!p.holder.Receiving? && !InSync(q.holder) && (q.holder.Receiving? ==> !q.holder.byWorker)))
  }

  lemma ElsewhereIsCalm(s: State, p: Process, a: Action)
    requires s.process == Some(p) && RunningStep(s, p, a).Some? && Elsewhere(a)
    ensures var next := RunningStep(s, p, a).value;
            && next.process.Some? && Calm(p, next.process.value) && next.history.completed == s.history.completed
            && next.history.accepted == s.history.accepted && next.tables.queue == s.tables.queue
            && next.tables.received == s.tables.received && next.tables.decisions == s.tables.decisions
            && next.tables.nextSequence == s.tables.nextSequence
  {
  }

  lemma CalmKeeps(s: State, p: Process, q: Process)
    requires RowInv(s) && s.process == Some(p) && Calm(p, q)
    ensures Ownership(s.tables.queue, q) && Holding(s, q)
  {
  }

  lemma ElsewhereKeepsQueueInv(s: State, a: Action)
    requires QueueInv(s) && Step(s, a).Some? && Elsewhere(a)
    ensures QueueInv(Step(s, a).value)
  {
    if !a.Boot? && !a.Crash? {
      ElsewhereIsCalm(s, s.process.value, a);
      CalmKeeps(s, s.process.value, Step(s, a).value.process.value);
    }
    SameRows(s, Step(s, a).value);
  }

  lemma WorkerKeepsQueueInv(s: State, p: Process)
    requires QueueInv(s) && s.process == Some(p) && WorkerStepFrom(s, p).Some?
    ensures QueueInv(WorkerStepFrom(s, p).value)
  {
    if p.worker == Claiming {
      ClaimKeepsOrderInv(s, p);
      ClaimKeepsRowInv(s, p);
    } else if p.worker.Finishing? {
      FinishKeepsOrderInv(s, p);
      var row :| Sole(s.tables.queue, row) && row.status == Processing && row.event == p.worker.event;
      FinishKeepsRowInv(s, p, row);
    } else {
      QuietWorkerKeepsRowInv(s, p);
    }
  }

  lemma QuietWorkerKeepsRowInv(s: State, p: Process)
    requires RowInv(s) && s.process == Some(p) && WorkerStepFrom(s, p).Some? && p.worker != Claiming
              && !p.worker.Finishing?
    ensures RowInv(WorkerStepFrom(s, p).value)
  {
  }

  lemma ManagerKeepsQueueInv(s: State, p: Process)
    requires QueueInv(s) && s.process == Some(p) && ManagerStepFrom(s, p).Some?
    ensures QueueInv(ManagerStepFrom(s, p).value)
  {
    if p.manager == Recovering {
      RequeuedOrder(s.tables.queue, s.tables.nextSequence);
      RecoverKeepsRowInv(s, p);
    } else {
      QuietManagerKeepsRowInv(s, p);
    }
  }

  lemma QuietManagerKeepsRowInv(s: State, p: Process)
    requires RowInv(s) && s.process == Some(p) && ManagerStepFrom(s, p).Some? && p.manager != Recovering
    ensures RowInv(ManagerStepFrom(s, p).value)
  {
  }

  lemma EnqueueKeepsQueueInv(s: State, p: Process, client: nat, event: Event)
    requires QueueInv(s) && s.process == Some(p) && RunningStep(s, p, Enqueue(client, event)).Some?
    ensures QueueInv(RunningStep(s, p, Enqueue(client, event)).value)
  {
    EnqueueKeepsKeys(s.tables, event);
    EnqueueOrdered(s.tables, event);
    EnqueueKeepsRowInv(s, p, client, event);
  }

  lemma ReceiveKeepsQueueInv(s: State, p: Process, choice: ReceiveChoice)
    requires QueueInv(s) && s.process == Some(p) && p.holder.Receiving? && ReceiveStepFrom(s, p, choice).Some?
    ensures QueueInv(ReceiveStepFrom(s, p, choice).value)
  {
    ReceiveKeepsRowInv(s, p, choice);
    ReceiveLeavesQueue(s.tables, p.holder, choice);
  }

  lemma StepKeepsQueueInv(s: State, a: Action)
    requires QueueInv(s) && Step(s, a).Some?
    ensures QueueInv(Step(s, a).value)
  {
    if Elsewhere(a) {
      ElsewhereKeepsQueueInv(s, a);
    } else {
      var p := s.process.value;
      match a
      case Enqueue(client, event) => EnqueueKeepsQueueInv(s, p, client, event);
      case ManagerStep => ManagerKeepsQueueInv(s, p);
      case WorkerStep => WorkerKeepsQueueInv(s, p);
      case ReceiveStep(choice) => ReceiveKeepsQueueInv(s, p, choice);
    }
  }
}

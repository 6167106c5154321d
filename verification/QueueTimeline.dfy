/** The order in which events are claimed and finished, over whole runs with crashes and restarts. */
module QueueTimeline {
  import opened Wrappers
  import opened StoreTables
  import opened Controller
  import opened QueueSafety

  type Log = seq<QueueEvent>

  /** Events finish in strictly increasing sequence order. */
  ghost predicate FinishedInOrder(log: Log) {
    forall i, j :: 0 <= i < j < |log| && log[i].Finished? && log[j].Finished? ==> log[i].sequence < log[j].sequence
  }

  ghost predicate FinishedAfter(log: Log, i: nat, sequence: nat) {
    exists k :: i < k < |log| && log[k] == Finished(sequence)
  }

  /** No claim goes back, and a claim moves on only after the event claimed before it was finished in between:
      an event a crash interrupted is claimed again before any later one. */
  ghost predicate ClaimedInOrder(log: Log) {
    forall i, j :: 0 <= i < j < |log| && log[i].Claimed? && log[j].Claimed? ==>
      && log[i].sequence <= log[j].sequence
      && (log[i].sequence < log[j].sequence ==> FinishedAfter(log[..j], i, log[i].sequence))
  }

  ghost predicate HeadIs(queue: seq<QueueRow>, sequence: nat) {
    exists h :: IsHead(queue, h) && queue[h].sequence == sequence
  }

  ghost predicate BelowLive(queue: seq<QueueRow>, next: nat, sequence: nat) {
    sequence < next && forall i :: 0 <= i < |queue| && Live(queue[i].status) ==> sequence < queue[i].sequence
  }

  ghost predicate AllFinishedBelow(log: Log, queue: seq<QueueRow>, next: nat) {
    forall i :: 0 <= i < |log| && log[i].Finished? ==> BelowLive(queue, next, log[i].sequence)
  }

  /** A claimed event is finished, or is what the next claim will take. */
  ghost predicate AllClaimedSettled(log: Log, queue: seq<QueueRow>) {
    forall i :: 0 <= i < |log| && log[i].Claimed? ==>
         FinishedAfter(log, i, log[i].sequence) || HeadIs(queue, log[i].sequence)
  }

  ghost predicate TimelineInv(s: State) {
    && FinishedInOrder(s.history.queue) && ClaimedInOrder(s.history.queue)
    && AllFinishedBelow(s.history.queue, s.tables.queue, s.tables.nextSequence)
    && AllClaimedSettled(s.history.queue, s.tables.queue)
  }

  lemma EnqueueKeepsHead(t: Tables, event: Event, sequence: nat)
    requires QueueKeys(t.queue, t.nextSequence) && HeadIs(t.queue, sequence)
    ensures HeadIs(StoreTables.Enqueue(t, event).0.queue, sequence)
  {
    if !StoreTables.Enqueue(t, event).1.duplicate {
      WithoutKeepsHead(t.queue, event.id, sequence);
      AppendKeepsHead(Without(t.queue, event.id), QueueRow(t.nextSequence, event, Queued), sequence);
    }
  }

  lemma AppendKeepsHead(queue: seq<QueueRow>, row: QueueRow, sequence: nat)
    requires HeadIs(queue, sequence)
    ensures HeadIs(queue + [row], sequence)
  {
    var h :| IsHead(queue, h) && queue[h].sequence == sequence;
    assert IsHead(queue + [row], h);
  }

  lemma WithoutKeepsHead(queue: seq<QueueRow>, id: EventId, sequence: nat)
    requires UniqueEvents(queue) && HeadIs(queue, sequence)
    requires Find(queue, id) < |queue| ==> queue[Find(queue, id)].status == Failed
    ensures HeadIs(Without(queue, id), sequence)
  {
    WithoutRow(queue, id);
    var h :| IsHead(queue, h) && queue[h].sequence == sequence;
    if Find(queue, id) < |queue| {
      HeadAfter(queue, Without(queue, id), Find(queue, id), h);
    }
  }

  lemma HeadAfter(queue: seq<QueueRow>, rest: seq<QueueRow>, k: nat, h: int)
    requires k < |queue| && |rest| == |queue| - 1 && IsHead(queue, h) && !Live(queue[k].status)
    requires forall i :: 0 <= i < |rest| ==> rest[i] == queue[if i < k then i else i + 1]
    ensures HeadIs(rest, queue[h].sequence)
  {
    var at := if h < k then h else h - 1;
    assert IsHead(rest, at) && rest[at] == queue[h];
  }

  lemma EnqueueKeepsTimeline(s: State, p: Process, client: nat, event: Event)
    requires OrderInv(s) && TimelineInv(s) && s.process == Some(p) && RunningStep(s, p, Enqueue(client, event)).Some?
    ensures TimelineInv(RunningStep(s, p, Enqueue(client, event)).value)
  {
    forall i | 0 <= i < |s.history.queue| ensures
      var after := StoreTables.Enqueue(s.tables, event).0; var n := s.history.queue[i].sequence;
      && (HeadIs(s.tables.queue, n) ==> HeadIs(after.queue, n))
      && (BelowLive(s.tables.queue, s.tables.nextSequence, n) ==> BelowLive(after.queue, after.nextSequence, n))
    {
      var n := s.history.queue[i].sequence;
      if HeadIs(s.tables.queue, n) { EnqueueKeepsHead(s.tables, event, n); }
    }
  }

  /** Moving a row between queued and processing changes neither the head nor what lies below the live rows. */
  lemma SameLiveness(before: seq<QueueRow>, after: seq<QueueRow>, next: nat, sequence: nat)
    requires |before| == |after|
    requires forall i :: 0 <= i < |before| ==>
               before[i].sequence == after[i].sequence && (Live(before[i].status) <==> Live(after[i].status))
    ensures HeadIs(before, sequence) ==> HeadIs(after, sequence)
    ensures BelowLive(before, next, sequence) ==> BelowLive(after, next, sequence)
  {
    if HeadIs(before, sequence) {
      var h :| IsHead(before, h) && before[h].sequence == sequence;
      assert IsHead(after, h);
    }
  }

  lemma LogKept(log: Log, before: seq<QueueRow>, next: nat, after: seq<QueueRow>)
    requires AllFinishedBelow(log, before, next) && AllClaimedSettled(log, before) && |after| == |before|
    requires forall i :: 0 <= i < |after| ==>
               before[i].sequence == after[i].sequence && (Live(before[i].status) <==> Live(after[i].status))
    ensures AllFinishedBelow(log, after, next) && AllClaimedSettled(log, after)
  {
    forall i | 0 <= i < |log| ensures
      var n := log[i].sequence;
      && (HeadIs(before, n) ==> HeadIs(after, n)) && (BelowLive(before, next, n) ==> BelowLive(after, next, n))
    {
      SameLiveness(before, after, next, log[i].sequence);
    }
  }

  lemma FinishedAfterGrows(log: Log, e: QueueEvent)
    ensures forall i: nat, n: nat :: FinishedAfter(log, i, n) ==> FinishedAfter(log + [e], i, n)
  {
    forall i: nat, n: nat | FinishedAfter(log, i, n) ensures FinishedAfter(log + [e], i, n) {
      var k :| i < k < |log| && log[k] == Finished(n);
      assert (log + [e])[k] == Finished(n);
    }
  }

  lemma HeadIsUnique(queue: seq<QueueRow>, h: int, sequence: nat)
    requires IsHead(queue, h) && HeadIs(queue, sequence)
    ensures queue[h].sequence == sequence
  {
    var k :| IsHead(queue, k) && queue[k].sequence == sequence;
  }

  lemma ClaimSettles(log: Log, queue: seq<QueueRow>, h: int)
    requires AllClaimedSettled(log, queue) && IsHead(queue, h)
    ensures AllClaimedSettled(log + [Claimed(queue[h].sequence)], queue)
  {
    var n := queue[h].sequence;
    FinishedAfterGrows(log, Claimed(n));
    assert HeadIs(queue, n);
  }

  lemma AppendClaim(log: Log, queue: seq<QueueRow>, next: nat, h: int)
    requires ClaimedInOrder(log) && AllFinishedBelow(log, queue, next) && AllClaimedSettled(log, queue)
              && IsHead(queue, h)
    ensures ClaimedInOrder(log + [Claimed(queue[h].sequence)])
  {
    var n := queue[h].sequence;
    var longer := log + [Claimed(n)];
    forall i, j | 0 <= i < j < |longer| && longer[i].Claimed? && longer[j].Claimed?
      ensures longer[i].sequence <= longer[j].sequence
      ensures longer[i].sequence < longer[j].sequence ==> FinishedAfter(longer[..j], i, longer[i].sequence)
    {
      assert longer[..j] == log[..j];
      if j == |log| {
        assert log[..j] == log;
        if FinishedAfter(log, i, log[i].sequence) {
          var k :| i < k < |log| && log[k] == Finished(log[i].sequence);
          assert BelowLive(queue, next, log[k].sequence);
        } else {
          HeadIsUnique(queue, h, log[i].sequence);
        }
      }
    }
  }

  lemma ClaimLogged(log: Log, queue: seq<QueueRow>, next: nat, h: int)
    requires FinishedInOrder(log) && ClaimedInOrder(log) && AllFinishedBelow(log, queue, next)
    requires AllClaimedSettled(log, queue) && IsHead(queue, h)
    ensures var longer := log + [Claimed(queue[h].sequence)];
            && FinishedInOrder(longer) && ClaimedInOrder(longer) && AllFinishedBelow(longer, queue, next)
            && AllClaimedSettled(longer, queue)
  {
    AppendClaim(log, queue, next, h);
    ClaimSettles(log, queue, h);
  }

  lemma TakenIsLogged(t: Tables, log: Log)
    requires QueueKeys(t.queue, t.nextSequence) && Ordered(t.queue) && Claim(t).1.Some?
    requires forall r :: r in t.queue ==> r.status != Processing
    requires FinishedInOrder(log) && ClaimedInOrder(log) && AllFinishedBelow(log, t.queue, t.nextSequence)
    requires AllClaimedSettled(log, t.queue)
    ensures var longer := log + [Claimed(SequenceOf(t, Claim(t).1.value.id))];
            && FinishedInOrder(longer) && ClaimedInOrder(longer)
            && AllFinishedBelow(longer, Claim(t).0.queue, t.nextSequence)
            && AllClaimedSettled(longer, Claim(t).0.queue)
  {
    ClaimTakesHead(t);
    var h := FirstQueued(t.queue);
    ClaimLogged(log, t.queue, t.nextSequence, h);
    LogKept(log + [Claimed(t.queue[h].sequence)], t.queue, t.nextSequence, Claim(t).0.queue);
  }

  lemma ClaimKeepsTimeline(s: State, p: Process)
    requires QueueInv(s) && TimelineInv(s) && s.process == Some(p) && p.worker == Claiming
    ensures TimelineInv(WorkerStepFrom(s, p).value)
  {
    if Claim(s.tables).1.Some? {
      TakenIsLogged(s.tables, s.history.queue);
    }
  }

  lemma AppendFinishSettles(log: Log, before: seq<QueueRow>, h: int, after: seq<QueueRow>)
    requires IsHead(before, h) && AllClaimedSettled(log, before)
    ensures AllClaimedSettled(log + [Finished(before[h].sequence)], after)
  {
    var n := before[h].sequence;
    var longer := log + [Finished(n)];
    FinishedAfterGrows(log, Finished(n));
    forall i | 0 <= i < |longer| && longer[i].Claimed? ensures FinishedAfter(longer, i, longer[i].sequence) {
      if !FinishedAfter(log, i, log[i].sequence) {
        HeadIsUnique(before, h, log[i].sequence);
        assert longer[|log|] == Finished(n);
      }
    }
  }

  lemma AppendFinishBelow(log: Log, before: seq<QueueRow>, next: nat, h: int, status: RowStatus)
    requires QueueKeys(before, next) && IsHead(before, h) && !Live(status)
    requires FinishedInOrder(log) && AllFinishedBelow(log, before, next)
    ensures FinishedInOrder(log + [Finished(before[h].sequence)])
    ensures AllFinishedBelow(log + [Finished(before[h].sequence)], before[h := before[h].(status := status)], next)
  {
    var n := before[h].sequence;
    var longer := log + [Finished(n)];
    var after := before[h := before[h].(status := status)];
    forall i | 0 <= i < |longer| && longer[i].Finished?
      ensures BelowLive(after, next, longer[i].sequence) && (i < |log| ==> longer[i].sequence < n)
    {
      if i < |log| { assert BelowLive(before, next, log[i].sequence); }
    }
  }

  lemma AppendFinishOrder(log: Log, n: nat)
    requires ClaimedInOrder(log)
    ensures ClaimedInOrder(log + [Finished(n)])
  {
    assert forall j :: 0 <= j <= |log| ==> (log + [Finished(n)])[..j] == log[..j];
  }

  lemma FinishKeepsTimeline(s: State, p: Process)
    requires QueueInv(s) && TimelineInv(s) && s.process == Some(p) && p.worker.Finishing?
    ensures TimelineInv(WorkerStepFrom(s, p).value)
  {
    var status := if p.worker.failed then Failed else Completed;
    ProcessingIsHead(s.tables, p.worker.event, status);
    var h := Find(s.tables.queue, p.worker.event.id);
    AppendFinishBelow(s.history.queue, s.tables.queue, s.tables.nextSequence, h, status);
    AppendFinishSettles(s.history.queue, s.tables.queue, h, WithStatus(s.tables.queue, p.worker.event.id, status));
    AppendFinishOrder(s.history.queue, s.tables.queue[h].sequence);
  }

  lemma StepKeepsTimeline(s: State, a: Action)
    requires QueueInv(s) && TimelineInv(s) && Step(s, a).Some?
    ensures TimelineInv(Step(s, a).value)
  {
    if s.process.Some? {
      var p := s.process.value;
      if a.Enqueue? {
        EnqueueKeepsTimeline(s, p, a.client, a.event);
      } else if a.ManagerStep? && p.manager == Recovering {
        LogKept(s.history.queue, s.tables.queue, s.tables.nextSequence, Requeued(s.tables.queue));
      } else if a.WorkerStep? && p.worker == Claiming {
        ClaimKeepsTimeline(s, p);
      } else if a.WorkerStep? && p.worker.Finishing? {
        FinishKeepsTimeline(s, p);
      } else {
        QueueUntouched(s, a);
      }
    }
  }

  lemma QueueUntouched(s: State, a: Action)
    requires Step(s, a).Some? && !a.Enqueue?
    requires a.ManagerStep? && s.process.Some? ==> s.process.value.manager != Recovering
    requires a.WorkerStep? && s.process.Some? ==>
              s.process.value.worker != Claiming && !s.process.value.worker.Finishing?
    ensures var next := Step(s, a).value;
            && next.tables.queue == s.tables.queue && next.tables.nextSequence == s.tables.nextSequence
            && next.history.queue == s.history.queue
  {
  }

  // ----- over whole runs

  lemma {:induction false} RunKeepsQueue(s: State, actions: seq<Action>)
    requires QueueInv(s) && TimelineInv(s) && Run(s, actions).Some?
    ensures QueueInv(Run(s, actions).value) && TimelineInv(Run(s, actions).value)
    decreases |actions|
  {
    if actions != [] {
      StepKeepsQueueInv(s, actions[0]);
      StepKeepsTimeline(s, actions[0]);
      RunKeepsQueue(Step(s, actions[0]).value, actions[1..]);
    }
  }

  /** In every run, from an empty store, through any crashes and restarts: the queue keeps its shape, events finish
      in sequence order, and no claim overtakes an unfinished one. */
  lemma QueueIsSequential(wild: set<PolicyId>, actions: seq<Action>)
    requires Run(Initial(wild), actions).Some?
    ensures var s := Run(Initial(wild), actions).value;
            && Shaped(s.tables.queue) && UniqueEvents(s.tables.queue)
            && FinishedInOrder(s.history.queue) && ClaimedInOrder(s.history.queue)
  {
    RunKeepsQueue(Initial(wild), actions);
    OrderedIffShaped(Run(Initial(wild), actions).value.tables.queue);
  }

  /** No accepted event is lost and none completes twice: every accepted id has one row; a row that has not failed
      holds its reservation; no id is completed a second time, on either path; a completed row has its decision. */
  lemma NoLossNoSecondCompletion(wild: set<PolicyId>, actions: seq<Action>)
    requires Run(Initial(wild), actions).Some?
    ensures var s := Run(Initial(wild), actions).value;
            && (forall id :: id in s.history.accepted ==>
                  Find(s.tables.queue, id) < |s.tables.queue|
                  && forall i :: 0 <= i < |s.tables.queue| && s.tables.queue[i].event.id == id ==>
                          i == Find(s.tables.queue, id))
            && (forall r :: r in s.tables.queue && r.status != Failed ==> r.event.id in s.tables.received)
            && Distinct(s.history.completed)
            && (forall r :: r in s.tables.queue && r.status == Completed ==> Decided(s.tables.decisions, r.event.id))
  {
    RunKeepsQueue(Initial(wild), actions);
    var s := Run(Initial(wild), actions).value;
    forall id | id in s.history.accepted
      ensures Find(s.tables.queue, id) < |s.tables.queue|
      ensures forall i :: 0 <= i < |s.tables.queue| && s.tables.queue[i].event.id == id ==>
                   i == Find(s.tables.queue, id)
    {
      assert HasRow(s.tables.queue, id);
    }
  }
}

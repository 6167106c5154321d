/** The store of autonomy/store.py: each method is one transaction, updating the tables in place. */
module Store {
  import opened Wrappers
  import opened StoreTables

  datatype ProposalReply = Done(proposal: Proposal) | NotPending(status: ProposalStatus) | Unknown

  class ProposalStore {
    var queue: seq<QueueRow>
    var nextSequence: nat
    var received: set<EventId>
    var decisions: map<EventId, Decision>
    var proposals: seq<Proposal>
    var active: map<PolicyId, bool>

    function Contents(): Tables
      reads this
    {
      Tables(queue, nextSequence, received, decisions, proposals, active)
    }

    /** The UNIQUE and PRIMARY KEY constraints of the schema. */
    ghost predicate Valid()
      reads this
    {
      KeysHold(Contents())
    }

    constructor ()
      ensures Valid() && Contents() == EMPTY
    {
      queue, nextSequence, received, decisions, proposals, active := [], 0, {}, map[], [], map[];
    }

    method RowOf(id: EventId) returns (i: nat)
      ensures i == Find(queue, id)
    {
      i := 0;
      while i < |queue| && queue[i].event.id != id
        invariant i <= |queue|
        invariant Find(queue, id) == i + Find(queue[i..], id)
      {
        i := i + 1;
      }
    }

    method DeleteRow(id: EventId)
      modifies `queue
      ensures queue == Without(old(queue), id)
    {
      var i := RowOf(id);
      if i < |queue| {
        queue := queue[..i] + queue[i + 1..];
      }
    }

    method EnqueueEvent(event: Event) returns (reply: EnqueueReply)
      requires Valid()
      modifies this
      ensures Valid()
      ensures (Contents(), reply) == Enqueue(old(Contents()), event)
    {
      EnqueueKeepsKeys(Contents(), event);
      var i := RowOf(event.id);
      if event.id in received || (i < |queue| && queue[i].status != Failed) {
        return EnqueueReply(event.id, true, if i < |queue| then queue[i].status else Completed);
      }
      DeleteRow(event.id);
      queue := queue + [QueueRow(nextSequence, event, Queued)];
      nextSequence := nextSequence + 1;
      received := received + {event.id};
      decisions := decisions[event.id := Decision(event, ToDo)];
      reply := EnqueueReply(event.id, false, Queued);
    }

    method RecoverEvents()
      requires Valid()
      modifies this
      ensures Valid()
      ensures Contents() == Recover(old(Contents()))
    {
      ResetDecisions();
      RequeueRows();
    }

    method ResetDecisions()
      requires UniqueEvents(queue)
      modifies `decisions
      ensures decisions == Recover(old(Contents())).decisions
    {
      ghost var had := decisions;
      RecoveredNone(queue, had);
      var i := 0;
      while i < |queue|
        invariant 0 <= i <= |queue|
        invariant decisions == RecoveredBelow(queue, had, i)
      {
        RecoveredNext(queue, had, i);
        if queue[i].status == Processing {
          decisions := Redecided(decisions, queue[i].event, ToDo);
        }
        i := i + 1;
      }
      RecoveredAll(old(Contents()));
    }

    method RequeueRows()
      modifies `queue
      ensures queue == Requeued(old(queue))
    {
      var i := 0;
      while i < |queue|
        invariant 0 <= i <= |queue| == |old(queue)|
        invariant forall j :: 0 <= j < |queue| ==> queue[j] == if j < i then Requeued(old(queue))[j] else old(queue)[j]
      {
        if queue[i].status == Processing {
          queue := queue[i := queue[i].(status := Queued)];
        }
        i := i + 1;
      }
      assert queue == Requeued(old(queue));
    }

    /** The decisions once the first `n` rows have been looked at. */
    static ghost function RecoveredBelow(queue: seq<QueueRow>, decisions: map<EventId, Decision>, n: nat)
      : map<EventId, Decision>
      requires n <= |queue|
    {
      map id | id in decisions :: RecoveredAt(queue, decisions, n, id)
    }

    static ghost function RecoveredAt(queue: seq<QueueRow>, decisions: map<EventId, Decision>, n: nat, id: EventId)
      : Decision
      requires n <= |queue| && id in decisions
    {
      var i := Find(queue, id);
      if i < n && queue[i].status == Processing then Decision(queue[i].event, ToDo) else decisions[id]
    }

    static lemma RecoveredNone(queue: seq<QueueRow>, decisions: map<EventId, Decision>)
      ensures RecoveredBelow(queue, decisions, 0) == decisions
    {
    }

    static lemma RecoveredAll(t: Tables)
      ensures RecoveredBelow(t.queue, t.decisions, |t.queue|) == Recover(t).decisions
    {
    }

    static lemma RecoveredNext(queue: seq<QueueRow>, decisions: map<EventId, Decision>, n: nat)
      requires UniqueEvents(queue) && n < |queue|
      ensures RecoveredBelow(queue, decisions, n + 1) ==
              if queue[n].status == Processing then Redecided(RecoveredBelow(queue, decisions, n), queue[n].event, ToDo)
              else RecoveredBelow(queue, decisions, n)
    {
      forall id | id in decisions ensures RecoveredAt(queue, decisions, n + 1, id)
        == if id == queue[n].event.id && queue[n].status == Processing then Decision(queue[n].event, ToDo)
           else RecoveredAt(queue, decisions, n, id)
      {
        FoundOnlyAt(queue, n, id);
      }
    }

    static lemma FoundOnlyAt(queue: seq<QueueRow>, n: nat, id: EventId)
      requires UniqueEvents(queue) && n < |queue|
      ensures Find(queue, id) == n <==> id == queue[n].event.id
    {
    }

    method ClaimEvent() returns (event: Option<Event>)
      requires Valid()
      modifies this
      ensures Valid()
      ensures (Contents(), event) == Claim(old(Contents()))
    {
      var i := 0;
      while i < |queue| && queue[i].status != Queued
        invariant i <= |queue|
        invariant FirstQueued(queue) == i + FirstQueued(queue[i..])
      {
        i := i + 1;
      }
      if i == |queue| {
        return None;
      }
      var row := queue[i];
      ghost var was := queue;
      queue := queue[i := row.(status := Processing)];
      assert queue == WithStatus(was, row.event.id, Processing);
      decisions := Redecided(decisions, row.event, Evaluating);
      event := Some(row.event);
    }

    method FinishEvent(event: Event, failed: bool)
      requires Valid()
      modifies this
      ensures Valid()
      ensures Contents() == Finish(old(Contents()), event, failed)
    {
      ghost var was := queue;
      var status := if failed then Failed else Completed;
      var i := RowOf(event.id);
      if i < |queue| {
        queue := queue[i := queue[i].(status := status)];
      }
      assert queue == WithStatus(was, event.id, status);
      if failed {
        received := received - {event.id};
        decisions := Redecided(decisions, event, Errored);
      }
    }

    method RecordEvent(id: EventId) returns (recorded: bool)
      requires Valid()
      modifies this
      ensures Valid()
      ensures (Contents(), recorded) == StoreTables.RecordEvent(old(Contents()), id)
    {
      recorded := id !in received;
      received := received + {id};
      assert !recorded ==> received == old(received);
    }

    method ForgetEvent(id: EventId)
      requires Valid()
      modifies this
      ensures Valid()
      ensures Contents() == StoreTables.ForgetEvent(old(Contents()), id)
    {
      received := received - {id};
    }

    method SaveDecision(event: Event, status: DecisionStatus)
      requires Valid()
      modifies this
      ensures Valid()
      ensures Contents() == StoreTables.SaveDecision(old(Contents()), event, status)
    {
      decisions := decisions[event.id := Decision(event, status)];
    }

    method SetPolicyActive(policy: PolicyId, value: bool)
      requires Valid()
      modifies this
      ensures Valid()
      ensures Contents() == SetActive(old(Contents()), policy, value)
    {
      active := active[policy := value];
    }

    method SupersedePending(policy: PolicyId)
      requires Valid()
      modifies this
      ensures Valid()
      ensures Contents() == old(Contents()).(proposals := StoreTables.SupersedePending(old(proposals), policy))
    {
      var i := 0;
      while i < |proposals|
        modifies `proposals
        invariant 0 <= i <= |proposals| == |old(proposals)|
        invariant proposals[..i] == StoreTables.SupersedePending(old(proposals), policy)[..i]
        invariant proposals[i..] == old(proposals)[i..]
      {
        if PendingOf(proposals[i], policy) {
          proposals := proposals[i := proposals[i].(status := Superseded)];
        }
        i := i + 1;
      }
      assert proposals == proposals[..i];
    }

    method SupersedeUnregistered(policies: set<PolicyId>)
      requires Valid()
      modifies this
      ensures Valid()
      ensures Contents() == old(Contents()).(proposals := StoreTables.SupersedeUnregistered(old(proposals), policies))
    {
      var i := 0;
      while i < |proposals|
        modifies `proposals
        invariant 0 <= i <= |proposals| == |old(proposals)|
        invariant proposals[..i] == StoreTables.SupersedeUnregistered(old(proposals), policies)[..i]
        invariant proposals[i..] == old(proposals)[i..]
      {
        if proposals[i].status == Pending && proposals[i].draft.policy !in policies {
          proposals := proposals[i := proposals[i].(status := Superseded)];
        }
        i := i + 1;
      }
      assert proposals == proposals[..i];
    }

    /** `id` is the fresh uuid of the row. */
    method Create(draft: Draft, replacePending: bool, id: ProposalId) returns (made: Proposal)
      requires Valid()
      requires forall p :: p in proposals ==> p.id != id
      modifies this
      ensures Valid()
      ensures (Contents().proposals, made) == StoreTables.Create(old(proposals), draft, replacePending, id)
      ensures Contents() == old(Contents()).(proposals := proposals)
    {
      var i := 0;
      while i < |proposals|
        invariant i <= |proposals|
        invariant FindSame(proposals, draft) == i + FindSame(proposals[i..], draft)
      {
        if SamePending(proposals[i], draft) {
          return proposals[i];
        }
        i := i + 1;
      }
      if replacePending {
        SupersedePending(draft.policy);
      }
      made := Proposal(id, draft, Pending);
      proposals := proposals + [made];
    }

    method PositionOf(id: ProposalId) returns (i: nat)
      ensures i == FindProposal(proposals, id)
    {
      i := 0;
      while i < |proposals| && proposals[i].id != id
        invariant i <= |proposals|
        invariant FindProposal(proposals, id) == i + FindProposal(proposals[i..], id)
      {
        i := i + 1;
      }
    }

    /** Shared by claim and reject: the row moves only while it is pending. */
    method Move(id: ProposalId, status: ProposalStatus) returns (reply: ProposalReply)
      requires Valid()
      modifies this
      ensures Valid()
      ensures Contents() == old(Contents()).(proposals := MovePending(old(proposals), id, status).0)
      ensures reply.Done? <==> MovePending(old(proposals), id, status).1
      ensures reply.Done? ==> reply.proposal in proposals && reply.proposal.id == id && reply.proposal.status == status
      ensures reply.Unknown? <==> forall p :: p in old(proposals) ==> p.id != id
    {
      var i := PositionOf(id);
      if i == |proposals| {
        return Unknown;
      }
      if proposals[i].status != Pending {
        return NotPending(proposals[i].status);
      }
      proposals := proposals[i := proposals[i].(status := status)];
      assert proposals[i] in proposals;
      reply := Done(proposals[i]);
    }

    method Complete(id: ProposalId, succeeded: bool) returns (known: bool)
      requires Valid()
      modifies this
      ensures Valid()
      ensures Contents() == old(Contents()).(proposals := CompleteProposal(old(proposals), id, succeeded))
      ensures known <==> exists p :: p in old(proposals) && p.id == id
    {
      var i := PositionOf(id);
      known := i < |proposals|;
      if known {
        assert proposals[i] in old(proposals);
        proposals := proposals[i := proposals[i].(status := if succeeded then Executed else ActionFailed)];
      }
    }
  }
}

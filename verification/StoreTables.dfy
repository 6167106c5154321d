/** The tables of autonomy/store.py as one value, and what each of its SQLite transactions does to them.
    Rows of a table are kept in primary-key (or insertion) order. */
module StoreTables {
  import opened Wrappers
  import opened JsonValues

  type EventId = string
  type PolicyId = string
  type ProposalId = string
  type Arguments = map<string, Json>

  datatype Event = Event(id: EventId, kind: string, body: Json)

  datatype RowStatus = Queued | Processing | Completed | Failed
  datatype QueueRow = QueueRow(sequence: nat, event: Event, status: RowStatus)

  datatype DecisionStatus = ToDo | Evaluating | Errored | ProposalMade | NoAction
  datatype Decision = Decision(event: Event, status: DecisionStatus)

  datatype ToolCall = ToolCall(tool: string, arguments: Json)

  /** The parts of a proposal's evidence that approval reads back. */
  datatype Evidence = Evidence(evaluatedAt: int, skills: seq<string>, calls: seq<ToolCall>)
  datatype Draft = Draft(policy: PolicyId, tool: string, arguments: Arguments, evidence: Evidence)

  datatype ProposalStatus = Pending | Executing | Executed | ActionFailed | Rejected | Superseded
  datatype Proposal = Proposal(id: ProposalId, draft: Draft, status: ProposalStatus)

  datatype Tables = Tables(
    queue: seq<QueueRow>,
    nextSequence: nat,
    received: set<EventId>,
    decisions: map<EventId, Decision>,
    proposals: seq<Proposal>,
    active: map<PolicyId, bool>)

  const EMPTY := Tables([], 0, {}, map[], [], map[])

  // ----- event_queue, received_events, event_decisions

  predicate Live(status: RowStatus) {
    status == Queued || status == Processing
  }

  /** Position of the row with this event id, or |queue|; the column is UNIQUE. */
  function Find(queue: seq<QueueRow>, id: EventId): (i: nat)
    ensures i <= |queue|
    ensures forall j :: 0 <= j < i ==> queue[j].event.id != id
    ensures i < |queue| ==> queue[i].event.id == id
  {
    if queue == [] then 0
    else if queue[0].event.id == id then 0
    else 1 + Find(queue[1..], id)
  }

  /** Position of the first row still waiting, or |queue|. */
  function FirstQueued(queue: seq<QueueRow>): (i: nat)
    ensures i <= |queue|
    ensures forall j :: 0 <= j < i ==> queue[j].status != Queued
    ensures i < |queue| ==> queue[i].status == Queued
  {
    if queue == [] then 0
    else if queue[0].status == Queued then 0
    else 1 + FirstQueued(queue[1..])
  }

  function Without(queue: seq<QueueRow>, id: EventId): seq<QueueRow> {
    var i := Find(queue, id);
    if i == |queue| then queue else queue[..i] + queue[i + 1..]
  }

  function WithStatus(queue: seq<QueueRow>, id: EventId, status: RowStatus): seq<QueueRow> {
    seq(|queue|, i requires 0 <= i < |queue| =>
      if queue[i].event.id == id then queue[i].(status := status) else queue[i])
  }

  function Requeued(queue: seq<QueueRow>): seq<QueueRow> {
    seq(|queue|, i requires 0 <= i < |queue| =>
      if queue[i].status == Processing then queue[i].(status := Queued) else queue[i])
  }

  datatype EnqueueReply = EnqueueReply(id: EventId, duplicate: bool, status: RowStatus)

  /** A new id, or one whose row failed, is queued behind everything else; any other id is a duplicate. */
  function Enqueue(t: Tables, event: Event): (Tables, EnqueueReply) {
    var i := Find(t.queue, event.id);
    if event.id in t.received || (i < |t.queue| && t.queue[i].status != Failed) then
      (t, EnqueueReply(event.id, true, if i < |t.queue| then t.queue[i].status else Completed))
    else
      (t.(queue := Without(t.queue, event.id) + [QueueRow(t.nextSequence, event, Queued)],
          nextSequence := t.nextSequence + 1,
          received := t.received + {event.id},
          decisions := t.decisions[event.id := Decision(event, ToDo)]),
       EnqueueReply(event.id, false, Queued))
  }

  /** Rows a crash left in processing wait again, in their old place. */
  function Recover(t: Tables): Tables {
    t.(queue := Requeued(t.queue),
       decisions := map id | id in t.decisions ::
         var i := Find(t.queue, id);
         if i < |t.queue| && t.queue[i].status == Processing then Decision(t.queue[i].event, ToDo)
         else t.decisions[id])
  }

  function Claim(t: Tables): (Tables, Option<Event>) {
    var i := FirstQueued(t.queue);
    if i == |t.queue| then (t, None)
    else
      var event := t.queue[i].event;
      (t.(queue := WithStatus(t.queue, event.id, Processing),
          decisions := Redecided(t.decisions, event, Evaluating)),
       Some(event))
  }

  /** UPDATE event_decisions: changes an existing row only. */
  function Redecided(decisions: map<EventId, Decision>, event: Event, status: DecisionStatus): map<EventId, Decision> {
    if event.id in decisions then decisions[event.id := Decision(event, status)] else decisions
  }

  function Finish(t: Tables, event: Event, failed: bool): Tables {
    if failed then
      t.(queue := WithStatus(t.queue, event.id, Failed),
         received := t.received - {event.id},
         decisions := Redecided(t.decisions, event, Errored))
    else
      t.(queue := WithStatus(t.queue, event.id, Completed))
  }

  /** The synchronous path reserves an id; false when it is already taken. */
  function RecordEvent(t: Tables, id: EventId): (Tables, bool) {
    if id in t.received then (t, false) else (t.(received := t.received + {id}), true)
  }

  function ForgetEvent(t: Tables, id: EventId): Tables {
    t.(received := t.received - {id})
  }

  function SaveDecision(t: Tables, event: Event, status: DecisionStatus): Tables {
    t.(decisions := t.decisions[event.id := Decision(event, status)])
  }

  // ----- proposals, policy_state

  function FindProposal(proposals: seq<Proposal>, id: ProposalId): (i: nat)
    ensures i <= |proposals|
    ensures forall j :: 0 <= j < i ==> proposals[j].id != id
    ensures i < |proposals| ==> proposals[i].id == id
  {
    if proposals == [] then 0
    else if proposals[0].id == id then 0
    else 1 + FindProposal(proposals[1..], id)
  }

  predicate PendingOf(p: Proposal, policy: PolicyId) {
    p.status == Pending && p.draft.policy == policy
  }

  predicate SamePending(p: Proposal, draft: Draft) {
    PendingOf(p, draft.policy) && p.draft.tool == draft.tool && p.draft.arguments == draft.arguments
  }

  /** Position of the first pending proposal that already asks for the same change, or |proposals|. */
  function FindSame(proposals: seq<Proposal>, draft: Draft): (i: nat)
    ensures i <= |proposals|
    ensures forall j :: 0 <= j < i ==> !SamePending(proposals[j], draft)
    ensures i < |proposals| ==> SamePending(proposals[i], draft)
  {
    if proposals == [] then 0
    else if SamePending(proposals[0], draft) then 0
    else 1 + FindSame(proposals[1..], draft)
  }

  function SupersedePending(proposals: seq<Proposal>, policy: PolicyId): seq<Proposal> {
    seq(|proposals|, i requires 0 <= i < |proposals| =>
      if PendingOf(proposals[i], policy) then proposals[i].(status := Superseded) else proposals[i])
  }

  function SupersedeUnregistered(proposals: seq<Proposal>, policies: set<PolicyId>): seq<Proposal> {
    seq(|proposals|, i requires 0 <= i < |proposals| =>
      if proposals[i].status == Pending && proposals[i].draft.policy !in policies
      then proposals[i].(status := Superseded) else proposals[i])
  }

  function Create(proposals: seq<Proposal>, draft: Draft, replacePending: bool, id: ProposalId): (seq<Proposal>,
                  Proposal) {
    var i := FindSame(proposals, draft);
    if i < |proposals| then (proposals, proposals[i])
    else
      var made := Proposal(id, draft, Pending);
      ((if replacePending then SupersedePending(proposals, draft.policy) else proposals) + [made], made)
  }

  /** UPDATE ... WHERE id = ? AND status = 'pending': true when it changed a row. */
  function MovePending(proposals: seq<Proposal>, id: ProposalId, status: ProposalStatus): (seq<Proposal>, bool) {
    var i := FindProposal(proposals, id);
    if i < |proposals| && proposals[i].status == Pending
    then (proposals[i := proposals[i].(status := status)], true)
    else (proposals, false)
  }

  function CompleteProposal(proposals: seq<Proposal>, id: ProposalId, succeeded: bool): seq<Proposal> {
    var i := FindProposal(proposals, id);
    if i == |proposals| then proposals
    else proposals[i := proposals[i].(status := if succeeded then Executed else ActionFailed)]
  }

  predicate IsActive(t: Tables, policy: PolicyId) {
    policy in t.active && t.active[policy]
  }

  function SetActive(t: Tables, policy: PolicyId, active: bool): Tables {
    t.(active := t.active[policy := active])
  }

  // ----- the schema's keys

  ghost predicate UniqueEvents(queue: seq<QueueRow>) {
    forall i, j :: 0 <= i < j < |queue| ==> queue[i].event.id != queue[j].event.id
  }

  ghost predicate Increasing(queue: seq<QueueRow>, next: nat) {
    && (forall i, j :: 0 <= i < j < |queue| ==> queue[i].sequence < queue[j].sequence)
    && (forall i :: 0 <= i < |queue| ==> queue[i].sequence < next)
  }

  ghost predicate UniqueProposals(proposals: seq<Proposal>) {
    forall i, j :: 0 <= i < j < |proposals| ==> proposals[i].id != proposals[j].id
  }

  ghost predicate QueueKeys(queue: seq<QueueRow>, next: nat) {
    UniqueEvents(queue) && Increasing(queue, next)
  }

  ghost predicate KeysHold(t: Tables) {
    QueueKeys(t.queue, t.nextSequence) && UniqueProposals(t.proposals)
  }

  /** Deleting one row keeps every other row, in order, and the id is gone. */
  lemma WithoutRow(queue: seq<QueueRow>, id: EventId)
    requires UniqueEvents(queue)
    ensures var rest := Without(queue, id); var k := Find(queue, id);
            && (k == |queue| ==> rest == queue)
            && (k < |queue| ==>
                  && |rest| == |queue| - 1
                  && forall i :: 0 <= i < |rest| ==> rest[i] == queue[if i < k then i else i + 1])
            && (forall i :: 0 <= i < |rest| ==> rest[i].event.id != id)
  {
    var rest := Without(queue, id);
    var k := Find(queue, id);
    if k < |queue| {
      forall i | 0 <= i < |rest| ensures rest[i] == queue[if i < k then i else i + 1] && rest[i].event.id != id {
        assert i < k || queue[k].event.id != queue[i + 1].event.id;
      }
    }
  }

  lemma WithoutKeepsKeys(queue: seq<QueueRow>, next: nat, id: EventId)
    requires QueueKeys(queue, next)
    ensures QueueKeys(Without(queue, id), next)
  {
    WithoutRow(queue, id);
    var rest := Without(queue, id);
    var k := Find(queue, id);
    forall i, j | 0 <= i < j < |rest|
      ensures rest[i].event.id != rest[j].event.id && rest[i].sequence < rest[j].sequence
    {
      if k < |queue| {
        assert rest[i] == queue[if i < k then i else i + 1] && rest[j] == queue[if j < k then j else j + 1];
      }
    }
    forall i | 0 <= i < |rest| ensures rest[i].sequence < next {
      if k < |queue| { assert rest[i] == queue[if i < k then i else i + 1]; }
    }
  }

  lemma EnqueueKeepsKeys(t: Tables, event: Event)
    requires QueueKeys(t.queue, t.nextSequence)
    ensures var after := Enqueue(t, event).0; QueueKeys(after.queue, after.nextSequence)
  {
    WithoutRow(t.queue, event.id);
    WithoutKeepsKeys(t.queue, t.nextSequence, event.id);
    AppendKeepsKeys(Without(t.queue, event.id), t.nextSequence, event);
  }

  lemma AppendKeepsKeys(queue: seq<QueueRow>, next: nat, event: Event)
    requires QueueKeys(queue, next) && forall i :: 0 <= i < |queue| ==> queue[i].event.id != event.id
    ensures QueueKeys(queue + [QueueRow(next, event, Queued)], next + 1)
  {
  }

  /** A reservation given up leaves the tables as they were before it was made, and the id can be reserved again. */
  lemma ForgetUndoesRecord(t: Tables, id: EventId)
    requires RecordEvent(t, id).1
    ensures var forgotten := ForgetEvent(RecordEvent(t, id).0, id); forgotten == t && RecordEvent(forgotten, id).1
  {
    assert t.received + {id} - {id} == t.received;
  }
}

/** autonomy/controller.py as a transition system over the tables, one worker thread, one thread at a time inside
    start() or stop(), and any number of HTTP threads. A step is one SQLite transaction, one operation on a flag or
    lock, or one call to the outside; the process may crash between any two of them and keeps only the tables. */
module Controller {
  import opened Wrappers
  import opened JsonValues
  import opened StoreTables
  import opened Capabilities

  datatype Policy = Policy(id: PolicyId, generic: bool)
  datatype Evaluation = Evaluation(active: bool, draft: Option<Draft>)

  /** Where the thread of _work_events is. */
  datatype WorkerPc =
    | NotRunning
    | CheckingStop                            // outer `while not stop.is_set()`
    | Waiting                                 // wake.wait()
    | Woken                                   // before wake.clear()
    | Draining                                // inner `while not stop.is_set()`
    | Claiming                                // before claim_event()
    | Reserved(event: Event)                  // waiting for the event lock
    | InReceive(event: Event)                 // holds the lock, see Holder
    | Finishing(event: Event, failed: bool)   // before finish_event()

  /** The thread that holds the worker lock. */
  datatype ManagerPc =
    | Idle
    | Recovering | ClearingStop | SettingWake | Spawning   // start()
    | RaisingWake | Joining                                // stop(), after stop.set()

  /** Where _receive_event is. */
  datatype ReceivePc =
    | Validating
    | Recording(policy: Policy)               // synchronous path only
    | Marking(policy: Policy)
    | ReadingActive(policy: Policy)
    | EvaluatingPolicy(policy: Policy, was: bool)
    | ReportingFailure
    | Forgetting                              // synchronous path only
    | Superseding(policy: Policy, result: Evaluation)
    | Activating(policy: Policy, result: Evaluation)
    | Creating(policy: Policy, draft: Draft)
    | Saving(made: bool)

  /** Where _approve and execute_approved are; `took` and `cleared` are positions in the approval history. */
  datatype ApprovePc =
    | TakingProposal(id: ProposalId)
    | LookingUp(took: nat, proposal: Proposal)
    | Checking(took: nat, proposal: Proposal)
    | Reading(took: nat, cleared: nat, proposal: Proposal, next: nat, seen: map<string, Json>)
    | Judging(took: nat, cleared: nat, proposal: Proposal, seen: map<string, Json>)
    | Calling(proposal: Proposal)
    | Closing(proposal: Proposal, succeeded: bool)

  /** Who holds the event lock, and where it is. */
  datatype Holder =
    | Free
    | Receiving(byWorker: bool, event: Event, pc: ReceivePc)
    | Approving(approval: ApprovePc)

  /** `setting` are the HTTP threads between the commit of enqueue_event and their wake.set(). */
  datatype Process = Process(
    policies: map<string, Policy>, catalog: Catalog, wake: bool, stop: bool,
    worker: WorkerPc, manager: ManagerPc, holder: Holder, setting: set<nat>)

  datatype QueueEvent = Claimed(sequence: nat) | Finished(sequence: nat)

  datatype ApprovalEvent =
    | Took(id: ProposalId)
    | Cleared(id: ProposalId, now: int, catalog: Catalog)
    | Observed(id: ProposalId, tool: string, given: Json, value: Json)
    | Accepted(id: ProposalId, seen: map<string, Json>)
    | Called(id: ProposalId, tool: string, arguments: Arguments)

  /** What has happened so far; the program keeps no such record. */
  datatype History = History(
    queue: seq<QueueEvent>, accepted: set<EventId>, completed: seq<EventId>, approvals: seq<ApprovalEvent>)

  /** `wild` are the policies that handle every event type; an id is either always or never one of them. */
  datatype State = State(tables: Tables, process: Option<Process>, history: History, wild: set<PolicyId>)

  datatype ReceiveChoice =
    | Proceed
    | Refuse                                  // the event is invalid
    | Raise                                   // any other exception
    | Progress
    | Evaluated(result: Evaluation, catalog: Catalog)
    | EvaluationFails(catalog: Catalog)
    | WithId(id: ProposalId)                  // the uuid of a new proposal

  datatype ApproveChoice =
    | Continue
    | AtTime(now: int)
    | Answer(value: Json)
    | Fail
    | Outcome(executed: bool)
    | Escape                                  // an exception that _approve does not catch

  datatype Action =
    | Boot(policies: map<string, Policy>, catalog: Catalog)
    | Crash
    | Enqueue(client: nat, event: Event)
    | SetWake(client: nat)
    | Start
    | Stop
    | ManagerStep
    | WorkerStep
    | WorkerDies                              // an exception leaves _work_events
    | BeginReceive(event: Event)              // the synchronous path takes the event lock
    | ReceiveStep(choice: ReceiveChoice)
    | BeginApprove(id: ProposalId)
    | ApproveStep(decision: ApproveChoice)
    | Reject(id: ProposalId)

  function Initial(wild: set<PolicyId>): State {
    State(EMPTY, None, History([], {}, [], []), wild)
  }

  function PolicyFor(policies: map<string, Policy>, event: Event): Option<Policy> {
    if event.kind in policies then Some(policies[event.kind])
    else if "*" in policies then Some(policies["*"])
    else None
  }

  function PolicyIds(policies: map<string, Policy>): set<PolicyId> {
    set kind | kind in policies :: policies[kind].id
  }

  /** The arguments a proposal's evidence records for a read; of several calls the last counts. */
  function RecordedArguments(calls: seq<ToolCall>, tool: string): Option<Json> {
    if calls == [] then None
    else
      var last := calls[|calls| - 1];
      if last.tool == tool then Some(last.arguments) else RecordedArguments(calls[..|calls| - 1], tool)
  }

  function SequenceOf(t: Tables, id: EventId): nat {
    var i := Find(t.queue, id);
    if i < |t.queue| then t.queue[i].sequence else 0
  }

  function WithProcess(s: State, p: Process): Option<State> {
    Some(s.(process := Some(p)))
  }

  function WithTables(s: State, t: Tables, p: Process): Option<State> {
    Some(s.(tables := t, process := Some(p)))
  }

  /** One step, or None where the action cannot happen. */
  function Step(s: State, a: Action): Option<State> {
    match a
    case Boot(policies, catalog) =>
      if s.process.Some? then None
      else if exists kind :: kind in policies && policies[kind].generic != (policies[kind].id in s.wild) then None
      else
        Some(s.(tables := s.tables.(proposals := SupersedeUnregistered(s.tables.proposals, PolicyIds(policies))),
                process := Some(Process(policies, catalog, false, false, NotRunning, Idle, Free, {}))))
    case Crash => Some(s.(process := None))
    case _ => if s.process.None? then None else RunningStep(s, s.process.value, a)
  }

  function RunningStep(s: State, p: Process, a: Action): Option<State> {
    match a
    case Enqueue(client, event) =>
      if client in p.setting || PolicyFor(p.policies, event).None? then None
      else
        var (t, reply) := StoreTables.Enqueue(s.tables, event);
        var next := s.(tables := t, process := Some(p.(setting := p.setting + {client})));
        Some(if reply.duplicate then next
             else next.(history := s.history.(accepted := s.history.accepted + {event.id})))
    case SetWake(client) =>
      if client !in p.setting then None
      else WithProcess(s, p.(wake := true, setting := p.setting - {client}))
    case Start =>
      if p.manager != Idle then None
      else if p.worker != NotRunning then Some(s)
      else WithProcess(s, p.(manager := Recovering))
    case Stop =>
      if p.manager != Idle then None else WithProcess(s, p.(stop := true, manager := RaisingWake))
    case ManagerStep => ManagerStepFrom(s, p)
    case WorkerStep => WorkerStepFrom(s, p)
    case WorkerDies =>
      if p.worker == NotRunning || p.worker.InReceive? then None else WithProcess(s, p.(worker := NotRunning))
    case BeginReceive(event) =>
      if p.holder != Free then None else WithProcess(s, p.(holder := Receiving(false, event, Validating)))
    case ReceiveStep(choice) => if p.holder.Receiving? then ReceiveStepFrom(s, p, choice) else None
    case BeginApprove(id) =>
      if p.holder != Free then None else WithProcess(s, p.(holder := Approving(TakingProposal(id))))
    case ApproveStep(decision) => if p.holder.Approving? then ApproveStepFrom(s, p, decision) else None
    case Reject(id) => Some(s.(tables := s.tables.(proposals := MovePending(s.tables.proposals, id, Rejected).0)))
    case _ => None
  }

  function ManagerStepFrom(s: State, p: Process): Option<State> {
    match p.manager
    case Idle => None
    case Recovering => WithTables(s, Recover(s.tables), p.(manager := ClearingStop))
    case ClearingStop => WithProcess(s, p.(stop := false, manager := SettingWake))
    case SettingWake => WithProcess(s, p.(wake := true, manager := Spawning))
    case Spawning => WithProcess(s, p.(worker := CheckingStop, manager := Idle))
    case RaisingWake => WithProcess(s, p.(wake := true, manager := Joining))
    case Joining => if p.worker != NotRunning then None else WithProcess(s, p.(manager := Idle))
  }

  function WorkerStepFrom(s: State, p: Process): Option<State> {
    match p.worker
    case NotRunning => None
    case CheckingStop => WithProcess(s, p.(worker := if p.stop then NotRunning else Waiting))
    case Waiting => if p.wake then WithProcess(s, p.(worker := Woken)) else None
    case Woken => WithProcess(s, p.(wake := false, worker := Draining))
    case Draining => WithProcess(s, p.(worker := if p.stop then CheckingStop else Claiming))
    case Claiming =>
      var (t, event) := Claim(s.tables);
      if event.None? then WithProcess(s, p.(worker := CheckingStop))
      else
        Some(s.(tables := t, process := Some(p.(worker := Reserved(event.value))),
                history := s.history.(queue := s.history.queue + [Claimed(SequenceOf(s.tables, event.value.id))])))
    case Reserved(event) =>
      if p.holder != Free then None
      else WithProcess(s, p.(worker := InReceive(event), holder := Receiving(true, event, Validating)))
    case InReceive(event) => None
    case Finishing(event, failed) =>
      Some(s.(tables := Finish(s.tables, event, failed), process := Some(p.(worker := Draining)),
              history := s.history.(
                queue := s.history.queue + [Finished(SequenceOf(s.tables, event.id))],
                completed := s.history.completed + if failed then [] else [event.id])))
  }

  /** _receive_event returned or raised: the lock is free and the worker, if it was the one, goes on to finish. */
  function Leave(p: Process, failed: bool): Process
    requires p.holder.Receiving?
  {
    if p.holder.byWorker then p.(worker := Finishing(p.holder.event, failed), holder := Free)
    else p.(holder := Free)
  }

  /** Where _receive_event goes next; None where the choice does not fit. */
  function ReceiveNext(t: Tables, p: Process, choice: ReceiveChoice): Option<Process>
    requires p.holder.Receiving?
  {
    var h := p.holder;
    if choice == Raise then Some(Leave(p, true))
    else
      match h.pc
      case Validating =>
        var policy := PolicyFor(p.policies, h.event);
        if choice == Refuse || policy.None? then Some(Leave(p, true))
        else Some(Go(p, if h.byWorker then Marking(policy.value) else Recording(policy.value)))
      case Recording(policy) =>
        if h.event.id in t.received then Some(p.(holder := Free)) else Some(Go(p, Marking(policy)))
      case Marking(policy) => Some(Go(p, ReadingActive(policy)))
      case ReadingActive(policy) => Some(Go(p, EvaluatingPolicy(policy, IsActive(t, policy.id))))
      case EvaluatingPolicy(policy, was) => (
        match choice
        case Progress => Some(p)
        case EvaluationFails(catalog) => Some(Go(p.(catalog := catalog), ReportingFailure))
        case Evaluated(result, catalog) =>
          if !FromPolicy(policy, result) then None
          else Some(Go(p.(catalog := catalog),
                       if !policy.generic && result.active != was then Superseding(policy, result)
                       else Activating(policy, result)))
        case _ => None)
      case ReportingFailure => Some(if h.byWorker then Leave(p, true) else Go(p, Forgetting))
      case Forgetting => Some(Leave(p, true))
      case Superseding(policy, result) => Some(Go(p, Activating(policy, result)))
      case Activating(policy, result) =>
        Some(Go(p, if result.draft.Some? then Creating(policy, result.draft.value) else Saving(false)))
      case Creating(policy, draft) =>
        if !choice.WithId? || (exists q :: q in t.proposals && q.id == choice.id) then None
        else Some(Go(p, Saving(true)))
      case Saving(made) => Some(Leave(p, false))
  }

  function Go(p: Process, pc: ReceivePc): Process
    requires p.holder.Receiving?
  {
    p.(holder := p.holder.(pc := pc))
  }

  /** What that step of _receive_event writes. */
  function ReceiveWrites(t: Tables, h: Holder, choice: ReceiveChoice): Tables
    requires h.Receiving?
  {
    if choice == Raise then t
    else
      match h.pc
      case Recording(_) => RecordEvent(t, h.event.id).0
      case Marking(_) => SaveDecision(t, h.event, Evaluating)
      case EvaluatingPolicy(_, _) => if choice == Progress then SaveDecision(t, h.event, Evaluating) else t
      case ReportingFailure => SaveDecision(t, h.event, Errored)
      case Forgetting => ForgetEvent(t, h.event.id)
      case Superseding(policy, _) => t.(proposals := SupersedePending(t.proposals, policy.id))
      case Activating(policy, result) => SetActive(t, policy.id, result.active)
      case Creating(policy, draft) =>
        if choice.WithId? then t.(proposals := Create(t.proposals, draft, !policy.generic, choice.id).0) else t
      case Saving(made) => SaveDecision(t, h.event, if made then ProposalMade else NoAction)
      case _ => t
  }

  lemma ReceiveLeavesQueue(t: Tables, h: Holder, choice: ReceiveChoice)
    requires h.Receiving?
    ensures var next := ReceiveWrites(t, h, choice); next.queue == t.queue && next.nextSequence == t.nextSequence
  {
  }

  /** The synchronous path completes an event when it saves its decision; the worker completes it in finish_event. */
  function ReceiveCompletes(h: Holder, choice: ReceiveChoice): seq<EventId>
    requires h.Receiving?
  {
    if choice != Raise && h.pc.Saving? && !h.byWorker then [h.event.id] else []
  }

  function ReceiveStepFrom(s: State, p: Process, choice: ReceiveChoice): Option<State>
    requires p.holder.Receiving?
  {
    var next := ReceiveNext(s.tables, p, choice);
    if next.None? then None
    else
      Some(s.(tables := ReceiveWrites(s.tables, p.holder, choice), process := next,
              history := s.history.(completed := s.history.completed + ReceiveCompletes(p.holder, choice))))
  }

  /** A policy proposes under its own id, and unless it handles every event type it is active when it proposes. */
  predicate FromPolicy(policy: Policy, result: Evaluation) {
    && (result.draft.Some? ==> result.draft.value.policy == policy.id)
    && (!policy.generic ==> (result.active <==> result.draft.Some?))
  }

  predicate CanTake(t: Tables, id: ProposalId) {
    var i := FindProposal(t.proposals, id);
    i < |t.proposals| && t.proposals[i].status == Pending
  }

  function RequiredReads(c: Catalog, tool: string): seq<string> {
    if tool in c.tools then c.tools[tool].requiredReads else []
  }

  /** Otherwise execute_approved gives up before any read: the evidence is too old, or the tool no longer permitted. */
  predicate MayExecute(c: Catalog, draft: Draft, now: int) {
    && now - draft.evidence.evaluatedAt <= 300
    && draft.tool in Allowed(c, draft.evidence.skills)
    && draft.tool in c.tools
  }

  /** Where _approve goes next and what it adds to the history, `n` being its length; None where the choice does
      not fit, and None for the place when the lock is let go. */
  function ApproveNext(t: Tables, p: Process, wild: set<PolicyId>, n: nat, decision: ApproveChoice)
    : Option<(Option<ApprovePc>, seq<ApprovalEvent>)>
    requires p.holder.Approving?
  {
    match p.holder.approval
    case TakingProposal(id) =>
      if !CanTake(t, id) then Some((None, []))
      else Some((Some(LookingUp(n, t.proposals[FindProposal(t.proposals, id)].(status := Executing))), [Took(id)]))
    case LookingUp(took, q) =>
      if q.draft.policy !in PolicyIds(p.policies) then Some((Some(Closing(q, false)), []))
      else if q.draft.policy in wild then Some((Some(Checking(took, q)), []))
      else Some((Some(Calling(q)), []))
    case Checking(took, q) =>
      if !decision.AtTime? then None
      else if !MayExecute(p.catalog, q.draft, decision.now) then Some((Some(Closing(q, false)), []))
      else Some((Some(Reading(took, n, q, 0, map[])), [Cleared(q.id, decision.now, p.catalog)]))
    case Reading(took, cleared, q, next, seen) =>
      var required := RequiredReads(p.catalog, q.draft.tool);
      if next >= |required| then Some((Some(Judging(took, cleared, q, seen)), []))
      else
        var arguments := RecordedArguments(q.draft.evidence.calls, required[next]);
        if arguments.None? || decision == Fail then Some((Some(Closing(q, false)), []))
        else if !decision.Answer? then None
        else Some((Some(Reading(took, cleared, q, next + 1, seen[required[next] := decision.value])),
                   [Observed(q.id, required[next], arguments.value, decision.value)]))
    case Judging(took, cleared, q, seen) =>
      if decision == Fail then Some((Some(Closing(q, false)), []))
      else Some((Some(Calling(q)), [Accepted(q.id, seen)]))
    case Calling(q) =>
      var call := [Called(q.id, q.draft.tool, q.draft.arguments)];
      if decision == Escape then Some((None, call))
      else if !decision.Outcome? then None
      else Some((Some(Closing(q, decision.executed)), call))
    case Closing(_, _) => Some((None, []))
  }

  function ApproveWrites(t: Tables, h: Holder, decision: ApproveChoice): Tables
    requires h.Approving?
  {
    match h.approval
    case TakingProposal(id) => t.(proposals := MovePending(t.proposals, id, Executing).0)
    case Closing(q, succeeded) =>
      if decision == Escape then t else t.(proposals := CompleteProposal(t.proposals, q.id, succeeded))
    case _ => t
  }

  function ApproveStepFrom(s: State, p: Process, decision: ApproveChoice): Option<State>
    requires p.holder.Approving?
  {
    var next := ApproveNext(s.tables, p, s.wild, |s.history.approvals|, decision);
    if next.None? then None
    else
      var (place, events) := next.value;
      Some(s.(tables := ApproveWrites(s.tables, p.holder, decision),
              process := Some(p.(holder := if place.Some? then Approving(place.value) else Free)),
              history := s.history.(approvals := s.history.approvals + events)))
  }

  /** The state after a whole sequence of actions, or None when one of them cannot happen. */
  function Run(s: State, actions: seq<Action>): Option<State>
    decreases |actions|
  {
    if actions == [] then Some(s)
    else
      var next := Step(s, actions[0]);
      if next.None? then None else Run(next.value, actions[1..])
  }
}

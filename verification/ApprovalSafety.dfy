/** What every run keeps of approvals: an action is called at most once, only for a proposal an operator approved,
    and by the generic agent only after the checks of execute_approved. */
module ApprovalSafety {
  import opened Wrappers
  import opened JsonValues
  import opened StoreTables
  import opened Capabilities
  import opened Controller

  type Log = seq<ApprovalEvent>

  // ----- the life of a proposal

  predicate MayBecome(before: ProposalStatus, after: ProposalStatus) {
    match before
    case Pending => true
    case Executing => after == Executing || after == Executed || after == ActionFailed
    case _ => after == before
  }

  /** Proposals are never removed or rewritten, and their status moves only forward. */
  ghost predicate Forward(before: seq<Proposal>, after: seq<Proposal>) {
    && |before| <= |after|
    && forall i :: 0 <= i < |before| ==>
         before[i].id == after[i].id && before[i].draft == after[i].draft
             && MayBecome(before[i].status, after[i].status)
  }

  // ----- why a call was made

  ghost predicate SeenSince(log: Log, from: nat, to: nat, id: ProposalId, draft: Draft, read: string, value: Json) {
    exists i :: from < i < to && i < |log|
      && RecordedArguments(draft.evidence.calls, read).Some?
      && log[i] == Observed(id, read, RecordedArguments(draft.evidence.calls, read).value, value)
  }

  /** The owner accepted the action on reads all made, with the recorded arguments, after the proposal was taken. */
  ghost predicate AcceptedAt(log: Log, took: nat, cleared: nat, at: nat, id: ProposalId, draft: Draft) {
    && took < cleared < at < |log|
    && log[took] == Took(id)
    && log[cleared].Cleared? && log[cleared].id == id && MayExecute(log[cleared].catalog, draft, log[cleared].now)
    && log[at].Accepted? && log[at].id == id
    && (forall r :: r in RequiredReads(log[cleared].catalog, draft.tool) ==> r in log[at].seen)
    && (forall r :: r in log[at].seen ==> SeenSince(log, took, at, id, draft, r, log[at].seen[r]))
  }

  /** Before position k: taken, then unexpired and permitted, then accepted on fresh reads. */
  ghost predicate Justified(log: Log, k: nat, id: ProposalId, draft: Draft) {
    exists took: nat, cleared: nat, at: nat :: at < k && AcceptedAt(log, took, cleared, at, id, draft)
  }

  ghost predicate NotCalled(log: Log, id: ProposalId) {
    forall k :: 0 <= k < |log| && log[k].Called? ==> log[k].id != id
  }

  ghost predicate CalledOnce(log: Log) {
    forall i, j :: 0 <= i < j < |log| && log[i].Called? && log[j].Called? ==> log[i].id != log[j].id
  }

  predicate Approved(p: Proposal) {
    p.status == Executing || p.status == Executed || p.status == ActionFailed
  }

  /** A called action is its proposal's own, the proposal was approved, and the generic agent had every reason. */
  ghost predicate CallFits(proposals: seq<Proposal>, wild: set<PolicyId>, log: Log, k: nat)
    requires k < |log| && log[k].Called?
  {
    var i := FindProposal(proposals, log[k].id);
    && i < |proposals| && Approved(proposals[i])
    && log[k].tool == proposals[i].draft.tool && log[k].arguments == proposals[i].draft.arguments
    && (proposals[i].draft.policy in wild ==> Justified(log, k, proposals[i].id, proposals[i].draft))
  }

  ghost predicate CallsFit(proposals: seq<Proposal>, wild: set<PolicyId>, log: Log) {
    forall k :: 0 <= k < |log| && log[k].Called? ==> CallFits(proposals, wild, log, k)
  }

  // ----- the thread inside _approve

  function ProposalAt(pc: ApprovePc): Option<Proposal> {
    match pc
    case TakingProposal(_) => None
    case LookingUp(_, q) => Some(q)
    case Checking(_, q) => Some(q)
    case Reading(_, _, q, _, _) => Some(q)
    case Judging(_, _, q, _) => Some(q)
    case Calling(q) => Some(q)
    case Closing(q, _) => Some(q)
  }

  ghost predicate Holds(proposals: seq<Proposal>, q: Proposal) {
    var i := FindProposal(proposals, q.id);
    i < |proposals| && proposals[i].draft == q.draft && proposals[i].status == Executing
  }

  ghost predicate ReadSoFar(log: Log, catalog: Catalog, took: nat, cleared: nat, q: Proposal, next: nat,
                            seen: map<string, Json>) {
    && took < cleared < |log| && log[took] == Took(q.id)
    && log[cleared].Cleared? && log[cleared].id == q.id && log[cleared].catalog == catalog
    && MayExecute(catalog, q.draft, log[cleared].now)
    && (forall i :: 0 <= i < next && i < |RequiredReads(catalog, q.draft.tool)| ==>
             RequiredReads(catalog, q.draft.tool)[i] in seen)
    && (forall r :: r in seen ==> SeenSince(log, took, |log|, q.id, q.draft, r, seen[r]))
  }

  ghost predicate StepFits(log: Log, catalog: Catalog, wild: set<PolicyId>, pc: ApprovePc) {
    match pc
    case LookingUp(took, q) => took < |log| && log[took] == Took(q.id)
    case Checking(took, q) => took < |log| && log[took] == Took(q.id)
    case Reading(took, cleared, q, next, seen) => ReadSoFar(log, catalog, took, cleared, q, next, seen)
    case Judging(took, cleared, q, seen) =>
      ReadSoFar(log, catalog, took, cleared, q, |RequiredReads(catalog, q.draft.tool)|, seen)
    case Calling(q) => q.draft.policy in wild ==> Justified(log, |log|, q.id, q.draft)
    case _ => true
  }

  ghost predicate ApproverFits(proposals: seq<Proposal>, log: Log, catalog: Catalog, wild: set<PolicyId>,
                               pc: ApprovePc) {
    && (ProposalAt(pc).Some? ==> Holds(proposals, ProposalAt(pc).value))
    && (ProposalAt(pc).Some? && !pc.Closing? ==> NotCalled(log, ProposalAt(pc).value.id))
    && StepFits(log, catalog, wild, pc)
  }

  ghost predicate ApprovalInv(s: State) {
    && UniqueProposals(s.tables.proposals)
    && CalledOnce(s.history.approvals)
    && CallsFit(s.tables.proposals, s.wild, s.history.approvals)
    && (s.process.Some? && s.process.value.holder.Approving? ==>
          ApproverFits(s.tables.proposals, s.history.approvals, s.process.value.catalog, s.wild,
                       s.process.value.holder.approval))
  }

  // ----- more history, more proposals

  lemma JustifiedGrows(log: Log, e: ApprovalEvent, k: nat, id: ProposalId, draft: Draft)
    requires Justified(log, k, id, draft)
    ensures Justified(log + [e], k, id, draft)
  {
    var took: nat, cleared: nat, at: nat :| at < k && AcceptedAt(log, took, cleared, at, id, draft);
    AcceptedGrows(log, e, took, cleared, at, id, draft);
  }

  lemma AcceptedGrows(log: Log, e: ApprovalEvent, took: nat, cleared: nat, at: nat, id: ProposalId, draft: Draft)
    requires AcceptedAt(log, took, cleared, at, id, draft)
    ensures AcceptedAt(log + [e], took, cleared, at, id, draft)
  {
    forall r | r in log[at].seen ensures SeenSince(log + [e], took, at, id, draft, r, log[at].seen[r]) {
      SeenGrows(log, e, took, at, at, id, draft, r, log[at].seen[r]);
    }
  }

  lemma SeenGrows(log: Log, e: ApprovalEvent, from: nat, to: nat, more: nat, id: ProposalId, draft: Draft, r: string,
                  value: Json)
    requires SeenSince(log, from, to, id, draft, r, value) && to <= more
    ensures SeenSince(log + [e], from, more, id, draft, r, value)
  {
    var i :| from < i < to && i < |log|
      && RecordedArguments(draft.evidence.calls, r).Some?
      && log[i] == Observed(id, r, RecordedArguments(draft.evidence.calls, r).value, value);
    assert (log + [e])[i] == log[i];
  }

  lemma CallsFitGrows(proposals: seq<Proposal>, wild: set<PolicyId>, log: Log, e: ApprovalEvent)
    requires CallsFit(proposals, wild, log)
    requires e.Called? ==> CallFits(proposals, wild, log + [e], |log|)
    ensures CallsFit(proposals, wild, log + [e])
  {
    var longer := log + [e];
    forall k | 0 <= k < |longer| && longer[k].Called? ensures CallFits(proposals, wild, longer, k) {
      if k < |log| {
        assert CallFits(proposals, wild, log, k);
        var i := FindProposal(proposals, log[k].id);
        if proposals[i].draft.policy in wild {
          JustifiedGrows(log, e, k, proposals[i].id, proposals[i].draft);
        }
      }
    }
  }

  lemma CallsFitForward(before: seq<Proposal>, after: seq<Proposal>, wild: set<PolicyId>, log: Log)
    requires CallsFit(before, wild, log) && Forward(before, after)
    ensures CallsFit(after, wild, log)
  {
    forall k | 0 <= k < |log| && log[k].Called? ensures CallFits(after, wild, log, k) {
      assert CallFits(before, wild, log, k);
    }
  }

  // ----- every step keeps it

  lemma SupersedeForward(proposals: seq<Proposal>, policies: set<PolicyId>)
    requires UniqueProposals(proposals)
    ensures var after := SupersedeUnregistered(proposals, policies);
            Forward(proposals, after) && UniqueProposals(after)
  {
  }

  lemma MoveForward(proposals: seq<Proposal>, id: ProposalId, status: ProposalStatus)
    requires UniqueProposals(proposals)
    ensures var after := MovePending(proposals, id, status).0; Forward(proposals, after) && UniqueProposals(after)
  {
  }

  /** Steps outside _approve: the history of approvals stays, proposals only move forward, and ids stay unique. */
  lemma ElsewhereForward(s: State, a: Action)
    requires UniqueProposals(s.tables.proposals) && Step(s, a).Some? && !a.ApproveStep?
    ensures Forward(s.tables.proposals, Step(s, a).value.tables.proposals)
    ensures UniqueProposals(Step(s, a).value.tables.proposals)
  {
    match a
    case ReceiveStep(choice) => ReceiveForward(s.tables, s.process.value, choice);
    case Boot(policies, _) => SupersedeForward(s.tables.proposals, PolicyIds(policies));
    case Reject(id) => MoveForward(s.tables.proposals, id, Rejected);
    case _ => QuietElsewhere(s, a);
  }

  lemma QuietElsewhere(s: State, a: Action)
    requires Step(s, a).Some? && !a.ApproveStep? && !a.ReceiveStep? && !a.Boot? && !a.Reject?
    ensures Step(s, a).value.tables.proposals == s.tables.proposals
  {
  }

  lemma ElsewhereLogs(s: State, a: Action)
    requires Step(s, a).Some? && !a.ApproveStep?
    ensures Step(s, a).value.history.approvals == s.history.approvals && Step(s, a).value.wild == s.wild
  {
  }

  lemma ReceiveForward(t: Tables, p: Process, choice: ReceiveChoice)
    requires UniqueProposals(t.proposals) && p.holder.Receiving? && ReceiveNext(t, p, choice).Some?
    ensures Forward(t.proposals, ReceiveWrites(t, p.holder, choice).proposals)
    ensures UniqueProposals(ReceiveWrites(t, p.holder, choice).proposals)
  {
    NewId(t, p, choice);
    WritesForward(t, p.holder, choice);
  }

  lemma NewId(t: Tables, p: Process, choice: ReceiveChoice)
    requires p.holder.Receiving? && ReceiveNext(t, p, choice).Some?
    ensures p.holder.pc.Creating? && choice.WithId? ==> forall q :: q in t.proposals ==> q.id != choice.id
  {
  }

  lemma WritesForward(t: Tables, h: Holder, choice: ReceiveChoice)
    requires UniqueProposals(t.proposals) && h.Receiving?
    requires h.pc.Creating? && choice.WithId? ==> forall q :: q in t.proposals ==> q.id != choice.id
    ensures Forward(t.proposals, ReceiveWrites(t, h, choice).proposals)
    ensures UniqueProposals(ReceiveWrites(t, h, choice).proposals)
  {
  }

  predicate ApproverStays(p: Option<Process>, q: Process) {
    !q.holder.Approving? || q.holder.approval.TakingProposal?
    || (p.Some? && p.value.holder == q.holder && p.value.catalog == q.catalog)
  }

  lemma ReceiverApproves(t: Tables, p: Process, choice: ReceiveChoice)
    requires p.holder.Receiving? && ReceiveNext(t, p, choice).Some?
    ensures !ReceiveNext(t, p, choice).value.holder.Approving?
  {
  }

  /** Nor do they move the thread inside _approve, or change the catalogue under it. */
  lemma ElsewhereApprover(s: State, a: Action)
    requires Step(s, a).Some? && !a.ApproveStep? && Step(s, a).value.process.Some?
    ensures ApproverStays(s.process, Step(s, a).value.process.value)
  {
    match a
    case ReceiveStep(choice) => ReceiverApproves(s.tables, s.process.value, choice);
    case ManagerStep =>
    case WorkerStep =>
    case _ =>
  }

  lemma HoldsForward(before: seq<Proposal>, after: seq<Proposal>, q: Proposal)
    requires Holds(before, q) && Forward(before, after)
    requires FindProposal(before, q.id) < |after| && after[FindProposal(before, q.id)].status == Executing
    ensures Holds(after, q)
  {
  }

  /** A proposal being executed stays so while the thread that took it holds the lock. */
  lemma ExecutingStays(s: State, a: Action, i: nat)
    requires Step(s, a).Some? && !a.ApproveStep? && i < |s.tables.proposals|
              && s.tables.proposals[i].status == Executing
    ensures i < |Step(s, a).value.tables.proposals| && Step(s, a).value.tables.proposals[i].status == Executing
  {
    if a.ReceiveStep? {
      assert Step(s, a).value.tables == ReceiveWrites(s.tables, s.process.value.holder, a.choice);
      ReceiveSparesExecuting(s.tables, s.process.value.holder, a.choice, i);
    }
  }

  lemma ReceiveSparesExecuting(t: Tables, h: Holder, choice: ReceiveChoice, i: nat)
    requires h.Receiving? && i < |t.proposals| && t.proposals[i].status == Executing
    ensures i < |ReceiveWrites(t, h, choice).proposals| && ReceiveWrites(t, h, choice).proposals[i].status == Executing
  {
  }

  lemma ElsewhereKeepsApprovals(s: State, a: Action)
    requires ApprovalInv(s) && Step(s, a).Some? && !a.ApproveStep?
    ensures ApprovalInv(Step(s, a).value)
  {
    var next := Step(s, a).value;
    ElsewhereForward(s, a);
    ElsewhereLogs(s, a);
    CallsFitForward(s.tables.proposals, next.tables.proposals, s.wild, s.history.approvals);
    if next.process.Some? {
      ElsewhereApprover(s, a);
      if next.process.value.holder.Approving? && ProposalAt(next.process.value.holder.approval).Some? {
        var q := ProposalAt(next.process.value.holder.approval).value;
        assert Holds(s.tables.proposals, q);
        ExecutingStays(s, a, FindProposal(s.tables.proposals, q.id));
        HoldsForward(s.tables.proposals, next.tables.proposals, q);
      }
    }
  }

  lemma TakeKeepsApprovals(proposals: seq<Proposal>, wild: set<PolicyId>, log: Log, catalog: Catalog, id: ProposalId)
    requires UniqueProposals(proposals) && CalledOnce(log) && CallsFit(proposals, wild, log)
    requires FindProposal(proposals, id) < |proposals| && proposals[FindProposal(proposals, id)].status == Pending
    ensures var after := MovePending(proposals, id, Executing).0; var longer := log + [Took(id)];
            && UniqueProposals(after) && CalledOnce(longer) && CallsFit(after, wild, longer)
            && ApproverFits(after, longer, catalog, wild,
                            LookingUp(|log|, proposals[FindProposal(proposals, id)].(status := Executing)))
  {
    MoveForward(proposals, id, Executing);
    TakeKeepsCalls(proposals, MovePending(proposals, id, Executing).0, wild, log, id);
    PendingNotCalled(proposals, wild, log, id);
    TakenIsHeld(proposals, id);
  }

  lemma TakenIsHeld(proposals: seq<Proposal>, id: ProposalId)
    requires UniqueProposals(proposals)
    requires FindProposal(proposals, id) < |proposals| && proposals[FindProposal(proposals, id)].status == Pending
    ensures Holds(MovePending(proposals, id, Executing).0,
                  proposals[FindProposal(proposals, id)].(status := Executing))
  {
  }

  lemma TakeKeepsCalls(proposals: seq<Proposal>, after: seq<Proposal>, wild: set<PolicyId>, log: Log, id: ProposalId)
    requires Forward(proposals, after) && CalledOnce(log) && CallsFit(proposals, wild, log)
    ensures CalledOnce(log + [Took(id)]) && CallsFit(after, wild, log + [Took(id)])
  {
    CallsFitForward(proposals, after, wild, log);
    CallsFitGrows(after, wild, log, Took(id));
  }

  lemma PendingNotCalled(proposals: seq<Proposal>, wild: set<PolicyId>, log: Log, id: ProposalId)
    requires CallsFit(proposals, wild, log)
    requires FindProposal(proposals, id) < |proposals| && proposals[FindProposal(proposals, id)].status == Pending
    ensures NotCalled(log + [Took(id)], id)
  {
    forall k | 0 <= k < |log| && log[k].Called? ensures log[k].id != id {
      assert CallFits(proposals, wild, log, k);
    }
  }

  /** A step of the approver that adds an event but is neither the taking nor the call. */
  lemma LoggedStep(proposals: seq<Proposal>, wild: set<PolicyId>, log: Log, e: ApprovalEvent, id: ProposalId)
    requires CalledOnce(log) && CallsFit(proposals, wild, log) && NotCalled(log, id) && !e.Called?
    ensures CalledOnce(log + [e]) && CallsFit(proposals, wild, log + [e]) && NotCalled(log + [e], id)
  {
    CallsFitGrows(proposals, wild, log, e);
  }

  lemma ReadStep(log: Log, catalog: Catalog, took: nat, cleared: nat, q: Proposal, next: nat,
                 seen: map<string, Json>, value: Json)
    requires ReadSoFar(log, catalog, took, cleared, q, next, seen) && next < |RequiredReads(catalog, q.draft.tool)|
    requires RecordedArguments(q.draft.evidence.calls, RequiredReads(catalog, q.draft.tool)[next]).Some?
    ensures var r := RequiredReads(catalog, q.draft.tool)[next];
            var e := Observed(q.id, r, RecordedArguments(q.draft.evidence.calls, r).value, value);
            ReadSoFar(log + [e], catalog, took, cleared, q, next + 1, seen[r := value])
  {
    var read := RequiredReads(catalog, q.draft.tool)[next];
    var e := Observed(q.id, read, RecordedArguments(q.draft.evidence.calls, read).value, value);
    var more := seen[read := value];
    forall r | r in more ensures SeenSince(log + [e], took, |log| + 1, q.id, q.draft, r, more[r]) {
      if r == read {
        assert (log + [e])[|log|] == e;
      } else {
        SeenGrows(log, e, took, |log|, |log| + 1, q.id, q.draft, r, seen[r]);
      }
    }
  }

  lemma AcceptStep(log: Log, catalog: Catalog, took: nat, cleared: nat, q: Proposal, seen: map<string, Json>)
    requires ReadSoFar(log, catalog, took, cleared, q, |RequiredReads(catalog, q.draft.tool)|, seen)
    ensures Justified(log + [Accepted(q.id, seen)], |log| + 1, q.id, q.draft)
  {
    var longer := log + [Accepted(q.id, seen)];
    forall r | r in seen ensures SeenSince(longer, took, |log|, q.id, q.draft, r, seen[r]) {
      SeenGrows(log, Accepted(q.id, seen), took, |log|, |log|, q.id, q.draft, r, seen[r]);
    }
    assert AcceptedAt(longer, took, cleared, |log|, q.id, q.draft);
  }

  lemma CallStep(proposals: seq<Proposal>, wild: set<PolicyId>, log: Log, q: Proposal)
    requires CalledOnce(log) && CallsFit(proposals, wild, log) && Holds(proposals, q) && NotCalled(log, q.id)
    requires q.draft.policy in wild ==> Justified(log, |log|, q.id, q.draft)
    ensures var longer := log + [Called(q.id, q.draft.tool, q.draft.arguments)];
            CalledOnce(longer) && CallsFit(proposals, wild, longer)
  {
    var e := Called(q.id, q.draft.tool, q.draft.arguments);
    if q.draft.policy in wild { JustifiedGrows(log, e, |log|, q.id, q.draft); }
    CallsFitGrows(proposals, wild, log, e);
  }

  lemma CloseIsForward(proposals: seq<Proposal>, q: Proposal, succeeded: bool)
    requires Holds(proposals, q) && UniqueProposals(proposals)
    ensures Forward(proposals, CompleteProposal(proposals, q.id, succeeded))
    ensures UniqueProposals(CompleteProposal(proposals, q.id, succeeded))
  {
  }

  lemma EarlyApproveKeeps(s: State, p: Process, decision: ApproveChoice)
    requires ApprovalInv(s) && s.process == Some(p) && p.holder.Approving? && ApproveStepFrom(s, p, decision).Some?
    requires p.holder.approval.TakingProposal? || p.holder.approval.LookingUp? || p.holder.approval.Checking?
    ensures ApprovalInv(ApproveStepFrom(s, p, decision).value)
  {
    var next := ApproveStepFrom(s, p, decision).value;
    var proposals, log := s.tables.proposals, s.history.approvals;
    assert log + [] == log;
    match p.holder.approval
    case TakingProposal(id) =>
      if CanTake(s.tables, id) { TakeKeepsApprovals(proposals, s.wild, log, p.catalog, id); }
    case LookingUp(_, _) =>
    case Checking(_, q) =>
      if next.history.approvals != log { LoggedStep(proposals, s.wild, log, next.history.approvals[|log|], q.id); }
  }

  lemma ReadingApproveKeeps(s: State, p: Process, decision: ApproveChoice)
    requires ApprovalInv(s) && s.process == Some(p) && p.holder.Approving? && ApproveStepFrom(s, p, decision).Some?
    requires p.holder.approval.Reading?
    ensures ApprovalInv(ApproveStepFrom(s, p, decision).value)
  {
    var next := ApproveStepFrom(s, p, decision).value;
    var proposals, log := s.tables.proposals, s.history.approvals;
    assert log + [] == log;
    var Reading(took, cleared, q, n, seen) := p.holder.approval;
    if next.history.approvals != log {
      LoggedStep(proposals, s.wild, log, next.history.approvals[|log|], q.id);
      ReadStep(log, p.catalog, took, cleared, q, n, seen, decision.value);
    }
  }

  lemma JudgingApproveKeeps(s: State, p: Process, decision: ApproveChoice)
    requires ApprovalInv(s) && s.process == Some(p) && p.holder.Approving? && ApproveStepFrom(s, p, decision).Some?
    requires p.holder.approval.Judging?
    ensures ApprovalInv(ApproveStepFrom(s, p, decision).value)
  {
    var proposals, log := s.tables.proposals, s.history.approvals;
    assert log + [] == log;
    var Judging(took, cleared, q, seen) := p.holder.approval;
    if decision != Fail {
      LoggedStep(proposals, s.wild, log, Accepted(q.id, seen), q.id);
      AcceptStep(log, p.catalog, took, cleared, q, seen);
    }
  }

  lemma CallingApproveKeeps(s: State, p: Process, decision: ApproveChoice)
    requires ApprovalInv(s) && s.process == Some(p) && p.holder.Approving? && ApproveStepFrom(s, p, decision).Some?
    requires p.holder.approval.Calling?
    ensures ApprovalInv(ApproveStepFrom(s, p, decision).value)
  {
    CallStep(s.tables.proposals, s.wild, s.history.approvals, p.holder.approval.proposal);
  }

  lemma ClosingApproveKeeps(s: State, p: Process, decision: ApproveChoice)
    requires ApprovalInv(s) && s.process == Some(p) && p.holder.Approving? && ApproveStepFrom(s, p, decision).Some?
    requires p.holder.approval.Closing?
    ensures ApprovalInv(ApproveStepFrom(s, p, decision).value)
  {
    var proposals, log := s.tables.proposals, s.history.approvals;
    var Closing(q, succeeded) := p.holder.approval;
    var after := CompleteProposal(proposals, q.id, succeeded);
    assert log + [] == log;
    CloseIsForward(proposals, q, succeeded);
    CallsFitForward(proposals, after, s.wild, log);
  }

  lemma ApproveForward(s: State, p: Process, decision: ApproveChoice)
    requires ApprovalInv(s) && s.process == Some(p) && p.holder.Approving? && ApproveStepFrom(s, p, decision).Some?
    ensures Forward(s.tables.proposals, ApproveStepFrom(s, p, decision).value.tables.proposals)
  {
    var pc := p.holder.approval;
    if pc.Closing? {
      CloseIsForward(s.tables.proposals, pc.proposal, pc.succeeded);
    }
  }

  lemma StepKeepsApprovals(s: State, a: Action)
    requires ApprovalInv(s) && Step(s, a).Some?
    ensures ApprovalInv(Step(s, a).value) && Forward(s.tables.proposals, Step(s, a).value.tables.proposals)
    ensures Step(s, a).value.wild == s.wild
  {
    if a.ApproveStep? {
      var p := s.process.value;
      ApproveForward(s, p, a.decision);
      match p.holder.approval
      case Reading(_, _, _, _, _) => ReadingApproveKeeps(s, p, a.decision);
      case Judging(_, _, _, _) => JudgingApproveKeeps(s, p, a.decision);
      case Calling(_) => CallingApproveKeeps(s, p, a.decision);
      case Closing(_, _) => ClosingApproveKeeps(s, p, a.decision);
      case _ => EarlyApproveKeeps(s, p, a.decision);
    } else {
      ElsewhereKeepsApprovals(s, a);
      ElsewhereForward(s, a);
      ElsewhereLogs(s, a);
    }
  }

  lemma {:induction false} RunKeepsApprovals(s: State, actions: seq<Action>)
    requires ApprovalInv(s) && Run(s, actions).Some?
    ensures ApprovalInv(Run(s, actions).value) && Forward(s.tables.proposals, Run(s, actions).value.tables.proposals)
    ensures Run(s, actions).value.wild == s.wild
    decreases |actions|
  {
    if actions != [] {
      StepKeepsApprovals(s, actions[0]);
      RunKeepsApprovals(Step(s, actions[0]).value, actions[1..]);
    }
  }

  /** In every run: no proposal's action is called twice; a called action is that of an approved proposal, with its
      own tool and arguments; and where the generic agent made it, the proposal was unexpired, its tool still listed
      by a registered skill, and its owner accepted it on reads all made after the approval took it. */
  lemma CallsAreJustified(wild: set<PolicyId>, actions: seq<Action>)
    requires Run(Initial(wild), actions).Some?
    ensures var s := Run(Initial(wild), actions).value;
            CalledOnce(s.history.approvals) && CallsFit(s.tables.proposals, wild, s.history.approvals)
  {
    RunKeepsApprovals(Initial(wild), actions);
  }

  /** A rejected or superseded proposal stays so, and its action is never called, before or after. */
  lemma TurnedDownIsNeverCalled(wild: set<PolicyId>, before: seq<Action>, after: seq<Action>, i: nat)
    requires Run(Initial(wild), before).Some? && Run(Run(Initial(wild), before).value, after).Some?
    requires var s := Run(Initial(wild), before).value;
             i < |s.tables.proposals|
                 && (s.tables.proposals[i].status == Rejected || s.tables.proposals[i].status == Superseded)
    ensures var s := Run(Initial(wild), before).value; var t := Run(s, after).value;
            && i < |t.tables.proposals| && t.tables.proposals[i] == s.tables.proposals[i]
            && NotCalled(t.history.approvals, s.tables.proposals[i].id)
  {
    var s := Run(Initial(wild), before).value;
    RunKeepsApprovals(Initial(wild), before);
    RunKeepsApprovals(s, after);
    NotCalledUnlessApproved(Run(s, after).value, i);
  }

  lemma NotCalledUnlessApproved(s: State, i: nat)
    requires ApprovalInv(s) && i < |s.tables.proposals| && !Approved(s.tables.proposals[i])
    ensures NotCalled(s.history.approvals, s.tables.proposals[i].id)
  {
    var log := s.history.approvals;
    forall k | 0 <= k < |log| && log[k].Called? ensures log[k].id != s.tables.proposals[i].id {
      assert CallFits(s.tables.proposals, s.wild, log, k);
    }
  }
}

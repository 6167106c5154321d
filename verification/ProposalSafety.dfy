/** What every run keeps of the pending proposals, whatever falls between superseding, activating and creating. */
module ProposalSafety {
  import opened Wrappers
  import opened StoreTables
  import opened Controller

  /** Two pending proposals of one policy never ask for the same change. */
  ghost predicate PendingDistinct(proposals: seq<Proposal>) {
    forall i, j :: 0 <= i < j < |proposals| && proposals[i].status == Pending ==>
         !SamePending(proposals[j], proposals[i].draft)
  }

  /** A policy that always replaces has at most one pending proposal. */
  ghost predicate OnePending(proposals: seq<Proposal>, wild: set<PolicyId>) {
    forall i, j :: 0 <= i < j < |proposals| && proposals[i].status == Pending
      && PendingOf(proposals[j], proposals[i].draft.policy)
      ==> proposals[i].draft.policy in wild
  }

  ghost predicate NonePending(proposals: seq<Proposal>, policy: PolicyId) {
    forall p :: p in proposals ==> !PendingOf(p, policy)
  }

  /** A policy that always replaces and is inactive has no pending proposal. */
  ghost predicate InactiveHasNone(t: Tables, wild: set<PolicyId>) {
    forall p :: p in t.proposals && p.status == Pending && p.draft.policy !in wild ==> IsActive(t, p.draft.policy)
  }

  ghost predicate Consistent(policy: Policy, wild: set<PolicyId>) {
    policy.generic <==> policy.id in wild
  }

  ghost predicate PlaceFits(t: Tables, wild: set<PolicyId>, pc: ReceivePc) {
    match pc
    case Recording(policy) => Consistent(policy, wild)
    case Marking(policy) => Consistent(policy, wild)
    case ReadingActive(policy) => Consistent(policy, wild)
    case EvaluatingPolicy(policy, was) => Consistent(policy, wild) && was == IsActive(t, policy.id)
    case Superseding(policy, result) => Consistent(policy, wild) && FromPolicy(policy, result)
    case Activating(policy, result) =>
      Consistent(policy, wild) && FromPolicy(policy, result)
      && (!policy.generic && !result.active ==> NonePending(t.proposals, policy.id))
    case Creating(policy, draft) =>
      Consistent(policy, wild) && draft.policy == policy.id && (!policy.generic ==> IsActive(t, policy.id))
    case _ => true
  }

  ghost predicate ProcessFits(t: Tables, wild: set<PolicyId>, p: Process) {
    && (forall kind :: kind in p.policies ==> Consistent(p.policies[kind], wild))
    && (p.holder.Receiving? ==> PlaceFits(t, wild, p.holder.pc))
  }

  ghost predicate TableInv(t: Tables, wild: set<PolicyId>) {
    UniqueProposals(t.proposals) && PendingDistinct(t.proposals) && OnePending(t.proposals, wild)
        && InactiveHasNone(t, wild)
  }

  ghost predicate ProposalInv(s: State) {
    TableInv(s.tables, s.wild) && (s.process.Some? ==> ProcessFits(s.tables, s.wild, s.process.value))
  }

  // ----- what the transactions do

  /** The same rows, some of which may have stopped being pending. */
  ghost predicate Shrinks(before: seq<Proposal>, after: seq<Proposal>) {
    && |before| == |after|
    && forall i :: 0 <= i < |before| ==>
         && before[i].id == after[i].id && before[i].draft == after[i].draft
         && (after[i].status == Pending ==> before[i].status == Pending)
  }

  lemma ShrinkKeepsTable(t: Tables, after: seq<Proposal>, wild: set<PolicyId>)
    requires TableInv(t, wild) && Shrinks(t.proposals, after)
    ensures TableInv(t.(proposals := after), wild)
  {
    forall p | p in after && p.status == Pending && p.draft.policy !in wild ensures IsActive(t, p.draft.policy) {
      var i :| 0 <= i < |after| && after[i] == p;
      assert t.proposals[i] in t.proposals;
    }
  }

  lemma ShrinkKeepsNone(before: seq<Proposal>, after: seq<Proposal>, policy: PolicyId)
    requires NonePending(before, policy) && Shrinks(before, after)
    ensures NonePending(after, policy)
  {
    forall p | p in after ensures !PendingOf(p, policy) {
      var i :| 0 <= i < |after| && after[i] == p;
      assert before[i] in before;
    }
  }

  lemma MoveShrinks(proposals: seq<Proposal>, id: ProposalId, status: ProposalStatus)
    requires status != Pending
    ensures Shrinks(proposals, MovePending(proposals, id, status).0)
  {
  }

  lemma CompleteShrinks(proposals: seq<Proposal>, id: ProposalId, succeeded: bool)
    ensures Shrinks(proposals, CompleteProposal(proposals, id, succeeded))
  {
  }

  lemma SupersededHasNone(proposals: seq<Proposal>, policy: PolicyId)
    ensures Shrinks(proposals, SupersedePending(proposals, policy))
    ensures NonePending(SupersedePending(proposals, policy), policy)
  {
  }

  lemma CreateKeepsTable(t: Tables, wild: set<PolicyId>, draft: Draft, replace: bool, id: ProposalId)
    requires TableInv(t, wild) && forall p :: p in t.proposals ==> p.id != id
    requires replace <==> draft.policy !in wild
    requires replace ==> IsActive(t, draft.policy)
    ensures TableInv(t.(proposals := Create(t.proposals, draft, replace, id).0), wild)
  {
    var k := FindSame(t.proposals, draft);
    if k == |t.proposals| {
      var kept := if replace then SupersedePending(t.proposals, draft.policy) else t.proposals;
      SupersededHasNone(t.proposals, draft.policy);
      ShrinkKeepsTable(t, kept, wild);
      AppendKeepsTable(t.(proposals := kept), wild, Proposal(id, draft, Pending), t.proposals);
    }
  }

  lemma AppendKeepsTable(t: Tables, wild: set<PolicyId>, made: Proposal, before: seq<Proposal>)
    requires TableInv(t, wild) && made.status == Pending && Shrinks(before, t.proposals)
    requires forall i :: 0 <= i < |before| ==> before[i].id != made.id && !SamePending(before[i], made.draft)
    requires made.draft.policy !in wild ==>
              NonePending(t.proposals, made.draft.policy) && IsActive(t, made.draft.policy)
    ensures TableInv(t.(proposals := t.proposals + [made]), wild)
  {
    var longer := t.proposals + [made];
    assert forall i :: 0 <= i < |t.proposals| ==> t.proposals[i] in t.proposals;
    AppendedUnique(before, t.proposals, made);
    AppendedDistinct(before, t.proposals, made);
    AppendedOne(t.proposals, made, wild);
    assert forall p :: p in longer <==> p in t.proposals || p == made;
  }

  lemma AppendedUnique(before: seq<Proposal>, proposals: seq<Proposal>, made: Proposal)
    requires UniqueProposals(proposals) && Shrinks(before, proposals)
    requires forall i :: 0 <= i < |before| ==> before[i].id != made.id
    ensures UniqueProposals(proposals + [made])
  {
  }

  lemma AppendedDistinct(before: seq<Proposal>, proposals: seq<Proposal>, made: Proposal)
    requires PendingDistinct(proposals) && Shrinks(before, proposals) && made.status == Pending
    requires forall i :: 0 <= i < |before| ==> !SamePending(before[i], made.draft)
    ensures PendingDistinct(proposals + [made])
  {
    var longer := proposals + [made];
    forall i, j | 0 <= i < j < |longer| && longer[i].status == Pending
      ensures !SamePending(longer[j], longer[i].draft)
    {
      assert longer[i] == proposals[i] && !SamePending(before[i], made.draft);
    }
  }

  lemma AppendedOne(proposals: seq<Proposal>, made: Proposal, wild: set<PolicyId>)
    requires OnePending(proposals, wild)
    requires made.draft.policy !in wild ==> NonePending(proposals, made.draft.policy)
    ensures OnePending(proposals + [made], wild)
  {
    var longer := proposals + [made];
    forall i, j | 0 <= i < j < |longer| && longer[i].status == Pending && PendingOf(longer[j], longer[i].draft.policy)
      ensures longer[i].draft.policy in wild
    {
      assert longer[i] == proposals[i] && proposals[i] in proposals;
    }
  }

  // ----- every step keeps it

  lemma ReceiveKeepsTable(t: Tables, p: Process, wild: set<PolicyId>, choice: ReceiveChoice)
    requires TableInv(t, wild) && ProcessFits(t, wild, p) && p.holder.Receiving? && ReceiveNext(t, p, choice).Some?
    ensures TableInv(ReceiveWrites(t, p.holder, choice), wild)
  {
    var after := ReceiveWrites(t, p.holder, choice);
    if choice != Raise {
      match p.holder.pc
      case Superseding(policy, _) =>
        SupersededHasNone(t.proposals, policy.id);
        ShrinkKeepsTable(t, after.proposals, wild);
      case Activating(policy, result) => ActivateKeepsTable(t, wild, policy, result);
      case Creating(policy, draft) => CreateKeepsTable(t, wild, draft, !policy.generic, choice.id);
      case _ => assert after.proposals == t.proposals && after.active == t.active;
    }
  }

  lemma ActivateKeepsTable(t: Tables, wild: set<PolicyId>, policy: Policy, result: Evaluation)
    requires TableInv(t, wild) && PlaceFits(t, wild, Activating(policy, result))
    ensures TableInv(SetActive(t, policy.id, result.active), wild)
  {
    var after := SetActive(t, policy.id, result.active);
    forall p | p in t.proposals && p.status == Pending && p.draft.policy !in wild
      ensures IsActive(after, p.draft.policy)
    {
      assert IsActive(t, p.draft.policy);
      assert p.draft.policy == policy.id ==> PendingOf(p, policy.id);
    }
  }

  /** While nothing is written that its place speaks of. */
  lemma QuietKeepsPlace(t: Tables, p: Process, wild: set<PolicyId>, choice: ReceiveChoice)
    requires TableInv(t, wild) && ProcessFits(t, wild, p) && p.holder.Receiving? && ReceiveNext(t, p, choice).Some?
    requires !p.holder.pc.Superseding? && !p.holder.pc.Activating? && !p.holder.pc.Creating?
    ensures ProcessFits(t, wild, ReceiveNext(t, p, choice).value)
  {
    if p.holder.pc.EvaluatingPolicy? {
      EvaluatingKeepsPlace(t, p, wild, choice);
    }
  }

  lemma EvaluatingKeepsPlace(t: Tables, p: Process, wild: set<PolicyId>, choice: ReceiveChoice)
    requires TableInv(t, wild) && ProcessFits(t, wild, p) && p.holder.Receiving? && ReceiveNext(t, p, choice).Some?
    requires p.holder.pc.EvaluatingPolicy?
    ensures ProcessFits(t, wild, ReceiveNext(t, p, choice).value)
  {
    if !p.holder.pc.was && !p.holder.pc.policy.generic {
      assert NonePending(t.proposals, p.holder.pc.policy.id);
    }
  }

  lemma ReceiveKeepsPlace(t: Tables, p: Process, wild: set<PolicyId>, choice: ReceiveChoice)
    requires TableInv(t, wild) && ProcessFits(t, wild, p) && p.holder.Receiving? && ReceiveNext(t, p, choice).Some?
    ensures ProcessFits(ReceiveWrites(t, p.holder, choice), wild, ReceiveNext(t, p, choice).value)
  {
    var pc := p.holder.pc;
    if pc.Superseding? || pc.Activating? || pc.Creating? {
      WritingKeepsPlace(t, p, wild, choice);
    } else {
      QuietKeepsPlace(t, p, wild, choice);
      var after := ReceiveWrites(t, p.holder, choice);
      assert after.proposals == t.proposals && after.active == t.active;
      SamePlace(t, after, wild, ReceiveNext(t, p, choice).value);
    }
  }

  lemma WritingKeepsPlace(t: Tables, p: Process, wild: set<PolicyId>, choice: ReceiveChoice)
    requires TableInv(t, wild) && ProcessFits(t, wild, p) && p.holder.Receiving? && ReceiveNext(t, p, choice).Some?
    requires p.holder.pc.Superseding? || p.holder.pc.Activating? || p.holder.pc.Creating?
    ensures ProcessFits(ReceiveWrites(t, p.holder, choice), wild, ReceiveNext(t, p, choice).value)
  {
    if p.holder.pc.Superseding? {
      SupersededHasNone(t.proposals, p.holder.pc.policy.id);
    }
  }

  lemma SamePlace(t: Tables, after: Tables, wild: set<PolicyId>, p: Process)
    requires after.proposals == t.proposals && after.active == t.active && ProcessFits(t, wild, p)
    ensures ProcessFits(after, wild, p)
  {
  }

  /** The actions outside _receive_event only take proposals out of pending. */
  lemma ElsewhereShrinks(s: State, a: Action)
    requires Step(s, a).Some? && !a.ReceiveStep?
    ensures Shrinks(s.tables.proposals, Step(s, a).value.tables.proposals)
    ensures Step(s, a).value.tables.active == s.tables.active && Step(s, a).value.wild == s.wild
  {
    match a
    case Reject(id) => MoveShrinks(s.tables.proposals, id, Rejected);
    case ApproveStep(decision) => ApproveShrinks(s.tables, s.process.value.holder, decision);
    case _ =>
  }

  lemma ApproveShrinks(t: Tables, h: Holder, decision: ApproveChoice)
    requires h.Approving?
    ensures Shrinks(t.proposals, ApproveWrites(t, h, decision).proposals)
    ensures ApproveWrites(t, h, decision).active == t.active
  {
    match h.approval
    case TakingProposal(id) => MoveShrinks(t.proposals, id, Executing);
    case Closing(q, succeeded) => CompleteShrinks(t.proposals, q.id, succeeded);
    case _ =>
  }

  /** The thread inside _receive_event stays where it is while others act. */
  lemma ElsewherePlace(s: State, a: Action)
    requires Step(s, a).Some? && !a.ReceiveStep? && Step(s, a).value.process.Some?
    ensures var q := Step(s, a).value.process.value;
            && (!q.holder.Receiving? || q.holder.pc.Validating?
                || (s.process.Some? && s.process.value.holder.Receiving? && q.holder.pc == s.process.value.holder.pc))
            && (if a.Boot? then q.policies == a.policies else s.process.Some? && q.policies == s.process.value.policies)
  {
    if !a.Boot? && !a.Crash? {
      RunningPlace(s, s.process.value, a);
    }
  }

  lemma RunningPlace(s: State, p: Process, a: Action)
    requires RunningStep(s, p, a).Some? && !a.ReceiveStep? && s.process == Some(p)
    ensures var next := RunningStep(s, p, a).value;
            next.process.Some?
            && (!next.process.value.holder.Receiving? || next.process.value.holder.pc.Validating?
                || (p.holder.Receiving? && next.process.value.holder.pc == p.holder.pc))
            && next.process.value.policies == p.policies
  {
    match a
    case ManagerStep =>
    case WorkerStep =>
    case ApproveStep(_) =>
    case _ =>
  }

  lemma StepKeepsProposals(s: State, a: Action)
    requires ProposalInv(s) && Step(s, a).Some?
    ensures ProposalInv(Step(s, a).value)
  {
    var next := Step(s, a).value;
    if a.ReceiveStep? {
      var p := s.process.value;
      ReceiveKeepsTable(s.tables, p, s.wild, a.choice);
      ReceiveKeepsPlace(s.tables, p, s.wild, a.choice);
    } else {
      ElsewhereShrinks(s, a);
      ShrinkKeepsTable(s.tables, next.tables.proposals, s.wild);
      assert TableInv(next.tables, s.wild);
      if next.process.Some? {
        ElsewherePlace(s, a);
        if next.process.value.holder.Receiving? && next.process.value.holder.pc.Activating? {
          var policy := next.process.value.holder.pc.policy;
          if NonePending(s.tables.proposals, policy.id) {
            ShrinkKeepsNone(s.tables.proposals, next.tables.proposals, policy.id);
          }
        }
      }
    }
  }

  lemma {:induction false} RunKeepsProposals(s: State, actions: seq<Action>)
    requires ProposalInv(s) && Run(s, actions).Some?
    ensures ProposalInv(Run(s, actions).value) && Run(s, actions).value.wild == s.wild
    decreases |actions|
  {
    if actions != [] {
      StepKeepsProposals(s, actions[0]);
      WildIsFixed(s, actions[0]);
      RunKeepsProposals(Step(s, actions[0]).value, actions[1..]);
    }
  }

  lemma WildIsFixed(s: State, a: Action)
    requires Step(s, a).Some?
    ensures Step(s, a).value.wild == s.wild
  {
  }

  /** In every run: pending proposals of a policy differ; a policy for one event type has at most one, and none while
      it is inactive, even when a crash falls between superseding, activating and creating. */
  lemma PendingProposals(wild: set<PolicyId>, actions: seq<Action>)
    requires Run(Initial(wild), actions).Some?
    ensures var t := Run(Initial(wild), actions).value.tables;
            PendingDistinct(t.proposals) && OnePending(t.proposals, wild) && InactiveHasNone(t, wild)
  {
    RunKeepsProposals(Initial(wild), actions);
  }
}

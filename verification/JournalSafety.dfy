/** The journal under every interleaving of appenders, one learner and one finalizer, each free to stop anywhere. */
module JournalSafety {
  import opened Wrappers
  import opened Journal
  import opened JournalFiles
  import Verification

  datatype Learner = Resting | Learning(service: string, ids: set<string>)

  /** Where finalize is: before the runs left, or archiving one under the journal's lock, or about to save one. */
  datatype Finalizer =
    | Idle
    | Walking(left: seq<Run>)
    | Copying(run: Run, learnt: seq<Entry>, k: nat, left: seq<Run>)
    | Saving(run: Run, left: seq<Run>)

  /** `accepted` collects the records that append wrote. */
  datatype State = State(disk: Disk, learner: Learner, finalizer: Finalizer, accepted: set<Entry>)

  datatype Action =
    | Append(batch: seq<Entry>)
    | Check(service: string, minRecords: nat)
    | Stage(id: string, before: Option<string>, pending: seq<string>)
    | Begin(order: seq<string>)
    | Take(world: World)
    | Copy
    | Replace
    | Save
    | StopLearner
    | StopFinalizer

  function AddedBy(unlearnt: seq<Entry>, batch: seq<Entry>): seq<Entry> {
    if AllValid(batch) then Added(IdsOf(unlearnt), batch) else []
  }

  function Snapshot(runs: map<string, Run>, order: seq<string>): (left: seq<Run>)
    requires forall id :: id in order ==> id in runs
    ensures |left| == |order| && forall i :: 0 <= i < |order| ==> left[i] == runs[order[i]]
  {
    if order == [] then [] else [runs[order[0]]] + Snapshot(runs, order[1..])
  }

  predicate Distinct(order: seq<string>) {
    forall i, j :: 0 <= i < j < |order| ==> order[i] != order[j]
  }

  /** The next run of finalize: skipped, to be dismissed, or to be archived. */
  function TakeNext(unlearnt: seq<Entry>, run: Run, left: seq<Run>, world: World): Finalizer {
    if run.status != Staged then Walking(left)
    else
      match Decide(run, world)
      case Waiting => Walking(left)
      case Rejected => Saving(run.(status := Dismissed), left)
      case Approved(sha) =>
        var done := run.(status := Learnt, sha := Some(sha));
        var learnt := Within(unlearnt, run.ids);
        if learnt == [] then Saving(done, left) else Copying(done, learnt, 0, left)
  }

  /** The state after an action, None where it cannot happen. */
  function Next(s: State, a: Action): Option<State> {
    var d, f := s.disk, s.finalizer;
    match a
    case Append(batch) =>
      if f.Copying? then None
      else
        var added := AddedBy(d.unlearnt, batch);
        Some(s.(disk := d.(unlearnt := d.unlearnt + added), accepted := s.accepted + set e | e in added))
    case Check(service, minRecords) =>
      var ids := IdsOf(Batch(d.unlearnt, service, minRecords, d.unlearnt));
      if s.learner.Learning? || f.Copying? || HasStaged(d.runs, service) || service == "unknown" || ids == {} then None
      else Some(s.(learner := Learning(service, ids)))
    case Stage(id, before, pending) =>
      if s.learner.Resting? || id in d.runs then None
      else
        var run := Run(id, s.learner.service, s.learner.ids, before, pending, Staged, None);
        Some(s.(disk := d.(runs := d.runs[id := run]), learner := Resting))
    case Begin(order) =>
      if !f.Idle? || !Distinct(order) || exists id :: id in order && id !in d.runs then None
      else Some(s.(finalizer := Walking(Snapshot(d.runs, order))))
    case Take(world) =>
      if !f.Walking? || f.left == [] then None
      else Some(s.(finalizer := TakeNext(d.unlearnt, f.left[0], f.left[1..], world)))
    case Copy =>
      if !f.Copying? || f.k >= |f.learnt| then None
      else Some(s.(disk := Apply(d, AddToArchive(f.run.id, f.learnt[f.k])), finalizer := f.(k := f.k + 1)))
    case Replace =>
      if !f.Copying? || f.k < |f.learnt| then None
      else Some(s.(disk := d.(unlearnt := Without(d.unlearnt, f.run.ids)), finalizer := Saving(f.run, f.left)))
    case Save =>
      if !f.Saving? then None
      else Some(s.(disk := Apply(d, SaveRun(f.run)), finalizer := Walking(f.left)))
    case StopLearner => Some(s.(learner := Resting))
    case StopFinalizer => Some(s.(finalizer := Idle))
  }

  // ----- the invariant

  /** Every accepted record is still waiting or in an archive. */
  ghost predicate Conserved(unlearnt: seq<Entry>, archives: map<string, seq<Entry>>, accepted: set<Entry>) {
    forall e :: e in accepted ==> e in unlearnt || exists id :: id in archives && e in archives[id]
  }

  /** The archive of a run holds only records it was staged for. */
  ghost predicate OwnIds(archives: map<string, seq<Entry>>, runs: map<string, Run>) {
    forall id :: id in archives ==> OwnArchive(archives[id], id, runs)
  }

  predicate OwnArchive(archive: seq<Entry>, id: string, runs: map<string, Run>) {
    id in runs && forall e :: e in archive ==> IdOf(e) in runs[id].ids
  }

  ghost predicate OneStaged(runs: map<string, Run>) {
    forall a, b :: a in runs && b in runs && BothStaged(runs[a], runs[b]) ==> a == b
  }

  /** Staged for the same service. */
  predicate BothStaged(a: Run, b: Run) {
    a.status == Staged && b.status == Staged && a.service == b.service
  }

  predicate LearnerAlone(learner: Learner, runs: map<string, Run>) {
    learner.Learning? ==> !HasStaged(runs, learner.service)
  }

  /** A run finalize holds is the saved one, apart from what finalize is about to change. */
  predicate Held(run: Run, runs: map<string, Run>) {
    run.id in runs && runs[run.id].ids == run.ids && runs[run.id].service == run.service
  }

  predicate StillStaged(run: Run, runs: map<string, Run>) {
    run.id in runs && runs[run.id].status == Staged
  }

  predicate LeftHeld(left: seq<Run>, runs: map<string, Run>) {
    && (forall r :: r in left ==> Held(r, runs) && (r.status == Staged ==> StillStaged(r, runs)))
    && forall i, j :: 0 <= i < j < |left| ==> left[i].id != left[j].id
  }

  predicate RunInHand(run: Run, left: seq<Run>, runs: map<string, Run>) {
    && Held(run, runs) && StillStaged(run, runs) && run.status != Staged
    && LeftHeld(left, runs) && forall r :: r in left ==> r.id != run.id
  }

  predicate CopiesDone(f: Finalizer, d: Disk) {
    f.Copying? ==>
      && f.run.status == Learnt && f.learnt == Within(d.unlearnt, f.run.ids) && f.k <= |f.learnt|
      && forall i :: 0 <= i < f.k ==> f.learnt[i] in ArchiveOf(d, f.run.id)
  }

  predicate FinalizerHolds(f: Finalizer, runs: map<string, Run>) {
    match f
    case Idle => true
    case Walking(left) => LeftHeld(left, runs)
    case Copying(run, _, _, left) => RunInHand(run, left, runs)
    case Saving(run, left) => RunInHand(run, left, runs)
  }

  ghost predicate Inv(s: State) {
    && UniqueIds(s.disk.unlearnt) && RunsKeyed(s.disk)
    && Conserved(s.disk.unlearnt, s.disk.archives, s.accepted)
    && OwnIds(s.disk.archives, s.disk.runs)
    && OneStaged(s.disk.runs) && LearnerAlone(s.learner, s.disk.runs)
    && FinalizerHolds(s.finalizer, s.disk.runs) && CopiesDone(s.finalizer, s.disk)
  }

  // ----- each action keeps it

  lemma AppendKeeps(s: State, batch: seq<Entry>)
    requires Inv(s) && !s.finalizer.Copying?
    ensures Inv(Next(s, Append(batch)).value)
  {
    var u := s.disk.unlearnt;
    var added := AddedBy(u, batch);
    AppendKeepsUnique(u, batch);
    assert u + added == Appended(u, batch);
    assert Conserved(u + added, s.disk.archives, s.accepted + set e | e in added);
  }

  lemma TakeKeeps(s: State, world: World)
    requires Inv(s) && Next(s, Take(world)).Some?
    ensures Inv(Next(s, Take(world)).value)
  {
    var left := s.finalizer.left;
    var run, rest := left[0], left[1..];
    assert run in left;
    forall r | r in rest ensures r in left && r.id != run.id {
      var i :| 0 <= i < |rest| && rest[i] == r;
      assert left[i + 1] == r;
    }
    assert LeftHeld(rest, s.disk.runs);
  }

  lemma CopyKeeps(s: State)
    requires Inv(s) && Next(s, Copy).Some?
    ensures Inv(Next(s, Copy).value)
  {
    var f, d := s.finalizer, s.disk;
    var t := Next(s, Copy).value;
    var e := f.learnt[f.k];
    WithinMembers(d.unlearnt, f.run.ids);
    assert e in f.learnt;
    assert ArchiveOf(t.disk, f.run.id) == ArchiveOf(d, f.run.id) + [e];
    CopyConserves(d, f.run.id, e, s.accepted);
    forall id | id in t.disk.archives ensures OwnArchive(t.disk.archives[id], id, d.runs) {
      assert id in d.archives ==> OwnArchive(d.archives[id], id, d.runs);
    }
  }

  lemma CopyConserves(d: Disk, id: string, e: Entry, accepted: set<Entry>)
    requires Conserved(d.unlearnt, d.archives, accepted)
    ensures Conserved(d.unlearnt, Apply(d, AddToArchive(id, e)).archives, accepted)
  {
    var after := Apply(d, AddToArchive(id, e)).archives;
    forall x | x in accepted && x !in d.unlearnt ensures exists other :: other in after && x in after[other] {
      var other :| other in d.archives && x in d.archives[other];
      assert x in after[other];
    }
  }

  lemma ReplaceKeeps(s: State)
    requires Inv(s) && Next(s, Replace).Some?
    ensures Inv(Next(s, Replace).value)
  {
    var f, d := s.finalizer, s.disk;
    WithoutUnique(d.unlearnt, f.run.ids);
    WithinMembers(d.unlearnt, f.run.ids);
    forall e | e in s.accepted && e !in Without(d.unlearnt, f.run.ids)
      ensures exists id :: id in d.archives && e in d.archives[id]
    {
      if e in d.unlearnt {
        assert e in f.learnt;
        var i :| 0 <= i < |f.learnt| && f.learnt[i] == e;
        assert e in ArchiveOf(d, f.run.id);
      }
    }
  }

  lemma SaveKeeps(s: State)
    requires Inv(s) && Next(s, Save).Some?
    ensures Inv(Next(s, Save).value)
  {
    var f, runs := s.finalizer, s.disk.runs;
    var after := Next(s, Save).value.disk.runs;
    assert after == runs[f.run.id := f.run];
    assert LeftHeld(f.left, after);
    assert OneStaged(after);
  }

  lemma BeginKeeps(s: State, order: seq<string>)
    requires Inv(s) && Next(s, Begin(order)).Some?
    ensures Inv(Next(s, Begin(order)).value)
  {
  }

  /** Checking and staging a run, and stopping. */
  lemma OthersKeep(s: State, a: Action)
    requires Inv(s) && Next(s, a).Some? && (a.Check? || a.Stage? || a.StopLearner? || a.StopFinalizer?)
    ensures Inv(Next(s, a).value)
  {
  }

  lemma StepKeepsInv(s: State, a: Action)
    requires Inv(s) && Next(s, a).Some?
    ensures Inv(Next(s, a).value)
  {
    match a {
      case Append(batch) => AppendKeeps(s, batch);
      case Take(world) => TakeKeeps(s, world);
      case Copy => CopyKeeps(s);
      case Replace => ReplaceKeeps(s);
      case Save => SaveKeeps(s);
      case Begin(order) => BeginKeeps(s, order);
      case _ => OthersKeep(s, a);
    }
  }

  // ----- runs

  const START := State(Disk([], map[], map[]), Resting, Idle, {})

  /** The state after these actions, in this order; None when one of them could not happen. */
  function RunOf(actions: seq<Action>): Option<State> {
    if actions == [] then Some(START)
    else
      var n := |actions| - 1;
      var before := RunOf(actions[..n]);
      if before.None? then None else Next(before.value, actions[n])
  }

  lemma {:induction false} RunKeepsInv(actions: seq<Action>)
    requires RunOf(actions).Some?
    ensures Inv(RunOf(actions).value)
    decreases |actions|
  {
    if actions != [] {
      var n := |actions| - 1;
      RunKeepsInv(actions[..n]);
      StepKeepsInv(RunOf(actions[..n]).value, actions[n]);
    }
  }

  /** In every run, whatever stops where: no accepted record is lost, waiting ids are unique, archives hold only records
      their run was staged for, and no service has two staged runs. */
  lemma JournalIsSafe(actions: seq<Action>)
    requires RunOf(actions).Some?
    ensures var s := RunOf(actions).value;
            && UniqueIds(s.disk.unlearnt) && Conserved(s.disk.unlearnt, s.disk.archives, s.accepted)
            && OwnIds(s.disk.archives, s.disk.runs) && OneStaged(s.disk.runs)
  {
    RunKeepsInv(actions);
  }

  /** So the learner never sees one record id twice, which is what keeps its rules from containing one another
      (Verification.KeptNeverContains). */
  lemma LearnerSeesDistinctIds(actions: seq<Action>, service: string, minRecords: nat)
    requires RunOf(actions).Some?
    ensures var unlearnt := RunOf(actions).value.disk.unlearnt;
            Verification.DistinctIds(RecordsOf(Batch(unlearnt, service, minRecords, unlearnt)))
  {
    RunKeepsInv(actions);
    var unlearnt := RunOf(actions).value.disk.unlearnt;
    BatchUnique(unlearnt, service, minRecords, unlearnt);
  }

  /** What one action can change: a decided run keeps its status, a run keeps its ids and its service; records leave the
      journal only for the archive of a run being learnt, which holds them all. */
  lemma DecidedStaysDecided(s: State, a: Action, id: string)
    requires Inv(s) && Next(s, a).Some? && id in s.disk.runs
    ensures var t := Next(s, a).value;
            && id in t.disk.runs && t.disk.runs[id].ids == s.disk.runs[id].ids
            && t.disk.runs[id].service == s.disk.runs[id].service
            && (s.disk.runs[id].status != Staged ==> t.disk.runs[id] == s.disk.runs[id])
  {
  }

  lemma LeavesOnlyForArchive(s: State, a: Action, e: Entry)
    requires Inv(s) && Next(s, a).Some? && e in s.disk.unlearnt && e !in Next(s, a).value.disk.unlearnt
    ensures a == Replace && s.finalizer.run.status == Learnt && IdOf(e) in s.finalizer.run.ids
    ensures e in ArchiveOf(s.disk, s.finalizer.run.id)
  {
    if a.Replace? {
      WithinMembers(s.disk.unlearnt, s.finalizer.run.ids);
      assert e in s.finalizer.learnt;
      var i :| 0 <= i < |s.finalizer.learnt| && s.finalizer.learnt[i] == e;
    }
  }
}

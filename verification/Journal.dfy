/** The learning journal: records waiting to be learnt, archives of learnt ones, and the runs of the learner
    (Journal in autonomy/learning.py, finalize and run_service in autonomy/learning_runner.py). */
module Journal {
  import opened Wrappers
  import Records

  /** A record with what the journal reads of it beside what the learner does. */
  datatype Entry = Entry(record: Records.Record, service: string, valid: bool)

  datatype Status = Staged | Learnt | Dismissed

  datatype Run = Run(
    id: string, service: string, ids: set<string>, before: Option<string>, pending: seq<string>, status: Status,
    sha: Option<string>)

  datatype Disk = Disk(unlearnt: seq<Entry>, archives: map<string, seq<Entry>>, runs: map<string, Run>)

  /** What finalize sees outside the journal: fingerprints of the skill files, which of them can be read, and the staged
      writes that are still waiting. */
  datatype World = World(sha: map<string, string>, readable: set<string>, waiting: set<string>)

  // ----- unlearnt records

  function IdOf(e: Entry): string {
    e.record.id
  }

  function IdsOf(entries: seq<Entry>): set<string> {
    set e | e in entries :: IdOf(e)
  }

  ghost predicate UniqueIds(entries: seq<Entry>) {
    forall i, j :: 0 <= i < j < |entries| ==> IdOf(entries[i]) != IdOf(entries[j])
  }

  predicate AllValid(batch: seq<Entry>) {
    forall e :: e in batch ==> e.valid
  }

  /** The records of a batch whose ids are not known yet, each id once. */
  function Added(known: set<string>, batch: seq<Entry>): seq<Entry>
    decreases |batch|
  {
    if batch == [] then []
    else if IdOf(batch[0]) in known then Added(known, batch[1..])
    else [batch[0]] + Added(known + {IdOf(batch[0])}, batch[1..])
  }

  function Appended(unlearnt: seq<Entry>, batch: seq<Entry>): seq<Entry> {
    if AllValid(batch) then unlearnt + Added(IdsOf(unlearnt), batch) else unlearnt
  }

  function Within(entries: seq<Entry>, ids: set<string>): seq<Entry> {
    if entries == [] then []
    else (if IdOf(entries[0]) in ids then [entries[0]] else []) + Within(entries[1..], ids)
  }

  function Without(entries: seq<Entry>, ids: set<string>): seq<Entry> {
    if entries == [] then []
    else (if IdOf(entries[0]) in ids then [] else [entries[0]]) + Without(entries[1..], ids)
  }

  lemma {:induction false} AddedMembers(known: set<string>, batch: seq<Entry>)
    ensures UniqueIds(Added(known, batch)) && IdsOf(Added(known, batch)) == IdsOf(batch) - known
    ensures forall e :: e in Added(known, batch) ==> e in batch && IdOf(e) !in known
    decreases |batch|
  {
    if batch != [] {
      var first := IdOf(batch[0]);
      assert IdsOf(batch) == {first} + IdsOf(batch[1..]);
      if first in known {
        AddedMembers(known, batch[1..]);
      } else {
        AddedMembers(known + {first}, batch[1..]);
        var rest := Added(known + {first}, batch[1..]);
        assert forall j :: 0 <= j < |rest| ==> rest[j] in rest;
        assert IdsOf([batch[0]] + rest) == {first} + IdsOf(rest);
      }
    }
  }

  /** Appending is all or nothing and keeps ids unique; afterwards each id of a valid batch is there exactly once. */
  lemma AppendKeepsUnique(unlearnt: seq<Entry>, batch: seq<Entry>)
    requires UniqueIds(unlearnt)
    ensures UniqueIds(Appended(unlearnt, batch)) && unlearnt <= Appended(unlearnt, batch)
    ensures IdsOf(Appended(unlearnt, batch)) == IdsOf(unlearnt) + if AllValid(batch) then IdsOf(batch) else {}
  {
    if AllValid(batch) {
      var more := Added(IdsOf(unlearnt), batch);
      AddedMembers(IdsOf(unlearnt), batch);
      JoinedUnique(unlearnt, more);
      assert IdsOf(unlearnt + more) == IdsOf(unlearnt) + IdsOf(more);
    }
  }

  lemma JoinedUnique(a: seq<Entry>, b: seq<Entry>)
    requires UniqueIds(a) && UniqueIds(b) && forall e :: e in b ==> IdOf(e) !in IdsOf(a)
    ensures UniqueIds(a + b)
  {
    forall i, j | 0 <= i < j < |a + b| ensures IdOf((a + b)[i]) != IdOf((a + b)[j]) {
      if i < |a| <= j {
        assert a[i] in a && b[j - |a|] in b;
      }
    }
  }

  lemma {:induction false} WithinMembers(entries: seq<Entry>, ids: set<string>)
    ensures forall e :: e in Within(entries, ids) <==> e in entries && IdOf(e) in ids
    ensures forall e :: e in Without(entries, ids) <==> e in entries && IdOf(e) !in ids
  {
    if entries != [] { WithinMembers(entries[1..], ids); }
  }

  lemma {:induction false} WithoutUnique(entries: seq<Entry>, ids: set<string>)
    requires UniqueIds(entries)
    ensures UniqueIds(Without(entries, ids))
  {
    if entries != [] {
      assert forall i :: 0 <= i < |entries[1..]| ==> entries[1..][i] == entries[i + 1];
      WithoutUnique(entries[1..], ids);
      WithinMembers(entries[1..], ids);
      var rest := Without(entries[1..], ids);
      forall j | 0 <= j < |rest| ensures IdOf(rest[j]) != IdOf(entries[0]) {
        assert rest[j] in rest;
        var i :| 0 <= i < |entries[1..]| && entries[1..][i] == rest[j];
      }
    }
  }

  lemma {:induction false} NoneWithin(entries: seq<Entry>, ids: set<string>)
    requires forall e :: e in entries ==> IdOf(e) !in ids
    ensures Within(entries, ids) == [] && Without(entries, ids) == entries
  {
    if entries != [] {
      assert entries[0] in entries && forall e :: e in entries[1..] ==> e in entries;
      NoneWithin(entries[1..], ids);
    }
  }

  lemma WithoutTwice(entries: seq<Entry>, ids: set<string>)
    ensures Within(Without(entries, ids), ids) == [] && Without(Without(entries, ids), ids) == Without(entries, ids)
  {
    WithinMembers(entries, ids);
    NoneWithin(Without(entries, ids), ids);
  }

  lemma {:induction false} NothingWithin(entries: seq<Entry>, ids: set<string>)
    requires Within(entries, ids) == []
    ensures Without(entries, ids) == entries
  {
    if entries != [] {
      assert IdOf(entries[0]) !in ids;
      assert [] + Within(entries[1..], ids) == Within(entries[1..], ids);
      NothingWithin(entries[1..], ids);
    }
  }

  // ----- finalize

  datatype Outcome = Approved(sha: string) | Rejected | Waiting

  /** What becomes of a staged run. A changed skill file that cannot be read waits for repair. */
  function Decide(run: Run, world: World): Outcome {
    if run.service in world.sha && Some(world.sha[run.service]) != run.before then
      if run.service in world.readable then Approved(world.sha[run.service]) else Waiting
    else if exists p :: p in run.pending && p in world.waiting then Waiting
    else Rejected
  }

  function ArchiveOf(d: Disk, id: string): seq<Entry> {
    if id in d.archives then d.archives[id] else []
  }

  datatype Write = AddToArchive(id: string, e: Entry) | ReplaceUnlearnt(entries: seq<Entry>) | SaveRun(run: Run)

  function Apply(d: Disk, w: Write): Disk {
    match w
    case AddToArchive(id, e) => d.(archives := d.archives[id := ArchiveOf(d, id) + [e]])
    case ReplaceUnlearnt(entries) => d.(unlearnt := entries)
    case SaveRun(run) => d.(runs := d.runs[run.id := run])
  }

  function ApplyAll(d: Disk, ws: seq<Write>): Disk
    decreases |ws|
  {
    if ws == [] then d else ApplyAll(Apply(d, ws[0]), ws[1..])
  }

  function Copies(id: string, entries: seq<Entry>): seq<Write> {
    if entries == [] then [] else [AddToArchive(id, entries[0])] + Copies(id, entries[1..])
  }

  function ArchiveWrites(d: Disk, run: Run): seq<Write> {
    var learnt := Within(d.unlearnt, run.ids);
    if learnt == [] then [] else Copies(run.id, learnt) + [ReplaceUnlearnt(Without(d.unlearnt, run.ids))]
  }

  /** The writes of one round of finalize, in order. */
  function RunWrites(d: Disk, run: Run, world: World): seq<Write> {
    if run.status != Staged then []
    else
      match Decide(run, world)
      case Approved(sha) => ArchiveWrites(d, run) + [SaveRun(run.(status := Learnt, sha := Some(sha)))]
      case Rejected => [SaveRun(run.(status := Dismissed))]
      case Waiting => []
  }

  predicate RunsKeyed(d: Disk) {
    forall id :: id in d.runs ==> d.runs[id].id == id
  }

  /** One round, for the run saved under a name. */
  function FinalizeOne(d: Disk, id: string, world: World): Disk {
    if id in d.runs then ApplyAll(d, RunWrites(d, d.runs[id], world)) else d
  }

  /** finalize, over the runs in the order of their files. */
  function Finalize(d: Disk, order: seq<string>, world: World): Disk
    decreases |order|
  {
    if order == [] then d else Finalize(FinalizeOne(d, order[0], world), order[1..], world)
  }

  lemma {:induction false} ApplyAppend(d: Disk, a: seq<Write>, b: seq<Write>)
    ensures ApplyAll(d, a + b) == ApplyAll(ApplyAll(d, a), b)
    decreases |a|
  {
    if a == [] {
      assert a + b == b;
    } else {
      assert (a + b)[1..] == a[1..] + b;
      ApplyAppend(Apply(d, a[0]), a[1..], b);
    }
  }

  lemma {:induction false} ApplyCopies(d: Disk, id: string, entries: seq<Entry>)
    ensures ApplyAll(d, Copies(id, entries))
            == if entries == [] then d else d.(archives := d.archives[id := ArchiveOf(d, id) + entries])
    decreases |entries|
  {
    if entries != [] {
      var next := Apply(d, AddToArchive(id, entries[0]));
      assert Copies(id, entries)[1..] == Copies(id, entries[1..]);
      ApplyCopies(next, id, entries[1..]);
      CopiedNext(d, id, entries);
    }
  }

  lemma CopiedNext(d: Disk, id: string, entries: seq<Entry>)
    requires entries != []
    ensures var next := Apply(d, AddToArchive(id, entries[0]));
            (if entries[1..] == [] then next
             else next.(archives := next.archives[id := ArchiveOf(next, id) + entries[1..]]))
            == d.(archives := d.archives[id := ArchiveOf(d, id) + entries])
  {
    assert ArchiveOf(d, id) + [entries[0]] + entries[1..] == ArchiveOf(d, id) + entries;
    UpdatedTwice(d.archives, id, ArchiveOf(d, id) + [entries[0]], ArchiveOf(d, id) + entries);
    if entries[1..] == [] {
      assert entries == [entries[0]];
    }
  }

  lemma UpdatedTwice(archives: map<string, seq<Entry>>, id: string, first: seq<Entry>, second: seq<Entry>)
    ensures archives[id := first][id := second] == archives[id := second]
  {
  }

  /** What archiving does to the disk: the learnt records move into the archive of the run. */
  lemma ArchiveMoves(d: Disk, run: Run)
    ensures var learnt := Within(d.unlearnt, run.ids);
            ApplyAll(d, ArchiveWrites(d, run))
            == if learnt == [] then d
               else d.(unlearnt := Without(d.unlearnt, run.ids),
                       archives := d.archives[run.id := ArchiveOf(d, run.id) + learnt])
  {
    var learnt := Within(d.unlearnt, run.ids);
    if learnt != [] {
      var replace := ReplaceUnlearnt(Without(d.unlearnt, run.ids));
      ApplyAppend(d, Copies(run.id, learnt), [replace]);
      ApplyCopies(d, run.id, learnt);
      var copied := ApplyAll(d, Copies(run.id, learnt));
      assert ApplyAll(copied, [replace]) == Apply(copied, replace);
    }
  }

  /** One round of finalize: an approved run archives exactly its own staged ids; a rejected one moves nothing. */
  lemma FinalizeOneIs(d: Disk, id: string, world: World)
    requires id in d.runs && RunsKeyed(d)
    ensures var run := d.runs[id];
            var after := FinalizeOne(d, id, world);
            if run.status != Staged || Decide(run, world).Waiting? then after == d
            else if Decide(run, world).Rejected? then after == d.(runs := d.runs[id := run.(status := Dismissed)])
            else
              && after.unlearnt == Without(d.unlearnt, run.ids)
              && after.runs == d.runs[id := run.(status := Learnt, sha := Some(Decide(run, world).sha))]
              && ArchiveOf(after, id) == ArchiveOf(d, id) + Within(d.unlearnt, run.ids)
              && forall other :: other != id ==> ArchiveOf(after, other) == ArchiveOf(d, other)
  {
    var run := d.runs[id];
    if run.status == Staged && Decide(run, world).Approved? {
      var save := SaveRun(run.(status := Learnt, sha := Some(Decide(run, world).sha)));
      ApplyAppend(d, ArchiveWrites(d, run), [save]);
      ArchiveMoves(d, run);
      var moved := ApplyAll(d, ArchiveWrites(d, run));
      assert ApplyAll(moved, [save]) == Apply(moved, save);
      if Within(d.unlearnt, run.ids) == [] {
        NothingWithin(d.unlearnt, run.ids);
      }
    } else if run.status == Staged && Decide(run, world).Rejected? {
      var save := SaveRun(run.(status := Dismissed));
      assert ApplyAll(d, [save]) == Apply(d, save);
    }
  }
}

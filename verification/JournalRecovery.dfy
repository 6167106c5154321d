/** finalize can be repeated: stopped after any of its writes, running it again ends where it would have ended. */
module JournalRecovery {
  import opened Journal

  /** The same records wait, the runs have the same status, and each archive holds the same records; a repeated copy
      may leave some of them in an archive twice. */
  ghost predicate Same(a: Disk, b: Disk) {
    && a.unlearnt == b.unlearnt && a.runs == b.runs
    && forall id, e :: e in ArchiveOf(a, id) <==> e in ArchiveOf(b, id)
  }

  function AllWrites(d: Disk, order: seq<string>, world: World): seq<Write>
    decreases |order|
  {
    if order == [] then []
    else (if order[0] in d.runs then RunWrites(d, d.runs[order[0]], world) else [])
         + AllWrites(FinalizeOne(d, order[0], world), order[1..], world)
  }

  /** The writes are what finalize does. */
  lemma {:induction false} WritesFinalize(d: Disk, order: seq<string>, world: World)
    ensures ApplyAll(d, AllWrites(d, order, world)) == Finalize(d, order, world)
    decreases |order|
  {
    if order != [] {
      var next := FinalizeOne(d, order[0], world);
      var first := if order[0] in d.runs then RunWrites(d, d.runs[order[0]], world) else [];
      ApplyAppend(d, first, AllWrites(next, order[1..], world));
      WritesFinalize(next, order[1..], world);
    }
  }

  /** Finalizing this run again would change nothing. */
  predicate NothingLeft(d: Disk, id: string, world: World) {
    id in d.runs ==> d.runs[id].status != Staged || Decide(d.runs[id], world).Waiting?
  }

  lemma FinalizeOneSettles(d: Disk, id: string, world: World)
    requires RunsKeyed(d)
    ensures RunsKeyed(FinalizeOne(d, id, world)) && NothingLeft(FinalizeOne(d, id, world), id, world)
    ensures NothingLeft(d, id, world) ==> FinalizeOne(d, id, world) == d
  {
    if id in d.runs { FinalizeOneIs(d, id, world); }
  }

  lemma FinalizeOneRespects(a: Disk, b: Disk, id: string, world: World)
    requires RunsKeyed(a) && Same(a, b)
    ensures Same(FinalizeOne(a, id, world), FinalizeOne(b, id, world))
  {
    if id in a.runs {
      FinalizeOneIs(a, id, world);
      FinalizeOneIs(b, id, world);
      var one, two := FinalizeOne(a, id, world), FinalizeOne(b, id, world);
      forall other, e ensures e in ArchiveOf(one, other) <==> e in ArchiveOf(two, other) {
        assert e in ArchiveOf(a, other) <==> e in ArchiveOf(b, other);
      }
    }
  }

  lemma {:induction false} FinalizeRespects(a: Disk, b: Disk, order: seq<string>, world: World)
    requires RunsKeyed(a) && Same(a, b)
    ensures Same(Finalize(a, order, world), Finalize(b, order, world))
    decreases |order|
  {
    if order != [] {
      FinalizeOneRespects(a, b, order[0], world);
      FinalizeOneSettles(a, order[0], world);
      FinalizeRespects(FinalizeOne(a, order[0], world), FinalizeOne(b, order[0], world), order[1..], world);
    }
  }

  // ----- stopped within one run

  lemma {:induction false} SomeCopies(id: string, entries: seq<Entry>, k: nat)
    requires k <= |entries|
    ensures |Copies(id, entries)| == |entries| && Copies(id, entries)[..k] == Copies(id, entries[..k])
    decreases |entries|
  {
    if entries != [] {
      SomeCopies(id, entries[1..], if k > 0 then k - 1 else 0);
      if k > 0 {
        assert entries[..k][0] == entries[0] && entries[..k][1..] == entries[1..][..k - 1];
        assert Copies(id, entries)[..k] == [AddToArchive(id, entries[0])] + Copies(id, entries[1..])[..k - 1];
      }
    }
  }

  /** Stopped among the copies, the archive has a few of the records and everything else is as before. */
  lemma StoppedCopying(d: Disk, run: Run, world: World, k: nat)
    requires run.status == Staged && Decide(run, world).Approved? && k <= |Within(d.unlearnt, run.ids)|
    requires Within(d.unlearnt, run.ids) != []
    ensures k <= |RunWrites(d, run, world)|
    ensures var p := ApplyAll(d, RunWrites(d, run, world)[..k]);
            && p.unlearnt == d.unlearnt && p.runs == d.runs
            && ArchiveOf(p, run.id) == ArchiveOf(d, run.id) + Within(d.unlearnt, run.ids)[..k]
            && forall other :: other != run.id ==> ArchiveOf(p, other) == ArchiveOf(d, other)
  {
    var learnt := Within(d.unlearnt, run.ids);
    CopiesFirst(d, run, world, k);
    ApplyCopies(d, run.id, learnt[..k]);
  }

  lemma CopiesFirst(d: Disk, run: Run, world: World, k: nat)
    requires run.status == Staged && Decide(run, world).Approved? && k <= |Within(d.unlearnt, run.ids)|
    requires Within(d.unlearnt, run.ids) != []
    ensures k <= |RunWrites(d, run, world)|
    ensures RunWrites(d, run, world)[..k] == Copies(run.id, Within(d.unlearnt, run.ids)[..k])
  {
    var learnt := Within(d.unlearnt, run.ids);
    SomeCopies(run.id, learnt, |learnt|);
    SomeCopies(run.id, learnt, k);
    assert RunWrites(d, run, world)[..k] == Copies(run.id, learnt)[..k];
  }

  lemma RepeatOne(d: Disk, id: string, world: World, k: nat)
    requires id in d.runs && RunsKeyed(d) && k < |RunWrites(d, d.runs[id], world)|
    ensures var p := ApplyAll(d, RunWrites(d, d.runs[id], world)[..k]);
            RunsKeyed(p) && Same(FinalizeOne(p, id, world), FinalizeOne(d, id, world))
  {
    var run := d.runs[id];
    var learnt := Within(d.unlearnt, run.ids);
    if Decide(run, world).Approved? {
      SomeCopies(id, learnt, 0);
      if learnt != [] && k <= |learnt| {
        StoppedCopying(d, run, world, k);
        RepeatCopied(d, ApplyAll(d, RunWrites(d, run, world)[..k]), id, world, k);
      } else {
        MovedParts(d, run);
        RepeatMoved(d, ApplyAll(d, ArchiveWrites(d, run)), id, world);
      }
    }
  }

  lemma RepeatCopied(d: Disk, p: Disk, id: string, world: World, k: nat)
    requires id in d.runs && RunsKeyed(d) && d.runs[id].status == Staged && Decide(d.runs[id], world).Approved?
    requires k <= |Within(d.unlearnt, d.runs[id].ids)|
    requires p.unlearnt == d.unlearnt && p.runs == d.runs
    requires ArchiveOf(p, id) == ArchiveOf(d, id) + Within(d.unlearnt, d.runs[id].ids)[..k]
    requires forall other :: other != id ==> ArchiveOf(p, other) == ArchiveOf(d, other)
    ensures Same(FinalizeOne(p, id, world), FinalizeOne(d, id, world))
  {
    FinalizeOneIs(d, id, world);
    FinalizeOneIs(p, id, world);
    var learnt := Within(d.unlearnt, d.runs[id].ids);
    forall other, e ensures e in ArchiveOf(FinalizeOne(p, id, world), other)
      <==> e in ArchiveOf(FinalizeOne(d, id, world), other) {
      if other == id && e in learnt[..k] {
        assert e in learnt;
      }
    }
  }

  lemma RepeatMoved(d: Disk, p: Disk, id: string, world: World)
    requires id in d.runs && RunsKeyed(d) && d.runs[id].status == Staged && Decide(d.runs[id], world).Approved?
    requires p.runs == d.runs && p.unlearnt == Without(d.unlearnt, d.runs[id].ids)
    requires ArchiveOf(p, id) == ArchiveOf(d, id) + Within(d.unlearnt, d.runs[id].ids)
    requires forall other :: other != id ==> ArchiveOf(p, other) == ArchiveOf(d, other)
    ensures Same(FinalizeOne(p, id, world), FinalizeOne(d, id, world))
  {
    FinalizeOneIs(d, id, world);
    FinalizeOneIs(p, id, world);
    WithoutTwice(d.unlearnt, d.runs[id].ids);
    var one, two := FinalizeOne(p, id, world), FinalizeOne(d, id, world);
    assert ArchiveOf(one, id) == ArchiveOf(two, id);
    assert forall other :: ArchiveOf(one, other) == ArchiveOf(two, other);
  }

  lemma MovedParts(d: Disk, run: Run)
    requires RunsKeyed(d)
    ensures var p := ApplyAll(d, ArchiveWrites(d, run));
            && RunsKeyed(p) && p.runs == d.runs && p.unlearnt == Without(d.unlearnt, run.ids)
            && ArchiveOf(p, run.id) == ArchiveOf(d, run.id) + Within(d.unlearnt, run.ids)
            && forall other :: other != run.id ==> ArchiveOf(p, other) == ArchiveOf(d, other)
  {
    ArchiveMoves(d, run);
    if Within(d.unlearnt, run.ids) == [] {
      NothingWithin(d.unlearnt, run.ids);
    }
  }

  // ----- stopped anywhere

  /** Writes of other runs leave a run's status alone. */
  lemma {:induction false} OthersKeepRun(d: Disk, ws: seq<Write>, id: string)
    requires RunsKeyed(d) && forall w :: w in ws && w.SaveRun? ==> w.run.id != id
    ensures var p := ApplyAll(d, ws);
            RunsKeyed(p) && (id in p.runs <==> id in d.runs) && (id in d.runs ==> p.runs[id] == d.runs[id])
    decreases |ws|
  {
    if ws != [] {
      assert ws[0] in ws;
      OthersKeepRun(Apply(d, ws[0]), ws[1..], id);
    }
  }

  lemma {:induction false} CopiesSaveNothing(id: string, entries: seq<Entry>)
    ensures forall w :: w in Copies(id, entries) ==> w.AddToArchive?
  {
    if entries != [] { CopiesSaveNothing(id, entries[1..]); }
  }

  lemma RunWritesSaveOwn(d: Disk, run: Run, world: World)
    ensures forall w :: w in RunWrites(d, run, world) && w.SaveRun? ==> w.run.id == run.id
  {
    CopiesSaveNothing(run.id, Within(d.unlearnt, run.ids));
  }

  lemma {:induction false} SavedInOrder(d: Disk, order: seq<string>, world: World)
    requires RunsKeyed(d)
    ensures forall w :: w in AllWrites(d, order, world) && w.SaveRun? ==> w.run.id in order
    decreases |order|
  {
    if order != [] {
      FinalizeOneSettles(d, order[0], world);
      SavedInOrder(FinalizeOne(d, order[0], world), order[1..], world);
      if order[0] in d.runs { RunWritesSaveOwn(d, d.runs[order[0]], world); }
    }
  }

  lemma RepeatFirst(d: Disk, id: string, rest: seq<string>, world: World, k: nat)
    requires RunsKeyed(d) && id in d.runs && k < |RunWrites(d, d.runs[id], world)|
    ensures var p := ApplyAll(d, RunWrites(d, d.runs[id], world)[..k]);
            Same(Finalize(FinalizeOne(p, id, world), rest, world), Finalize(FinalizeOne(d, id, world), rest, world))
  {
    RepeatOne(d, id, world, k);
    var p := ApplyAll(d, RunWrites(d, d.runs[id], world)[..k]);
    FinalizeOneSettles(d, id, world);
    FinalizeOneSettles(p, id, world);
    FinalizeRespects(FinalizeOne(p, id, world), FinalizeOne(d, id, world), rest, world);
  }

  /** Stopped after any number of its writes, finalize run again reaches the same journal and the same runs, as long as
      skill files and staged writes have not changed in between. */
  lemma {:induction false} RepeatAfterCrash(d: Disk, order: seq<string>, world: World, k: nat)
    requires RunsKeyed(d) && k <= |AllWrites(d, order, world)|
    requires forall i, j :: 0 <= i < j < |order| ==> order[i] != order[j]
    ensures Same(Finalize(ApplyAll(d, AllWrites(d, order, world)[..k]), order, world), Finalize(d, order, world))
    decreases |order|
  {
    if order != [] {
      var id, rest := order[0], order[1..];
      var next := FinalizeOne(d, id, world);
      var first := if id in d.runs then RunWrites(d, d.runs[id], world) else [];
      var later := AllWrites(next, rest, world);
      FinalizeOneSettles(d, id, world);
      if k < |first| {
        assert (first + later)[..k] == first[..k];
        RepeatFirst(d, id, rest, world, k);
      } else {
        assert (first + later)[..k] == first + later[..k - |first|];
        StoppedLater(d, id, first, rest, world, k - |first|);
        RepeatAfterCrash(next, rest, world, k - |first|);
      }
    }
  }

  /** Stopped after the first run's writes, finalize finds nothing to do for it. */
  lemma StoppedLater(d: Disk, id: string, first: seq<Write>, rest: seq<string>, world: World, k: nat)
    requires RunsKeyed(d) && id !in rest && first == if id in d.runs then RunWrites(d, d.runs[id], world) else []
    requires k <= |AllWrites(FinalizeOne(d, id, world), rest, world)|
    ensures var next := FinalizeOne(d, id, world);
            var more := AllWrites(next, rest, world)[..k];
            FinalizeOne(ApplyAll(d, first + more), id, world) == ApplyAll(next, more)
  {
    var next := FinalizeOne(d, id, world);
    FinalizeOneSettles(d, id, world);
    NothingLeftStays(next, rest, world, id, k);
    ApplyAppend(d, first, AllWrites(next, rest, world)[..k]);
  }

  lemma NothingLeftStays(d: Disk, rest: seq<string>, world: World, id: string, k: nat)
    requires RunsKeyed(d) && NothingLeft(d, id, world) && id !in rest && k <= |AllWrites(d, rest, world)|
    ensures var p := ApplyAll(d, AllWrites(d, rest, world)[..k]); RunsKeyed(p) && FinalizeOne(p, id, world) == p
  {
    SavedInOrder(d, rest, world);
    var ws := AllWrites(d, rest, world)[..k];
    forall w | w in ws && w.SaveRun? ensures w.run.id != id {
      assert w in AllWrites(d, rest, world);
    }
    OthersKeepRun(d, ws, id);
    FinalizeOneSettles(ApplyAll(d, ws), id, world);
  }
}

/** The journal as the object that rewrites its files, and the learner runs that use it. */
module JournalFiles {
  import opened Wrappers
  import opened Journal

  /** Operator responses waiting to be learnt, per service and event type; silent events are excluded. */
  function Responses(entries: seq<Entry>, service: string, event: string): nat {
    if entries == [] then 0
    else
      var n := |entries| - 1;
      Responses(entries[..n], service, event) + if Counts(entries[n], service, event) then 1 else 0
  }

  predicate Counts(e: Entry, service: string, event: string) {
    !e.record.kind.NoResponse? && e.service == service && e.record.event == event
  }

  method CountsByService(entries: seq<Entry>) returns (counts: map<(string, string), nat>)
    ensures forall service, event ::
              Responses(entries, service, event) == if (service, event) in counts then counts[(service, event)] else 0
    ensures forall key :: key in counts ==> counts[key] > 0
  {
    counts := map[];
    var i := 0;
    while i < |entries|
      invariant 0 <= i <= |entries|
      invariant forall service, event ::
                  Responses(entries[..i], service, event)
                  == if (service, event) in counts then counts[(service, event)] else 0
      invariant forall key :: key in counts ==> counts[key] > 0
    {
      assert entries[..i + 1][..i] == entries[..i];
      var e := entries[i];
      if !e.record.kind.NoResponse? {
        var key := (e.service, e.record.event);
        counts := counts[key := (if key in counts then counts[key] else 0) + 1];
      }
      i := i + 1;
    }
    assert entries[..i] == entries;
  }

  /** The records of the service whose event type has enough responses. */
  function Batch(entries: seq<Entry>, service: string, minRecords: nat, among: seq<Entry>): seq<Entry> {
    if entries == [] then []
    else
      var e := entries[0];
      (if e.service == service && Ready(among, service, e.record.event, minRecords) then [e] else [])
      + Batch(entries[1..], service, minRecords, among)
  }

  /** Ready events have at least one response, also when the threshold is zero. */
  predicate Ready(entries: seq<Entry>, service: string, event: string, minRecords: nat) {
    Responses(entries, service, event) > 0 && Responses(entries, service, event) >= minRecords
  }

  method ReadyEvents(entries: seq<Entry>, service: string, minRecords: nat) returns (ready: set<string>)
    ensures forall event :: event in ready <==> Ready(entries, service, event, minRecords)
  {
    var counts := CountsByService(entries);
    ready := set key | key in counts && key.0 == service && counts[key] >= minRecords :: key.1;
    forall event ensures event in ready <==> Ready(entries, service, event, minRecords) {
      var key := (service, event);
      assert Responses(entries, service, event) == if key in counts then counts[key] else 0;
      if Ready(entries, service, event, minRecords) {
        assert key in counts && key.1 == event;
      }
    }
  }

  method BatchIds(entries: seq<Entry>, service: string, minRecords: nat, ready: set<string>) returns (ids: set<string>)
    requires forall event :: event in ready <==> Ready(entries, service, event, minRecords)
    ensures ids == IdsOf(Batch(entries, service, minRecords, entries))
  {
    ids := {};
    var i := 0;
    while i < |entries|
      invariant 0 <= i <= |entries|
      invariant ids + IdsOf(Batch(entries[i..], service, minRecords, entries))
                == IdsOf(Batch(entries, service, minRecords, entries))
    {
      var e := entries[i];
      BatchNext(entries, i, service, minRecords);
      if e.service == service && e.record.event in ready {
        ids := ids + {IdOf(e)};
      }
      i := i + 1;
    }
  }

  lemma BatchNext(entries: seq<Entry>, i: nat, service: string, minRecords: nat)
    requires i < |entries|
    ensures var e, rest := entries[i], Batch(entries[i + 1..], service, minRecords, entries);
            IdsOf(Batch(entries[i..], service, minRecords, entries))
            == if e.service == service && Ready(entries, service, e.record.event, minRecords)
               then {IdOf(e)} + IdsOf(rest) else IdsOf(rest)
  {
    var e, rest := entries[i], Batch(entries[i + 1..], service, minRecords, entries);
    assert entries[i..][0] == e && entries[i..][1..] == entries[i + 1..];
    IdsOfMore(e, rest);
    assert [] + rest == rest;
  }

  lemma IdsOfMore(e: Entry, rest: seq<Entry>)
    ensures IdsOf([e] + rest) == {IdOf(e)} + IdsOf(rest)
  {
  }

  lemma {:induction false} BatchMembers(entries: seq<Entry>, service: string, minRecords: nat, among: seq<Entry>)
    ensures forall e :: e in Batch(entries, service, minRecords, among)
              <==> e in entries && e.service == service && Ready(among, service, e.record.event, minRecords)
  {
    if entries != [] { BatchMembers(entries[1..], service, minRecords, among); }
  }

  function RecordsOf(entries: seq<Entry>): (r: seq<Records.Record>)
    ensures |r| == |entries| && forall i :: 0 <= i < |r| ==> r[i] == entries[i].record
  {
    if entries == [] then [] else [entries[0].record] + RecordsOf(entries[1..])
  }

  lemma {:induction false} BatchUnique(entries: seq<Entry>, service: string, minRecords: nat, among: seq<Entry>)
    requires UniqueIds(entries)
    ensures UniqueIds(Batch(entries, service, minRecords, among))
  {
    if entries != [] {
      assert forall i :: 0 <= i < |entries[1..]| ==> entries[1..][i] == entries[i + 1];
      BatchUnique(entries[1..], service, minRecords, among);
      BatchMembers(entries[1..], service, minRecords, among);
      var rest := Batch(entries[1..], service, minRecords, among);
      forall j | 0 <= j < |rest| ensures IdOf(rest[j]) != IdOf(entries[0]) {
        assert rest[j] in rest;
        var i :| 0 <= i < |entries[1..]| && entries[1..][i] == rest[j];
      }
    }
  }

  lemma {:induction false} SomeResponse(entries: seq<Entry>, service: string, event: string)
    requires Responses(entries, service, event) > 0
    ensures exists e :: e in entries && Counts(e, service, event)
  {
    var n := |entries| - 1;
    if Counts(entries[n], service, event) {
      assert entries[n] in entries;
    } else {
      SomeResponse(entries[..n], service, event);
    }
  }

  /** A ready event puts at least one record into the batch. */
  lemma ReadyBatch(entries: seq<Entry>, service: string, minRecords: nat, event: string)
    requires Ready(entries, service, event, minRecords)
    ensures IdsOf(Batch(entries, service, minRecords, entries)) != {}
  {
    SomeResponse(entries, service, event);
    var e :| e in entries && Counts(e, service, event);
    BatchMembers(entries, service, minRecords, entries);
    assert IdOf(e) in IdsOf(Batch(entries, service, minRecords, entries));
  }

  predicate HasStaged(runs: map<string, Run>, service: string) {
    exists id :: id in runs && runs[id].status == Staged && runs[id].service == service
  }

  /** What a run of the learner comes to. */
  datatype RunResult = Refused | NothingReady | LearnerFailed | StagedRun(run: Run)

  class JournalStore {
    var unlearnt: seq<Entry>
    var archives: map<string, seq<Entry>>
    var runs: map<string, Run>

    function Contents(): Disk
      reads this
    {
      Disk(unlearnt, archives, runs)
    }

    constructor ()
      ensures Contents() == Disk([], map[], map[])
    {
      unlearnt, archives, runs := [], map[], map[];
    }

    /** None when a record is invalid: then nothing is written, whatever came before it in the batch. */
    method Append(batch: seq<Entry>) returns (added: Option<nat>)
      modifies this`unlearnt
      ensures added.Some? <==> AllValid(batch)
      ensures unlearnt == Appended(old(unlearnt), batch)
      ensures added.Some? ==> |unlearnt| == |old(unlearnt)| + added.value
    {
      var known := IdsOf(unlearnt);
      var lines := [];
      var i := 0;
      while i < |batch|
        invariant 0 <= i <= |batch|
        invariant AllValid(batch[..i])
        invariant lines + Added(known, batch[i..]) == Added(IdsOf(unlearnt), batch)
      {
        assert batch[i..][1..] == batch[i + 1..];
        if !batch[i].valid {
          return None;
        }
        assert batch[..i + 1] == batch[..i] + [batch[i]];
        if IdOf(batch[i]) !in known {
          known := known + {IdOf(batch[i])};
          lines := lines + [batch[i]];
        }
        i := i + 1;
      }
      assert batch[..i] == batch;
      unlearnt := unlearnt + lines;
      added := Some(|lines|);
    }

    /** The records with the ids, and the others. */
    static method Divide(entries: seq<Entry>, ids: set<string>) returns (within: seq<Entry>, without: seq<Entry>)
      ensures within == Within(entries, ids) && without == Without(entries, ids)
    {
      within, without := [], [];
      var i := 0;
      while i < |entries|
        invariant 0 <= i <= |entries|
        invariant within + Within(entries[i..], ids) == Within(entries, ids)
        invariant without + Without(entries[i..], ids) == Without(entries, ids)
      {
        assert entries[i..][1..] == entries[i + 1..];
        if IdOf(entries[i]) in ids {
          within := within + [entries[i]];
        } else {
          without := without + [entries[i]];
        }
        i := i + 1;
      }
    }

    /** Moves records out of the journal into the archive of a run, which keeps what it had. */
    method Archive(ids: set<string>, id: string) returns (moved: nat)
      modifies this`unlearnt, this`archives
      ensures moved == |Within(old(unlearnt), ids)| && unlearnt == Without(old(unlearnt), ids)
      ensures ArchiveOf(Contents(), id) == ArchiveOf(old(Contents()), id) + Within(old(unlearnt), ids)
      ensures moved == 0 ==> Contents() == old(Contents())
      ensures moved > 0 ==> archives == old(archives)[id := ArchiveOf(Contents(), id)]
    {
      var learnt, remaining := Divide(unlearnt, ids);
      if learnt == [] {
        NothingWithin(unlearnt, ids);
        return 0;
      }
      archives := archives[id := (if id in archives then archives[id] else []) + learnt];
      unlearnt := remaining;
      moved := |learnt|;
    }

    /** Archives the records of approved runs, dismisses rejected ones, and leaves the rest waiting. */
    method FinalizeRuns(order: seq<string>, world: World) returns (changed: seq<string>)
      requires RunsKeyed(Contents()) && forall id :: id in order ==> id in runs
      modifies this
      ensures Contents() == Finalize(old(Contents()), order, world)
      ensures RunsKeyed(Contents())
      ensures forall id :: id in changed ==> id in order
    {
      changed := [];
      var i := 0;
      while i < |order|
        invariant 0 <= i <= |order|
        invariant RunsKeyed(Contents()) && forall id :: id in order ==> id in runs
        invariant Finalize(Contents(), order[i..], world) == Finalize(old(Contents()), order, world)
        invariant forall id :: id in changed ==> id in order
      {
        assert order[i] in order && order[i..][0] == order[i] && order[i..][1..] == order[i + 1..];
        var saved := FinalizeRun(order[i], world);
        if saved {
          changed := changed + [order[i]];
        }
        i := i + 1;
      }
    }

    method FinalizeRun(id: string, world: World) returns (saved: bool)
      requires RunsKeyed(Contents()) && id in runs
      modifies this
      ensures Contents() == FinalizeOne(old(Contents()), id, world)
      ensures RunsKeyed(Contents()) && runs.Keys == old(runs).Keys
      ensures saved <==> old(runs)[id].status == Staged && !Decide(old(runs)[id], world).Waiting?
    {
      var run := runs[id];
      ghost var before := Contents();
      saved := false;
      if run.status == Staged {
        var outcome := Decide(run, world);
        match outcome {
          case Approved(sha) =>
            ArchivedAndSaved(before, run, sha, world);
            var _ := Archive(run.ids, run.id);
            runs := runs[id := run.(status := Learnt, sha := Some(sha))];
            saved := true;
          case Rejected =>
            FinalizeOneIs(before, id, world);
            runs := runs[id := run.(status := Dismissed)];
            saved := true;
          case Waiting =>
        }
      }
    }

    /** Stages one change per service at most: the records of the event types with enough responses are its batch. */
    method RunService(service: string, minRecords: nat, learner: Option<(string, Option<string>, string)>)
      returns (result: RunResult)
      requires RunsKeyed(Contents())
      requires learner.Some? ==> learner.value.0 !in runs
      modifies this`runs
      ensures RunsKeyed(Contents())
      ensures result.Refused? <==> HasStaged(old(runs), service)
      ensures result.NothingReady? <==>
                !HasStaged(old(runs), service)
                && (service == "unknown" || forall event :: !Ready(unlearnt, service, event, minRecords))
      ensures !result.StagedRun? ==> runs == old(runs)
      ensures result.StagedRun? ==>
                && learner.Some? && service != "unknown" && result.run.ids != {}
                && result.run == Run(learner.value.0, service, IdsOf(Batch(unlearnt, service, minRecords, unlearnt)),
                                     learner.value.1, [learner.value.2], Staged, None)
                && runs == old(runs)[result.run.id := result.run]
    {
      if HasStaged(runs, service) {
        return Refused;
      }
      var ready := ReadyEvents(unlearnt, service, minRecords);
      if service == "unknown" || ready == {} {
        return NothingReady;
      }
      var ids := BatchIds(unlearnt, service, minRecords, ready);
      var some :| some in ready;
      ReadyBatch(unlearnt, service, minRecords, some);
      if learner.None? {
        return LearnerFailed;
      }
      var run := Run(learner.value.0, service, ids, learner.value.1, [learner.value.2], Staged, None);
      runs := runs[run.id := run];
      result := StagedRun(run);
    }
  }

  lemma ArchivedAndSaved(d: Disk, run: Run, sha: string, world: World)
    requires RunsKeyed(d) && run.id in d.runs && d.runs[run.id] == run && run.status == Staged
              && Decide(run, world) == Approved(sha)
    ensures var learnt := Within(d.unlearnt, run.ids);
            FinalizeOne(d, run.id, world)
            == Disk(Without(d.unlearnt, run.ids),
                    if learnt == [] then d.archives else d.archives[run.id := ArchiveOf(d, run.id) + learnt],
                    d.runs[run.id := run.(status := Learnt, sha := Some(sha))])
  {
    var save := SaveRun(run.(status := Learnt, sha := Some(sha)));
    ApplyAppend(d, ArchiveWrites(d, run), [save]);
    ArchiveMoves(d, run);
    var moved := ApplyAll(d, ArchiveWrites(d, run));
    assert ApplyAll(moved, [save]) == Apply(moved, save);
    if Within(d.unlearnt, run.ids) == [] {
      NothingWithin(d.unlearnt, run.ids);
    }
  }
}

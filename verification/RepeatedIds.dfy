/** Two records with one id defeat verify_rules (autonomy/learning.py): it compares matched ids, not records. */
module RepeatedIds {
  import opened Wrappers
  import opened JsonValues
  import opened Rules
  import opened Records
  import opened Statistics
  import opened Fitting
  import opened Verification

  const TEACHES := Change("t", "a", Int(1))
  const TOOLS := [Tool("t", false, None)]

  /** The operator set "a" of tool "t" to 1 when the event had 1 in "x" and this in "y". */
  function TeachingRecord(y: int): Record {
    Record("k", "e", [("x", Int(1)), ("y", Int(y))], [], Instruction, [Call("t", [("a", Int(1))])], None)
  }

  /** When the field is 1, set "a" to 1. */
  function Proposal(field: string): Candidate {
    Candidate(Some("e"), Rule([Condition(field, Eq, Int(1))], [], "t", [("a", Int(1))]), true)
  }

  // ----- the records

  lemma FlatFields(x: Json, y: Json)
    requires x.Int? && y.Int?
    ensures Flatten(Obj([("x", x), ("y", y)]), "event") == [("event.x", x), ("event.y", y)]
  {
    var payload := [("x", x), ("y", y)];
    var value := Obj(payload);
    var first := payload[..1];
    assert first == [("x", x)] && first[..0] == [];
    assert "event" + "." + "x" == "event.x" && "event" + "." + "y" == "event.y";
    assert FlattenMembers(value, first[..0], "event") == [];
    var more := [("event.x", x)];
    assert Flatten(x, "event.x") == more;
    OneMore([], "event.x", x);
    assert FlattenMembers(value, first, "event") == more;
    OneMore(more, "event.y", y);
    assert Flatten(y, "event.y") == [("event.y", y)];
  }

  lemma OneMore(d: Dict, key: string, value: Json)
    requires forall m :: m in d ==> m.0 != key
    ensures Update(d, [(key, value)]) == d + [(key, value)]
  {
    PutLast(d, key, value);
    assert Update(Put(d, key, value), []) == Put(d, key, value);
  }

  lemma {:induction false} PutLast(d: Dict, key: string, value: Json)
    requires forall m :: m in d ==> m.0 != key
    ensures Put(d, key, value) == d + [(key, value)]
  {
    if d != [] {
      assert d[0] in d;
      PutLast(d[1..], key, value);
      assert [d[0]] + (d[1..] + [(key, value)]) == d + [(key, value)];
    }
  }

  lemma TaughtFields(y: int)
    ensures var fields := FieldsOf(TeachingRecord(y));
            && "event.x" in fields && fields["event.x"] == Int(1)
            && "event.y" in fields && fields["event.y"] == Int(y)
  {
    var r := TeachingRecord(y);
    FlatFields(Int(1), Int(y));
    var flat := Flatten(Obj(r.payload), "event");
    FieldGiven(r, "event.x", flat);
    FieldGiven(r, "event.y", flat);
  }

  lemma FieldGiven(r: Record, f: string, flat: Dict)
    requires flat == Flatten(Obj(r.payload), "event") && Get(flat, f).Some?
    requires "event" <= f && f[|f| - 1] != 't'
    ensures f in FieldsOf(r) && Some(FieldsOf(r)[f]) == Get(flat, f)
  {
    assert "_at"[2] == 't';
    EventFieldsArePayload(r.payload, r.context, f);
  }

  lemma TaughtTeaches(y: int)
    ensures View(TeachingRecord(y)).taught == {TEACHES} && View(TeachingRecord(y)).refused == {}
  {
    var r := TeachingRecord(y);
    var call := Call("t", [("a", Int(1))]);
    assert Teaching(r) == [call];
    assert ("a", Int(1)) in call.arguments && "a"[0] != "reason"[0];
    assert CallChanges(r.payload, call) == ArgumentChanges(r.payload, "t", ("a", Int(1))) == {TEACHES};
  }

  lemma Firing(y: int)
    ensures Fires(Proposal("event.x").rule, View(TeachingRecord(y)))
    ensures Fires(Proposal("event.y").rule, View(TeachingRecord(y))) <==> y == 1
  {
    TaughtFields(y);
    OneCondition(Proposal("event.x").rule, View(TeachingRecord(y)));
    OneCondition(Proposal("event.y").rule, View(TeachingRecord(y)));
  }

  lemma OneCondition(rule: Rule, item: Item)
    requires |rule.when| == 1 && rule.whenAny == []
    ensures Fires(rule, item) <==> Holds(item.fields, rule.when[0])
  {
    assert rule.when[0] in rule.when;
  }

  // ----- verifying a rule of one equality

  /** Nothing in a precise rule of equalities is refitted. */
  lemma PreciseStays(rule: Rule, final: Rule, items: seq<Item>, minSupport: nat, minPrecision: real)
    requires Refit(rule, final, items, minSupport, minPrecision)
    requires Precision(rule, ChangeOrNone(rule), items) >= minPrecision
    requires forall i :: 0 <= i < |rule.when| ==> !IsThreshold(rule.when[i].op)
    ensures final == rule
  {
    FittedKeepsShape(rule, ChangeOrNone(rule), items, Fitting.Max(minPrecision, 0.8), final);
    assert final.when == rule.when;
  }

  function Counted(c: Candidate, event: string, items: seq<Item>): Accepted {
    var change := ChangeOrNone(c.rule);
    Accepted(event, c.rule, change, Support(c.rule, change, items), Rejected(c.rule, change, items),
             Matched(c.rule, items), Ids(Matching(c.rule, items)))
  }

  /** Such a rule is accepted as it is when its counts meet the limits. */
  lemma AcceptedAsItIs(c: Candidate, one: Option<Accepted>, event: string, events: map<string, seq<Item>>,
                       tools: seq<Tool>, minSupport: nat, minPrecision: real)
    requires Verified(c, one, events, tools, minSupport, minPrecision)
    requires c.event == Some(event) && event in events && Admissible(c, event, events, tools)
    requires forall i :: 0 <= i < |c.rule.when| ==> !IsThreshold(c.rule.when[i].op)
    requires Supported(c.rule, ChangeOrNone(c.rule), events[event], minSupport, minPrecision)
    ensures one == Some(Counted(c, event, events[event]))
  {
    if one.Some? {
      PreciseStays(c.rule, one.value.rule, events[event], minSupport, minPrecision);
    } else {
      assert AnsweredBySome(c, ChangeOrNone(c.rule), event, events[event], [], minSupport, minPrecision);
      var final :| Refit(c.rule, final, events[event], minSupport, minPrecision)
        && Answered(final, ChangeOrNone(c.rule), event, events[event], [], minSupport, minPrecision);
      PreciseStays(c.rule, final, events[event], minSupport, minPrecision);
      assert false;
    }
  }

  // ----- both are kept

  lemma TwoOfOneEvent(r: Record, s: Record, event: string)
    requires r.event == event && s.event == event
    ensures ByEvent([r, s]) == map[event := [View(r), View(s)]]
  {
    var records := [r, s];
    assert records[1..] == [s] && [s][1..] == [];
    assert ItemsOf([s], event) == [View(s)] + [];
    assert ItemsOf(records, event) == [View(r)] + [View(s)];
    assert records[0] in records;
    var events, expected := ByEvent(records), map[event := [View(r), View(s)]];
    assert forall e :: e in events <==> e in {event};
    assert events.Keys == expected.Keys && events[event] == expected[event];
  }

  /** What the two rules match. */
  lemma Matches2(r: Item, s: Item, wide: Rule, narrow: Rule)
    requires Fires(wide, r) && Fires(wide, s) && Fires(narrow, r) && !Fires(narrow, s)
    ensures Matching(wide, [r, s]) == [r, s] && Matching(narrow, [r, s]) == [r]
  {
    assert [r, s][1..] == [s] && [s][1..] == [];
    assert Matching(wide, [s]) == [s] + [] && Matching(narrow, [s]) == [];
    assert [r] + [] == [r] && [r] + [s] == [r, s];
  }

  lemma AllSupportIt(rule: Rule, items: seq<Item>, minPrecision: real)
    requires Matching(rule, items) != [] && minPrecision <= 1.0
    requires forall r :: r in Matching(rule, items) ==> r.taught == {TEACHES} && r.refused == {}
    ensures Supported(rule, TEACHES, items, 1, minPrecision)
  {
    Counts(Matching(rule, items));
    WholeRatio(Matched(rule, items));
  }

  lemma WholeRatio(n: nat)
    requires n > 0
    ensures Ratio(n, n) == 1.0
  {
  }

  lemma {:induction false} Counts(items: seq<Item>)
    requires forall r :: r in items ==> r.taught == {TEACHES} && r.refused == {}
    ensures Statistics.Taught(items, TEACHES) == |items| && Refusing(items, TEACHES) == 0
  {
    if items != [] {
      assert items[0] in items && forall r :: r in items[1..] ==> r in items;
      Counts(items[1..]);
    }
  }

  lemma IsAdmissible(field: string, events: map<string, seq<Item>>)
    requires "e" in events && KnownField(field, events["e"])
    ensures Admissible(Proposal(field), "e", events, TOOLS)
  {
    assert TOOLS[0] == Tool("t", false, None);
  }

  lemma Splits(one: Candidate, other: Candidate)
    requires |one.rule.settings| == 1 && |other.rule.settings| == 1
    ensures SplitCandidates([one, other]) == [one, other]
  {
    assert [one, other][1..] == [other] && [other][1..] == [];
    SplitOne(one);
    SplitOne(other);
    assert SplitCandidates([other]) == [other] + [];
    assert SplitCandidates([one, other]) == [one] + [other];
  }

  lemma SplitOne(c: Candidate)
    requires |c.rule.settings| == 1
    ensures Wrapped(c, OneSettingEach([c.rule])) == [c]
  {
    assert [c.rule][1..] == [];
    assert OneSettingEach([c.rule]) == [c.rule] + [] == [c.rule];
    assert Wrapped(c, [c.rule]) == [c.(rule := c.rule)] + [];
  }

  /** Whatever choices are made, this is the rule accepted for the candidate. */
  ghost predicate AlwaysAccepts(c: Candidate, a: Accepted, events: map<string, seq<Item>>, tools: seq<Tool>,
                                minSupport: nat, minPrecision: real) {
    forall one :: Verified(c, one, events, tools, minSupport, minPrecision) ==> one == Some(a)
  }

  lemma LastAccepted(cs: seq<Candidate>, n: nat, a: Accepted, accepted: seq<Accepted>,
                     events: map<string, seq<Item>>, tools: seq<Tool>, minSupport: nat, minPrecision: real)
    returns (before: seq<Accepted>)
    requires n < |cs| && AcceptedUpTo(cs, n + 1, accepted, events, tools, minSupport, minPrecision)
    requires AlwaysAccepts(cs[n], a, events, tools, minSupport, minPrecision)
    ensures AcceptedUpTo(cs, n, before, events, tools, minSupport, minPrecision)
    ensures accepted == Appended(before, Some(a))
  {
    var one;
    before, one :| AcceptedUpTo(cs, n, before, events, tools, minSupport, minPrecision)
      && Verified(cs[n], one, events, tools, minSupport, minPrecision) && accepted == Appended(before, one);
  }

  lemma BothAccepted(a: Accepted, b: Accepted, one: Candidate, other: Candidate, accepted: seq<Accepted>,
                     events: map<string, seq<Item>>, tools: seq<Tool>, minSupport: nat, minPrecision: real)
    requires AcceptedFrom([one, other], accepted, events, tools, minSupport, minPrecision)
    requires AlwaysAccepts(one, a, events, tools, minSupport, minPrecision) && !SameFingerprint(a, b)
    requires AlwaysAccepts(other, b, events, tools, minSupport, minPrecision)
    ensures accepted == [a, b]
  {
    var cs := [one, other];
    var first := LastAccepted(cs, 1, b, accepted, events, tools, minSupport, minPrecision);
    FirstAccepted(cs, a, first, events, tools, minSupport, minPrecision);
    AppendOther(a, b);
  }

  lemma FirstAccepted(cs: seq<Candidate>, a: Accepted, accepted: seq<Accepted>, events: map<string, seq<Item>>,
                      tools: seq<Tool>, minSupport: nat, minPrecision: real)
    requires cs != [] && AcceptedUpTo(cs, 1, accepted, events, tools, minSupport, minPrecision)
    requires AlwaysAccepts(cs[0], a, events, tools, minSupport, minPrecision)
    ensures accepted == [a]
  {
    var none := LastAccepted(cs, 0, a, accepted, events, tools, minSupport, minPrecision);
  }

  lemma AppendOther(a: Accepted, b: Accepted)
    requires !SameFingerprint(a, b)
    ensures Appended([a], Some(b)) == [a, b]
  {
    assert [a] + [b] == [a, b];
  }

  lemma BothKept(a: Accepted, b: Accepted)
    requires IdSet(a) == IdSet(b)
    ensures NotSubsumed([a, b], [a, b]) == [a, b]
  {
    var rules := [a, b];
    assert rules[1..] == [b] && [b][1..] == [];
    assert forall c :: c in rules ==> IdSet(c) == IdSet(a);
    assert NotSubsumed([b], rules) == [b] + [];
    assert NotSubsumed(rules, rules) == [a] + [b];
  }

  /** Of two records with one id, one rule matches both and another only the first. Both rules are kept, for the same
      event and change, although neither matches an id the other does not. */
  lemma RepeatedIdsAreKept(accepted: seq<Accepted>, minPrecision: real)
    requires minPrecision <= 1.0
    requires AcceptedFrom(SplitCandidates([Proposal("event.x"), Proposal("event.y")]), accepted,
                          ByEvent([TeachingRecord(1), TeachingRecord(0)]), TOOLS, 1, minPrecision)
    ensures |accepted| == 2 && accepted[0] != accepted[1] && NotSubsumed(accepted, accepted) == accepted
    ensures SameProposal(accepted[0], accepted[1]) && IdSet(accepted[0]) == IdSet(accepted[1]) == {"k"}
  {
    var r, s := View(TeachingRecord(1)), View(TeachingRecord(0));
    var wide, narrow := Proposal("event.x"), Proposal("event.y");
    var events := ByEvent([TeachingRecord(1), TeachingRecord(0)]);
    TwoOfOneEvent(TeachingRecord(1), TeachingRecord(0), "e");
    TwoProposals(r, s, wide, narrow, events, minPrecision);
    Splits(wide, narrow);
    var a, b := Counted(wide, "e", [r, s]), Counted(narrow, "e", [r, s]);
    CountedIds(r, s, wide, narrow);
    OnceAndTwice(a, b, "k");
    BothAccepted(a, b, wide, narrow, accepted, events, TOOLS, 1, minPrecision);
    BothKept(a, b);
  }

  lemma CountedIds(r: Item, s: Item, wide: Candidate, narrow: Candidate)
    requires r == View(TeachingRecord(1)) && s == View(TeachingRecord(0))
    requires wide == Proposal("event.x") && narrow == Proposal("event.y")
    ensures Counted(wide, "e", [r, s]).ids == ["k", "k"] && Counted(narrow, "e", [r, s]).ids == ["k"]
  {
    TwoMatches(r, s, wide, narrow);
  }

  lemma OnceAndTwice(a: Accepted, b: Accepted, id: string)
    requires a.ids == [id, id] && b.ids == [id]
    ensures IdSet(a) == {id} && IdSet(b) == {id} && !SameFingerprint(a, b)
  {
    assert multiset(a.ids)[id] == 2 && multiset(b.ids)[id] == 1;
    assert a.ids[0] in a.ids && b.ids[0] in b.ids;
  }

  lemma TwoProposals(r: Item, s: Item, wide: Candidate, narrow: Candidate, events: map<string, seq<Item>>,
                     minPrecision: real)
    requires r == View(TeachingRecord(1)) && s == View(TeachingRecord(0)) && events == map["e" := [r, s]]
    requires minPrecision <= 1.0
    requires wide == Proposal("event.x") && narrow == Proposal("event.y")
    ensures AlwaysAccepts(wide, Counted(wide, "e", [r, s]), events, TOOLS, 1, minPrecision)
    ensures AlwaysAccepts(narrow, Counted(narrow, "e", [r, s]), events, TOOLS, 1, minPrecision)
  {
    TwoMatches(r, s, wide, narrow);
    var items := [r, s];
    assert items[0] == r && r in items;
    KnownFields(r, items);
    OneGiven("event.x", events, minPrecision);
    OneGiven("event.y", events, minPrecision);
  }

  lemma TwoMatches(r: Item, s: Item, wide: Candidate, narrow: Candidate)
    requires r == View(TeachingRecord(1)) && s == View(TeachingRecord(0))
    requires wide == Proposal("event.x") && narrow == Proposal("event.y")
    ensures Matching(wide.rule, [r, s]) == [r, s] && Matching(narrow.rule, [r, s]) == [r]
    ensures r.taught == s.taught == {TEACHES} && r.refused == s.refused == {} && r.id == s.id == "k"
  {
    Firing(1);
    Firing(0);
    TaughtTeaches(1);
    TaughtTeaches(0);
    Matches2(r, s, wide.rule, narrow.rule);
  }

  lemma KnownFields(r: Item, items: seq<Item>)
    requires r == View(TeachingRecord(1)) && r in items
    ensures KnownField("event.x", items) && KnownField("event.y", items)
  {
    TaughtFields(1);
  }

  lemma OneGiven(field: string, events: map<string, seq<Item>>, minPrecision: real)
    requires "e" in events && KnownField(field, events["e"]) && minPrecision <= 1.0
    requires var matching := Matching(Proposal(field).rule, events["e"]);
             matching != [] && forall r :: r in matching ==> r.taught == {TEACHES} && r.refused == {}
    ensures AlwaysAccepts(Proposal(field), Counted(Proposal(field), "e", events["e"]), events, TOOLS, 1, minPrecision)
  {
    var c := Proposal(field);
    IsAdmissible(field, events);
    AllSupportIt(c.rule, events["e"], minPrecision);
    forall one | Verified(c, one, events, TOOLS, 1, minPrecision) ensures one == Some(Counted(c, "e", events["e"])) {
      AcceptedAsItIs(c, one, "e", events, TOOLS, 1, minPrecision);
    }
  }
}

/** verify_rules (autonomy/learning.py): which proposed rules the records support, and which of those are kept. */
module Verification {
  import opened Wrappers
  import opened JsonValues
  import opened Rules
  import opened Records
  import opened Statistics
  import opened Fitting
  import opened Covering

  /** A rule as the model proposed it. `wellFormed` is false for anything but an object with objects for conditions,
      each with a known operator and a value. */
  datatype Candidate = Candidate(event: Option<string>, rule: Rule, wellFormed: bool)

  datatype Tool = Tool(name: string, readOnly: bool, properties: Option<set<string>>)

  /** An accepted rule with the counts of its final conditions and the ids of the records it matches. */
  datatype Accepted = Accepted(
    event: string, rule: Rule, change: Change, support: nat, rejected: nat, matched: nat, ids: seq<string>)

  // ----- records by event type

  function ItemsOf(records: seq<Record>, event: string): seq<Item> {
    if records == [] then []
    else (if records[0].event == event then [View(records[0])] else []) + ItemsOf(records[1..], event)
  }

  function ByEvent(records: seq<Record>): map<string, seq<Item>> {
    map event | event in (set r | r in records :: r.event) :: ItemsOf(records, event)
  }

  lemma {:induction false} ItemsAreHonest(records: seq<Record>, event: string)
    ensures Honest(ItemsOf(records, event))
    ensures forall i :: i in ItemsOf(records, event) ==> exists r :: r in records && r.event == event && i == View(r)
  {
    if records != [] {
      ItemsAreHonest(records[1..], event);
      NeverBoth(records[0]);
      forall i | i in ItemsOf(records, event) ensures exists r :: r in records && r.event == event && i == View(r) {
        if i in ItemsOf(records[1..], event) {
          var r :| r in records[1..] && r.event == event && i == View(r);
          assert r in records;
        } else {
          assert records[0] in records && i == View(records[0]);
        }
      }
    }
  }

  // ----- the checks a rule must pass before it is counted

  function SplitCandidates(candidates: seq<Candidate>): seq<Candidate> {
    if candidates == [] then []
    else
      Wrapped(candidates[0], OneSettingEach([candidates[0].rule])) + SplitCandidates(candidates[1..])
  }

  function Wrapped(c: Candidate, rules: seq<Rule>): seq<Candidate> {
    if rules == [] then [] else [c.(rule := rules[0])] + Wrapped(c, rules[1..])
  }

  /** The tool registered last under this name, if it is an action. */
  function ActionNamed(tools: seq<Tool>, name: string): Option<Tool> {
    if tools == [] then None
    else
      var last := tools[|tools| - 1];
      if last.name == name && !last.readOnly then Some(last) else ActionNamed(tools[..|tools| - 1], name)
  }

  predicate KnownField(field: string, items: seq<Item>) {
    exists r :: r in items && field in r.fields
  }

  predicate Admissible(c: Candidate, event: string, events: map<string, seq<Item>>, tools: seq<Tool>) {
    var rule := c.rule;
    && c.wellFormed && event in events
    && ActionNamed(tools, rule.tool).Some? && |rule.settings| == 1
    && (var properties := ActionNamed(tools, rule.tool).value.properties;
        properties.Some? ==> rule.settings[0].0 in properties.value)
    && (rule.when != [] || rule.whenAny != [])
    && forall d :: d in rule.when + rule.whenAny ==>
            KnownField(d.field, events[event]) && !d.value.Arr? && !d.value.Obj?
  }

  function ChangeOf(rule: Rule): Change
    requires |rule.settings| == 1
  {
    Change(rule.tool, rule.settings[0].0, rule.settings[0].1)
  }

  // ----- one rule

  function Ids(items: seq<Item>): (ids: seq<string>)
    ensures |ids| == |items| && forall i :: 0 <= i < |items| ==> ids[i] == items[i].id
  {
    if items == [] then [] else [items[0].id] + Ids(items[1..])
  }

  predicate Supported(rule: Rule, change: Change, items: seq<Item>, minSupport: nat, minPrecision: real) {
    && Support(rule, change, items) >= minSupport
    && Precision(rule, change, items) >= minPrecision
    && Rejected(rule, change, items) < Support(rule, change, items)
  }

  /** The stored counts are those of the final conditions, and they meet the limits. */
  ghost predicate CountsHold(a: Accepted, events: map<string, seq<Item>>, minSupport: nat, minPrecision: real) {
    && a.event in events && Proposes(a.rule, a.change)
    && var items := events[a.event];
       && a.support == Support(a.rule, a.change, items) && a.rejected == Rejected(a.rule, a.change, items)
       && a.matched == Matched(a.rule, items) && a.ids == Ids(Matching(a.rule, items))
       && Supported(a.rule, a.change, items, minSupport, minPrecision)
  }

  /** What an imprecise but supported rule is tightened to; any other rule is left alone. */
  ghost predicate Sharpened(proposed: Rule, middle: Rule, items: seq<Item>, minSupport: nat, minPrecision: real) {
    var change := ChangeOrNone(proposed);
    if Support(proposed, change, items) >= minSupport && Precision(proposed, change, items) < minPrecision then
      exists tight :: TightensTo(proposed, change, items, minSupport, minPrecision, tight)
        && middle == if tight.Some? then tight.value else proposed
    else middle == proposed
  }

  /** Tightened, then fitted threshold by threshold. */
  ghost predicate Refit(proposed: Rule, final: Rule, items: seq<Item>, minSupport: nat, minPrecision: real) {
    exists middle :: Sharpened(proposed, middle, items, minSupport, minPrecision)
      && FittedTo(middle, ChangeOrNone(proposed), items, Max(minPrecision, 0.8), final)
  }

  function ChangeOrNone(rule: Rule): Change {
    if |rule.settings| == 1 then ChangeOf(rule) else Change("", "", Null)
  }

  /** Tightens an imprecise rule and refits its thresholds. */
  method Fit(rule: Rule, items: seq<Item>, minSupport: nat, minPrecision: real) returns (final: Rule)
    requires |rule.settings| == 1
    ensures Refit(rule, final, items, minSupport, minPrecision)
  {
    var change := ChangeOf(rule);
    var middle := rule;
    var support, _, matched := Stats(rule, change, items);
    if support >= minSupport && support as real / (if matched > 1 then matched else 1) as real < minPrecision {
      var tight := Tighten(rule, change, items, minSupport, minPrecision);
      if tight.Some? {
        middle := tight.value;
      }
    }
    assert Sharpened(rule, middle, items, minSupport, minPrecision);
    final := FitThresholds(middle, change, items, minPrecision);
    RefitBy(rule, middle, final, items, minSupport, minPrecision);
  }

  lemma RefitBy(rule: Rule, middle: Rule, final: Rule, items: seq<Item>, minSupport: nat, minPrecision: real)
    requires Sharpened(rule, middle, items, minSupport, minPrecision)
    requires FittedTo(middle, ChangeOrNone(rule), items, Max(minPrecision, 0.8), final)
    ensures Refit(rule, final, items, minSupport, minPrecision)
  {
  }

  /** Refitting changes nothing but thresholds and at most one added context condition, and gives either a rule that
      reaches the raised precision or one with the support of the proposal and no lower precision. */
  lemma RefitIsSafe(proposed: Rule, final: Rule, items: seq<Item>, minSupport: nat, minPrecision: real)
    requires |proposed.settings| == 1 && Refit(proposed, final, items, minSupport, minPrecision)
    ensures final.tool == proposed.tool && final.settings == proposed.settings && final.whenAny == proposed.whenAny
    ensures |proposed.when| <= |final.when| <= |proposed.when| + 1
    ensures var change := ChangeOf(proposed);
            || Acceptable(final, change, items, Max(minPrecision, 0.8))
            || (Precision(final, change, items) >= Precision(proposed, change, items)
                && Support(final, change, items) == Support(proposed, change, items))
  {
    var change := ChangeOf(proposed);
    var middle :| Sharpened(proposed, middle, items, minSupport, minPrecision)
      && FittedTo(middle, change, items, Max(minPrecision, 0.8), final);
    FittedKeepsShape(middle, change, items, Max(minPrecision, 0.8), final);
    if middle != proposed {
      var m :| Shared(m, proposed, change, items) && middle == Tightened(proposed, m);
      TighteningKeepsSupport(proposed, m, change, items);
    }
  }

  /** The event a rule is for; a rule that names none is for the only event type there is. */
  ghost predicate EventFits(c: Candidate, events: map<string, seq<Item>>, event: string) {
    c.event == Some(event) || (c.event.None? && events.Keys == {event})
  }

  /** What an accepted rule is known to satisfy when it is produced. */
  ghost predicate Passed(c: Candidate, one: Accepted, events: map<string, seq<Item>>, tools: seq<Tool>,
                         minSupport: nat, minPrecision: real) {
    && one.event in events && EventFits(c, events, one.event) && Admissible(c, one.event, events, tools)
    && one.change == ChangeOrNone(c.rule) && CountsHold(one, events, minSupport, minPrecision)
    && Refit(c.rule, one.rule, events[one.event], minSupport, minPrecision)
  }

  /** The rule accepted for a candidate, or none, and then the candidate fails a check or what it was refitted to is not
      supported. */
  ghost predicate Verified(c: Candidate, one: Option<Accepted>, events: map<string, seq<Item>>, tools: seq<Tool>,
                           minSupport: nat, minPrecision: real) {
    if one.Some? then Passed(c, one.value, events, tools, minSupport, minPrecision)
    else Settled(c, [], events, tools, minSupport, minPrecision)
  }

  /** The accepted rule, or None where the source drops it. */
  method VerifyOne(c: Candidate, events: map<string, seq<Item>>, tools: seq<Tool>, minSupport: nat, minPrecision: real)
    returns (accepted: Option<Accepted>)
    ensures Verified(c, accepted, events, tools, minSupport, minPrecision)
  {
    accepted := None;
    var name := c.event;
    if c.event.None? && |events| == 1 {
      var only :| only in events;
      name := Some(only);
      OnlyOne(events, only);
    }
    if name.None? {
      assert forall event :: EventFits(c, events, event) ==> |events.Keys| == 1;
      return;
    }
    assert forall event :: EventFits(c, events, event) ==> event == name.value;
    if !Admissible(c, name.value, events, tools) {
      return;
    }
    var items := events[name.value];
    var rule := Fit(c.rule, items, minSupport, minPrecision);
    RefitIsSafe(c.rule, rule, items, minSupport, minPrecision);
    var change := ChangeOf(c.rule);
    var support, rejected, matched := Stats(rule, change, items);
    var precision := if matched > 0 then support as real / matched as real else 0.0;
    if support < minSupport || precision < minPrecision || rejected >= support {
      return;
    }
    accepted := Some(Accepted(name.value, rule, change, support, rejected, matched, Ids(Matching(rule, items))));
  }

  lemma OnlyOne(events: map<string, seq<Item>>, only: string)
    requires |events| == 1 && only in events
    ensures events.Keys == {only}
  {
    var rest := events.Keys - {only};
    assert |events.Keys| == |events| && |rest| == 0;
    assert events.Keys == rest + {only};
  }

  // ----- duplicates and wider rules

  predicate SameProposal(a: Accepted, b: Accepted) {
    a.event == b.event && a.change == b.change
  }

  function IdSet(a: Accepted): set<string> {
    set id | id in a.ids
  }

  /** The fingerprint of the source: event, change and sorted matched ids. */
  predicate SameFingerprint(a: Accepted, b: Accepted) {
    SameProposal(a, b) && multiset(a.ids) == multiset(b.ids)
  }

  predicate Wider(other: Accepted, a: Accepted) {
    SameProposal(a, other) && IdSet(a) < IdSet(other)
  }

  ghost predicate NoDuplicates(accepted: seq<Accepted>) {
    forall i, j :: 0 <= i < j < |accepted| ==> !SameFingerprint(accepted[i], accepted[j])
  }

  predicate Subsumed(a: Accepted, accepted: seq<Accepted>) {
    exists other :: other in accepted && Wider(other, a)
  }

  function NotSubsumed(rules: seq<Accepted>, accepted: seq<Accepted>): seq<Accepted> {
    if rules == [] then []
    else (if Subsumed(rules[0], accepted) then [] else [rules[0]]) + NotSubsumed(rules[1..], accepted)
  }

  lemma {:induction false} NotSubsumedMembers(rules: seq<Accepted>, accepted: seq<Accepted>)
    ensures forall a :: a in NotSubsumed(rules, accepted) <==> a in rules && !Subsumed(a, accepted)
  {
    if rules != [] { NotSubsumedMembers(rules[1..], accepted); }
  }

  lemma {:induction false} NotSubsumedDistinct(rules: seq<Accepted>, accepted: seq<Accepted>)
    requires NoDuplicates(rules)
    ensures NoDuplicates(NotSubsumed(rules, accepted))
  {
    if rules != [] {
      NotSubsumedDistinct(rules[1..], accepted);
      NotSubsumedMembers(rules[1..], accepted);
      var rest := NotSubsumed(rules[1..], accepted);
      forall j | 0 <= j < |rest| ensures !SameFingerprint(rules[0], rest[j]) {
        assert rest[j] in rest;
        var k :| 0 <= k < |rules[1..]| && rules[1..][k] == rest[j];
        assert rules[k + 1] == rest[j];
      }
    }
  }

  function AllIds(accepted: seq<Accepted>): set<string> {
    set a, id | a in accepted && id in a.ids :: id
  }

  /** Every accepted rule lies inside one that is not subsumed: following wider rules upwards must end. */
  lemma {:induction false} SomeKeptCovers(a: Accepted, accepted: seq<Accepted>)
    requires a in accepted
    ensures exists k :: k in accepted && !Subsumed(k, accepted) && SameProposal(a, k) && IdSet(a) <= IdSet(k)
    decreases AllIds(accepted) - IdSet(a)
  {
    if Subsumed(a, accepted) {
      var other :| other in accepted && Wider(other, a);
      assert IdSet(other) <= AllIds(accepted);
      assert AllIds(accepted) - IdSet(other) < AllIds(accepted) - IdSet(a) by {
        var id :| id in IdSet(other) && id !in IdSet(a);
        assert id in AllIds(accepted) - IdSet(a) && id !in AllIds(accepted) - IdSet(other);
      }
      SomeKeptCovers(other, accepted);
      var k :| k in accepted && !Subsumed(k, accepted) && SameProposal(other, k) && IdSet(other) <= IdSet(k);
      assert SameProposal(a, k) && IdSet(a) <= IdSet(k);
    }
  }

  /** Kept rules of one event and change are never contained in one another, and never match the same records. */
  ghost predicate Antichain(kept: seq<Accepted>) {
    forall i, j :: 0 <= i < |kept| && 0 <= j < |kept| && i != j && SameProposal(kept[i], kept[j]) ==>
      !(IdSet(kept[i]) < IdSet(kept[j])) && multiset(kept[i].ids) != multiset(kept[j].ids)
  }

  ghost predicate FromCandidate(a: Accepted, candidates: seq<Candidate>, events: map<string, seq<Item>>,
                                tools: seq<Tool>,
                                minSupport: nat, minPrecision: real) {
    && a.event in events
    && exists c :: c in SplitCandidates(candidates) && EventFits(c, events, a.event)
         && Admissible(c, a.event, events, tools) && Refit(c.rule, a.rule, events[a.event], minSupport, minPrecision)
  }

  function MatchedIds(rule: Rule, items: seq<Item>): set<string> {
    set id | id in Ids(Matching(rule, items))
  }

  /** The refitted rule is unsupported, or all it matches is matched by one of the rules with the same proposal. */
  ghost predicate Answered(final: Rule, change: Change, event: string, items: seq<Item>, rules: seq<Accepted>,
                           minSupport: nat, minPrecision: real) {
    !Supported(final, change, items, minSupport, minPrecision)
    || exists a :: a in rules && a.event == event && a.change == change && MatchedIds(final, items) <= IdSet(a)
  }

  /** Nothing the model proposed goes missing: a candidate that passes the checks is answered. */
  ghost predicate Settled(c: Candidate, rules: seq<Accepted>, events: map<string, seq<Item>>, tools: seq<Tool>,
                          minSupport: nat, minPrecision: real) {
    forall event :: EventFits(c, events, event) && Admissible(c, event, events, tools) ==>
      AnsweredBySome(c, ChangeOrNone(c.rule), event, events[event], rules, minSupport, minPrecision)
  }

  ghost predicate AnsweredBySome(c: Candidate, change: Change, event: string, items: seq<Item>, rules: seq<Accepted>,
                                 minSupport: nat, minPrecision: real) {
    exists final :: Refit(c.rule, final, items, minSupport, minPrecision)
      && Answered(final, change, event, items, rules, minSupport, minPrecision)
  }

  lemma OneSettled(c: Candidate, one: Accepted, rules: seq<Accepted>, events: map<string, seq<Item>>, tools: seq<Tool>,
                   minSupport: nat, minPrecision: real)
    requires Passed(c, one, events, tools, minSupport, minPrecision)
    requires exists a :: a in rules && SameFingerprint(a, one)
    ensures Settled(c, rules, events, tools, minSupport, minPrecision)
  {
    var a :| a in rules && SameFingerprint(a, one);
    SameIds(a, one);
    var change, items := ChangeOrNone(c.rule), events[one.event];
    assert MatchedIds(one.rule, items) <= IdSet(a);
    assert Answered(one.rule, change, one.event, items, rules, minSupport, minPrecision);
    OneEvent(c, one.event, events);
    forall event | EventFits(c, events, event) && Admissible(c, event, events, tools)
      ensures AnsweredBySome(c, change, event, events[event], rules, minSupport, minPrecision)
    {
    }
  }

  lemma SameIds(a: Accepted, b: Accepted)
    requires multiset(a.ids) == multiset(b.ids)
    ensures IdSet(a) == IdSet(b)
  {
    assert forall id :: id in a.ids <==> id in multiset(a.ids);
    assert forall id :: id in b.ids <==> id in multiset(b.ids);
  }

  lemma OneEvent(c: Candidate, name: string, events: map<string, seq<Item>>)
    requires EventFits(c, events, name)
    ensures forall event :: EventFits(c, events, event) ==> event == name
  {
    forall event | EventFits(c, events, event) ensures event == name {
      assert c.event.None? ==> event in events.Keys && events.Keys == {name};
    }
  }

  /** Every rule lies inside one of the others. */
  ghost predicate Grown(rules: seq<Accepted>, more: seq<Accepted>) {
    forall a :: a in rules ==> exists k :: k in more && SameProposal(a, k) && IdSet(a) <= IdSet(k)
  }

  lemma SettledGrows(c: Candidate, rules: seq<Accepted>, more: seq<Accepted>, events: map<string, seq<Item>>,
                     tools: seq<Tool>,
                     minSupport: nat, minPrecision: real)
    requires Settled(c, rules, events, tools, minSupport, minPrecision) && Grown(rules, more)
    ensures Settled(c, more, events, tools, minSupport, minPrecision)
  {
    var change := ChangeOrNone(c.rule);
    forall event | EventFits(c, events, event) && Admissible(c, event, events, tools)
      ensures AnsweredBySome(c, change, event, events[event], more, minSupport, minPrecision)
    {
      assert AnsweredBySome(c, change, event, events[event], rules, minSupport, minPrecision);
      var final :| Refit(c.rule, final, events[event], minSupport, minPrecision)
        && Answered(final, change, event, events[event], rules, minSupport, minPrecision);
    }
  }

  predicate Repeated(one: Accepted, rules: seq<Accepted>) {
    exists a :: a in rules && SameFingerprint(a, one)
  }

  function Appended(accepted: seq<Accepted>, one: Option<Accepted>): seq<Accepted> {
    if one.Some? && !Repeated(one.value, accepted) then accepted + [one.value] else accepted
  }

  lemma AppendKeeps(accepted: seq<Accepted>, one: Option<Accepted>, candidates: seq<Candidate>, c: Candidate,
                    events: map<string, seq<Item>>, tools: seq<Tool>, minSupport: nat, minPrecision: real)
    requires NoDuplicates(accepted) && AllSound(accepted, candidates, events, tools, minSupport, minPrecision)
    requires c in SplitCandidates(candidates)
    requires one.Some? ==> Passed(c, one.value, events, tools, minSupport, minPrecision)
    ensures NoDuplicates(Appended(accepted, one))
    ensures AllSound(Appended(accepted, one), candidates, events, tools, minSupport, minPrecision)
  {
    if Appended(accepted, one) != accepted {
      assert FromCandidate(one.value, candidates, events, tools, minSupport, minPrecision);
      AppendDistinct(accepted, one.value);
      assert forall a :: a in Appended(accepted, one) ==> a in accepted || a == one.value;
    }
  }

  lemma AppendDistinct(accepted: seq<Accepted>, one: Accepted)
    requires NoDuplicates(accepted) && forall a :: a in accepted ==> !SameFingerprint(a, one)
    ensures NoDuplicates(accepted + [one])
  {
    forall i, j | 0 <= i < j < |accepted| + 1 ensures !SameFingerprint((accepted + [one])[i], (accepted + [one])[j]) {
      assert accepted[i] in accepted;
      if j == |accepted| {
        assert (accepted + [one])[j] == one;
      }
    }
  }

  ghost predicate AllSettled(cs: seq<Candidate>, rules: seq<Accepted>, events: map<string, seq<Item>>, tools: seq<Tool>,
                             minSupport: nat, minPrecision: real) {
    forall c :: c in cs ==> Settled(c, rules, events, tools, minSupport, minPrecision)
  }

  lemma AllSettledGrow(cs: seq<Candidate>, rules: seq<Accepted>, more: seq<Accepted>, events: map<string, seq<Item>>,
                       tools: seq<Tool>, minSupport: nat, minPrecision: real)
    requires AllSettled(cs, rules, events, tools, minSupport, minPrecision) && Grown(rules, more)
    ensures AllSettled(cs, more, events, tools, minSupport, minPrecision)
  {
    forall c | c in cs ensures Settled(c, more, events, tools, minSupport, minPrecision) {
      SettledGrows(c, rules, more, events, tools, minSupport, minPrecision);
    }
  }

  /** The rules accepted from these candidates in turn, each unless its fingerprint was accepted before. */
  ghost predicate AcceptedFrom(cs: seq<Candidate>, accepted: seq<Accepted>, events: map<string, seq<Item>>,
                               tools: seq<Tool>, minSupport: nat, minPrecision: real) {
    AcceptedUpTo(cs, |cs|, accepted, events, tools, minSupport, minPrecision)
  }

  ghost predicate AcceptedUpTo(cs: seq<Candidate>, n: nat, accepted: seq<Accepted>, events: map<string, seq<Item>>,
                               tools: seq<Tool>, minSupport: nat, minPrecision: real)
    requires n <= |cs|
  {
    if n == 0 then accepted == []
    else
      exists before, one :: AcceptedUpTo(cs, n - 1, before, events, tools, minSupport, minPrecision)
        && Verified(cs[n - 1], one, events, tools, minSupport, minPrecision) && accepted == Appended(before, one)
  }

  lemma NextAccepted(cs: seq<Candidate>, n: nat, one: Option<Accepted>, accepted: seq<Accepted>,
                     events: map<string, seq<Item>>, tools: seq<Tool>, minSupport: nat, minPrecision: real)
    requires n < |cs| && AcceptedUpTo(cs, n, accepted, events, tools, minSupport, minPrecision)
    requires Verified(cs[n], one, events, tools, minSupport, minPrecision)
    ensures AcceptedUpTo(cs, n + 1, Appended(accepted, one), events, tools, minSupport, minPrecision)
  {
  }

  lemma NextSettled(before: seq<Candidate>, c: Candidate, one: Option<Accepted>, accepted: seq<Accepted>,
                    events: map<string, seq<Item>>, tools: seq<Tool>, minSupport: nat, minPrecision: real)
    requires AllSettled(before, accepted, events, tools, minSupport, minPrecision)
    requires Verified(c, one, events, tools, minSupport, minPrecision)
    ensures AllSettled(before + [c], Appended(accepted, one), events, tools, minSupport, minPrecision)
  {
    var more := Appended(accepted, one);
    AppendedHas(accepted, one);
    AllSettledGrow(before, accepted, more, events, tools, minSupport, minPrecision);
    NowSettled(c, one, more, events, tools, minSupport, minPrecision);
  }

  lemma NowSettled(c: Candidate, one: Option<Accepted>, rules: seq<Accepted>, events: map<string, seq<Item>>,
                   tools: seq<Tool>,
                   minSupport: nat, minPrecision: real)
    requires one.Some? ==> Passed(c, one.value, events, tools, minSupport, minPrecision) && Repeated(one.value, rules)
    requires one.None? ==> Settled(c, [], events, tools, minSupport, minPrecision)
    ensures Settled(c, rules, events, tools, minSupport, minPrecision)
  {
    if one.Some? {
      OneSettled(c, one.value, rules, events, tools, minSupport, minPrecision);
    } else {
      SettledGrows(c, [], rules, events, tools, minSupport, minPrecision);
    }
  }

  lemma AppendedHas(accepted: seq<Accepted>, one: Option<Accepted>)
    ensures Grown(accepted, Appended(accepted, one))
    ensures one.Some? ==> Repeated(one.value, Appended(accepted, one))
  {
    if one.Some? && !Repeated(one.value, accepted) {
      assert one.value in accepted + [one.value];
    }
  }

  /** Accepted rules are sound and distinct, and every candidate is answered. */
  lemma {:induction false} AcceptedStand(cs: seq<Candidate>, n: nat, accepted: seq<Accepted>,
                                         candidates: seq<Candidate>, events: map<string, seq<Item>>, tools: seq<Tool>,
                                         minSupport: nat, minPrecision: real)
    requires n <= |cs| && AcceptedUpTo(cs, n, accepted, events, tools, minSupport, minPrecision)
    requires forall c :: c in cs ==> c in SplitCandidates(candidates)
    ensures NoDuplicates(accepted) && AllSound(accepted, candidates, events, tools, minSupport, minPrecision)
    ensures AllSettled(cs[..n], accepted, events, tools, minSupport, minPrecision)
  {
    if n > 0 {
      var c := cs[n - 1];
      var before, one :| AcceptedUpTo(cs, n - 1, before, events, tools, minSupport, minPrecision)
        && Verified(c, one, events, tools, minSupport, minPrecision) && accepted == Appended(before, one);
      assert cs[..n] == cs[..n - 1] + [c];
      AcceptedStand(cs, n - 1, before, candidates, events, tools, minSupport, minPrecision);
      AppendKeeps(before, one, candidates, c, events, tools, minSupport, minPrecision);
      NextSettled(cs[..n - 1], c, one, before, events, tools, minSupport, minPrecision);
    }
  }

  /** The rules accepted of those the model proposed: sound, distinct, and with every candidate answered. */
  method AcceptRules(candidates: seq<Candidate>, events: map<string, seq<Item>>, tools: seq<Tool>, minSupport: nat,
                     minPrecision: real)
    returns (accepted: seq<Accepted>)
    ensures AcceptedFrom(SplitCandidates(candidates), accepted, events, tools, minSupport, minPrecision)
    ensures NoDuplicates(accepted) && AllSound(accepted, candidates, events, tools, minSupport, minPrecision)
    ensures AllSettled(SplitCandidates(candidates), accepted, events, tools, minSupport, minPrecision)
  {
    var split := SplitCandidates(candidates);
    accepted := AcceptEach(split, events, tools, minSupport, minPrecision);
    AcceptedStand(split, |split|, accepted, candidates, events, tools, minSupport, minPrecision);
    assert split[..|split|] == split;
  }

  /** Each split candidate in turn: accepted unless it fails or repeats an earlier fingerprint. */
  method AcceptEach(split: seq<Candidate>, events: map<string, seq<Item>>, tools: seq<Tool>, minSupport: nat,
                    minPrecision: real)
    returns (accepted: seq<Accepted>)
    ensures AcceptedFrom(split, accepted, events, tools, minSupport, minPrecision)
  {
    accepted := [];
    var i := 0;
    while i < |split|
      invariant 0 <= i <= |split|
      invariant AcceptedUpTo(split, i, accepted, events, tools, minSupport, minPrecision)
    {
      var one := VerifyOne(split[i], events, tools, minSupport, minPrecision);
      NextAccepted(split, i, one, accepted, events, tools, minSupport, minPrecision);
      if one.Some? && !Repeated(one.value, accepted) {
        accepted := accepted + [one.value];
      }
      i := i + 1;
    }
  }

  lemma KeptStand(accepted: seq<Accepted>)
    requires NoDuplicates(accepted)
    ensures var kept := NotSubsumed(accepted, accepted);
            && Antichain(kept) && Grown(accepted, kept)
            && forall a :: a in kept <==> a in accepted && !Subsumed(a, accepted)
  {
    var kept := NotSubsumed(accepted, accepted);
    NotSubsumedMembers(accepted, accepted);
    NotSubsumedDistinct(accepted, accepted);
    KeptIsAntichain(kept, accepted);
    forall a | a in accepted ensures exists k :: k in kept && SameProposal(a, k) && IdSet(a) <= IdSet(k) {
      SomeKeptCovers(a, accepted);
    }
  }

  ghost predicate AllSound(rules: seq<Accepted>, candidates: seq<Candidate>, events: map<string, seq<Item>>,
                           tools: seq<Tool>,
                           minSupport: nat, minPrecision: real) {
    forall a :: a in rules ==>
         CountsHold(a, events, minSupport, minPrecision)
             && FromCandidate(a, candidates, events, tools, minSupport, minPrecision)
  }

  /** Drops each rule that another one with strictly more matched records subsumes. */
  method KeepWidest(accepted: seq<Accepted>) returns (kept: seq<Accepted>)
    requires NoDuplicates(accepted)
    ensures Antichain(kept) && Grown(accepted, kept) && kept == NotSubsumed(accepted, accepted)
    ensures forall a :: a in kept <==> a in accepted && !Subsumed(a, accepted)
  {
    kept := Unsubsumed(accepted);
    KeptStand(accepted);
  }

  lemma {:induction false} NotSubsumedSnoc(rules: seq<Accepted>, a: Accepted, accepted: seq<Accepted>)
    ensures NotSubsumed(rules + [a], accepted)
            == NotSubsumed(rules, accepted) + if Subsumed(a, accepted) then [] else [a]
  {
    if rules != [] {
      assert (rules + [a])[0] == rules[0] && (rules + [a])[1..] == rules[1..] + [a];
      NotSubsumedSnoc(rules[1..], a, accepted);
    }
  }

  method Unsubsumed(accepted: seq<Accepted>) returns (kept: seq<Accepted>)
    ensures kept == NotSubsumed(accepted, accepted)
  {
    kept := [];
    var i := 0;
    while i < |accepted|
      invariant 0 <= i <= |accepted|
      invariant kept == NotSubsumed(accepted[..i], accepted)
    {
      var a := accepted[i];
      NotSubsumedSnoc(accepted[..i], a, accepted);
      assert accepted[..i + 1] == accepted[..i] + [a];
      if !Subsumed(a, accepted) {
        kept := kept + [a];
      }
      i := i + 1;
    }
    assert accepted[..i] == accepted;
  }

  /** The rules kept of those the model proposed. Each is sound and comes from one proposed setting; they form an
      antichain; each accepted rule that was dropped as subsumed lies inside one that is kept; and no supported
      candidate goes unanswered. */
  method VerifyRules(candidates: seq<Candidate>, records: seq<Record>, tools: seq<Tool>, minSupport: nat,
                     minPrecision: real)
    returns (kept: seq<Accepted>, ghost accepted: seq<Accepted>)
    ensures AllSound(kept, candidates, ByEvent(records), tools, minSupport, minPrecision)
    ensures AcceptedFrom(SplitCandidates(candidates), accepted, ByEvent(records), tools, minSupport, minPrecision)
    ensures kept == NotSubsumed(accepted, accepted) && Antichain(kept) && Grown(accepted, kept)
    ensures AllSettled(SplitCandidates(candidates), kept, ByEvent(records), tools, minSupport, minPrecision)
  {
    var all := AcceptRules(candidates, ByEvent(records), tools, minSupport, minPrecision);
    accepted := all;
    kept := KeepWidest(all);
    AllSettledGrow(SplitCandidates(candidates), all, kept, ByEvent(records), tools, minSupport, minPrecision);
  }

  lemma KeptIsAntichain(kept: seq<Accepted>, accepted: seq<Accepted>)
    requires NoDuplicates(kept) && forall a :: a in kept ==> a in accepted && !Subsumed(a, accepted)
    ensures Antichain(kept)
  {
    forall i, j | 0 <= i < |kept| && 0 <= j < |kept| && i != j && SameProposal(kept[i], kept[j])
      ensures !(IdSet(kept[i]) < IdSet(kept[j])) && multiset(kept[i].ids) != multiset(kept[j].ids)
    {
      assert kept[i] in kept && kept[j] in kept;
      assert !Wider(kept[j], kept[i]);
      assert i < j ==> !SameFingerprint(kept[i], kept[j]);
      assert j < i ==> !SameFingerprint(kept[j], kept[i]);
    }
  }

  // ----- with the distinct ids the journal guarantees

  ghost predicate DistinctIds(records: seq<Record>) {
    forall i, j :: 0 <= i < j < |records| ==> records[i].id != records[j].id
  }

  ghost predicate NoRepeats(ids: seq<string>) {
    forall i, j :: 0 <= i < j < |ids| ==> ids[i] != ids[j]
  }

  lemma {:induction false} ItemIdsFromRecords(records: seq<Record>, event: string)
    ensures forall id :: id in Ids(ItemsOf(records, event)) ==> exists r :: r in records && r.id == id
  {
    ItemsAreHonest(records, event);
    var items := ItemsOf(records, event);
    forall id | id in Ids(items) ensures exists r :: r in records && r.id == id {
      var k :| 0 <= k < |items| && Ids(items)[k] == id;
      assert items[k] in items;
    }
  }

  lemma {:induction false} ItemIdsDistinct(records: seq<Record>, event: string)
    requires DistinctIds(records)
    ensures NoRepeats(Ids(ItemsOf(records, event)))
  {
    if records != [] {
      ItemIdsDistinct(records[1..], event);
      ItemIdsFromRecords(records[1..], event);
      var rest := Ids(ItemsOf(records[1..], event));
      forall i | 0 <= i < |rest| ensures rest[i] != records[0].id {
        assert rest[i] in rest;
        var r :| r in records[1..] && r.id == rest[i];
        var k :| 0 <= k < |records[1..]| && records[1..][k] == r;
        assert records[k + 1] == r;
      }
      if records[0].event == event {
        assert Ids(ItemsOf(records, event)) == [records[0].id] + rest;
      } else {
        assert ItemsOf(records, event) == ItemsOf(records[1..], event);
      }
    }
  }

  lemma {:induction false} MatchingIdsDistinct(rule: Rule, items: seq<Item>)
    requires NoRepeats(Ids(items))
    ensures NoRepeats(Ids(Matching(rule, items)))
    ensures forall id :: id in Ids(Matching(rule, items)) ==> id in Ids(items)
  {
    if items != [] {
      var ids := Ids(items);
      assert ids == [items[0].id] + Ids(items[1..]);
      assert forall i :: 0 <= i < |items[1..]| ==> Ids(items[1..])[i] == ids[i + 1];
      MatchingIdsDistinct(rule, items[1..]);
      var rest := Ids(Matching(rule, items[1..]));
      forall i | 0 <= i < |rest| ensures rest[i] != items[0].id {
        assert rest[i] in rest && rest[i] in Ids(items[1..]);
      }
      if Fires(rule, items[0]) {
        assert Ids(Matching(rule, items)) == [items[0].id] + rest;
      } else {
        assert Ids(Matching(rule, items)) == rest;
      }
    }
  }

  lemma {:induction false} SetDeterminesMultiset(a: seq<string>, b: seq<string>)
    requires NoRepeats(a) && NoRepeats(b) && forall id :: id in a <==> id in b
    ensures multiset(a) == multiset(b)
  {
    forall id ensures multiset(a)[id] == multiset(b)[id] {
      CountOfDistinct(a, id);
      CountOfDistinct(b, id);
    }
  }

  lemma {:induction false} CountOfDistinct(a: seq<string>, id: string)
    requires NoRepeats(a)
    ensures multiset(a)[id] == if id in a then 1 else 0
  {
    if a != [] {
      assert a == [a[0]] + a[1..];
      CountOfDistinct(a[1..], id);
      assert forall i :: 0 <= i < |a[1..]| ==> a[1..][i] == a[i + 1];
    }
  }

  lemma SameSetSameIds(a: Accepted, b: Accepted)
    requires NoRepeats(a.ids) && NoRepeats(b.ids) && IdSet(a) == IdSet(b)
    ensures multiset(a.ids) == multiset(b.ids)
  {
    forall id ensures id in a.ids <==> id in b.ids {
      assert id in IdSet(a) <==> id in a.ids;
      assert id in IdSet(b) <==> id in b.ids;
    }
    SetDeterminesMultiset(a.ids, b.ids);
  }

  /** Kept rules of one event and change overlap in this way only when one of them matches an id twice. */
  lemma OnlyRepeatsOverlap(kept: seq<Accepted>, i: nat, j: nat)
    requires Antichain(kept) && i < |kept| && j < |kept| && i != j && SameProposal(kept[i], kept[j])
    requires IdSet(kept[i]) <= IdSet(kept[j])
    ensures IdSet(kept[i]) == IdSet(kept[j]) && (!NoRepeats(kept[i].ids) || !NoRepeats(kept[j].ids))
  {
    if NoRepeats(kept[i].ids) && NoRepeats(kept[j].ids) {
      SameSetSameIds(kept[i], kept[j]);
    }
  }

  /** With distinct record ids, no kept rule's matched records equal or contain another's of the same event and
      change. */
  lemma KeptNeverContains(kept: seq<Accepted>, records: seq<Record>, minSupport: nat, minPrecision: real, i: nat,
                          j: nat)
    requires DistinctIds(records) && Antichain(kept)
    requires forall a :: a in kept ==> CountsHold(a, ByEvent(records), minSupport, minPrecision)
    requires i < |kept| && j < |kept| && i != j && SameProposal(kept[i], kept[j])
    ensures !(IdSet(kept[i]) <= IdSet(kept[j]))
  {
    var a, b := kept[i], kept[j];
    assert a in kept && b in kept;
    var items := ItemsOf(records, a.event);
    ItemIdsDistinct(records, a.event);
    MatchingIdsDistinct(a.rule, items);
    MatchingIdsDistinct(b.rule, items);
    if IdSet(a) <= IdSet(b) {
      OnlyRepeatsOverlap(kept, i, j);
    }
  }
}

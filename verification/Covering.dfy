/** induce_missing_rules (autonomy/learning.py): one rule at a time for each change the given rules under-cover. */
module Covering {
  import opened Wrappers
  import opened JsonValues
  import opened Rules
  import opened Records
  import opened Statistics
  import opened Fitting
  import opened Induction

  /** A rule of one event type. */
  datatype EventRule = EventRule(event: string, rule: Rule)

  /** The rule with no condition that proposes the change. */
  function Base(change: Change): Rule {
    Rule([], [], change.tool, [(change.argument, change.value)])
  }

  predicate Proposes(rule: Rule, change: Change) {
    rule.tool == change.tool && rule.settings == [(change.argument, change.value)]
  }

  // ----- where a round starts

  ghost predicate BestCategory(m: (string, Json), change: Change, pool: seq<Item>, minSupport: nat) {
    && GoodCategory(Base(change), m, change, pool, minSupport)
    && forall n :: GoodCategory(Base(change), n, change, pool, minSupport) ==>
         Ranks(CategoryScore(Base(change), n, change, pool), CategoryScore(Base(change), m, change, pool))
  }

  /** The best category, or the rule without a condition when there is none. */
  ghost predicate CategoryOrBase(change: Change, pool: seq<Item>, minSupport: nat, rule: Rule) {
    || (exists m :: BestCategory(m, change, pool, minSupport) && rule == Tightened(Base(change), m))
    || (rule == Base(change) && forall m :: !GoodCategory(Base(change), m, change, pool, minSupport))
  }

  /** Tightening comes first, then a category; without either the rule has no condition. */
  ghost predicate StartsFrom(change: Change, pool: seq<Item>, minSupport: nat, rule: Rule) {
    exists tight: Option<Rule> :: TightensTo(Base(change), change, pool, minSupport, 0.0, tight)
      && if tight.Some? then rule == tight.value else CategoryOrBase(change, pool, minSupport, rule)
  }

  /** The start is good enough as it is. */
  predicate GoodStart(start: Rule, change: Change, pool: seq<Item>) {
    start.when != [] && Precise(start, change, pool)
  }

  /** Candidates may tie, but whether the start is good enough does not depend on the choice. */
  lemma StartsAgree(change: Change, pool: seq<Item>, minSupport: nat, a: Rule, b: Rule)
    requires StartsFrom(change, pool, minSupport, a) && StartsFrom(change, pool, minSupport, b)
    ensures GoodStart(a, change, pool) == GoodStart(b, change, pool)
  {
    var s, t :| TightensTo(Base(change), change, pool, minSupport, 0.0, s)
      && (if s.Some? then a == s.value else CategoryOrBase(change, pool, minSupport, a))
      && TightensTo(Base(change), change, pool, minSupport, 0.0, t)
      && (if t.Some? then b == t.value else CategoryOrBase(change, pool, minSupport, b));
    TightAgree(change, pool, minSupport, s, t);
    if s.None? {
      CategoriesAgree(change, pool, minSupport, a, b);
    }
  }

  lemma TightAgree(change: Change, pool: seq<Item>, minSupport: nat, s: Option<Rule>, t: Option<Rule>)
    requires TightensTo(Base(change), change, pool, minSupport, 0.0, s)
    requires TightensTo(Base(change), change, pool, minSupport, 0.0, t)
    ensures s.Some? <==> t.Some?
    ensures s.Some? ==> Precision(s.value, change, pool) == Precision(t.value, change, pool)
                        && s.value.when != [] && t.value.when != []
  {
  }

  lemma CategoriesAgree(change: Change, pool: seq<Item>, minSupport: nat, a: Rule, b: Rule)
    requires CategoryOrBase(change, pool, minSupport, a) && CategoryOrBase(change, pool, minSupport, b)
    ensures GoodStart(a, change, pool) == GoodStart(b, change, pool)
  {
    OneCategory(change, pool, minSupport, a);
    OneCategory(change, pool, minSupport, b);
  }

  lemma OneCategory(change: Change, pool: seq<Item>, minSupport: nat, a: Rule)
    requires CategoryOrBase(change, pool, minSupport, a)
    ensures GoodStart(a, change, pool) <==> exists m :: GoodCategory(Base(change), m, change, pool, minSupport)
  {
  }

  // ----- what a round finds

  /** No context condition, no category and no threshold gives a rule for the pool. */
  ghost predicate NothingFits(change: Change, pool: seq<Item>, minSupport: nat) {
    StartsFrom(change, pool, minSupport, Base(change)) && NoThreshold(Base(change), change, pool)
  }

  /** One or two best thresholds that reach precision 0.8 and recall 0.75. */
  ghost predicate ByThreshold(start: Rule, rule: Rule, change: Change, pool: seq<Item>) {
    && Precise(rule, change, pool) && Recalls(rule, change, pool)
    && exists first :: IsStep(start, first, rule, change, pool)
  }

  /** A start that is good enough stays; otherwise thresholds are added, or it stays because none fits. */
  ghost predicate FoundFrom(start: Rule, rule: Rule, change: Change, pool: seq<Item>) {
    if GoodStart(start, change, pool) then rule == start
    else ByThreshold(start, rule, change, pool)
         || (start.when != [] && rule == start && NoThreshold(start, change, pool))
  }

  ghost predicate FoundIn(rule: Rule, change: Change, pool: seq<Item>, minSupport: nat) {
    exists start :: StartsFrom(change, pool, minSupport, start) && FoundFrom(start, rule, change, pool)
  }

  /** Worth adding beside `covering`: it matches a taught record they all miss, and it is the rule a round finds for the
      records they leave. */
  ghost predicate Earned(rule: Rule, change: Change, items: seq<Item>, covering: seq<Rule>, minSupport: nat) {
    && Proposes(rule, change) && rule.when != []
    && Progress(rule, change, items, covering)
    && FoundIn(rule, change, Pool(items, change, covering), minSupport)
  }

  /** The round raises: its start is not good enough and some field of the records left is number and text. */
  ghost predicate Raising(change: Change, items: seq<Item>, covering: seq<Rule>, minSupport: nat) {
    var pool := Pool(items, change, covering);
    && Mixed(change, pool)
    && exists start :: StartsFrom(change, pool, minSupport, start) && !GoodStart(start, change, pool)
  }

  /** An earned rule is as often refused over all records as over those left, and at least as precise: 0.8, unless it is
      the start of its round and no threshold fits. */
  lemma EarnedIsPrecise(rule: Rule, change: Change, items: seq<Item>, covering: seq<Rule>, minSupport: nat)
    requires Honest(items) && Earned(rule, change, items, covering, minSupport)
    ensures Rejected(rule, change, items) == Rejected(rule, change, Pool(items, change, covering))
    ensures Precision(rule, change, items) >= Precision(rule, change, Pool(items, change, covering))
    ensures Precise(rule, change, items)
            || (StartsFrom(change, Pool(items, change, covering), minSupport, rule)
                && NoThreshold(rule, change, Pool(items, change, covering)))
  {
    ProgressMatches(rule, change, items, covering);
    PoolIsHonest(rule, change, items, covering);
  }

  lemma ProgressMatches(rule: Rule, change: Change, items: seq<Item>, covering: seq<Rule>)
    requires Progress(rule, change, items, covering)
    ensures Matched(rule, Pool(items, change, covering)) > 0
  {
    PoolMembers(items, change, covering);
    var pool := Pool(items, change, covering);
    var r :| r in items && change in r.taught && !Covered(covering, r) && Fires(rule, r);
    assert r in pool;
    MatchingMembers(rule, pool);
    assert r in Matching(rule, pool);
  }

  lemma {:induction false} MissedAreTaught(items: seq<Item>, change: Change, covering: seq<Rule>)
    ensures Taught(Pool(items, change, covering), change) >= |Missed(items, change, covering)|
  {
    var missed := Missed(items, change, covering);
    TaughtAppend(missed, Others(items, change), change);
    PoolMembers(items, change, covering);
    AllTaught(missed, change);
  }

  lemma {:induction false} AllTaught(items: seq<Item>, change: Change)
    requires forall r :: r in items ==> change in r.taught
    ensures Taught(items, change) == |items|
  {
    if items != [] {
      assert items[0] in items && forall r :: r in items[1..] ==> r in items;
      AllTaught(items[1..], change);
    }
  }

  /** The context or label condition a round starts from; the unconditional rule when there is none. */
  method StartRule(change: Change, pool: seq<Item>, minSupport: nat) returns (rule: Rule)
    requires minSupport > 0
    ensures Proposes(rule, change) && rule.whenAny == []
    ensures rule.when != [] ==> Support(rule, change, pool) > 0
    ensures StartsFrom(change, pool, minSupport, rule)
  {
    var base := Base(change);
    var tight := Tighten(base, change, pool, minSupport, 0.0);
    if tight.Some? {
      return tight.value;
    }
    var category := Categorical(base, change, pool, minSupport);
    if category.Some? {
      CategorySupported(change, pool, minSupport, category.value);
      return category.value;
    }
    rule := base;
  }

  lemma CategorySupported(change: Change, pool: seq<Item>, minSupport: nat, rule: Rule)
    requires exists m :: BestCategory(m, change, pool, minSupport) && rule == Tightened(Base(change), m)
    ensures Support(rule, change, pool) > 0
  {
    var m :| BestCategory(m, change, pool, minSupport) && rule == Tightened(Base(change), m);
    OccurrencesAreSupport(Base(change), m, change, pool);
  }

  /** What a start that is not good enough becomes. */
  method Refine(start: Rule, change: Change, pool: seq<Item>) returns (search: Search)
    requires !GoodStart(start, change, pool) && Taught(pool, change) > 0
    requires start.when != [] ==> Support(start, change, pool) > 0
    ensures search.Raises? <==> Mixed(change, pool)
    ensures search.Nothing? ==> start.when == [] && NoThreshold(start, change, pool)
    ensures search.Found? ==>
              && FoundFrom(start, search.rule, change, pool) && search.rule.when != []
              && search.rule.tool == start.tool && search.rule.settings == start.settings
              && Support(search.rule, change, pool) > 0
  {
    ghost var first;
    search, first := BestThreshold(start, change, pool);
    if search.Nothing? && start.when != [] {
      search := Found(start);
    } else if search.Found? {
      StepsExtend(start, first.value, search.rule, change, pool);
      FoundIsTaughtMoreThanRefused(search.rule, change, pool);
    }
  }

  lemma StepsExtend(start: Rule, first: Rule, found: Rule, change: Change, pool: seq<Item>)
    requires IsStep(start, first, found, change, pool)
    ensures found.tool == start.tool && found.settings == start.settings && found.when != []
  {
  }

  /** One round: a rule for the records still missed, or Nothing when none can be found. */
  method FitMissing(change: Change, items: seq<Item>, covering: seq<Rule>, minSupport: nat) returns (search: Search)
    requires minSupport > 0 && Missed(items, change, covering) != []
    ensures search.Found? ==> Earned(search.rule, change, items, covering, minSupport)
    ensures search.Nothing? ==> NothingFits(change, Pool(items, change, covering), minSupport)
    ensures search.Raises? <==> Raising(change, items, covering, minSupport)
  {
    var pool := Pool(items, change, covering);
    MissedAreTaught(items, change, covering);
    var start := StartRule(change, pool, minSupport);
    RaisingIff(change, items, covering, minSupport, start);
    var support, _, matched := Stats(start, change, pool);
    if start.when == [] || support as real / (if matched > 1 then matched else 1) as real < 0.8 {
      search := Refine(start, change, pool);
      if search.Nothing? {
        BaseAlone(change, pool, minSupport, start);
      }
    } else {
      search := Found(start);
    }
    if search.Found? {
      FoundStands(change, items, covering, minSupport, start, search.rule);
    }
  }

  lemma RaisingIff(change: Change, items: seq<Item>, covering: seq<Rule>, minSupport: nat, start: Rule)
    requires StartsFrom(change, Pool(items, change, covering), minSupport, start)
    ensures Raising(change, items, covering, minSupport)
            <==> Mixed(change, Pool(items, change, covering))
                 && !GoodStart(start, change, Pool(items, change, covering))
  {
    var pool := Pool(items, change, covering);
    forall other | StartsFrom(change, pool, minSupport, other)
      ensures GoodStart(other, change, pool) == GoodStart(start, change, pool)
    {
      StartsAgree(change, pool, minSupport, other, start);
    }
  }

  lemma FoundStands(change: Change, items: seq<Item>, covering: seq<Rule>, minSupport: nat, start: Rule, rule: Rule)
    requires StartsFrom(change, Pool(items, change, covering), minSupport, start)
    requires FoundFrom(start, rule, change, Pool(items, change, covering))
    requires Support(rule, change, Pool(items, change, covering)) > 0
    requires Proposes(rule, change) && rule.when != []
    ensures Earned(rule, change, items, covering, minSupport)
  {
    PoolSupportIsProgress(rule, change, items, covering);
  }

  lemma BaseAlone(change: Change, pool: seq<Item>, minSupport: nat, rule: Rule)
    requires StartsFrom(change, pool, minSupport, rule) && rule.when == []
    ensures rule == Base(change)
  {
  }

  // ----- covering one change

  /** Each added rule is earned beside the given rules and those added before it. */
  ghost predicate AllEarned(added: seq<Rule>, change: Change, items: seq<Item>, covering: seq<Rule>, minSupport: nat) {
    forall i :: 0 <= i < |added| ==> Earned(added[i], change, items, covering + added[..i], minSupport)
  }

  function Needed(covering: seq<Rule>, minSupport: nat): nat {
    if covering == [] then minSupport else if minSupport > 3 then minSupport else 3
  }

  predicate FewMissed(change: Change, items: seq<Item>, covering: seq<Rule>, minSupport: nat) {
    |Missed(items, change, covering)| < Needed(covering, minSupport)
  }

  /** Why covering stops: three rules were added, too few records are missed, or nothing fits them. */
  ghost predicate Exhausted(change: Change, items: seq<Item>, covering: seq<Rule>, added: nat, minSupport: nat) {
    || added == 3
    || FewMissed(change, items, covering, minSupport)
    || (NothingFits(change, Pool(items, change, covering), minSupport) && !Raising(change, items, covering, minSupport))
  }

  /** Every round that added a rule had enough records left and did not raise. */
  ghost predicate NoneRaised(added: seq<Rule>, change: Change, items: seq<Item>, covering: seq<Rule>, minSupport: nat) {
    forall i :: 0 <= i < |added| ==>
      && !FewMissed(change, items, covering + added[..i], minSupport)
      && !Raising(change, items, covering + added[..i], minSupport)
  }

  /** Covering carried through. */
  ghost predicate Completed(added: seq<Rule>, change: Change, items: seq<Item>, covering: seq<Rule>, minSupport: nat) {
    && |added| <= 3 && AllEarned(added, change, items, covering, minSupport)
    && NoneRaised(added, change, items, covering, minSupport)
    && Exhausted(change, items, covering + added, |added|, minSupport)
  }

  /** Covering stopped by a round that raises. */
  ghost predicate Stopped(added: seq<Rule>, change: Change, items: seq<Item>, covering: seq<Rule>, minSupport: nat) {
    && |added| < 3 && AllEarned(added, change, items, covering, minSupport)
    && NoneRaised(added, change, items, covering, minSupport)
    && !FewMissed(change, items, covering + added, minSupport)
    && Raising(change, items, covering + added, minSupport)
  }

  /** Up to three rounds of sequential covering; None where the source raises. Every rule it adds strictly shrinks the
      taught records left uncovered. */
  method CoverChange(change: Change, items: seq<Item>, covering: seq<Rule>, minSupport: nat)
    returns (added: Option<seq<Rule>>)
    requires minSupport > 0
    ensures added.Some? ==>
              && Completed(added.value, change, items, covering, minSupport)
              && |Missed(items, change, covering + added.value)| + |added.value| <= |Missed(items, change, covering)|
    ensures added.None? ==> exists done :: Stopped(done, change, items, covering, minSupport)
  {
    var rules: seq<Rule> := [];
    var round := 0;
    assert covering + [] == covering;
    while round < 3
      invariant 0 <= round <= 3 && |rules| == round
      invariant AllEarned(rules, change, items, covering, minSupport)
      invariant NoneRaised(rules, change, items, covering, minSupport)
      invariant |Missed(items, change, covering + rules)| + |rules| <= |Missed(items, change, covering)|
    {
      var sofar := covering + rules;
      if |Missed(items, change, sofar)| < Needed(sofar, minSupport) {
        break;
      }
      var search := FitMissing(change, items, sofar, minSupport);
      if search.Raises? {
        assert Stopped(rules, change, items, covering, minSupport);
        return None;
      }
      if search.Nothing? {
        break;
      }
      OneMore(rules, search.rule, change, items, covering, minSupport);
      rules := rules + [search.rule];
      round := round + 1;
    }
    added := Some(rules);
  }

  lemma OneMore(rules: seq<Rule>, rule: Rule, change: Change, items: seq<Item>, covering: seq<Rule>, minSupport: nat)
    requires AllEarned(rules, change, items, covering, minSupport)
    requires NoneRaised(rules, change, items, covering, minSupport)
    requires Earned(rule, change, items, covering + rules, minSupport)
    requires !FewMissed(change, items, covering + rules, minSupport)
    requires !Raising(change, items, covering + rules, minSupport)
    ensures AllEarned(rules + [rule], change, items, covering, minSupport)
    ensures NoneRaised(rules + [rule], change, items, covering, minSupport)
    ensures |Missed(items, change, covering + (rules + [rule]))| < |Missed(items, change, covering + rules)|
  {
    ProgressShrinks(rule, change, items, covering + rules);
    assert covering + (rules + [rule]) == covering + rules + [rule];
    forall i | 0 <= i < |rules + [rule]|
      ensures Earned((rules + [rule])[i], change, items, covering + (rules + [rule])[..i], minSupport)
      ensures !FewMissed(change, items, covering + (rules + [rule])[..i], minSupport)
      ensures !Raising(change, items, covering + (rules + [rule])[..i], minSupport)
    {
      Earlier(rules, rule, i);
    }
  }

  lemma Earlier(rules: seq<Rule>, rule: Rule, i: nat)
    requires i <= |rules|
    ensures (rules + [rule])[..i] == rules[..i] && rules[..|rules|] == rules
    ensures (rules + [rule])[i] == if i < |rules| then rules[i] else rule
  {
  }

  // ----- every change

  /** The rules of an event type that propose a change, in order. */
  function RulesFor(rules: seq<EventRule>, event: string, change: Change): seq<Rule> {
    if rules == [] then []
    else (if rules[0].event == event && Proposes(rules[0].rule, change) then [rules[0].rule] else [])
         + RulesFor(rules[1..], event, change)
  }

  function Hits(items: seq<Item>, change: Change, covering: seq<Rule>): nat {
    if items == [] then 0
    else
      (if change in items[0].taught && Covered(covering, items[0]) then 1 else 0)
      + Hits(items[1..], change, covering)
  }

  ghost predicate IsTaught(items: seq<Item>, change: Change) {
    exists r :: r in items && change in r.taught
  }

  /** The rules miss enough of the records that teach the change. */
  predicate UnderCovered(change: Change, items: seq<Item>, covering: seq<Rule>, minSupport: nat) {
    && Taught(items, change) >= minSupport
    && Taught(items, change) - Hits(items, change, covering) >= Needed(covering, minSupport)
  }

  function Tagged(event: string, rules: seq<Rule>): (r: seq<EventRule>)
    ensures |r| == |rules| && forall i :: 0 <= i < |r| ==> r[i] == EventRule(event, rules[i])
  {
    if rules == [] then [] else [EventRule(event, rules[0])] + Tagged(event, rules[1..])
  }

  /** The change is taught for the event type, and the given rules miss enough of it. */
  ghost predicate Due(event: string, change: Change, events: map<string, seq<Item>>, rules: seq<EventRule>,
                      minSupport: nat) {
    && event in events && IsTaught(events[event], change)
    && UnderCovered(change, events[event], RulesFor(rules, event, change), minSupport)
  }

  /** What covering one change added. */
  datatype Batch = Batch(event: string, change: Change, added: seq<Rule>)

  ghost predicate BatchCompleted(b: Batch, events: map<string, seq<Item>>, rules: seq<EventRule>, minSupport: nat) {
    && Due(b.event, b.change, events, rules, minSupport)
    && Completed(b.added, b.change, events[b.event], RulesFor(rules, b.event, b.change), minSupport)
  }

  ghost predicate AllCompleted(batches: seq<Batch>, events: map<string, seq<Item>>, rules: seq<EventRule>,
                               minSupport: nat) {
    forall b :: b in batches ==> BatchCompleted(b, events, rules, minSupport)
  }

  ghost predicate Covers(batches: seq<Batch>, event: string, change: Change) {
    exists b :: b in batches && b.event == event && b.change == change
  }

  /** No change is covered twice. */
  ghost predicate EachOnce(batches: seq<Batch>) {
    forall i, j :: 0 <= i < j < |batches| ==>
      batches[i].event != batches[j].event || batches[i].change != batches[j].change
  }

  /** The rules of the batches, one batch after the other. */
  function Flat(batches: seq<Batch>): seq<EventRule> {
    if batches == [] then []
    else Tagged(batches[0].event, batches[0].added) + Flat(batches[1..])
  }

  /** The induced rules are one completed covering after the other, one for each change that is due, nothing else. */
  ghost predicate InducedBy(induced: seq<EventRule>, batches: seq<Batch>, events: map<string, seq<Item>>,
                            rules: seq<EventRule>, minSupport: nat) {
    && induced == Flat(batches) && AllCompleted(batches, events, rules, minSupport) && EachOnce(batches)
    && forall event, change :: Due(event, change, events, rules, minSupport) ==> Covers(batches, event, change)
  }

  lemma {:induction false} FlatAppend(a: seq<Batch>, b: seq<Batch>)
    ensures Flat(a + b) == Flat(a) + Flat(b)
  {
    if a == [] {
      assert a + b == b;
    } else {
      assert (a + b)[0] == a[0] && (a + b)[1..] == a[1..] + b;
      FlatAppend(a[1..], b);
    }
  }

  lemma {:induction false} FlatHolds(batches: seq<Batch>)
    ensures forall b, er :: b in batches && er in Tagged(b.event, b.added) ==> er in Flat(batches)
    ensures forall er :: er in Flat(batches) ==> exists b :: b in batches && er in Tagged(b.event, b.added)
  {
    if batches != [] {
      FlatHolds(batches[1..]);
      assert forall b :: b in batches <==> b == batches[0] || b in batches[1..];
    }
  }

  /** The rule was added by a completed covering of a change that is due, all of which is among the induced rules. */
  ghost predicate InducedFor(er: EventRule, induced: seq<EventRule>, events: map<string, seq<Item>>,
                             rules: seq<EventRule>, minSupport: nat) {
    exists change, added ::
      && BatchCompleted(Batch(er.event, change, added), events, rules, minSupport)
      && er in Tagged(er.event, added) && forall other :: other in Tagged(er.event, added) ==> other in induced
  }

  /** Covering the change was carried through, and all that it added is among the induced rules. */
  ghost predicate Served(change: Change, event: string, items: seq<Item>, covering: seq<Rule>, minSupport: nat,
                         induced: seq<EventRule>) {
    exists added :: Completed(added, change, items, covering, minSupport)
      && forall er :: er in Tagged(event, added) ==> er in induced
  }

  /** Every induced rule comes from a change that is due, and every change that is due was served. */
  lemma InducedExactly(induced: seq<EventRule>, batches: seq<Batch>, events: map<string, seq<Item>>,
                       rules: seq<EventRule>, minSupport: nat)
    requires InducedBy(induced, batches, events, rules, minSupport)
    ensures forall er :: er in induced ==> InducedFor(er, induced, events, rules, minSupport)
    ensures forall event, change :: Due(event, change, events, rules, minSupport) ==>
              Served(change, event, events[event], RulesFor(rules, event, change), minSupport, induced)
  {
    FlatHolds(batches);
    forall er | er in induced ensures InducedFor(er, induced, events, rules, minSupport) {
      var b :| b in batches && er in Tagged(b.event, b.added);
      assert b == Batch(er.event, b.change, b.added);
    }
    forall event, change | Due(event, change, events, rules, minSupport)
      ensures Served(change, event, events[event], RulesFor(rules, event, change), minSupport, induced)
    {
      assert Covers(batches, event, change);
      var b :| b in batches && b.event == event && b.change == change;
      assert BatchCompleted(b, events, rules, minSupport);
    }
  }

  /** The change is due, and covering it raises. */
  ghost predicate RaisesFor(change: Change, event: string, events: map<string, seq<Item>>, rules: seq<EventRule>,
                            minSupport: nat) {
    && Due(event, change, events, rules, minSupport)
    && exists done :: Stopped(done, change, events[event], RulesFor(rules, event, change), minSupport)
  }

  ghost predicate InductionRaises(events: map<string, seq<Item>>, rules: seq<EventRule>, minSupport: nat) {
    exists event, change :: RaisesFor(change, event, events, rules, minSupport)
  }

  /** The batches are of this event type, and of changes outside `left`; every other change that is due has one. */
  ghost predicate CoveredBut(left: set<Change>, batches: seq<Batch>, event: string, events: map<string, seq<Item>>,
                             rules: seq<EventRule>, minSupport: nat) {
    && AllCompleted(batches, events, rules, minSupport) && EachOnce(batches)
    && (forall b :: b in batches ==> b.event == event && b.change !in left)
    && forall change :: change !in left && Due(event, change, events, rules, minSupport) ==>
         Covers(batches, event, change)
  }

  lemma NextCovered(left: set<Change>, batches: seq<Batch>, more: seq<Batch>, change: Change, event: string,
                    events: map<string, seq<Item>>, rules: seq<EventRule>, minSupport: nat)
    requires CoveredBut(left, batches, event, events, rules, minSupport) && change in left
    requires if Due(event, change, events, rules, minSupport)
             then |more| == 1 && BatchCompleted(more[0], events, rules, minSupport) && more[0].event == event
                  && more[0].change == change
             else more == []
    ensures CoveredBut(left - {change}, batches + more, event, events, rules, minSupport)
    ensures Flat(batches + more) == Flat(batches) + if more == [] then [] else Tagged(event, more[0].added)
  {
    if more == [] {
      assert batches + more == batches && left - {change} <= left;
    } else {
      var b := more[0];
      assert more == [b];
      OnceMore(batches, b);
      OneMoreCovers(left, batches, b, event, events, rules, minSupport);
      FlatOne(b);
    }
    FlatAppend(batches, more);
  }

  lemma FlatOne(b: Batch)
    ensures Flat([b]) == Tagged(b.event, b.added)
  {
    assert [b][1..] == [] && Flat([]) == [];
  }

  lemma OnceMore(batches: seq<Batch>, b: Batch)
    requires EachOnce(batches) && forall a :: a in batches ==> a.event != b.event || a.change != b.change
    ensures EachOnce(batches + [b])
  {
    assert forall i :: 0 <= i < |batches| ==> batches[i] in batches;
  }

  lemma OneMoreCovers(left: set<Change>, batches: seq<Batch>, b: Batch, event: string, events: map<string, seq<Item>>,
                      rules: seq<EventRule>, minSupport: nat)
    requires CoveredBut(left, batches, event, events, rules, minSupport) && b.event == event
    ensures forall change :: change !in left - {b.change} && Due(event, change, events, rules, minSupport) ==>
              Covers(batches + [b], event, change)
  {
    forall change | change !in left - {b.change} && Due(event, change, events, rules, minSupport)
      ensures Covers(batches + [b], event, change)
    {
      if change == b.change {
        assert b in batches + [b];
      } else {
        var a :| a in batches && a.event == event && a.change == change;
        assert a in batches + [b];
      }
    }
  }

  method InduceForEvent(rules: seq<EventRule>, event: string, events: map<string, seq<Item>>, minSupport: nat)
    returns (induced: Option<seq<EventRule>>, ghost batches: seq<Batch>)
    requires minSupport > 0 && event in events
    ensures induced.Some? ==>
              induced.value == Flat(batches) && CoveredBut({}, batches, event, events, rules, minSupport)
    ensures induced.None? ==> exists change :: RaisesFor(change, event, events, rules, minSupport)
  {
    var items := events[event];
    var all: seq<EventRule> := [];
    batches := [];
    var changes := set r, c | r in items && c in r.taught :: c;
    ghost var every := changes;
    while changes != {}
      invariant changes <= every && forall c :: c in every ==> IsTaught(items, c)
      invariant all == Flat(batches) && CoveredBut(changes, batches, event, events, rules, minSupport)
    {
      var change :| change in changes;
      ghost var more: seq<Batch> := [];
      var covering := RulesFor(rules, event, change);
      var count, hits := Taught(items, change), Hits(items, change, covering);
      if count >= minSupport && count - hits >= Needed(covering, minSupport) {
        var added := CoverChange(change, items, covering, minSupport);
        if added.None? {
          assert RaisesFor(change, event, events, rules, minSupport);
          return None, batches;
        }
        more := [Batch(event, change, added.value)];
        all := all + Tagged(event, added.value);
      }
      NextCovered(changes, batches, more, change, event, events, rules, minSupport);
      batches := batches + more;
      changes := changes - {change};
    }
    induced := Some(all);
  }

  /** The same for all event types but these. */
  ghost predicate CoveredOutside(left: set<string>, batches: seq<Batch>, events: map<string, seq<Item>>,
                                 rules: seq<EventRule>, minSupport: nat) {
    && AllCompleted(batches, events, rules, minSupport) && EachOnce(batches)
    && (forall b :: b in batches ==> b.event !in left)
    && forall event, change :: event !in left && Due(event, change, events, rules, minSupport) ==>
         Covers(batches, event, change)
  }

  lemma NextEvent(left: set<string>, batches: seq<Batch>, more: seq<Batch>, event: string,
                  events: map<string, seq<Item>>, rules: seq<EventRule>, minSupport: nat)
    requires CoveredOutside(left, batches, events, rules, minSupport) && event in left
    requires CoveredBut({}, more, event, events, rules, minSupport)
    ensures CoveredOutside(left - {event}, batches + more, events, rules, minSupport)
  {
    var all := batches + more;
    assert forall b :: b in all <==> b in batches || b in more;
    forall i, j | 0 <= i < j < |all| ensures all[i].event != all[j].event || all[i].change != all[j].change {
      if i < |batches| <= j {
        assert batches[i] in batches && more[j - |batches|] in more;
      }
    }
    forall e, change | e !in left - {event} && Due(e, change, events, rules, minSupport)
      ensures Covers(all, e, change)
    {
      assert if e == event then Covers(more, e, change) else Covers(batches, e, change);
    }
  }

  /** For every event type and taught change the rules under-cover, one completed covering, and nothing else; `batches`
      are the coverings. None where the source raises, which takes a round that raises. */
  method InduceMissing(rules: seq<EventRule>, events: map<string, seq<Item>>, minSupport: nat)
    returns (induced: Option<seq<EventRule>>, ghost batches: seq<Batch>)
    requires minSupport > 0
    ensures induced.Some? ==> InducedBy(induced.value, batches, events, rules, minSupport)
    ensures induced.None? ==> InductionRaises(events, rules, minSupport)
  {
    var all: seq<EventRule> := [];
    batches := [];
    var left := events.Keys;
    while left != {}
      invariant left <= events.Keys
      invariant all == Flat(batches) && CoveredOutside(left, batches, events, rules, minSupport)
    {
      var event :| event in left;
      ghost var of;
      var more;
      more, of := InduceForEvent(rules, event, events, minSupport);
      if more.None? {
        return None, batches;
      }
      NextEvent(left, batches, of, event, events, rules, minSupport);
      FlatAppend(batches, of);
      all := all + more.value;
      batches := batches + of;
      left := left - {event};
    }
    induced := Some(all);
  }

  // ----- when it raises

  lemma {:induction false} MissedByAll(items: seq<Item>, change: Change, covering: seq<Rule>)
    ensures |Missed(items, change, covering)| == Taught(items, change) - Hits(items, change, covering)
  {
    if items != [] {
      MissedByAll(items[1..], change, covering);
      PoolFirst(change, items, covering);
    }
  }

  /** An under-covered change whose first round raises is never served: induction raises whatever else there is. */
  lemma RaisingIsNeverServed(change: Change, event: string, items: seq<Item>, covering: seq<Rule>, minSupport: nat,
                             induced: seq<EventRule>)
    requires UnderCovered(change, items, covering, minSupport) && Raising(change, items, covering, minSupport)
    ensures !Served(change, event, items, covering, minSupport, induced)
  {
    forall added ensures !Completed(added, change, items, covering, minSupport) {
      NotCompleted(added, change, items, covering, minSupport);
    }
  }

  lemma NotCompleted(added: seq<Rule>, change: Change, items: seq<Item>, covering: seq<Rule>, minSupport: nat)
    requires UnderCovered(change, items, covering, minSupport) && Raising(change, items, covering, minSupport)
    ensures !Completed(added, change, items, covering, minSupport)
  {
    MissedByAll(items, change, covering);
    assert covering + [] == covering;
    if added != [] {
      assert added[..0] == [];
    }
  }

  lemma TwoRecordPool(change: Change, a: Item, b: Item)
    requires change in a.taught && change in b.taught
    ensures Pool([a, b], change, []) == [a, b] && Taught([a, b], change) == 2 && Hits([a, b], change, []) == 0
  {
    var items := [a, b];
    assert items[1..] == [b] && [b][1..] == [];
    PoolFirst(change, [b], []);
    PoolFirst(change, items, []);
    assert Missed([b], change, []) == [b] + [] && Others([b], change) == [];
    assert Missed(items, change, []) == [a] + [b] == items && Others(items, change) == [];
    AllTaught(items, change);
    MissedByAll(items, change, []);
  }

  lemma NoCategoryForBoth(change: Change, a: Item, b: Item, m: (string, Json))
    requires Lookup(a.fields, m.0) != Some(m.1) || Lookup(b.fields, m.0) != Some(m.1)
    ensures !GoodCategory(Base(change), m, change, [a, b], 2)
  {
    var items := [a, b];
    assert items[1..] == [b] && [b][1..] == [];
    assert Occurrences(m, change, [b]) <= 1;
  }

  lemma NoContextForBoth(change: Change, a: Item, b: Item, m: (string, Json), key: string)
    requires a.fields.Keys == {key} && b.fields.Keys == {key} && !("context[" <= key)
    ensures !Shared(m, Base(change), change, [a, b])
  {
  }

  /** Two records that teach the same change, with a field that is number in one and text in the other, are enough. */
  lemma MixedFieldRaises(change: Change, a: Item, b: Item, n: int, s: string)
    requires change in a.taught && change in b.taught
    requires a.fields == map["event.x" := Int(n)] && b.fields == map["event.x" := Str(s)]
    ensures UnderCovered(change, [a, b], [], 2) && Raising(change, [a, b], [], 2)
  {
    TwoRecordPool(change, a, b);
    var key, pool := "event.x", [a, b];
    assert key[0] == 'e' && "context["[0] == 'c';
    assert pool[0] == a && pool[1] == b;
    assert NumericField(key, change, pool) && TextField(key, change, pool);
    forall m ensures !Shared(m, Base(change), change, pool) && !GoodCategory(Base(change), m, change, pool, 2) {
      NoContextForBoth(change, a, b, m, key);
      NoCategoryForBoth(change, a, b, m);
    }
    assert TightensTo(Base(change), change, pool, 2, 0.0, None);
    assert StartsFrom(change, pool, 2, Base(change));
  }
}

/** Fitting rules for changes the given ones under-cover: _best_threshold and the sequential covering of
    induce_missing_rules (autonomy/learning.py). */
module Induction {
  import opened Wrappers
  import opened JsonValues
  import opened Rules
  import opened Records
  import opened Statistics
  import opened Fitting

  // ----- typical range of a field

  /** The taught values of a field themselves. */
  function TaughtJson(field: string, change: Change, items: seq<Item>): (values: seq<Json>)
    ensures |values| == |TaughtValues(field, change, items)|
    ensures forall i :: 0 <= i < |values| ==> NumberOrBool(values[i]) == Some(TaughtValues(field, change, items)[i])
  {
    if items == [] then []
    else
      var r := items[0];
      (if change in r.taught && field in r.fields && NumberOrBool(r.fields[field]).Some? then [r.fields[field]] else [])
      + TaughtJson(field, change, items[1..])
  }

  function NumberOf(j: Json): real {
    if NumberOrBool(j).Some? then NumberOrBool(j).value else 0.0
  }

  function InsertJson(x: Json, s: seq<Json>): seq<Json> {
    if s == [] || NumberOf(x) <= NumberOf(s[0]) then [x] + s else [s[0]] + InsertJson(x, s[1..])
  }

  /** The stable order of sorted(). */
  function SortJson(s: seq<Json>): seq<Json> {
    if s == [] then [] else InsertJson(s[0], SortJson(s[1..]))
  }

  function Numbers(s: seq<Json>): (r: seq<real>)
    ensures |r| == |s| && forall i :: 0 <= i < |s| ==> r[i] == NumberOf(s[i])
  {
    if s == [] then [] else [NumberOf(s[0])] + Numbers(s[1..])
  }

  lemma {:induction false} InsertNumbers(x: Json, s: seq<Json>)
    ensures Numbers(InsertJson(x, s)) == Insert(NumberOf(x), Numbers(s))
    ensures forall y :: y in InsertJson(x, s) <==> y == x || y in s
  {
    if s == [] || NumberOf(x) <= NumberOf(s[0]) {
      assert ([x] + s)[1..] == s;
    } else {
      InsertNumbers(x, s[1..]);
      assert ([s[0]] + InsertJson(x, s[1..]))[1..] == InsertJson(x, s[1..]);
      assert Numbers(s)[1..] == Numbers(s[1..]);
    }
  }

  lemma {:induction false} SortNumbers(s: seq<Json>)
    ensures Numbers(SortJson(s)) == Sort(Numbers(s)) && |SortJson(s)| == |s|
    ensures forall y :: y in SortJson(s) <==> y in s
  {
    if s != [] {
      SortNumbers(s[1..]);
      InsertNumbers(s[0], SortJson(s[1..]));
      assert Numbers(s)[1..] == Numbers(s[1..]);
      assert |Numbers(SortJson(s))| == |Sort(Numbers(s))|;
    }
  }

  lemma TaughtNumbers(field: string, change: Change, items: seq<Item>)
    ensures Numbers(TaughtJson(field, change, items)) == TaughtValues(field, change, items)
  {
  }

  // ----- _best_threshold

  predicate NumericField(key: string, change: Change, items: seq<Item>) {
    exists r :: r in items && change in r.taught && key in r.fields && Number(r.fields[key]).Some?
  }

  /** The field is text in some taught record: sorted() raises when another has a number there. */
  predicate TextField(key: string, change: Change, items: seq<Item>) {
    exists r :: r in items && change in r.taught && key in r.fields && NumberOrBool(r.fields[key]).None?
  }

  /** At least the low end of the taught range, or at most its high end. */
  function Bounds(key: string, change: Change, items: seq<Item>): seq<Condition> {
    var sorted := SortJson(TaughtJson(key, change, items));
    if sorted == [] then []
    else [Condition(key, Ge, sorted[LowIndex(|sorted|)]), Condition(key, Le, sorted[HighIndex(|sorted|)])]
  }

  /** Some field is a number in one taught record and a text in another. */
  ghost predicate Mixed(change: Change, items: seq<Item>) {
    exists key :: NumericField(key, change, items) && TextField(key, change, items)
  }

  predicate Tried(c: Condition, change: Change, items: seq<Item>) {
    NumericField(c.field, change, items) && c in Bounds(c.field, change, items)
  }

  predicate Recalls(rule: Rule, change: Change, items: seq<Item>) {
    && Matched(rule, items) > 0
    && 4 * Support(rule, change, items) >= 3 * Taught(items, change)
    && Rejected(rule, change, items) < (if Support(rule, change, items) > 1 then Support(rule, change, items) else 1)
  }

  /** Precision first, then support. */
  predicate ScoresAtMost(a: (real, nat), b: (real, nat)) {
    a.0 < b.0 || (a.0 == b.0 && a.1 <= b.1)
  }

  function Score(rule: Rule, change: Change, items: seq<Item>): (real, nat) {
    (Precision(rule, change, items), Support(rule, change, items))
  }

  /** `next` is the best single threshold to add. */
  ghost predicate BestStep(current: Rule, next: Rule, change: Change, items: seq<Item>) {
    && (exists c :: Tried(c, change, items) && next == With(current, c))
    && Recalls(next, change, items)
    && forall c :: Tried(c, change, items) && Recalls(With(current, c), change, items) ==>
         ScoresAtMost(Score(With(current, c), change, items), Score(next, change, items))
  }

  /** The best threshold to add among two for each numeric field. */
  method AddThreshold(current: Rule, change: Change, items: seq<Item>, numeric: set<string>)
    returns (best: Option<Rule>)
    requires forall key :: key in numeric <==> NumericField(key, change, items)
    ensures best.Some? ==> BestStep(current, best.value, change, items)
    ensures best.None? ==> forall c :: Tried(c, change, items) ==> !Recalls(With(current, c), change, items)
  {
    best := None;
    var left := numeric;
    while left != {}
      invariant left <= numeric
      invariant best.Some? ==>
        && Recalls(best.value, change, items)
        && exists c :: Tried(c, change, items) && best.value == With(current, c)
      invariant forall c :: Tried(c, change, items) && c.field !in left ==> Beaten(current, c, best, change, items)
    {
      var key :| key in left;
      left := left - {key};
      var bounds := Bounds(key, change, items);
      assert forall c :: c in bounds ==> c.field == key && Tried(c, change, items);
      best := TryAll(current, best, bounds, change, items);
    }
    assert forall c :: Tried(c, change, items) ==> Beaten(current, c, best, change, items);
  }

  /** Adding the condition either recalls too little or scores no higher than the best. */
  ghost predicate Beaten(current: Rule, c: Condition, best: Option<Rule>, change: Change, items: seq<Item>) {
    Recalls(With(current, c), change, items) ==>
      best.Some? && ScoresAtMost(Score(With(current, c), change, items), Score(best.value, change, items))
  }

  method TryAll(current: Rule, best: Option<Rule>, bounds: seq<Condition>, change: Change, items: seq<Item>)
    returns (next: Option<Rule>)
    ensures next == best || exists c :: c in bounds && next == Some(With(current, c))
                              && Recalls(With(current, c), change, items)
    ensures forall c :: c in bounds ==> Beaten(current, c, next, change, items)
    ensures forall c :: Beaten(current, c, best, change, items) ==> Beaten(current, c, next, change, items)
  {
    next := best;
    var i := 0;
    while i < |bounds|
      invariant 0 <= i <= |bounds|
      invariant next == best || exists c :: c in bounds && next == Some(With(current, c))
                                  && Recalls(With(current, c), change, items)
      invariant forall j :: 0 <= j < i ==> Beaten(current, bounds[j], next, change, items)
      invariant forall c :: Beaten(current, c, best, change, items) ==> Beaten(current, c, next, change, items)
    {
      next := Prefer(current, next, bounds[i], change, items);
      i := i + 1;
    }
  }

  /** Replaces the best so far when the new candidate recalls enough and scores higher. */
  method Prefer(current: Rule, best: Option<Rule>, c: Condition, change: Change, items: seq<Item>)
    returns (next: Option<Rule>)
    ensures next == best || next == Some(With(current, c))
    ensures next != best ==> Recalls(With(current, c), change, items)
    ensures best.Some? ==>
              next.Some? && ScoresAtMost(Score(best.value, change, items), Score(next.value, change, items))
    ensures Recalls(With(current, c), change, items) ==>
              next.Some? && ScoresAtMost(Score(With(current, c), change, items), Score(next.value, change, items))
  {
    var candidate := With(current, c);
    var support, rejected, matched := Stats(candidate, change, items);
    if matched == 0 || 4 * support < 3 * Taught(items, change) || rejected >= (if support > 1 then support else 1) {
      return best;
    }
    if best.None? {
      return Some(candidate);
    }
    var s, _, m := Stats(best.value, change, items);
    next := if ScoresAtMost((Ratio(support, matched), support), (Ratio(s, m), s)) then best else Some(candidate);
  }

  /** Adding a condition a second time changes no count. */
  lemma RepeatedThreshold(rule: Rule, c: Condition, change: Change, items: seq<Item>)
    ensures var once := With(rule, c); var twice := With(once, c);
            && Support(twice, change, items) == Support(once, change, items)
            && Rejected(twice, change, items) == Rejected(once, change, items)
            && Matched(twice, items) == Matched(once, items)
  {
    var once := With(rule, c);
    forall r | r in items ensures Fires(With(once, c), r) <==> Fires(once, r) {
    }
    NarrowerCounts(With(once, c), once, change, items);
    NarrowerCounts(once, With(once, c), change, items);
  }

  /** The second greedy step always finds a threshold, and never scores below the first. */
  lemma SecondStepNeverWorse(rule: Rule, first: Rule, change: Change, items: seq<Item>)
    requires BestStep(rule, first, change, items)
    ensures exists c :: Tried(c, change, items) && Recalls(With(first, c), change, items)
    ensures forall second :: BestStep(first, second, change, items) ==>
              ScoresAtMost(Score(first, change, items), Score(second, change, items))
  {
    var c :| Tried(c, change, items) && first == With(rule, c);
    RepeatedThreshold(rule, c, change, items);
    assert Recalls(With(first, c), change, items);
    assert Score(With(first, c), change, items) == Score(first, change, items);
  }

  predicate Precise(rule: Rule, change: Change, items: seq<Item>) {
    Precision(rule, change, items) >= 0.8
  }

  datatype Search = Raises | Nothing | Found(rule: Rule)

  /** No first threshold recalls enough, or the best first one and the best second one after it are imprecise. */
  ghost predicate NoThreshold(rule: Rule, change: Change, items: seq<Item>) {
    || (forall c :: Tried(c, change, items) ==> !Recalls(With(rule, c), change, items))
    || (exists one, two :: BestStep(rule, one, change, items) && BestStep(one, two, change, items)
          && !Precise(one, change, items) && !Precise(two, change, items))
  }

  /** The best first step from the rule, or the best second one after it when the first alone is imprecise. */
  ghost predicate IsStep(rule: Rule, first: Rule, found: Rule, change: Change, items: seq<Item>) {
    && BestStep(rule, first, change, items)
    && (found == first || (!Precise(first, change, items) && BestStep(first, found, change, items)))
  }

  /** One or two greedily chosen thresholds. Raises exactly when some numeric field is also text; what it finds reaches
      precision 0.8 and recall 0.75, is refused less often than taught, and scores no lower than its first step. */
  method BestThreshold(rule: Rule, change: Change, items: seq<Item>) returns (search: Search, ghost first: Option<Rule>)
    ensures search.Raises? <==> Mixed(change, items)
    ensures search.Found? ==>
              && Precise(search.rule, change, items) && Recalls(search.rule, change, items)
              && first.Some? && IsStep(rule, first.value, search.rule, change, items)
              && ScoresAtMost(Score(first.value, change, items), Score(search.rule, change, items))
    ensures search.Nothing? ==> NoThreshold(rule, change, items)
  {
    first := None;
    var numeric := set r, k | r in items && change in r.taught && k in r.fields && Number(r.fields[k]).Some? :: k;
    if exists key :: key in numeric && TextField(key, change, items) {
      return Raises, None;
    }
    var one := AddThreshold(rule, change, items, numeric);
    first := one;
    if one.None? {
      return Nothing, first;
    }
    var support, _, matched := Stats(one.value, change, items);
    if Ratio(support, matched) >= 0.8 {
      return Found(one.value), first;
    }
    assert !Precise(one.value, change, items);
    var two := AddThreshold(one.value, change, items, numeric);
    SecondExists(rule, one.value, two, change, items);
    BothSteps(rule, one.value, two.value, change, items);
    var support2, _, matched2 := Stats(two.value, change, items);
    search := if Ratio(support2, matched2) >= 0.8 then Found(two.value) else Nothing;
  }

  lemma SecondExists(rule: Rule, one: Rule, two: Option<Rule>, change: Change, items: seq<Item>)
    requires BestStep(rule, one, change, items)
    requires two.None? ==> forall c :: Tried(c, change, items) ==> !Recalls(With(one, c), change, items)
    ensures two.Some?
  {
    SecondStepNeverWorse(rule, one, change, items);
  }

  lemma BothSteps(rule: Rule, one: Rule, two: Rule, change: Change, items: seq<Item>)
    requires BestStep(rule, one, change, items) && BestStep(one, two, change, items) && !Precise(one, change, items)
    ensures IsStep(rule, one, two, change, items) && Recalls(two, change, items)
    ensures ScoresAtMost(Score(one, change, items), Score(two, change, items))
    ensures !Precise(two, change, items) ==> NoThreshold(rule, change, items)
  {
    SecondStepNeverWorse(rule, one, change, items);
  }

  lemma FoundIsTaughtMoreThanRefused(rule: Rule, change: Change, items: seq<Item>)
    requires Recalls(rule, change, items) && Taught(items, change) > 0
    ensures Rejected(rule, change, items) < Support(rule, change, items)
  {
  }

  // ----- the first threshold keeps its recall

  ghost predicate AlwaysNumeric(key: string, change: Change, items: seq<Item>) {
    forall r :: r in items && change in r.taught ==> key in r.fields && Number(r.fields[key]).Some?
  }

  /** What the first record adds to the support of one bound and to the taught values. */
  lemma BoundFirst(rule: Rule, c: Condition, change: Change, items: seq<Item>)
    requires items != [] && Unconditional(rule) && AlwaysNumeric(c.field, change, items) && Number(c.value).Some?
    ensures change !in items[0].taught ==>
              && Support(With(rule, c), change, items) == Support(With(rule, c), change, items[1..])
              && TaughtValues(c.field, change, items) == TaughtValues(c.field, change, items[1..])
    ensures change in items[0].taught ==>
              var x := NumberOf(items[0].fields[c.field]);
              && TaughtValues(c.field, change, items) == [x] + TaughtValues(c.field, change, items[1..])
              && Support(With(rule, c), change, items) == Support(With(rule, c), change, items[1..])
                 + (if Holds(items[0].fields, c) then 1 else 0)
  {
    assert items[0] in items;
    CountFirst(With(rule, c), change, items);
  }

  lemma {:induction false} BoundSupport(rule: Rule, c: Condition, change: Change, items: seq<Item>)
    requires Unconditional(rule) && AlwaysNumeric(c.field, change, items) && Number(c.value).Some?
              && (c.op == Ge || c.op == Le)
    ensures Support(With(rule, c), change, items)
            == if c.op == Ge then AtLeast(TaughtValues(c.field, change, items), Number(c.value).value)
               else AtMost(TaughtValues(c.field, change, items), Number(c.value).value)
    ensures |TaughtValues(c.field, change, items)| == Taught(items, change)
  {
    if items != [] {
      BoundFirst(rule, c, change, items);
      assert items[0] in items && forall r :: r in items[1..] ==> r in items;
      BoundSupport(rule, c, change, items[1..]);
    }
  }

  lemma {:induction false} TaughtJsonIsNumeric(key: string, change: Change, items: seq<Item>)
    requires AlwaysNumeric(key, change, items)
    ensures forall v :: v in TaughtJson(key, change, items) ==> Number(v).Some?
  {
    if items != [] {
      assert items[0] in items && forall r :: r in items[1..] ==> r in items;
      TaughtJsonIsNumeric(key, change, items[1..]);
    }
  }

  /** From an empty rule, on a numeric field every taught record has, neither threshold is discarded for recall: the
      lower one keeps at least 85% of the taught records, the upper one at least 75%. */
  lemma FirstThresholdKeepsRecall(rule: Rule, c: Condition, change: Change, items: seq<Item>)
    requires Unconditional(rule) && AlwaysNumeric(c.field, change, items) && c in Bounds(c.field, change, items)
    ensures c.op == Ge ==> 100 * Support(With(rule, c), change, items) >= 85 * Taught(items, change)
    ensures 4 * Support(With(rule, c), change, items) >= 3 * Taught(items, change)
  {
    var json := TaughtJson(c.field, change, items);
    var values := TaughtValues(c.field, change, items);
    var sorted := SortJson(json);
    SortNumbers(json);
    TaughtNumbers(c.field, change, items);
    TaughtJsonIsNumeric(c.field, change, items);
    assert c.value in sorted;
    assert Number(c.value).Some? && NumberOf(c.value) == Number(c.value).value;
    assert Numbers(sorted)[LowIndex(|sorted|)] == Low(values) && Numbers(sorted)[HighIndex(|sorted|)] == High(values);
    BoundSupport(rule, c, change, items);
    PercentilesKeep(values);
  }

  // ----- sequential covering

  predicate Covered(covering: seq<Rule>, r: Item) {
    exists rule :: rule in covering && Fires(rule, r)
  }

  /** The taught records no rule covers yet. */
  function Missed(items: seq<Item>, change: Change, covering: seq<Rule>): seq<Item> {
    if items == [] then []
    else (if change in items[0].taught && !Covered(covering, items[0]) then [items[0]] else [])
         + Missed(items[1..], change, covering)
  }

  function Others(items: seq<Item>, change: Change): seq<Item> {
    if items == [] then []
    else (if change !in items[0].taught then [items[0]] else []) + Others(items[1..], change)
  }

  /** What a further rule is fitted to: everything but the taught records already covered. */
  function Pool(items: seq<Item>, change: Change, covering: seq<Rule>): seq<Item> {
    Missed(items, change, covering) + Others(items, change)
  }

  lemma {:induction false} PoolMembers(items: seq<Item>, change: Change, covering: seq<Rule>)
    ensures forall r :: r in Missed(items, change, covering)
              <==> r in items && change in r.taught && !Covered(covering, r)
    ensures forall r :: r in Others(items, change) <==> r in items && change !in r.taught
  {
    if items != [] { PoolMembers(items[1..], change, covering); }
  }

  /** The covered taught records the rule matches: all that the pool leaves out of its counts. */
  function Already(rule: Rule, change: Change, items: seq<Item>, covering: seq<Rule>): nat {
    if items == [] then 0
    else (if change in items[0].taught && Covered(covering, items[0]) && Fires(rule, items[0]) then 1 else 0)
         + Already(rule, change, items[1..], covering)
  }

  lemma SplitCounts(rule: Rule, change: Change, a: seq<Item>, b: seq<Item>)
    ensures Support(rule, change, a + b) == Support(rule, change, a) + Support(rule, change, b)
    ensures Rejected(rule, change, a + b) == Rejected(rule, change, a) + Rejected(rule, change, b)
    ensures Matched(rule, a + b) == Matched(rule, a) + Matched(rule, b)
  {
    MatchingAppend(rule, a, b);
    TaughtAppend(Matching(rule, a), Matching(rule, b), change);
  }

  lemma {:induction false} PoolCounts(rule: Rule, change: Change, items: seq<Item>, covering: seq<Rule>)
    ensures var missed, others := Missed(items, change, covering), Others(items, change);
            var more := Already(rule, change, items, covering);
            && Support(rule, change, items) == Support(rule, change, missed) + Support(rule, change, others) + more
            && Matched(rule, items) == Matched(rule, missed) + Matched(rule, others) + more
  {
    if items != [] {
      var r := items[0];
      PoolCounts(rule, change, items[1..], covering);
      CountFirst(rule, change, items);
      PoolFirst(change, items, covering);
    }
  }

  lemma PoolFirst(change: Change, items: seq<Item>, covering: seq<Rule>)
    requires items != []
    ensures Missed(items, change, covering)
            == if change in items[0].taught && !Covered(covering, items[0])
               then [items[0]] + Missed(items[1..], change, covering)
               else Missed(items[1..], change, covering)
    ensures Others(items, change)
            == if change !in items[0].taught then [items[0]] + Others(items[1..], change)
               else Others(items[1..], change)
  {
    assert [] + Missed(items[1..], change, covering) == Missed(items[1..], change, covering);
    assert [] + Others(items[1..], change) == Others(items[1..], change);
  }

  /** No record that teaches a change refuses it, so the pool leaves out no refusal. */
  lemma {:induction false} PoolRejects(rule: Rule, change: Change, items: seq<Item>, covering: seq<Rule>)
    requires Honest(items)
    ensures Rejected(rule, change, items)
            == Rejected(rule, change, Missed(items, change, covering)) + Rejected(rule, change, Others(items, change))
  {
    if items != [] {
      var r := items[0];
      assert r in items && forall q :: q in items[1..] ==> q in items;
      PoolRejects(rule, change, items[1..], covering);
      CountFirst(rule, change, items);
      PoolFirst(change, items, covering);
    }
  }

  /** Fitting to the pool flatters no rule: over all records it is refused exactly as often, and its precision is at
      least what the pool shows, because the pool leaves out only taught records. */
  lemma PoolIsHonest(rule: Rule, change: Change, items: seq<Item>, covering: seq<Rule>)
    requires Honest(items) && Matched(rule, Pool(items, change, covering)) > 0
    ensures Rejected(rule, change, items) == Rejected(rule, change, Pool(items, change, covering))
    ensures Precision(rule, change, items) >= Precision(rule, change, Pool(items, change, covering))
  {
    var missed, others := Missed(items, change, covering), Others(items, change);
    PoolRejects(rule, change, items, covering);
    SplitCounts(rule, change, missed, others);
    PoolPrecision(rule, change, items, covering);
  }

  lemma PoolPrecision(rule: Rule, change: Change, items: seq<Item>, covering: seq<Rule>)
    requires Matched(rule, Pool(items, change, covering)) > 0
    ensures Precision(rule, change, items) >= Precision(rule, change, Pool(items, change, covering))
  {
    var pool, more := Pool(items, change, covering), Already(rule, change, items, covering);
    PoolCounts(rule, change, items, covering);
    SplitCounts(rule, change, Missed(items, change, covering), Others(items, change));
    SupportWithin(rule, change, pool);
    MoreHitsHigherRatio(Support(rule, change, pool), Matched(rule, pool), more);
  }

  lemma SupportWithin(rule: Rule, change: Change, items: seq<Item>)
    ensures Support(rule, change, items) <= Matched(rule, items)
  {
  }

  /** The rule matches a taught record none of the covering rules matches. */
  ghost predicate Progress(rule: Rule, change: Change, items: seq<Item>, covering: seq<Rule>) {
    exists r :: r in items && change in r.taught && !Covered(covering, r) && Fires(rule, r)
  }

  lemma {:induction false} SupportedFires(rule: Rule, change: Change, items: seq<Item>)
    requires Support(rule, change, items) > 0
    ensures exists r :: r in items && change in r.taught && Fires(rule, r)
  {
    CountFirst(rule, change, items);
    if !(Fires(rule, items[0]) && change in items[0].taught) {
      SupportedFires(rule, change, items[1..]);
      var r :| r in items[1..] && change in r.taught && Fires(rule, r);
      assert r in items;
    } else {
      assert items[0] in items;
    }
  }

  lemma PoolSupportIsProgress(rule: Rule, change: Change, items: seq<Item>, covering: seq<Rule>)
    requires Support(rule, change, Pool(items, change, covering)) > 0
    ensures Progress(rule, change, items, covering)
  {
    SupportedFires(rule, change, Pool(items, change, covering));
    var r :| r in Pool(items, change, covering) && change in r.taught && Fires(rule, r);
    PoolMembers(items, change, covering);
    assert r in Missed(items, change, covering) || r in Others(items, change);
  }

  lemma {:induction false} ProgressShrinks(rule: Rule, change: Change, items: seq<Item>, covering: seq<Rule>)
    ensures |Missed(items, change, covering + [rule])| <= |Missed(items, change, covering)|
    ensures Progress(rule, change, items, covering) ==>
              |Missed(items, change, covering + [rule])| < |Missed(items, change, covering)|
  {
    if items != [] {
      ProgressShrinks(rule, change, items[1..], covering);
      var r := items[0];
      assert Covered(covering + [rule], r) <==> Covered(covering, r) || Fires(rule, r) by {
        assert rule in covering + [rule];
        assert forall q :: q in covering ==> q in covering + [rule];
      }
    }
  }

}

/** The searches that refit a rule to the records: _tighten, _fit_thresholds, _categorical, _best_threshold
    (autonomy/learning.py). Where the source sorts candidates first, any order is allowed here. */
module Fitting {
  import opened Wrappers
  import opened JsonValues
  import opened Rules
  import opened Records
  import opened Statistics

  function With(rule: Rule, c: Condition): Rule {
    rule.(when := rule.when + [c])
  }

  /** bool, str or int, but not float. */
  predicate Discrete(j: Json) {
    j.Bool? || j.Str? || j.Int?
  }

  // ----- _tighten

  predicate Supports(rule: Rule, change: Change, r: Item) {
    Fires(rule, r) && change in r.taught
  }

  function Lookup(fields: Fields, key: string): Option<Json> {
    if key in fields then Some(fields[key]) else None
  }

  /** Every record has the same value here, or none has one. */
  predicate Constant(key: string, items: seq<Item>) {
    forall r, q :: r in items && q in items ==> Lookup(r.fields, key) == Lookup(q.fields, key)
  }

  /** A context value all supporting records share, and not simply all records. */
  predicate Shared(m: (string, Json), rule: Rule, change: Change, items: seq<Item>) {
    && (exists r :: r in items && Supports(rule, change, r))
    && (forall r :: r in items && Supports(rule, change, r) ==> Lookup(r.fields, m.0) == Some(m.1))
    && "context[" <= m.0 && Discrete(m.1) && !Constant(m.0, items)
  }

  function Tightened(rule: Rule, m: (string, Json)): Rule {
    With(rule, Condition(m.0, Eq, m.1))
  }

  predicate Qualifies(rule: Rule, change: Change, items: seq<Item>, minSupport: nat, floor: real) {
    && Support(rule, change, items) >= minSupport && Matched(rule, items) > 0
    && Precision(rule, change, items) >= floor
  }

  /** Tightening loses no supporting record, so it never lowers precision. */
  lemma TighteningKeepsSupport(rule: Rule, m: (string, Json), change: Change, items: seq<Item>)
    requires Shared(m, rule, change, items)
    ensures Support(Tightened(rule, m), change, items) == Support(rule, change, items)
    ensures Matched(Tightened(rule, m), items) > 0 ==>
              Precision(Tightened(rule, m), change, items) >= Precision(rule, change, items)
  {
    var c := Condition(m.0, Eq, m.1);
    forall r | r in items
      ensures Fires(With(rule, c), r) ==> Fires(rule, r)
      ensures Supports(rule, change, r) ==> Fires(With(rule, c), r)
    {
    }
    NarrowerCounts(With(rule, c), rule, change, items);
    if Matched(With(rule, c), items) > 0 {
      SmallerWholeHigherRatio(Support(rule, change, items), Matched(With(rule, c), items), Matched(rule, items));
    }
  }

  method FirstSupporting(rule: Rule, change: Change, items: seq<Item>) returns (first: Option<Item>)
    ensures first.None? <==> forall r :: r in items ==> !Supports(rule, change, r)
    ensures first.Some? ==> first.value in items && Supports(rule, change, first.value)
  {
    var i := 0;
    while i < |items|
      invariant 0 <= i <= |items|
      invariant forall j :: 0 <= j < i ==> !Supports(rule, change, items[j])
    {
      if Supports(rule, change, items[i]) {
        return Some(items[i]);
      }
      i := i + 1;
    }
    first := None;
  }

  /** The shared context values, read off one supporting record. */
  function SharedOf(fields: Fields, rule: Rule, change: Change, items: seq<Item>): set<(string, Json)> {
    set k | k in fields && Shared((k, fields[k]), rule, change, items) :: (k, fields[k])
  }

  /** The most precise of the tightened rules that qualify. */
  method MostPrecise(rule: Rule, shared: set<(string, Json)>, change: Change, items: seq<Item>, minSupport: nat,
                     floor: real)
    returns (best: Option<Rule>, chosen: (string, Json))
    ensures best.Some? ==>
              && chosen in shared && best.value == Tightened(rule, chosen)
              && Qualifies(best.value, change, items, minSupport, floor)
    ensures forall m :: m in shared && Qualifies(Tightened(rule, m), change, items, minSupport, floor) ==>
              best.Some? && Precision(Tightened(rule, m), change, items) <= Precision(best.value, change, items)
  {
    best, chosen := None, ("", Null);
    var bestPrecision := floor;
    var left := shared;
    while left != {}
      invariant left <= shared
      invariant best.None? ==> bestPrecision == floor
      invariant best.Some? ==>
        && chosen in shared && best.value == Tightened(rule, chosen)
        && Qualifies(best.value, change, items, minSupport, floor)
             && bestPrecision == Precision(best.value, change, items)
      invariant forall m :: m in shared - left && Qualifies(Tightened(rule, m), change, items, minSupport, floor) ==>
        best.Some? && Precision(Tightened(rule, m), change, items) <= bestPrecision
    {
      var m :| m in left;
      left := left - {m};
      var candidate := Tightened(rule, m);
      var support, _, matched := Stats(candidate, change, items);
      if support >= minSupport && matched > 0 && Ratio(support, matched) >= bestPrecision {
        best, bestPrecision, chosen := Some(candidate), Ratio(support, matched), m;
      }
    }
  }

  ghost predicate IsTighter(rule: Rule, change: Change, items: seq<Item>, minSupport: nat, floor: real, best: Rule) {
    && Qualifies(best, change, items, minSupport, floor)
    && exists m :: Shared(m, rule, change, items) && best == Tightened(rule, m)
  }

  /** The most precise qualifying rule that adds a shared context condition, or None when there is none. */
  ghost predicate TightensTo(rule: Rule, change: Change, items: seq<Item>, minSupport: nat, floor: real,
                             best: Option<Rule>) {
    && (best.Some? ==> IsTighter(rule, change, items, minSupport, floor, best.value))
    && forall m :: Shared(m, rule, change, items) && Qualifies(Tightened(rule, m), change, items, minSupport, floor) ==>
         best.Some? && Precision(Tightened(rule, m), change, items) <= Precision(best.value, change, items)
  }

  /** The most precise context condition all supporting records share, if any reaches the floor. */
  method Tighten(rule: Rule, change: Change, items: seq<Item>, minSupport: nat, floor: real)
    returns (best: Option<Rule>)
    ensures TightensTo(rule, change, items, minSupport, floor, best)
    ensures best.Some? ==> Precision(best.value, change, items) >= Precision(rule, change, items)
                           && Support(best.value, change, items) == Support(rule, change, items)
  {
    var first := FirstSupporting(rule, change, items);
    if first.None? {
      return None;
    }
    var chosen;
    best, chosen := MostPrecise(rule, SharedOf(first.value.fields, rule, change, items), change, items, minSupport,
                                floor);
    if best.Some? {
      ChosenTightens(rule, chosen, change, items, minSupport, floor);
    }
  }

  lemma ChosenTightens(rule: Rule, m: (string, Json), change: Change, items: seq<Item>, minSupport: nat, floor: real)
    requires Shared(m, rule, change, items) && Qualifies(Tightened(rule, m), change, items, minSupport, floor)
    ensures IsTighter(rule, change, items, minSupport, floor, Tightened(rule, m))
    ensures Precision(Tightened(rule, m), change, items) >= Precision(rule, change, items)
    ensures Support(Tightened(rule, m), change, items) == Support(rule, change, items)
  {
    TighteningKeepsSupport(rule, m, change, items);
  }

  // ----- _fit_thresholds

  predicate IsThreshold(op: Op) {
    op == Ge || op == Gt || op == Le || op == Lt
  }

  function AtThreshold(rule: Rule, index: nat, value: Json): Rule
    requires index < |rule.when|
  {
    rule.(when := rule.when[index := rule.when[index].(value := value)])
  }

  /** isinstance(value, (int, float)) holds for a bool as well. */
  function NumberOrBool(j: Json): Option<real> {
    match j
    case Bool(b) => Some(if b then 1.0 else 0.0)
    case _ => Number(j)
  }

  /** The taught values of a field, in record order. */
  function TaughtValues(field: string, change: Change, items: seq<Item>): seq<real> {
    if items == [] then []
    else
      var r := items[0];
      (if change in r.taught && field in r.fields && NumberOrBool(r.fields[field]).Some?
       then [NumberOrBool(r.fields[field]).value] else [])
      + TaughtValues(field, change, items[1..])
  }

  /** Observed numbers inside the typical taught range on the side the condition bounds. */
  function Thresholds(c: Condition, change: Change, items: seq<Item>): set<Json> {
    var observed := set r | r in items && c.field in r.fields && Number(r.fields[c.field]).Some? :: r.fields[c.field];
    var taught := TaughtValues(c.field, change, items);
    if taught == [] then observed
    else if c.op == Ge || c.op == Gt then set v | v in observed && Number(v).Some? && Number(v).value >= Low(taught)
    else set v | v in observed && Number(v).Some? && Number(v).value <= High(taught)
  }

  predicate Acceptable(rule: Rule, change: Change, items: seq<Item>, floor: real) {
    && Matched(rule, items) > 0 && Precision(rule, change, items) >= floor
    && Rejected(rule, change, items) < (if Support(rule, change, items) > 1 then Support(rule, change, items) else 1)
  }

  function Distance(a: Json, b: Json): real {
    var x := if Number(a).Some? then Number(a).value else 0.0;
    var y := if Number(b).Some? then Number(b).value else 0.0;
    if x >= y then x - y else y - x
  }

  /** Most support first, then least distance from the value the model chose. */
  predicate NoBetter(a: (nat, real), b: (nat, real)) {
    a.0 < b.0 || (a.0 == b.0 && a.1 >= b.1)
  }

  function FitScore(rule: Rule, index: nat, value: Json, change: Change, items: seq<Item>): (nat, real)
    requires index < |rule.when|
  {
    (Support(AtThreshold(rule, index, value), change, items), Distance(value, rule.when[index].value))
  }

  ghost predicate IsBestFit(rule: Rule, index: nat, value: Json, change: Change, items: seq<Item>, floor: real)
    requires index < |rule.when|
  {
    && value in Thresholds(rule.when[index], change, items)
    && Acceptable(AtThreshold(rule, index, value), change, items, floor)
    && forall v :: v in Thresholds(rule.when[index], change, items)
         && Acceptable(AtThreshold(rule, index, v), change, items, floor)
         ==> NoBetter(FitScore(rule, index, v, change, items), FitScore(rule, index, value, change, items))
  }

  ghost predicate CanFit(rule: Rule, index: nat, change: Change, items: seq<Item>, floor: real)
    requires index < |rule.when|
  {
    exists v :: v in Thresholds(rule.when[index], change, items)
      && Acceptable(AtThreshold(rule, index, v), change, items, floor)
  }

  ghost predicate FitsAt(rule: Rule, index: nat, change: Change, items: seq<Item>, floor: real, best: Rule)
    requires index < |rule.when|
  {
    if CanFit(rule, index, change, items, floor)
    then exists v :: IsBestFit(rule, index, v, change, items, floor) && best == AtThreshold(rule, index, v)
    else best == rule
  }

  /** Moves one threshold to the best acceptable observed value, and leaves the rule alone when there is none. */
  method FitOne(rule: Rule, index: nat, change: Change, items: seq<Item>, floor: real) returns (best: Rule)
    requires index < |rule.when|
    ensures FitsAt(rule, index, change, items, floor, best)
  {
    var thresholds := Thresholds(rule.when[index], change, items);
    var chosen: Option<Json> := None;
    best := rule;
    var score := (0, 0.0);
    var left := thresholds;
    while left != {}
      invariant left <= thresholds
      invariant chosen.None? ==> best == rule
      invariant chosen.Some? ==>
        && chosen.value in thresholds && best == AtThreshold(rule, index, chosen.value)
        && Acceptable(best, change, items, floor) && score == FitScore(rule, index, chosen.value, change, items)
      invariant forall v :: v in thresholds - left && Acceptable(AtThreshold(rule, index, v), change, items, floor) ==>
        chosen.Some? && NoBetter(FitScore(rule, index, v, change, items), score)
    {
      var value :| value in left;
      left := left - {value};
      var candidate := AtThreshold(rule, index, value);
      var support, rejected, matched := Stats(candidate, change, items);
      if matched > 0 && Ratio(support, matched) >= floor && rejected < (if support > 1 then support else 1) {
        var s := (support, Distance(value, rule.when[index].value));
        if chosen.None? || !NoBetter(s, score) {
          best, score, chosen := candidate, s, Some(value);
        }
      }
    }
    if chosen.Some? {
      assert IsBestFit(rule, index, chosen.value, change, items, floor);
    }
  }

  /** The same rule up to the values of numeric thresholds. */
  predicate SameShape(a: Rule, b: Rule) {
    && a.whenAny == b.whenAny && a.tool == b.tool && a.settings == b.settings && |a.when| == |b.when|
    && forall i :: 0 <= i < |a.when| ==>
         && a.when[i].field == b.when[i].field && a.when[i].op == b.when[i].op
         && (a.when[i].value == b.when[i].value || (IsThreshold(a.when[i].op) && Number(a.when[i].value).Some?))
  }

  function Max(a: real, b: real): real {
    if a >= b then a else b
  }

  /** The rule after each condition was refitted in turn, each against the rule the ones before it left. */
  ghost predicate FitPath(rule: Rule, path: seq<Rule>, change: Change, items: seq<Item>, floor: real) {
    && 0 < |path| <= |rule.when| + 1
    && var n := |path| - 1;
       if n == 0 then path[0] == rule
       else FitPath(rule, path[..n], change, items, floor)
            && NextFit(rule, path[n - 1], n - 1, change, items, floor, path[n])
  }

  ghost predicate FittedTo(rule: Rule, change: Change, items: seq<Item>, floor: real, fitted: Rule) {
    exists path :: FitPath(rule, path, change, items, floor) && |path| == |rule.when| + 1 && path[|path| - 1] == fitted
  }

  ghost predicate NextFit(rule: Rule, prev: Rule, i: nat, change: Change, items: seq<Item>, floor: real, fitted: Rule)
    requires i < |rule.when|
  {
    && |prev.when| == |rule.when|
    && if Refits(rule, i) then FitsAt(prev, i, change, items, floor, fitted) else fitted == prev
  }

  predicate Refits(rule: Rule, i: nat)
    requires i < |rule.when|
  {
    IsThreshold(rule.when[i].op) && Number(rule.when[i].value).Some?
  }

  /** Either the rule as it was, or one of the same fields and operators that reaches the floor and is taught more
      often than refused. */
  lemma FittedKeepsShape(rule: Rule, change: Change, items: seq<Item>, floor: real, fitted: Rule)
    requires FittedTo(rule, change, items, floor, fitted)
    ensures SameShape(rule, fitted)
    ensures fitted == rule || Acceptable(fitted, change, items, floor)
  {
    var path :| FitPath(rule, path, change, items, floor) && |path| == |rule.when| + 1 && path[|path| - 1] == fitted;
    PathKeepsShape(rule, path, change, items, floor);
  }

  lemma {:induction false} PathKeepsShape(rule: Rule, path: seq<Rule>, change: Change, items: seq<Item>, floor: real)
    requires FitPath(rule, path, change, items, floor)
    ensures SameShape(rule, path[|path| - 1])
    ensures path[|path| - 1] == rule || Acceptable(path[|path| - 1], change, items, floor)
    decreases |path|
  {
    var n := |path| - 1;
    if n > 0 {
      PathKeepsShape(rule, path[..n], change, items, floor);
      NextFitKeepsShape(rule, path[n - 1], n - 1, change, items, floor, path[n]);
    }
  }

  lemma NextFitKeepsShape(rule: Rule, prev: Rule, i: nat, change: Change, items: seq<Item>, floor: real, fitted: Rule)
    requires i < |rule.when| && SameShape(rule, prev) && NextFit(rule, prev, i, change, items, floor, fitted)
    ensures SameShape(rule, fitted)
    ensures fitted == prev || Acceptable(fitted, change, items, floor)
  {
    if fitted != prev {
      var v :| IsBestFit(prev, i, v, change, items, floor) && fitted == AtThreshold(prev, i, v);
    }
  }

  lemma NextIsFitted(rule: Rule, path: seq<Rule>, change: Change, items: seq<Item>, floor: real, next: Rule)
    requires FitPath(rule, path, change, items, floor) && |path| <= |rule.when|
    requires NextFit(rule, path[|path| - 1], |path| - 1, change, items, floor, next)
    ensures FitPath(rule, path + [next], change, items, floor)
  {
    var longer, n := path + [next], |path|;
    assert longer[..n] == path && longer[n - 1] == path[n - 1] && longer[n] == next;
    assert NextFit(rule, longer[n - 1], n - 1, change, items, floor, longer[n]);
  }

  /** Every numeric threshold in turn. */
  method FitThresholds(rule: Rule, change: Change, items: seq<Item>, minPrecision: real) returns (fitted: Rule)
    ensures FittedTo(rule, change, items, Max(minPrecision, 0.8), fitted)
  {
    var floor := Max(minPrecision, 0.8);
    fitted := rule;
    ghost var path := [rule];
    var i := 0;
    while i < |rule.when|
      invariant 0 <= i <= |rule.when| && |path| == i + 1
      invariant FitPath(rule, path, change, items, floor) && path[i] == fitted && |fitted.when| == |rule.when|
    {
      if IsThreshold(rule.when[i].op) && Number(rule.when[i].value).Some? {
        fitted := FitOne(fitted, i, change, items, floor);
      }
      NextIsFitted(rule, path, change, items, floor, fitted);
      path := path + [fitted];
      i := i + 1;
    }
  }

  // ----- _categorical

  /** A discrete value some taught record has. */
  predicate TaughtValue(m: (string, Json), change: Change, items: seq<Item>) {
    exists r :: r in items && change in r.taught && Lookup(r.fields, m.0) == Some(m.1) && Discrete(m.1)
  }

  function Occurrences(m: (string, Json), change: Change, items: seq<Item>): nat {
    if items == [] then 0
    else
      (if change in items[0].taught && Lookup(items[0].fields, m.0) == Some(m.1) then 1 else 0)
      + Occurrences(m, change, items[1..])
  }

  predicate Everywhere(key: string, items: seq<Item>) {
    items != [] && forall r :: r in items ==> key in r.fields
  }

  /** (support, known everywhere, is text, shorter name); larger is better. */
  predicate Ranks(a: (nat, bool, bool, nat), b: (nat, bool, bool, nat)) {
    a.0 < b.0
    || (a.0 == b.0 && !a.1 && b.1)
    || (a.0 == b.0 && a.1 == b.1 && !a.2 && b.2)
    || (a.0 == b.0 && a.1 == b.1 && a.2 == b.2 && a.3 >= b.3)
  }

  function CategoryScore(rule: Rule, m: (string, Json), change: Change, items: seq<Item>): (nat, bool, bool, nat) {
    (Support(Tightened(rule, m), change, items), Everywhere(m.0, items), m.1.Str?, |m.0|)
  }

  predicate GoodCategory(rule: Rule, m: (string, Json), change: Change, items: seq<Item>, minSupport: nat) {
    var candidate := Tightened(rule, m);
    && TaughtValue(m, change, items) && Occurrences(m, change, items) >= minSupport
    && Rejected(candidate, change, items) == 0 && Precision(candidate, change, items) >= 0.8
  }

  predicate Unconditional(rule: Rule) {
    rule.when == [] && rule.whenAny == []
  }

  lemma {:induction false} OccurrencesAreSupport(rule: Rule, m: (string, Json), change: Change, items: seq<Item>)
    requires Unconditional(rule) && !m.1.Null?
    ensures Support(Tightened(rule, m), change, items) >= Occurrences(m, change, items)
    ensures TaughtValue(m, change, items) ==> Support(Tightened(rule, m), change, items) > 0
    ensures Support(Tightened(rule, m), change, items) <= Matched(Tightened(rule, m), items)
  {
    if items != [] {
      CountFirst(Tightened(rule, m), change, items);
      assert Fires(rule, items[0]);
      OccurrencesAreSupport(rule, m, change, items[1..]);
      if TaughtValue(m, change, items) {
        var r :| r in items && change in r.taught && Lookup(r.fields, m.0) == Some(m.1) && Discrete(m.1);
        assert r == items[0] || r in items[1..];
      }
    }
  }

  /** The `field == value` that teaches the most records precisely. */
  method Categorical(rule: Rule, change: Change, items: seq<Item>, minSupport: nat) returns (best: Option<Rule>)
    requires Unconditional(rule)
    ensures best.Some? ==> exists m ::
              && GoodCategory(rule, m, change, items, minSupport) && best.value == Tightened(rule, m)
              && forall n :: GoodCategory(rule, n, change, items, minSupport) ==>
                   Ranks(CategoryScore(rule, n, change, items), CategoryScore(rule, m, change, items))
    ensures best.None? ==> forall m :: !GoodCategory(rule, m, change, items, minSupport)
  {
    var pairs := set r, k | r in items && change in r.taught && k in r.fields && Discrete(r.fields[k])
                   :: (k, r.fields[k]);
    assert forall m :: m in pairs <==> TaughtValue(m, change, items) by {
      forall m | TaughtValue(m, change, items) ensures m in pairs {
        var r :| r in items && change in r.taught && Lookup(r.fields, m.0) == Some(m.1) && Discrete(m.1);
        assert m == (m.0, r.fields[m.0]);
      }
    }
    var chosen: Option<(string, Json)> := PickCategory(rule, pairs, change, items, minSupport);
    best := if chosen.Some? then Some(Tightened(rule, chosen.value)) else None;
  }

  method RateCategory(rule: Rule, m: (string, Json), change: Change, items: seq<Item>, minSupport: nat)
    returns (good: bool, score: (nat, bool, bool, nat))
    requires Unconditional(rule) && TaughtValue(m, change, items) && Occurrences(m, change, items) >= minSupport
    ensures good <==> GoodCategory(rule, m, change, items, minSupport)
    ensures score == CategoryScore(rule, m, change, items)
  {
    var support, rejected, matched := Stats(Tightened(rule, m), change, items);
    OccurrencesAreSupport(rule, m, change, items);
    assert matched > 0;
    good := rejected == 0 && support as real / matched as real >= 0.8;
    score := (support, Everywhere(m.0, items), m.1.Str?, |m.0|);
  }

  /** The choice is good, and nothing good among these ranks above it. */
  ghost predicate BestOf(chosen: Option<(string, Json)>, seen: set<(string, Json)>, rule: Rule, change: Change,
                         items: seq<Item>, minSupport: nat) {
    && (chosen.Some? ==> GoodCategory(rule, chosen.value, change, items, minSupport))
    && forall n :: n in seen && GoodCategory(rule, n, change, items, minSupport) ==>
         chosen.Some? && Ranks(CategoryScore(rule, n, change, items), CategoryScore(rule, chosen.value, change, items))
  }

  lemma BestOfMore(chosen: Option<(string, Json)>, next: Option<(string, Json)>, seen: set<(string, Json)>,
                   m: (string, Json), rule: Rule, change: Change, items: seq<Item>, minSupport: nat)
    requires BestOf(chosen, seen, rule, change, items, minSupport)
    requires next == if GoodCategory(rule, m, change, items, minSupport)
                        && (chosen.None? || !Ranks(CategoryScore(rule, m, change, items),
                                                   CategoryScore(rule, chosen.value, change, items)))
                     then Some(m) else chosen
    ensures BestOf(next, seen + {m}, rule, change, items, minSupport)
  {
  }

  method PickCategory(rule: Rule, pairs: set<(string, Json)>, change: Change, items: seq<Item>, minSupport: nat)
    returns (chosen: Option<(string, Json)>)
    requires Unconditional(rule) && forall m :: m in pairs ==> TaughtValue(m, change, items)
    ensures BestOf(chosen, pairs, rule, change, items, minSupport)
  {
    chosen := None;
    var score := (0, false, false, 0);
    var left := pairs;
    while left != {}
      invariant left <= pairs
      invariant chosen.Some? ==> score == CategoryScore(rule, chosen.value, change, items)
      invariant BestOf(chosen, pairs - left, rule, change, items, minSupport)
    {
      var m :| m in left;
      ghost var before := chosen;
      if Occurrences(m, change, items) >= minSupport {
        var good, s := RateCategory(rule, m, change, items, minSupport);
        if good && (chosen.None? || !Ranks(s, score)) {
          chosen, score := Some(m), s;
        }
      }
      BestOfMore(before, chosen, pairs - left, m, rule, change, items, minSupport);
      assert pairs - (left - {m}) == pairs - left + {m};
      left := left - {m};
    }
    assert pairs - left == pairs;
  }
}

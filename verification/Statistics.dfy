/** Counting how well a rule fits the records of one event type, and percentiles (autonomy/learning.py). */
module Statistics {
  import opened Rules
  import opened Records

  /** What the learner looks at in a record. */
  datatype Item = Item(id: string, fields: Fields, taught: set<Change>, refused: set<Change>)

  function View(r: Record): Item {
    Item(r.id, FieldsOf(r), Changes(r), Records.Rejections(r))
  }

  /** No record both teaches and refuses a change. */
  predicate Honest(items: seq<Item>) {
    forall r :: r in items ==> r.taught !! r.refused
  }

  predicate Fires(rule: Rule, r: Item) {
    Matches(rule, r.fields)
  }

  /** The records a rule matches, in order. */
  function Matching(rule: Rule, items: seq<Item>): (m: seq<Item>)
    ensures |m| <= |items|
  {
    if items == [] then []
    else
      var rest := Matching(rule, items[1..]);
      if Fires(rule, items[0]) then [items[0]] + rest else rest
  }

  function Taught(items: seq<Item>, change: Change): (n: nat)
    ensures n <= |items|
    ensures n == 0 <==> forall r :: r in items ==> change !in r.taught
  {
    if items == [] then 0 else (if change in items[0].taught then 1 else 0) + Taught(items[1..], change)
  }

  function Refusing(items: seq<Item>, change: Change): (n: nat)
    ensures n <= |items|
  {
    if items == [] then 0 else (if change in items[0].refused then 1 else 0) + Refusing(items[1..], change)
  }

  function Support(rule: Rule, change: Change, items: seq<Item>): nat {
    Taught(Matching(rule, items), change)
  }

  function Rejected(rule: Rule, change: Change, items: seq<Item>): nat {
    Refusing(Matching(rule, items), change)
  }

  function Matched(rule: Rule, items: seq<Item>): nat {
    |Matching(rule, items)|
  }

  function Ratio(part: nat, whole: nat): real {
    if whole == 0 then 0.0 else part as real / whole as real
  }

  function Precision(rule: Rule, change: Change, items: seq<Item>): real {
    Ratio(Support(rule, change, items), Matched(rule, items))
  }

  lemma {:induction false} MatchingMembers(rule: Rule, items: seq<Item>)
    ensures forall r :: r in Matching(rule, items) <==> r in items && Fires(rule, r)
  {
    if items != [] { MatchingMembers(rule, items[1..]); }
  }

  /** What the first record adds to the counts. */
  lemma CountFirst(rule: Rule, change: Change, items: seq<Item>)
    requires items != []
    ensures var fires := Fires(rule, items[0]);
            && Support(rule, change, items)
               == Support(rule, change, items[1..]) + (if fires && change in items[0].taught then 1 else 0)
            && Rejected(rule, change, items)
               == Rejected(rule, change, items[1..]) + (if fires && change in items[0].refused then 1 else 0)
            && Matched(rule, items) == Matched(rule, items[1..]) + (if fires then 1 else 0)
  {
    var rest := Matching(rule, items[1..]);
    assert ([items[0]] + rest)[1..] == rest;
  }

  /** (taught, rejected, matched) in one pass, as _stats counts them. */
  method Stats(rule: Rule, change: Change, items: seq<Item>) returns (support: nat, rejected: nat, matched: nat)
    ensures support == Support(rule, change, items) && rejected == Rejected(rule, change, items)
              && matched == Matched(rule, items)
    ensures support <= matched && rejected <= matched
  {
    support, rejected, matched := 0, 0, 0;
    var i := 0;
    while i < |items|
      invariant 0 <= i <= |items|
      invariant support + Support(rule, change, items[i..]) == Support(rule, change, items)
      invariant rejected + Rejected(rule, change, items[i..]) == Rejected(rule, change, items)
      invariant matched + Matched(rule, items[i..]) == Matched(rule, items)
      invariant support <= matched && rejected <= matched
    {
      CountFirst(rule, change, items[i..]);
      assert items[i..][1..] == items[i + 1..];
      if Fires(rule, items[i]) {
        matched := matched + 1;
        support := support + if change in items[i].taught then 1 else 0;
        rejected := rejected + if change in items[i].refused then 1 else 0;
      }
      i := i + 1;
    }
  }

  /** Support for a change and its rejection never overlap. */
  lemma {:induction false} SupportAndRejection(rule: Rule, change: Change, items: seq<Item>)
    requires Honest(items)
    ensures Support(rule, change, items) + Rejected(rule, change, items) <= Matched(rule, items)
  {
    if items != [] {
      CountFirst(rule, change, items);
      assert items[0] in items && forall r :: r in items[1..] ==> r in items;
      SupportAndRejection(rule, change, items[1..]);
    }
  }

  // ----- comparing rules

  lemma {:induction false} NarrowerCounts(narrow: Rule, wide: Rule, change: Change, items: seq<Item>)
    requires forall r :: r in items && Fires(narrow, r) ==> Fires(wide, r)
    ensures Support(narrow, change, items) <= Support(wide, change, items)
    ensures Rejected(narrow, change, items) <= Rejected(wide, change, items)
    ensures Matched(narrow, items) <= Matched(wide, items)
    ensures (forall r :: r in items && Fires(wide, r) && change in r.taught ==> Fires(narrow, r))
            ==> Support(narrow, change, items) == Support(wide, change, items)
  {
    if items != [] {
      assert items[0] in items;
      assert forall r :: r in items[1..] ==> r in items;
      NarrowerCounts(narrow, wide, change, items[1..]);
      CountFirst(narrow, change, items);
      CountFirst(wide, change, items);
    }
  }

  /** x / y >= q when x >= q * y. */
  lemma RatioAtLeast(part: nat, whole: nat, q: real)
    requires 0 < whole && part as real >= q * whole as real
    ensures Ratio(part, whole) >= q
  {
    var r, w := Ratio(part, whole), whole as real;
    assert r * w == part as real;
    if r < q {
      var d := q - r;
      assert d > 0.0 && w > 0.0;
      assert d * w > 0.0;
      assert d * w == q * w - r * w;
    }
  }

  lemma SmallerWholeHigherRatio(part: nat, small: nat, large: nat)
    requires part <= small <= large && 0 < small
    ensures Ratio(part, small) >= Ratio(part, large)
  {
    var q := Ratio(part, large);
    assert q * large as real == part as real;
    RatioAtLeast(part, small, q);
  }

  /** Adding the same number of hits to both sides of a ratio does not lower it. */
  lemma MoreHitsHigherRatio(part: nat, whole: nat, more: nat)
    requires part <= whole && 0 < whole
    ensures Ratio(part + more, whole + more) >= Ratio(part, whole)
  {
    var q := Ratio(part, whole);
    RatioBounds(part, whole);
    MoreHits(part as real, whole as real, more as real, (whole + more) as real, q);
    RatioAtLeast(part + more, whole + more, q);
  }

  lemma MoreHits(part: real, w: real, k: real, total: real, q: real)
    requires w > 0.0 && q == part / w && q <= 1.0 && k >= 0.0 && total == w + k
    ensures part + k >= q * total
  {
    assert q * w == part;
    assert (1.0 - q) * k >= 0.0;
    assert q * total == q * w + q * k;
  }

  lemma RatioBounds(part: nat, whole: nat)
    requires part <= whole
    ensures 0.0 <= Ratio(part, whole) <= 1.0
    ensures Ratio(part, whole) > 0.0 ==> part > 0
  {
  }

  lemma {:induction false} MatchingAppend(rule: Rule, a: seq<Item>, b: seq<Item>)
    ensures Matching(rule, a + b) == Matching(rule, a) + Matching(rule, b)
  {
    if a == [] {
      assert a + b == b;
    } else {
      assert (a + b)[1..] == a[1..] + b;
      MatchingAppend(rule, a[1..], b);
    }
  }

  lemma {:induction false} TaughtAppend(a: seq<Item>, b: seq<Item>, change: Change)
    ensures Taught(a + b, change) == Taught(a, change) + Taught(b, change)
    ensures Refusing(a + b, change) == Refusing(a, change) + Refusing(b, change)
  {
    if a == [] {
      assert a + b == b;
    } else {
      assert (a + b)[1..] == a[1..] + b;
      TaughtAppend(a[1..], b, change);
    }
  }

  // ----- sorting and percentiles

  predicate Sorted(s: seq<real>) {
    forall i, j :: 0 <= i < j < |s| ==> s[i] <= s[j]
  }

  function Insert(x: real, s: seq<real>): seq<real> {
    if s == [] || x <= s[0] then [x] + s else [s[0]] + Insert(x, s[1..])
  }

  function Sort(s: seq<real>): (r: seq<real>)
    ensures |r| == |s|
  {
    if s == [] then [] else
      InsertLength(s[0], Sort(s[1..]));
      Insert(s[0], Sort(s[1..]))
  }

  lemma InsertLength(x: real, s: seq<real>)
    ensures |Insert(x, s)| == |s| + 1
  {
  }

  function AtLeast(s: seq<real>, x: real): nat {
    if s == [] then 0 else (if s[0] >= x then 1 else 0) + AtLeast(s[1..], x)
  }

  function AtMost(s: seq<real>, x: real): nat {
    if s == [] then 0 else (if s[0] <= x then 1 else 0) + AtMost(s[1..], x)
  }

  lemma {:induction false} InsertCounts(x: real, s: seq<real>, y: real)
    ensures AtLeast(Insert(x, s), y) == AtLeast(s, y) + if x >= y then 1 else 0
    ensures AtMost(Insert(x, s), y) == AtMost(s, y) + if x <= y then 1 else 0
  {
    if s == [] || x <= s[0] {
      assert ([x] + s)[1..] == s;
    } else {
      InsertCounts(x, s[1..], y);
      assert ([s[0]] + Insert(x, s[1..]))[1..] == Insert(x, s[1..]);
    }
  }

  lemma {:induction false} InsertSorted(x: real, s: seq<real>)
    requires Sorted(s)
    ensures Sorted(Insert(x, s))
    ensures forall y :: y in Insert(x, s) <==> y == x || y in s
  {
    if s != [] && x > s[0] {
      InsertSorted(x, s[1..]);
      assert s == [s[0]] + s[1..];
      var rest := Insert(x, s[1..]);
      forall j | 0 <= j < |rest| ensures s[0] <= rest[j] {
        assert rest[j] in rest;
        if rest[j] in s[1..] {
          var i :| 0 <= i < |s[1..]| && s[1..][i] == rest[j];
          assert s[i + 1] == rest[j];
        }
      }
    }
  }

  lemma {:induction false} SortCorrect(s: seq<real>, y: real)
    ensures Sorted(Sort(s)) && AtLeast(Sort(s), y) == AtLeast(s, y) && AtMost(Sort(s), y) == AtMost(s, y)
    ensures forall x :: x in Sort(s) <==> x in s
  {
    if s != [] {
      SortCorrect(s[1..], y);
      InsertSorted(s[0], Sort(s[1..]));
      InsertCounts(s[0], Sort(s[1..]), y);
    }
  }

  lemma {:induction false} TailAtLeast(s: seq<real>, i: nat)
    requires Sorted(s) && i < |s|
    ensures AtLeast(s, s[i]) >= |s| - i
    decreases |s|
  {
    if i > 0 {
      TailAtLeast(s[1..], i - 1);
    } else {
      AllAtLeast(s, s[0]);
    }
  }

  lemma {:induction false} AllAtLeast(s: seq<real>, x: real)
    requires forall i :: 0 <= i < |s| ==> s[i] >= x
    ensures AtLeast(s, x) == |s|
  {
    if s != [] { AllAtLeast(s[1..], x); }
  }

  lemma {:induction false} HeadAtMost(s: seq<real>, i: nat)
    requires Sorted(s) && i < |s|
    ensures AtMost(s, s[i]) >= i + 1
    decreases |s|
  {
    if i > 0 {
      HeadAtMost(s[1..], i - 1);
    }
  }

  /** int(0.15 * (n - 1)) */
  function LowIndex(n: nat): (i: nat)
    requires n > 0
    ensures i < n
  {
    3 * (n - 1) / 20
  }

  /** round(0.85 * (n - 1)); an exact half goes to the even neighbour. */
  function HighIndex(n: nat): (i: nat)
    requires n > 0
    ensures i < n
  {
    var twentieths := 17 * (n - 1);
    var down := twentieths / 20;
    if twentieths % 20 < 10 || (twentieths % 20 == 10 && down % 2 == 0) then down else down + 1
  }

  function Low(values: seq<real>): real
    requires values != []
  {
    Sort(values)[LowIndex(|values|)]
  }

  function High(values: seq<real>): real
    requires values != []
  {
    Sort(values)[HighIndex(|values|)]
  }

  /** From any values, the low percentile keeps at least 85% of them above it and the high one at least 75% below. */
  lemma PercentilesKeep(values: seq<real>)
    requires values != []
    ensures 100 * AtLeast(values, Low(values)) >= 85 * |values|
    ensures 4 * AtMost(values, High(values)) >= 3 * |values|
  {
    var n := |values|;
    SortCorrect(values, Low(values));
    SortCorrect(values, High(values));
    TailAtLeast(Sort(values), LowIndex(n));
    HeadAtMost(Sort(values), HighIndex(n));
    assert 20 * LowIndex(n) <= 3 * (n - 1);
    assert 20 * HighIndex(n) >= 17 * (n - 1) - 10;
    if n <= 3 {
      assert n == 1 || n == 2 || n == 3;
      assert HighIndex(n) == n - 1;
    }
  }
}

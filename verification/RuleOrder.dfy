/** The order in which render_skill (autonomy/learning.py) prints rules, and which of them decides a setting. */
module RuleOrder {
  import opened Rules
  import opened Verification

  function InsertRule(a: Accepted, s: seq<Accepted>): seq<Accepted> {
    if s == [] || a.support >= s[0].support then [a] + s else [s[0]] + InsertRule(a, s[1..])
  }

  /** sorted(rules, key=-support): stable. */
  function BySupport(s: seq<Accepted>): seq<Accepted> {
    if s == [] then [] else InsertRule(s[0], BySupport(s[1..]))
  }

  function OfEvent(s: seq<Accepted>, event: string): seq<Accepted> {
    if s == [] then [] else (if s[0].event == event then [s[0]] else []) + OfEvent(s[1..], event)
  }

  function WithSupport(s: seq<Accepted>, support: nat): seq<Accepted> {
    if s == [] then [] else (if s[0].support == support then [s[0]] else []) + WithSupport(s[1..], support)
  }

  predicate Descending(s: seq<Accepted>) {
    forall i, j :: 0 <= i < j < |s| ==> s[i].support >= s[j].support
  }

  lemma {:induction false} InsertMembers(a: Accepted, s: seq<Accepted>)
    ensures forall b :: b in InsertRule(a, s) <==> b == a || b in s
  {
    if s != [] && a.support < s[0].support {
      InsertMembers(a, s[1..]);
    }
  }

  lemma {:induction false} InsertDescends(a: Accepted, s: seq<Accepted>)
    requires Descending(s)
    ensures Descending(InsertRule(a, s))
  {
    if s != [] && a.support < s[0].support {
      InsertDescends(a, s[1..]);
      InsertMembers(a, s[1..]);
      var rest := InsertRule(a, s[1..]);
      forall j | 0 <= j < |rest| ensures s[0].support >= rest[j].support {
        assert rest[j] in rest;
        if rest[j] in s[1..] {
          var i :| 0 <= i < |s[1..]| && s[1..][i] == rest[j];
          assert s[i + 1] == rest[j];
        }
      }
    }
  }

  lemma {:induction false} InsertStable(a: Accepted, s: seq<Accepted>, support: nat)
    ensures WithSupport(InsertRule(a, s), support)
              == (if a.support == support then [a] else []) + WithSupport(s, support)
  {
    if s == [] || a.support >= s[0].support {
    } else {
      InsertStable(a, s[1..], support);
      assert [s[0]] + s[1..] == s;
    }
  }

  /** Printed rules are in descending order of support, and rules of equal support keep their order. */
  lemma {:induction false} SupportOrderIsStable(s: seq<Accepted>, support: nat)
    ensures Descending(BySupport(s)) && WithSupport(BySupport(s), support) == WithSupport(s, support)
    ensures forall a :: a in BySupport(s) <==> a in s
  {
    if s != [] {
      SupportOrderIsStable(s[1..], support);
      InsertDescends(s[0], BySupport(s[1..]));
      InsertStable(s[0], BySupport(s[1..]), support);
      InsertMembers(s[0], BySupport(s[1..]));
    }
  }

  lemma {:induction false} InsertOfEvent(a: Accepted, s: seq<Accepted>, event: string)
    requires Descending(s)
    ensures OfEvent(InsertRule(a, s), event)
            == if a.event == event then InsertRule(a, OfEvent(s, event)) else OfEvent(s, event)
  {
    if s == [] || a.support >= s[0].support {
      assert ([a] + s)[1..] == s;
      OfEventMembers(s, event);
      if OfEvent(s, event) != [] {
        var first := OfEvent(s, event)[0];
        assert first in s && a.support >= first.support;
      }
    } else {
      InsertOfEvent(a, s[1..], event);
      assert [] + OfEvent(s[1..], event) == OfEvent(s[1..], event);
      assert ([s[0]] + OfEvent(s[1..], event))[1..] == OfEvent(s[1..], event);
      assert ([s[0]] + InsertRule(a, s[1..]))[1..] == InsertRule(a, s[1..]);
    }
  }

  lemma {:induction false} OfEventMembers(s: seq<Accepted>, event: string)
    ensures forall a :: a in OfEvent(s, event) <==> a in s && a.event == event
  {
    if s != [] { OfEventMembers(s[1..], event); }
  }

  /** Sorting all rules and taking one event's is sorting that event's rules. */
  lemma {:induction false} EventInOrder(s: seq<Accepted>, event: string)
    ensures OfEvent(BySupport(s), event) == BySupport(OfEvent(s, event))
  {
    if s != [] {
      EventInOrder(s[1..], event);
      SupportOrderIsStable(s[1..], 0);
      InsertOfEvent(s[0], BySupport(s[1..]), event);
      if s[0].event == event {
        assert ([s[0]] + OfEvent(s[1..], event))[1..] == OfEvent(s[1..], event);
      } else {
        assert [] + OfEvent(s[1..], event) == OfEvent(s[1..], event);
      }
    }
  }

  function JustRules(s: seq<Accepted>): (r: seq<Rule>)
    ensures |r| == |s| && forall i :: 0 <= i < |s| ==> r[i] == s[i].rule
  {
    if s == [] then [] else [s[0].rule] + JustRules(s[1..])
  }

  predicate GivesSetting(a: Accepted, fields: Fields, tool: string, key: string) {
    Gives(a.rule, fields, tool, key).Some?
  }

  /** No rule that gives the setting a value has less support. */
  predicate LeastSupported(b: Accepted, rules: seq<Accepted>, fields: Fields, tool: string, key: string) {
    forall c :: c in rules && GivesSetting(c, fields, tool, key) ==> b.support <= c.support
  }

  /** Where printed rules disagree, the one the records support least decides: it comes last. */
  lemma LeastSupportDecides(rules: seq<Accepted>, fields: Fields, tool: string, key: string)
    requires exists a :: a in rules && GivesSetting(a, fields, tool, key)
    ensures exists b :: b in rules && GivesSetting(b, fields, tool, key) && LeastSupported(b, rules, fields, tool, key)
              && ProposedValue(MatchingSettings(JustRules(BySupport(rules)), fields), tool, key)
                 == Gives(b.rule, fields, tool, key)
  {
    SupportOrderIsStable(rules, 0);
    var sorted := BySupport(rules);
    LastGiverDecides(JustRules(sorted), fields, tool, key);
    LastHasLeast(sorted, fields, tool, key);
    var b := sorted[LastGiver(JustRules(sorted), fields, tool, key).value];
    assert b in sorted;
    assert LeastSupported(b, rules, fields, tool, key);
  }

  lemma LastHasLeast(sorted: seq<Accepted>, fields: Fields, tool: string, key: string)
    requires Descending(sorted) && exists a :: a in sorted && GivesSetting(a, fields, tool, key)
    ensures var k := LastGiver(JustRules(sorted), fields, tool, key);
            k.Some? && LeastSupported(sorted[k.value], sorted, fields, tool, key)
  {
    var just := JustRules(sorted);
    forall c | c in sorted && GivesSetting(c, fields, tool, key)
      ensures LastGiver(just, fields, tool, key).Some?
      ensures sorted[LastGiver(just, fields, tool, key).value].support <= c.support
    {
      var j :| 0 <= j < |sorted| && sorted[j] == c;
      assert Gives(just[j], fields, tool, key).Some?;
    }
  }
}

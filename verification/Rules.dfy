/** Learned rules as autonomy/learning.py evaluates them, and the records they are learnt from. */
module Rules {
  import opened Wrappers
  import opened JsonValues

  // ----- fields

  /** A Python dict in insertion order. */
  type Dict = seq<(string, Json)>

  type Fields = map<string, Json>

  function Get(d: Dict, key: string): Option<Json> {
    if d == [] then None
    else if d[0].0 == key then Some(d[0].1)
    else Get(d[1..], key)
  }

  /** d[key] = value: an existing key keeps its place. */
  function Put(d: Dict, key: string, value: Json): (r: Dict)
    ensures forall k :: Get(r, k) == if k == key then Some(value) else Get(d, k)
  {
    if d == [] then [(key, value)]
    else if d[0].0 == key then [(key, value)] + d[1..]
    else [d[0]] + Put(d[1..], key, value)
  }

  function Update(d: Dict, more: Dict): (r: Dict)
    ensures forall k :: Get(r, k).Some? ==> Get(d, k).Some? || Get(more, k).Some?
    decreases |more|
  {
    if more == [] then d else Update(Put(d, more[0].0, more[0].1), more[1..])
  }

  const MAX_LIST_ITEMS := 50

  predicate IdChar(c: char) {
    'A' <= c <= 'Z' || 'a' <= c <= 'z' || '0' <= c <= '9' || c == '_' || c == '.' || c == ':' || c == '-'
  }

  /** EVENT_PATTERN; `$` also matches before a final line break. */
  predicate IsName(s: string) {
    var body := if s != "" && s[|s| - 1] == '\n' then s[..|s| - 1] else s;
    1 <= |body| <= 200 && forall i :: 0 <= i < |body| ==> IdChar(body[i])
  }

  /** item.get("id", item.get("item_id")) of a list item. */
  function ItemKey(item: Json): Option<string> {
    if !item.Obj? then None
    else
      var key := if Get(item.members, "id").Some? then Get(item.members, "id") else Get(item.members, "item_id");
      if key.Some? && key.value.Str? && IsName(key.value.s) then Some(key.value.s) else None
  }

  function Flatten(value: Json, prefix: string): Dict
    decreases value, 1
  {
    match value
    case Obj(members) => FlattenMembers(value, members, prefix)
    case Arr(items) =>
      FlattenItems(value, if |items| > MAX_LIST_ITEMS then items[..MAX_LIST_ITEMS] else items, prefix,
                   [(prefix + ".count", Int(|items|))])
    case Bool(_) => [(prefix, value)]
    case Int(_) => [(prefix, value)]
    case Float(_) => [(prefix, value)]
    case Str(s) => if |s| <= 30 then [(prefix, value)] else []
    case Null => []
  }

  function FlattenMembers(parent: Json, members: Dict, prefix: string): Dict
    requires parent.Obj? && forall m :: m in members ==> m in parent.members
    decreases parent, 0, |members|
  {
    if members == [] then []
    else
      var last := members[|members| - 1];
      assert last in parent.members;
      Update(FlattenMembers(parent, members[..|members| - 1], prefix), Flatten(last.1, prefix + "." + last.0))
  }

  function FlattenItems(parent: Json, items: seq<Json>, prefix: string, flat: Dict): Dict
    requires parent.Arr? && forall item :: item in items ==> item in parent.items
    decreases parent, 0, |items|
  {
    if items == [] then flat
    else
      var item := items[0];
      assert item in parent.items;
      var key := ItemKey(item);
      var next := if key.None? then flat
                  else Update(flat, FlattenMembers(item, WithoutIds(item.members), prefix + "." + key.value));
      FlattenItems(parent, items[1..], prefix, next)
  }

  function WithoutIds(members: Dict): (r: Dict)
    ensures forall m :: m in r ==> m in members
  {
    if members == [] then []
    else if members[0].0 == "id" || members[0].0 == "item_id" then WithoutIds(members[1..])
    else [members[0]] + WithoutIds(members[1..])
  }

  /** What follows the last dot. */
  function Tail(key: string): string {
    if '.' !in key then key else Tail(key[1..])
  }

  predicate EndsWith(s: string, suffix: string) {
    |suffix| <= |s| && s[|s| - |suffix|..] == suffix
  }

  /** Context fields that do not repeat a payload key, over the fields so far. */
  function AddContext(fields: Dict, flat: Dict, payload: Dict): Dict
    decreases |flat|
  {
    if flat == [] then fields
    else
      var next := if Get(payload, Tail(flat[0].0)).Some? then fields else Put(fields, flat[0].0, flat[0].1);
      AddContext(next, flat[1..], payload)
  }

  function AddContexts(fields: Dict, context: Dict, payload: Dict): Dict
    decreases |context|
  {
    if context == [] then fields
    else AddContexts(AddContext(fields, Flatten(context[0].1, "context[" + context[0].0 + "]"), payload),
                     context[1..], payload)
  }

  function ToFields(d: Dict): (r: Fields)
    ensures forall k :: k in r <==> Get(d, k).Some? && !EndsWith(k, "_at")
    ensures forall k :: k in r ==> Some(r[k]) == Get(d, k)
  {
    if d == [] then map[]
    else
      var rest := ToFields(d[1..]);
      if EndsWith(d[0].0, "_at") then rest else rest[d[0].0 := d[0].1]
  }

  function EventFields(payload: Dict, context: Dict): Fields {
    ToFields(AddContexts(Flatten(Obj(payload), "event"), context, payload))
  }

  // ----- rules

  datatype Op = Ge | Le | Gt | Lt | Eq | Ne

  datatype Condition = Condition(field: string, op: Op, value: Json)

  /** `settings` is the `set` of the proposal. */
  datatype Rule = Rule(when: seq<Condition>, whenAny: seq<Condition>, tool: string, settings: Dict)

  /** A number that is not a bool. */
  function Number(j: Json): Option<real> {
    match j
    case Int(i) => Some(i as real)
    case Float(r) => Some(r)
    case _ => None
  }

  /** Python's == on scalars: True == 1 == 1.0. */
  predicate Equal(a: Json, b: Json) {
    Canonical(a) == Canonical(b)
  }

  function Canonical(j: Json): Json {
    match j
    case Bool(b) => Float(if b then 1.0 else 0.0)
    case Int(i) => Float(i as real)
    case _ => j
  }

  predicate Holds(fields: Fields, c: Condition) {
    if c.field !in fields || fields[c.field].Null? then false
    else
      var value := fields[c.field];
      var x, y := Number(value), Number(c.value);
      match c.op
      case Eq => Equal(value, c.value)
      case Ne => !Equal(value, c.value)
      case Ge => x.Some? && y.Some? && x.value >= y.value
      case Le => x.Some? && y.Some? && x.value <= y.value
      case Gt => x.Some? && y.Some? && x.value > y.value
      case Lt => x.Some? && y.Some? && x.value < y.value
  }

  predicate Matches(rule: Rule, fields: Fields) {
    && (forall c :: c in rule.when ==> Holds(fields, c))
    && (rule.whenAny == [] || exists c :: c in rule.whenAny && Holds(fields, c))
  }

  /** {"from": field} */
  function From(field: string): Json {
    Obj([("from", Str(field))])
  }

  /** An event-bound argument takes its field's value; None where the source raises KeyError. */
  function Resolve(value: Json, fields: Fields): Option<Json> {
    if value.Obj? && |value.members| == 1 && value.members[0].0 == "from" then
      var source := value.members[0].1;
      if source.Str? && source.s in fields then Some(fields[source.s]) else None
    else Some(value)
  }

  function ResolveAll(settings: Dict, fields: Fields): Option<map<string, Json>> {
    if settings == [] then Some(map[])
    else
      var n := |settings| - 1;
      var before := ResolveAll(settings[..n], fields);
      var value := Resolve(settings[n].1, fields);
      if before.None? || value.None? then None else Some(before.value[settings[n].0 := value.value])
  }

  type Settings = map<string, map<string, Json>>

  function Merged(merged: Settings, tool: string, settings: map<string, Json>): Settings {
    merged[tool := (if tool in merged then merged[tool] else map[]) + settings]
  }

  /** One round of the loop of matching_settings. */
  function ApplyRule(merged: Settings, rule: Rule, fields: Fields): Settings {
    var settings := ResolveAll(rule.settings, fields);
    if Matches(rule, fields) && settings.Some? then Merged(merged, rule.tool, settings.value) else merged
  }

  function ApplyRules(merged: Settings, rules: seq<Rule>, fields: Fields): Settings
    decreases |rules|
  {
    if rules == [] then merged else ApplyRules(ApplyRule(merged, rules[0], fields), rules[1..], fields)
  }

  function MatchingSettings(rules: seq<Rule>, fields: Fields): Settings {
    ApplyRules(map[], rules, fields)
  }

  // ----- which rule decides

  function ProposedValue(settings: Settings, tool: string, key: string): Option<Json> {
    if tool in settings && key in settings[tool] then Some(settings[tool][key]) else None
  }

  /** The value a rule gives a setting: it matches, all its fields are present, and it has the setting. */
  function Gives(rule: Rule, fields: Fields, tool: string, key: string): Option<Json> {
    var settings := ResolveAll(rule.settings, fields);
    if rule.tool == tool && Matches(rule, fields) && settings.Some? && key in settings.value
    then Some(settings.value[key]) else None
  }

  /** The last rule that gives the setting a value. */
  function LastGiver(rules: seq<Rule>, fields: Fields, tool: string, key: string): (k: Option<nat>)
    ensures k.Some? ==> k.value < |rules| && Gives(rules[k.value], fields, tool, key).Some?
    ensures forall i :: 0 <= i < |rules| && Gives(rules[i], fields, tool, key).Some? ==> k.Some? && i <= k.value
  {
    if rules == [] then None
    else
      var n := |rules| - 1;
      if Gives(rules[n], fields, tool, key).Some? then Some(n) else LastGiver(rules[..n], fields, tool, key)
  }

  /** Of several matching rules that give one setting a value, the last one decides. */
  lemma {:induction false} LastGiverDecides(rules: seq<Rule>, fields: Fields, tool: string, key: string)
    ensures ProposedValue(MatchingSettings(rules, fields), tool, key)
            == var k := LastGiver(rules, fields, tool, key);
               if k.Some? then Gives(rules[k.value], fields, tool, key) else None
  {
    if rules != [] {
      var n := |rules| - 1;
      assert rules[..n] + [rules[n]] == rules;
      ApplyAppend(map[], rules[..n], [rules[n]], fields);
      var before := ApplyRules(map[], rules[..n], fields);
      assert ApplyRules(before, [rules[n]], fields) == ApplyRule(before, rules[n], fields);
      LastGiverDecides(rules[..n], fields, tool, key);
    }
  }

  // ----- one setting each

  function Singles(rule: Rule, settings: Dict): seq<Rule> {
    if settings == [] then [] else [rule.(settings := [settings[0]])] + Singles(rule, settings[1..])
  }

  function OneSettingEach(rules: seq<Rule>): seq<Rule> {
    if rules == [] then []
    else
      (if |rules[0].settings| > 1 then Singles(rules[0], rules[0].settings) else [rules[0]])
      + OneSettingEach(rules[1..])
  }

  predicate AllPresent(settings: Dict, fields: Fields) {
    forall m :: m in settings ==> Resolve(m.1, fields).Some?
  }

  lemma {:induction false} ApplyAppend(merged: Settings, a: seq<Rule>, b: seq<Rule>, fields: Fields)
    ensures ApplyRules(merged, a + b, fields) == ApplyRules(ApplyRules(merged, a, fields), b, fields)
    decreases |a|
  {
    if a == [] {
      assert a + b == b;
    } else {
      assert (a + b)[1..] == a[1..] + b;
      ApplyAppend(ApplyRule(merged, a[0], fields), a[1..], b, fields);
    }
  }

  lemma {:induction false} ResolveAllPresent(settings: Dict, fields: Fields)
    ensures ResolveAll(settings, fields).Some? <==> AllPresent(settings, fields)
  {
    if settings != [] {
      var n := |settings| - 1;
      ResolveAllPresent(settings[..n], fields);
      assert settings == settings[..n] + [settings[n]];
    }
  }

  lemma {:induction false} SinglesAppend(rule: Rule, settings: Dict, last: (string, Json))
    ensures Singles(rule, settings + [last]) == Singles(rule, settings) + [rule.(settings := [last])]
  {
    if settings != [] {
      assert (settings + [last])[1..] == settings[1..] + [last];
      SinglesAppend(rule, settings[1..], last);
    }
  }

  /** What the settings of a matching rule do. */
  function ApplySettings(merged: Settings, tool: string, settings: Dict, fields: Fields): Settings {
    var values := ResolveAll(settings, fields);
    if values.Some? then Merged(merged, tool, values.value) else merged
  }

  lemma ResolveOne(setting: (string, Json), fields: Fields)
    ensures ResolveAll([setting], fields).Some? <==> Resolve(setting.1, fields).Some?
    ensures Resolve(setting.1, fields).Some? ==>
              ResolveAll([setting], fields).value == map[setting.0 := Resolve(setting.1, fields).value]
  {
    assert [setting][..0] == [];
  }

  lemma ApplySingle(merged: Settings, rule: Rule, setting: (string, Json), fields: Fields)
    requires Matches(rule, fields)
    ensures var value := Resolve(setting.1, fields);
            ApplyRule(merged, rule.(settings := [setting]), fields)
            == if value.Some? then Merged(merged, rule.tool, map[setting.0 := value.value]) else merged
  {
    ResolveOne(setting, fields);
  }

  lemma ApplySnoc(merged: Settings, tool: string, before: Dict, last: (string, Json), fields: Fields)
    requires AllPresent(before + [last], fields)
    ensures ApplySettings(ApplySettings(merged, tool, before, fields), tool, [last], fields)
            == ApplySettings(merged, tool, before + [last], fields)
  {
    ResolveSnoc(before, last, fields);
    ResolveOne(last, fields);
    var some := ResolveAll(before, fields).value;
    var value := Resolve(last.1, fields).value;
    MergedTwice(merged, tool, some, map[last.0 := value]);
    assert some + map[last.0 := value] == some[last.0 := value];
  }

  lemma ResolveSnoc(before: Dict, last: (string, Json), fields: Fields)
    requires AllPresent(before + [last], fields)
    ensures ResolveAll(before, fields).Some? && Resolve(last.1, fields).Some?
    ensures ResolveAll(before + [last], fields)
            == Some(ResolveAll(before, fields).value[last.0 := Resolve(last.1, fields).value])
  {
    var settings := before + [last];
    assert last in settings && settings[..|before|] == before;
    assert forall m :: m in before ==> m in settings;
    ResolveAllPresent(before, fields);
  }

  lemma {:induction false} ApplySingles(merged: Settings, rule: Rule, settings: Dict, fields: Fields)
    requires settings != [] && Matches(rule, fields) && AllPresent(settings, fields)
    ensures ApplyRules(merged, Singles(rule, settings), fields) == ApplySettings(merged, rule.tool, settings, fields)
    decreases |settings|
  {
    var n := |settings| - 1;
    var last := settings[n];
    var before := settings[..n];
    assert settings == before + [last];
    var one := rule.(settings := [last]);
    SinglesAppend(rule, before, last);
    ApplyAppend(merged, Singles(rule, before), [one], fields);
    var middle := ApplyRules(merged, Singles(rule, before), fields);
    assert ApplyRules(middle, [one], fields) == ApplyRule(middle, one, fields);
    if before == [] {
      assert settings == [last];
    } else {
      assert forall m :: m in before ==> m in settings;
      ApplySingles(merged, rule, before, fields);
      ApplySnoc(merged, rule.tool, before, last, fields);
    }
  }

  lemma MergedTwice(merged: Settings, tool: string, a: map<string, Json>, b: map<string, Json>)
    ensures Merged(Merged(merged, tool, a), tool, b) == Merged(merged, tool, a + b)
  {
    var known := if tool in merged then merged[tool] else map[];
    assert known + a + b == known + (a + b);
  }

  lemma {:induction false} SinglesWithoutMatch(merged: Settings, rule: Rule, settings: Dict, fields: Fields)
    requires !Matches(rule, fields) || forall m :: m in settings ==> Resolve(m.1, fields).None?
    ensures ApplyRules(merged, Singles(rule, settings), fields) == merged
    decreases |settings|
  {
    if settings != [] {
      var one := rule.(settings := [settings[0]]);
      assert settings[0] in settings;
      assert [settings[0]][..0] == [];
      assert Matches(one, fields) <==> Matches(rule, fields);
      SinglesWithoutMatch(merged, rule, settings[1..], fields);
    }
  }

  /** Splitting rules into one setting each preserves what they propose, for any rules and overlapping tools, on every
      field map that has the event fields the matching rules copy. */
  lemma {:induction false} SplittingPreservesSettings(merged: Settings, rules: seq<Rule>, fields: Fields)
    requires forall r :: r in rules && Matches(r, fields) ==> AllPresent(r.settings, fields)
    ensures ApplyRules(merged, OneSettingEach(rules), fields) == ApplyRules(merged, rules, fields)
    decreases |rules|
  {
    if rules != [] {
      var rule := rules[0];
      assert rule in rules;
      var split := if |rule.settings| > 1 then Singles(rule, rule.settings) else [rule];
      ApplyAppend(merged, split, OneSettingEach(rules[1..]), fields);
      if |rule.settings| > 1 {
        if Matches(rule, fields) {
          assert rule.(settings := rule.settings) == rule;
          ApplySingles(merged, rule, rule.settings, fields);
        } else {
          SinglesWithoutMatch(merged, rule, rule.settings, fields);
        }
      } else {
        assert ApplyRules(merged, [rule], fields) == ApplyRule(merged, rule, fields);
      }
      SplittingPreservesSettings(ApplyRule(merged, rule, fields), rules[1..], fields);
    }
  }

  /** For one rule that is exactly the condition: splitting changes what it proposes if and only if it matches, some
      field it copies is missing, and some setting, literal or copied, can be resolved. */
  lemma SplittingChangesExactly(rule: Rule, fields: Fields)
    ensures MatchingSettings(OneSettingEach([rule]), fields) != MatchingSettings([rule], fields)
            <==> Matches(rule, fields)
                 && (exists m :: m in rule.settings && Resolve(m.1, fields).None?)
                 && (exists m :: m in rule.settings && Resolve(m.1, fields).Some?)
  {
    ResolveAllPresent(rule.settings, fields);
    assert ApplyRules(map[], [rule], fields) == ApplyRule(map[], rule, fields);
    if !Matches(rule, fields) || AllPresent(rule.settings, fields) {
      SplittingPreservesSettings(map[], [rule], fields);
    } else {
      assert OneSettingEach([rule][1..]) == [];
      if |rule.settings| > 1 {
        assert OneSettingEach([rule]) == Singles(rule, rule.settings);
        if forall m :: m in rule.settings ==> Resolve(m.1, fields).None? {
          SinglesWithoutMatch(map[], rule, rule.settings, fields);
        } else {
          SinglesKeepTool(map[], rule, rule.settings, fields);
        }
      } else {
        assert forall m :: m in rule.settings ==> m == rule.settings[0];
      }
    }
  }

  lemma {:induction false} SinglesKeepTool(merged: Settings, rule: Rule, settings: Dict, fields: Fields)
    requires Matches(rule, fields)
    requires rule.tool in merged || exists m :: m in settings && Resolve(m.1, fields).Some?
    ensures rule.tool in ApplyRules(merged, Singles(rule, settings), fields)
    decreases |settings|
  {
    if settings != [] {
      ApplySingle(merged, rule, settings[0], fields);
      var next := ApplyRule(merged, rule.(settings := [settings[0]]), fields);
      if rule.tool !in next {
        var m :| m in settings && Resolve(m.1, fields).Some?;
        assert m in settings[1..];
      }
      SinglesKeepTool(next, rule, settings[1..], fields);
    }
  }
}

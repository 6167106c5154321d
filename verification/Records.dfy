/** Operator records and the changes they teach; event-bound arguments replay (autonomy/learning.py). */
module Records {
  import opened Wrappers
  import opened JsonValues
  import opened Rules

  datatype Kind = Instruction | Approved | Refused | NoResponse

  datatype Call = Call(tool: string, arguments: Dict)

  datatype Record = Record(
    id: string, event: string, payload: Dict, context: Dict, kind: Kind, calls: seq<Call>, proposed: Option<Call>)

  /** One operator change; the value stands for its JSON text. */
  datatype Change = Change(tool: string, argument: string, value: Json)

  function FieldsOf(r: Record): Fields {
    EventFields(r.payload, r.context)
  }

  function FirstWith(flat: Dict, value: Json): (f: Option<string>)
    ensures f.Some? ==> (f.value, value) in flat
  {
    if flat == [] then None
    else if flat[0].1 == value then Some(flat[0].0)
    else FirstWith(flat[1..], value)
  }

  /** The first event field a text argument of three characters or more copies. */
  function Bound(payload: Dict, value: Json): Option<string> {
    if !value.Str? || |value.s| < 3 then None else FirstWith(Flatten(Obj(payload), "event"), value)
  }

  /** The literal change, and its event-bound form. */
  function ArgumentChanges(payload: Dict, tool: string, argument: (string, Json)): set<Change> {
    var bound := Bound(payload, argument.1);
    {Change(tool, argument.0, argument.1)}
    + if bound.Some? then {Change(tool, argument.0, From(bound.value))} else {}
  }

  function CallChanges(payload: Dict, call: Call): set<Change> {
    set m, c | m in call.arguments && m.0 != "reason" && c in ArgumentChanges(payload, call.tool, m) :: c
  }

  /** The calls by which the operator made or confirmed changes. */
  function Teaching(r: Record): seq<Call> {
    match r.kind
    case Instruction => r.calls
    case Approved => if r.proposed.Some? then [r.proposed.value] else []
    case _ => []
  }

  function Changes(r: Record): set<Change> {
    set call, c | call in Teaching(r) && c in CallChanges(r.payload, call) :: c
  }

  function Rejections(r: Record): set<Change> {
    if r.kind == Refused && r.proposed.Some? then CallChanges(r.payload, r.proposed.value) else {}
  }

  lemma NeverBoth(r: Record)
    ensures Changes(r) !! Rejections(r)
  {
  }

  // ----- keys of flattened fields

  ghost predicate Unique(d: Dict) {
    forall i, j :: 0 <= i < j < |d| ==> d[i].0 != d[j].0
  }

  ghost predicate KeysStart(d: Dict, prefix: string) {
    forall m :: m in d ==> prefix <= m.0
  }

  ghost predicate Scalars(d: Dict) {
    forall m :: m in d ==> !m.1.Obj? && !m.1.Arr? && !m.1.Null?
  }

  lemma {:induction false} GetMember(d: Dict, m: (string, Json))
    requires Unique(d) && m in d
    ensures Get(d, m.0) == Some(m.1)
  {
    if d[0] != m {
      var i :| 0 <= i < |d| && d[i] == m;
      assert d[1..][i - 1] == m;
      GetMember(d[1..], m);
    }
  }

  lemma PutKeeps(d: Dict, key: string, value: Json, prefix: string)
    requires Unique(d) && KeysStart(d, prefix) && Scalars(d)
    requires prefix <= key && !value.Obj? && !value.Arr? && !value.Null?
    ensures var r := Put(d, key, value);
            Unique(r) && KeysStart(r, prefix) && Scalars(r) && forall m :: m in r ==> m == (key, value) || m in d
  {
    PutMembers(d, key, value);
    PutUnique(d, key, value);
  }

  lemma {:induction false} PutMembers(d: Dict, key: string, value: Json)
    ensures forall m :: m in Put(d, key, value) ==> m == (key, value) || m in d
  {
    if d != [] && d[0].0 != key { PutMembers(d[1..], key, value); }
  }

  lemma {:induction false} PutUnique(d: Dict, key: string, value: Json)
    requires Unique(d)
    ensures Unique(Put(d, key, value))
  {
    if d != [] && d[0].0 != key {
      PutUnique(d[1..], key, value);
      PutMembers(d[1..], key, value);
      forall m | m in Put(d[1..], key, value) ensures m.0 != d[0].0 {
        if m in d[1..] {
          var i :| 0 <= i < |d[1..]| && d[1..][i] == m;
          assert d[i + 1] == m;
        }
      }
    }
  }

  lemma {:induction false} UpdateKeeps(d: Dict, more: Dict, prefix: string)
    requires Unique(d) && KeysStart(d, prefix) && Scalars(d) && KeysStart(more, prefix) && Scalars(more)
    ensures var r := Update(d, more); Unique(r) && KeysStart(r, prefix) && Scalars(r)
    decreases |more|
  {
    if more != [] {
      assert more[0] in more;
      assert forall m :: m in more[1..] ==> m in more;
      PutKeeps(d, more[0].0, more[0].1, prefix);
      UpdateKeeps(Put(d, more[0].0, more[0].1), more[1..], prefix);
    }
  }

  lemma {:induction false} FlattenKeeps(value: Json, prefix: string)
    ensures var r := Flatten(value, prefix); Unique(r) && KeysStart(r, prefix) && Scalars(r)
    decreases value, 1
  {
    match value
    case Obj(members) => FlattenMembersKeeps(value, members, prefix);
    case Arr(items) =>
      FlattenItemsKeeps(value, if |items| > MAX_LIST_ITEMS then items[..MAX_LIST_ITEMS] else items, prefix,
                        [(prefix + ".count", Int(|items|))]);
    case _ =>
  }

  lemma {:induction false} FlattenMembersKeeps(parent: Json, members: Dict, prefix: string)
    requires parent.Obj? && forall m :: m in members ==> m in parent.members
    ensures var r := FlattenMembers(parent, members, prefix); Unique(r) && KeysStart(r, prefix) && Scalars(r)
    decreases parent, 0, |members|
  {
    if members != [] {
      var last := members[|members| - 1];
      assert last in parent.members;
      var before := members[..|members| - 1];
      FlattenMembersKeeps(parent, before, prefix);
      FlattenKeeps(last.1, prefix + "." + last.0);
      UpdateKeeps(FlattenMembers(parent, before, prefix), Flatten(last.1, prefix + "." + last.0), prefix);
    }
  }

  lemma {:induction false} FlattenItemsKeeps(parent: Json, items: seq<Json>, prefix: string, flat: Dict)
    requires parent.Arr? && forall item :: item in items ==> item in parent.items
    requires Unique(flat) && KeysStart(flat, prefix) && Scalars(flat)
    ensures var r := FlattenItems(parent, items, prefix, flat); Unique(r) && KeysStart(r, prefix) && Scalars(r)
    decreases parent, 0, |items|
  {
    if items != [] {
      var item := items[0];
      assert item in parent.items;
      var key := ItemKey(item);
      if key.None? {
        FlattenItemsKeeps(parent, items[1..], prefix, flat);
      } else {
        var inner := prefix + "." + key.value;
        var more := FlattenMembers(item, WithoutIds(item.members), inner);
        FlattenMembersKeeps(item, WithoutIds(item.members), inner);
        UpdateKeeps(flat, more, prefix);
        FlattenItemsKeeps(parent, items[1..], prefix, Update(flat, more));
      }
    }
  }

  lemma {:induction false} AddContextKeeps(fields: Dict, flat: Dict, payload: Dict, f: string)
    requires KeysStart(flat, "context[") && "event" <= f
    ensures Get(AddContext(fields, flat, payload), f) == Get(fields, f)
    decreases |flat|
  {
    if flat != [] {
      assert flat[0] in flat && "context[" <= flat[0].0;
      assert flat[0].0[0] == 'c' && f[0] == 'e';
      assert forall m :: m in flat[1..] ==> m in flat;
      var next := if Get(payload, Tail(flat[0].0)).Some? then fields else Put(fields, flat[0].0, flat[0].1);
      AddContextKeeps(next, flat[1..], payload, f);
    }
  }

  lemma {:induction false} AddContextsKeeps(fields: Dict, context: Dict, payload: Dict, f: string)
    requires "event" <= f
    ensures Get(AddContexts(fields, context, payload), f) == Get(fields, f)
    decreases |context|
  {
    if context != [] {
      var prefix := "context[" + context[0].0 + "]";
      FlattenKeeps(context[0].1, prefix);
      assert "context[" <= prefix;
      AddContextKeeps(fields, Flatten(context[0].1, prefix), payload, f);
      AddContextsKeeps(AddContext(fields, Flatten(context[0].1, prefix), payload), context[1..], payload, f);
    }
  }

  /** Event fields are what the payload holds, unless their name ends in `_at`; no context can shadow them. */
  lemma EventFieldsArePayload(payload: Dict, context: Dict, f: string)
    requires "event" <= f
    ensures f in EventFields(payload, context) <==> Get(Flatten(Obj(payload), "event"), f).Some? && !EndsWith(f, "_at")
    ensures f in EventFields(payload, context) ==>
              Some(EventFields(payload, context)[f]) == Get(Flatten(Obj(payload), "event"), f)
  {
    AddContextsKeeps(Flatten(Obj(payload), "event"), context, payload, f);
  }

  // ----- replay

  lemma BoundField(payload: Dict, context: Dict, value: Json)
    requires Bound(payload, value).Some?
    ensures var f := Bound(payload, value).value;
            && (f in EventFields(payload, context) <==> !EndsWith(f, "_at"))
            && (f in EventFields(payload, context) ==> EventFields(payload, context)[f] == value)
  {
    var f := Bound(payload, value).value;
    var flat := Flatten(Obj(payload), "event");
    FlattenKeeps(Obj(payload), "event");
    GetMember(flat, (f, value));
    EventFieldsArePayload(payload, context, f);
  }

  lemma {:induction false} AddContextScalars(fields: Dict, flat: Dict, payload: Dict)
    requires Unique(fields) && Scalars(fields) && Scalars(flat)
    ensures Unique(AddContext(fields, flat, payload)) && Scalars(AddContext(fields, flat, payload))
    decreases |flat|
  {
    if flat != [] {
      assert flat[0] in flat;
      assert forall m :: m in flat[1..] ==> m in flat;
      PutKeeps(fields, flat[0].0, flat[0].1, "");
      var next := if Get(payload, Tail(flat[0].0)).Some? then fields else Put(fields, flat[0].0, flat[0].1);
      AddContextScalars(next, flat[1..], payload);
    }
  }

  lemma {:induction false} AddContextsScalars(fields: Dict, context: Dict, payload: Dict)
    requires Unique(fields) && Scalars(fields)
    ensures Scalars(AddContexts(fields, context, payload))
    decreases |context|
  {
    if context != [] {
      var prefix := "context[" + context[0].0 + "]";
      FlattenKeeps(context[0].1, prefix);
      AddContextScalars(fields, Flatten(context[0].1, prefix), payload);
      AddContextsScalars(AddContext(fields, Flatten(context[0].1, prefix), payload), context[1..], payload);
    }
  }

  /** No field holds an object, a list or null. */
  lemma EventFieldIsScalar(payload: Dict, context: Dict, f: string)
    requires f in EventFields(payload, context)
    ensures var v := EventFields(payload, context)[f]; !v.Obj? && !v.Arr? && !v.Null?
  {
    FlattenKeeps(Obj(payload), "event");
    AddContextsScalars(Flatten(Obj(payload), "event"), context, payload);
    MemberOfGet(AddContexts(Flatten(Obj(payload), "event"), context, payload), f);
  }

  lemma {:induction false} MemberOfGet(d: Dict, key: string)
    requires Get(d, key).Some?
    ensures (key, Get(d, key).value) in d
  {
    if d[0].0 != key { MemberOfGet(d[1..], key); }
  }

  /** A rule that proposes the event-bound form of an argument, evaluated on the very record that taught it, gives
      the operator's own value if and only if that value was text (not itself a literal reference) and the field's
      name does not end in `_at`; a field ending in `_at` silences the rule altogether. */
  lemma ReplayExactly(r: Record, tool: string, argument: (string, Json), f: string, rule: Rule)
    requires Change(tool, argument.0, From(f)) in ArgumentChanges(r.payload, tool, argument)
    requires rule.tool == tool && rule.settings == [(argument.0, From(f))] && Matches(rule, FieldsOf(r))
    ensures MatchingSettings([rule], FieldsOf(r)) == map[tool := map[argument.0 := argument.1]]
            <==> argument.1.Str? && !EndsWith(f, "_at")
    ensures EndsWith(f, "_at") ==> MatchingSettings([rule], FieldsOf(r)) == map[]
  {
    var fields := FieldsOf(r);
    var wanted := map[tool := map[argument.0 := argument.1]];
    ReplayGives(rule, tool, argument.0, f, fields);
    assert wanted[tool][argument.0] == argument.1;
    if argument.1 == From(f) {
      if f in fields {
        EventFieldIsScalar(r.payload, r.context, f);
        assert MatchingSettings([rule], fields)[tool][argument.0] == fields[f];
      }
    } else {
      BoundField(r.payload, r.context, argument.1);
    }
  }

  lemma ReplayGives(rule: Rule, tool: string, argument: string, f: string, fields: Fields)
    requires rule.tool == tool && rule.settings == [(argument, From(f))] && Matches(rule, fields)
    ensures MatchingSettings([rule], fields) == if f in fields then map[tool := map[argument := fields[f]]] else map[]
  {
    assert ApplyRules(map[], [rule], fields) == ApplyRule(map[], rule, fields);
    ResolveOne((argument, From(f)), fields);
    if f in fields {
      assert Resolve(From(f), fields) == Some(fields[f]);
      assert map[] + map[argument := fields[f]] == map[argument := fields[f]];
    }
  }

  /** The case the source does not guard against: an operator who sends a literal {"from": field} as the argument
      teaches the event-bound change, but never gets the literal back. */
  lemma LiteralReferenceIsNotReplayed()
    ensures var r := Record("j-1", "order", [("id", Str("A-7"))], [], Instruction,
                            [Call("t", [("x", From("event.id"))])], None);
            var rule := Rule([], [], "t", [("x", From("event.id"))]);
            && Change("t", "x", From("event.id")) in Changes(r)
            && MatchingSettings([rule], FieldsOf(r)) != map["t" := map["x" := From("event.id")]]
  {
    var argument := ("x", From("event.id"));
    var call := Call("t", [argument]);
    var r := Record("j-1", "order", [("id", Str("A-7"))], [], Instruction, [call], None);
    var rule := Rule([], [], "t", [argument]);
    assert Change("t", "x", From("event.id")) in ArgumentChanges(r.payload, "t", argument);
    assert call in Teaching(r) && argument in call.arguments;
    assert Change("t", "x", From("event.id")) in CallChanges(r.payload, call);
    ReplayExactly(r, "t", argument, "event.id", rule);
  }
}

/** What a field name of a flattened value stands for (autonomy/learning.py: _flatten, event_fields). */
module FieldPaths {
  import opened Wrappers
  import opened JsonValues
  import opened Rules
  import opened Records

  /** The path itself or one below it. */
  predicate Under(key: string, path: string) {
    key == path || path + "." <= key
  }

  ghost predicate AllUnder(d: Dict, path: string) {
    forall m :: m in d ==> Under(m.0, path)
  }

  ghost predicate AllBelow(d: Dict, path: string) {
    forall m :: m in d ==> path + "." <= m.0
  }

  predicate DotFree(key: string) {
    forall i :: 0 <= i < |key| ==> key[i] != '.'
  }

  /** The members of an object as json.loads gives them, without dots in their names. */
  ghost predicate PlainMembers(members: Dict) {
    Unique(members) && forall m :: m in members ==> DotFree(m.0)
  }

  // ----- dictionaries

  lemma {:induction false} UpdateMembers(d: Dict, more: Dict)
    ensures forall m :: m in Update(d, more) ==> m in d || m in more
    decreases |more|
  {
    if more != [] {
      PutMembers(d, more[0].0, more[0].1);
      UpdateMembers(Put(d, more[0].0, more[0].1), more[1..]);
      assert more[0] in more && forall m :: m in more[1..] ==> m in more;
    }
  }

  lemma {:induction false} UpdateGet(d: Dict, more: Dict, key: string)
    requires Unique(more)
    ensures Get(Update(d, more), key) == if Get(more, key).Some? then Get(more, key) else Get(d, key)
    decreases |more|
  {
    if more != [] {
      assert forall i :: 0 <= i < |more[1..]| ==> more[1..][i] == more[i + 1];
      UpdateGet(Put(d, more[0].0, more[0].1), more[1..], key);
      if Get(more[1..], key).Some? {
        MemberOfGet(more[1..], key);
        var i :| 0 <= i < |more[1..]| && more[1..][i] == (key, Get(more[1..], key).value);
        assert more[0].0 != more[i + 1].0;
      }
    }
  }

  lemma AbsentBelow(d: Dict, path: string, key: string)
    requires AllUnder(d, path) && !Under(key, path)
    ensures Get(d, key).None?
  {
    if Get(d, key).Some? {
      MemberOfGet(d, key);
    }
  }

  // ----- where the keys of a value lie

  lemma {:induction false} KeysUnder(value: Json, path: string)
    ensures AllUnder(Flatten(value, path), path)
    decreases value, 1
  {
    match value
    case Obj(members) => MembersBelow(value, members, path);
    case Arr(items) =>
      var flat: Dict := [(path + ".count", Int(|items|))];
      assert (path + ".count")[..|path| + 1] == path + ".";
      ItemsBelow(value, if |items| > MAX_LIST_ITEMS then items[..MAX_LIST_ITEMS] else items, path, flat);
    case _ =>
  }

  lemma {:induction false} MembersBelow(parent: Json, members: Dict, path: string)
    requires parent.Obj? && forall m :: m in members ==> m in parent.members
    ensures AllBelow(FlattenMembers(parent, members, path), path)
    decreases parent, 0, |members|
  {
    if members != [] {
      var last := members[|members| - 1];
      var before := members[..|members| - 1];
      assert last in parent.members;
      MembersBelow(parent, before, path);
      KeysUnder(last.1, path + "." + last.0);
      var flat := Flatten(last.1, path + "." + last.0);
      forall m | m in flat ensures path + "." <= m.0 {
      }
      UpdateMembers(FlattenMembers(parent, before, path), flat);
    }
  }

  lemma {:induction false} ItemsBelow(parent: Json, items: seq<Json>, path: string, flat: Dict)
    requires parent.Arr? && forall item :: item in items ==> item in parent.items
    requires AllBelow(flat, path)
    ensures AllBelow(FlattenItems(parent, items, path, flat), path)
    decreases parent, 0, |items|
  {
    if items != [] {
      var item := items[0];
      assert item in parent.items;
      var key := ItemKey(item);
      if key.None? {
        ItemsBelow(parent, items[1..], path, flat);
      } else {
        var inner := path + "." + key.value;
        var more := FlattenMembers(item, WithoutIds(item.members), inner);
        MembersBelow(item, WithoutIds(item.members), inner);
        forall m | m in more ensures path + "." <= m.0 {
        }
        UpdateMembers(flat, more);
        ItemsBelow(parent, items[1..], path, Update(flat, more));
      }
    }
  }

  /** Paths through different members never meet. */
  lemma OneMember(key: string, path: string, a: string, b: string)
    requires DotFree(a) && DotFree(b) && Under(key, path + "." + a) && Under(key, path + "." + b)
    ensures a == b
  {
    StartsWith(key, path, a);
    StartsWith(key, path, b);
  }

  lemma StartsWith(key: string, path: string, name: string)
    requires Under(key, path + "." + name)
    ensures var n := |path| + 1;
            && n + |name| <= |key| && key[n..n + |name|] == name
            && (forall k :: n <= k < n + |name| ==> key[k] == name[k - n])
            && (n + |name| < |key| ==> key[n + |name|] == '.')
  {
    var whole := path + "." + name;
    assert whole[|path| + 1..] == name;
    if key != whole {
      assert key[..|whole| + 1] == whole + ".";
      assert key[|path| + 1..|whole|] == whole[|path| + 1..];
    }
  }

  // ----- the laws

  /** A field below a member of an object is what that member gives: no other member shows through, or hides it. */
  lemma {:induction false} MemberShows(parent: Json, members: Dict, path: string, i: nat, key: string)
    requires parent.Obj? && (forall m :: m in members ==> m in parent.members) && PlainMembers(members) && i < |members|
    requires Under(key, path + "." + members[i].0)
    ensures Get(FlattenMembers(parent, members, path), key)
              == Get(Flatten(members[i].1, path + "." + members[i].0), key)
    decreases |members|
  {
    var n := |members| - 1;
    var before, last := members[..n], members[n];
    assert last in members && last in parent.members;
    var rest, flat := FlattenMembers(parent, before, path), Flatten(last.1, path + "." + last.0);
    FlattenKeeps(last.1, path + "." + last.0);
    KeysUnder(last.1, path + "." + last.0);
    UpdateGet(rest, flat, key);
    if i < n {
      assert members[i] in members && members[i].0 != last.0;
      if Under(key, path + "." + last.0) {
        OneMember(key, path, members[i].0, last.0);
      }
      AbsentBelow(flat, path + "." + last.0, key);
      MemberShows(parent, before, path, i, key);
    } else {
      NotYet(parent, before, path, last.0, key);
    }
  }

  lemma {:induction false} NotYet(parent: Json, members: Dict, path: string, name: string, key: string)
    requires parent.Obj? && (forall m :: m in members ==> m in parent.members && m.0 != name && DotFree(m.0))
    requires DotFree(name) && Under(key, path + "." + name)
    ensures Get(FlattenMembers(parent, members, path), key).None?
    decreases |members|
  {
    if members != [] {
      var n := |members| - 1;
      var last := members[n];
      assert last in members && last in parent.members;
      var flat := Flatten(last.1, path + "." + last.0);
      FlattenKeeps(last.1, path + "." + last.0);
      KeysUnder(last.1, path + "." + last.0);
      if Under(key, path + "." + last.0) {
        OneMember(key, path, name, last.0);
      }
      AbsentBelow(flat, path + "." + last.0, key);
      UpdateGet(FlattenMembers(parent, members[..n], path), flat, key);
      NotYet(parent, members[..n], path, name, key);
    }
  }

  /** A list always shows its full length, however many of its items are looked at and whatever they are called. */
  lemma ListShowsLength(items: seq<Json>, path: string)
    ensures Get(Flatten(Arr(items), path), path + ".count") == Some(Int(|items|))
  {
    var some := if |items| > MAX_LIST_ITEMS then items[..MAX_LIST_ITEMS] else items;
    CountStays(Arr(items), some, path, [(path + ".count", Int(|items|))]);
  }

  lemma {:induction false} CountStays(parent: Json, items: seq<Json>, path: string, flat: Dict)
    requires parent.Arr? && forall item :: item in items ==> item in parent.items
    ensures Get(FlattenItems(parent, items, path, flat), path + ".count") == Get(flat, path + ".count")
    decreases |items|
  {
    if items != [] {
      var item := items[0];
      assert item in parent.items;
      var key := ItemKey(item);
      if key.None? {
        CountStays(parent, items[1..], path, flat);
      } else {
        var inner := path + "." + key.value;
        var more := FlattenMembers(item, WithoutIds(item.members), inner);
        FlattenMembersKeeps(item, WithoutIds(item.members), inner);
        MembersBelow(item, WithoutIds(item.members), inner);
        NoItemIsCount(path, key.value);
        NotBelow(more, inner, path + ".count");
        UpdateGet(flat, more, path + ".count");
        CountStays(parent, items[1..], path, Update(flat, more));
      }
    }
  }

  lemma NotBelow(d: Dict, path: string, key: string)
    requires AllBelow(d, path) && !(path + "." <= key)
    ensures Get(d, key).None?
  {
    if Get(d, key).Some? {
      MemberOfGet(d, key);
    }
  }

  lemma NoItemIsCount(path: string, name: string)
    ensures !(path + "." + name + "." <= path + ".count")
  {
    var below, count := path + "." + name + ".", path + ".count";
    var n := |path| + 1 + |name|;
    assert below[n] == '.';
    assert DotFree("count");
    assert n < |count| ==> count[n] == "count"[|name|];
  }
}

/** The recursive merge of a configuration fragment into the agent's configuration
    (entrypoint.py), which runs on every start of the container. */
module ConfigMerge {

  /** A parsed YAML value. Mappings are compared without regard to key order, as Python compares dicts. */
  datatype Config =
    | Scalar(text: string)
    | List(items: seq<Config>)
    | Dict(entries: map<string, Config>)

  /** The items of `update` that `current` does not hold, in their order, duplicates included. */
  function Missing(current: seq<Config>, update: seq<Config>): (r: seq<Config>)
    ensures forall x :: x in r <==> x in update && x !in current
  {
    if update == [] then []
    else if update[0] in current then Missing(current, update[1..])
    else [update[0]] + Missing(current, update[1..])
  }

  function Merge(current: Config, update: Config): Config
    decreases update
  {
    match (current, update)
    case (Dict(c), Dict(u)) =>
      Dict(map key | key in c.Keys + u.Keys ::
             if key !in u then c[key]
             else if key in c then Merge(c[key], u[key])
             else u[key])
    case (List(c), List(u)) => List(c + Missing(c, u))
    case _ => update
  }

  /** What the start-up does to a stored configuration: both shipped fragments, in order. */
  function Configure(stored: Config, first: Config, second: Config): Config {
    Merge(Merge(stored, first), second)
  }

  /** `known` already contains everything `update` would bring, all the way down. */
  ghost predicate Holds(known: Config, update: Config)
    decreases update
  {
    match (known, update)
    case (Dict(k), Dict(u)) => forall key :: key in u ==> key in k && Holds(k[key], u[key])
    case (List(k), List(u)) => forall x :: x in u ==> x in k
    case _ => known == update
  }

  lemma {:induction false} NothingMissing(current: seq<Config>, update: seq<Config>)
    requires forall x :: x in update ==> x in current
    ensures Missing(current, update) == []
  {
    if update != [] {
      assert update[0] in current;
      NothingMissing(current, update[1..]);
    }
  }

  /** Merging changes nothing exactly when the fragment is already held. */
  lemma {:induction false} UnchangedIffHeld(current: Config, update: Config)
    ensures Merge(current, update) == current <==> Holds(current, update)
    decreases update
  {
    match (current, update) {
      case (Dict(c), Dict(u)) =>
        forall key | key in u && key in c
          ensures Merge(c[key], u[key]) == c[key] <==> Holds(c[key], u[key])
        {
          UnchangedIffHeld(c[key], u[key]);
        }
        var merged := Merge(current, update);
        if merged == current {
          forall key | key in u ensures key in c && Holds(c[key], u[key]) {
            assert key in merged.entries;
          }
        }
        if Holds(current, update) {
          assert merged.entries == c;
        }
      case (List(c), List(u)) =>
        if Holds(current, update) {
          NothingMissing(c, u);
        } else {
          var x :| x in u && x !in c;
          assert x in Missing(c, u);
        }
      case _ =>
    }
  }

  lemma {:induction false} HoldsItself(c: Config)
    ensures Holds(c, c)
  {
    match c {
      case Dict(m) => forall key | key in m ensures Holds(m[key], m[key]) { HoldsItself(m[key]); }
      case _ =>
    }
  }

  /** A merge brings in everything its fragment has. */
  lemma {:induction false} MergeHolds(current: Config, update: Config)
    ensures Holds(Merge(current, update), update)
    decreases update
  {
    match (current, update) {
      case (Dict(c), Dict(u)) =>
        forall key | key in u
          ensures key in Merge(current, update).entries && Holds(Merge(current, update).entries[key], u[key])
        {
          if key in c { MergeHolds(c[key], u[key]); } else { HoldsItself(u[key]); }
        }
      case _ => HoldsItself(update);
    }
  }

  lemma OneMergeIsFixpoint(current: Config, update: Config)
    ensures Merge(Merge(current, update), update) == Merge(current, update) && Merge(update, update) == update
  {
    MergeHolds(current, update);
    HoldsItself(update);
    UnchangedIffHeld(Merge(current, update), update);
    UnchangedIffHeld(update, update);
  }

  /** Restarting is a fixpoint: configuring an already configured value again returns it unchanged,
      whatever the stored value and the shapes of the fragments, even where they disagree. */
  lemma {:induction false} RestartIsFixpoint(stored: Config, first: Config, second: Config)
    ensures var done := Configure(stored, first, second);
            Configure(done, first, second) == done
    decreases second
  {
    var done := Configure(stored, first, second);
    match (first, second) {
      case (Dict(f), Dict(s)) =>
        var middle := Merge(stored, first);
        var again := Configure(done, first, second);
        forall key | key in done.entries
          ensures key in again.entries && again.entries[key] == done.entries[key]
        {
          var before := if stored.Dict? && key in stored.entries then stored.entries[key]
                        else if key in f then f[key] else done.entries[key];
          if key in f && key in s {
            UnchangedAfterSelf(f[key]);
            RestartIsFixpoint(before, f[key], s[key]);
          } else if key in f {
            OneMergeIsFixpoint(before, f[key]);
          } else if key in s {
            OneMergeIsFixpoint(before, s[key]);
          }
        }
        assert again.entries == done.entries;
      case (List(f), List(s)) =>
        MergeHolds(stored, first);
        MergeHolds(Merge(stored, first), second);
        NothingMissing(done.items, f);
        NothingMissing(done.items, s);
        assert Merge(done, first) == done;
      case _ =>
    }
  }

  lemma UnchangedAfterSelf(c: Config)
    ensures Merge(c, c) == c
  {
    HoldsItself(c);
    UnchangedIffHeld(c, c);
  }
}

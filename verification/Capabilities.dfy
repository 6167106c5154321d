/** The capability catalogue of autonomy/event_agent.py and the two functions that fill it at run time
    (autonomy/discovery.py, autonomy/service_capabilities.py). */
module Capabilities {
  import opened Wrappers

  /** A registered tool; the key it is registered under is its name. */
  datatype Capability = Capability(
    tool: string, readOnly: bool, requiredReads: seq<string>, hasValidator: bool, storeScoped: bool)

  /** `events` is non-empty for learned skills only. */
  datatype Skill = Skill(path: string, tools: seq<string>, events: seq<string>)

  /** `schemas` holds the names whose input schema is cached. */
  datatype Catalog = Catalog(tools: map<string, Capability>, skills: map<string, Skill>, schemas: set<string>)

  predicate Touches(names: seq<string>, s: set<string>) {
    exists n :: n in names && n in s
  }

  /** The tools some selected skill lists. */
  function Allowed(c: Catalog, selected: seq<string>): set<string> {
    set name, tool | name in selected && name in c.skills && tool in c.skills[name].tools :: tool
  }

  // ----- remove_tools

  function Dependents(tools: map<string, Capability>, s: set<string>): set<string> {
    set name | name in tools && Touches(tools[name].requiredReads, s)
  }

  /** No tool outside `s` requires a read in `s`. */
  predicate Closed(tools: map<string, Capability>, s: set<string>) {
    Dependents(tools, s) <= s
  }

  function Cascade(tools: map<string, Capability>, s: set<string>): (r: set<string>)
    ensures s <= r <= s + tools.Keys && Closed(tools, r)
    decreases tools.Keys - s
  {
    if Closed(tools, s) then s
    else
      var more := s + Dependents(tools, s);
      assert tools.Keys - more <= tools.Keys - s;
      assert exists n :: n in Dependents(tools, s) && n !in s;
      Cascade(tools, more)
  }

  function RemoveTools(c: Catalog, names: set<string>): Catalog {
    var removed := Cascade(c.tools, names);
    Catalog(c.tools - removed,
            map name | name in c.skills && !Touches(c.skills[name].tools, removed) :: c.skills[name],
            c.schemas - removed)
  }

  /** The cascade is the least closed set that holds the named tools. */
  lemma {:induction false} CascadeIsLeast(tools: map<string, Capability>, s: set<string>, other: set<string>)
    requires s <= other && Closed(tools, other)
    ensures Cascade(tools, s) <= other
    decreases tools.Keys - s
  {
    if !Closed(tools, s) {
      var more := s + Dependents(tools, s);
      forall n | n in Dependents(tools, s) ensures n in other {
        assert Touches(tools[n].requiredReads, other);
        assert n in Dependents(tools, other);
      }
      assert tools.Keys - more <= tools.Keys - s;
      assert exists n :: n in Dependents(tools, s) && n !in s;
      CascadeIsLeast(tools, more, other);
    }
  }

  lemma CascadeInRest(tools: map<string, Capability>, a: set<string>, b: set<string>)
    ensures var first := Cascade(tools, a);
            first + Cascade(tools - first, b) == Cascade(tools, a + b)
  {
    var first := Cascade(tools, a);
    var rest := tools - first;
    var second := Cascade(rest, b);
    var both := Cascade(tools, a + b);
    CascadeIsLeast(tools, a, both);
    forall n | n in Dependents(rest, both) ensures n in both {
      assert n in Dependents(tools, both);
    }
    CascadeIsLeast(rest, b, both);
    forall n | n in Dependents(tools, first + second) ensures n in first + second {
      if n !in first {
        assert Touches(rest[n].requiredReads, second);
        assert n in Dependents(rest, second);
      }
    }
    CascadeIsLeast(tools, a + b, first + second);
  }

  /** Removing in two steps is removing the union; in particular a second removal changes nothing. */
  lemma RemoveTwiceIsUnion(c: Catalog, a: set<string>, b: set<string>)
    ensures RemoveTools(RemoveTools(c, a), b) == RemoveTools(c, a + b)
  {
    var first := Cascade(c.tools, a);
    var second := Cascade(c.tools - first, b);
    var both := Cascade(c.tools, a + b);
    CascadeInRest(c.tools, a, b);
    assert (c.tools - first) - second == c.tools - both;
    assert (c.schemas - first) - second == c.schemas - both;
    forall name | name in c.skills
      ensures Touches(c.skills[name].tools, both)
              <==> Touches(c.skills[name].tools, first) || Touches(c.skills[name].tools, second)
    {
    }
    assert RemoveTools(RemoveTools(c, a), b).skills == RemoveTools(c, a + b).skills;
  }

  lemma RemoveIsIdempotent(c: Catalog, names: set<string>)
    ensures RemoveTools(RemoveTools(c, names), names) == RemoveTools(c, names)
  {
    RemoveTwiceIsUnion(c, names, names);
    assert names + names == names;
  }

  /** What is gone, exactly: a tool when every closed set with the named ones holds it, a skill when it lists such a
      tool. */
  lemma RemovedExactly(c: Catalog, names: set<string>, name: string)
    ensures name in c.tools ==>
              (name !in RemoveTools(c, names).tools <==>
               forall s: set<string> :: names <= s && Closed(c.tools, s) ==> name in s)
    ensures name in c.skills ==>
              (name !in RemoveTools(c, names).skills <==>
               exists tool :: tool in c.skills[name].tools && tool in Cascade(c.tools, names))
  {
    forall s: set<string> | names <= s && Closed(c.tools, s) ensures Cascade(c.tools, names) <= s {
      CascadeIsLeast(c.tools, names, s);
    }
  }

  // ----- validate

  predicate ToolSound(c: Catalog, name: string)
    requires name in c.tools
  {
    forall r :: r in c.tools[name].requiredReads ==> r in c.tools && c.tools[r].readOnly
  }

  predicate SkillSound(c: Catalog, files: set<string>, name: string)
    requires name in c.skills
  {
    var skill := c.skills[name];
    && skill.path in files
    && (forall t :: t in skill.tools ==> t in c.tools)
    && (forall t, r :: t in skill.tools && r in c.tools[t].requiredReads ==> r in skill.tools)
  }

  /** What validate() accepts; `files` are the files that exist. */
  ghost predicate Sound(c: Catalog, files: set<string>) {
    && (forall name :: name in c.tools ==> ToolSound(c, name))
    && (forall name :: name in c.skills ==> SkillSound(c, files, name))
  }

  lemma RemoveKeepsSound(c: Catalog, files: set<string>, names: set<string>)
    requires Sound(c, files)
    ensures Sound(RemoveTools(c, names), files)
  {
    var removed := Cascade(c.tools, names);
    var after := RemoveTools(c, names);
    forall name | name in after.tools ensures ToolSound(after, name) {
      assert ToolSound(c, name);
      assert name !in Dependents(c.tools, removed);
    }
    forall name | name in after.skills ensures SkillSound(after, files, name) {
      assert SkillSound(c, files, name);
      forall t | t in c.skills[name].tools ensures t in after.tools {
        assert t !in removed;
      }
    }
  }

  // ----- discovery

  datatype ToolInfo = ToolInfo(name: string, hint: Option<bool>, takesArguments: bool)

  /** What asking a configured server for its tools gives. */
  datatype Listing = NoClient | Unreachable | Listed(tools: seq<ToolInfo>)
  datatype Server = Server(name: string, listing: Listing)

  const READ_NAMES := {"describe"}
  const READ_PREFIXES := ["get_", "list_", "read_", "search_", "find_", "fetch_", "query_", "describe_", "check_",
                          "lookup_", "compare_", "tail_"]
  const RETRY_SECONDS := 60.0

  predicate IsRead(t: ToolInfo) {
    match t.hint
    case Some(hint) => hint
    case None => t.name in READ_NAMES || exists p :: p in READ_PREFIXES && p <= t.name
  }

  function FullName(prefix: string, t: ToolInfo): string {
    prefix + "." + t.name
  }

  predicate UsesPrefix(c: Catalog, prefix: string) {
    exists name :: name in c.tools && prefix + "." <= name
  }

  function Enabled(tools: seq<ToolInfo>, prefix: string, disabled: set<string>): (r: seq<ToolInfo>)
    ensures forall t :: t in r <==> t in tools && FullName(prefix, t) !in disabled
  {
    if tools == [] then []
    else
      var rest := Enabled(tools[1..], prefix, disabled);
      if FullName(prefix, tools[0]) in disabled then rest else [tools[0]] + rest
  }

  /** The argument-less reads every action of the server must be based on. */
  function ContextReads(tools: seq<ToolInfo>, prefix: string): (r: seq<string>)
    ensures forall n :: n in r <==>
              exists t :: t in tools && IsRead(t) && t.name !in READ_NAMES && !t.takesArguments
                && n == FullName(prefix, t)
  {
    if tools == [] then []
    else
      var rest := ContextReads(tools[1..], prefix);
      if IsRead(tools[0]) && tools[0].name !in READ_NAMES && !tools[0].takesArguments
      then [FullName(prefix, tools[0])] + rest
      else rest
  }

  function DiscoveredTool(t: ToolInfo, context: seq<string>): Capability {
    var read := IsRead(t);
    Capability(t.name, read, if read then [] else context, !read, false)
  }

  /** One server's tools, in its order; an action without any context read is passed over. */
  function RegisterListed(c: Catalog, prefix: string, tools: seq<ToolInfo>, context: seq<string>): Catalog
    decreases |tools|
  {
    if tools == [] then c
    else
      var name := FullName(prefix, tools[0]);
      var next := if name in c.tools || !Usable(tools[0], context) then c
                  else c.(tools := c.tools[name := DiscoveredTool(tools[0], context)]);
      RegisterListed(next, prefix, tools[1..], context)
  }

  lemma FullNameInjective(prefix: string, a: ToolInfo, b: ToolInfo)
    ensures FullName(prefix, a) == FullName(prefix, b) <==> a.name == b.name
  {
    assert FullName(prefix, a)[|prefix| + 1..] == a.name;
    assert FullName(prefix, b)[|prefix| + 1..] == b.name;
  }

  /** A read, or an action that has context to be based on. */
  predicate Usable(t: ToolInfo, context: seq<string>) {
    IsRead(t) || context != []
  }

  /** The first usable tool listed under a catalogue name. */
  function FirstListed(prefix: string, tools: seq<ToolInfo>, context: seq<string>, name: string): (t: Option<ToolInfo>)
    ensures t.Some? ==> t.value in tools && Usable(t.value, context) && FullName(prefix, t.value) == name
    ensures t.None? ==> forall u :: u in tools && Usable(u, context) ==> FullName(prefix, u) != name
  {
    if tools == [] then None
    else if Usable(tools[0], context) && FullName(prefix, tools[0]) == name then Some(tools[0])
    else FirstListed(prefix, tools[1..], context, name)
  }

  /** Registering keeps what is there and adds exactly the usable tools, each as its first listing has it. */
  lemma {:induction false} RegisterListedAdds(c: Catalog, prefix: string, tools: seq<ToolInfo>, context: seq<string>)
    ensures var after := RegisterListed(c, prefix, tools, context);
            && after.skills == c.skills && after.schemas == c.schemas
            && (forall n :: n in c.tools ==> n in after.tools && after.tools[n] == c.tools[n])
            && (forall n :: n !in c.tools ==> (n in after.tools <==> FirstListed(prefix, tools, context, n).Some?))
            && (forall n :: n in after.tools && n !in c.tools ==>
                  after.tools[n] == DiscoveredTool(FirstListed(prefix, tools, context, n).value, context))
    decreases |tools|
  {
    if tools != [] {
      var name := FullName(prefix, tools[0]);
      var next := if name in c.tools || !Usable(tools[0], context) then c
                  else c.(tools := c.tools[name := DiscoveredTool(tools[0], context)]);
      RegisterListedAdds(next, prefix, tools[1..], context);
    }
  }

  function DiscoverTools(c: Catalog, prefix: string, tools: seq<ToolInfo>, disabled: set<string>): Catalog {
    var enabled := Enabled(tools, prefix, disabled);
    RegisterListed(c, prefix, enabled, ContextReads(enabled, prefix))
  }

  /** No name the actions depend on is listed first as an action. */
  predicate ReadsComeFirst(prefix: string, tools: seq<ToolInfo>, disabled: set<string>) {
    var enabled := Enabled(tools, prefix, disabled);
    var context := ContextReads(enabled, prefix);
    forall n :: n in context ==>
      FirstListed(prefix, enabled, context, n).Some? && IsRead(FirstListed(prefix, enabled, context, n).value)
  }

  /** A newly connected server leaves a valid catalogue valid if and only if each name the actions depend on is listed
      as a read before it is listed as an action; a name that is repeated in any other way does no harm. */
  lemma DiscoverKeepsSoundExactly(c: Catalog, files: set<string>, prefix: string, tools: seq<ToolInfo>,
                                  disabled: set<string>)
    requires Sound(c, files) && !UsesPrefix(c, prefix)
    ensures Sound(DiscoverTools(c, prefix, tools, disabled), files) <==> ReadsComeFirst(prefix, tools, disabled)
    ensures !ReadsComeFirst(prefix, tools, disabled) ==> SomeRequiresAction(DiscoverTools(c, prefix, tools, disabled))
  {
    var enabled := Enabled(tools, prefix, disabled);
    var context := ContextReads(enabled, prefix);
    var after := DiscoverTools(c, prefix, tools, disabled);
    RegisterListedAdds(c, prefix, enabled, context);
    forall n | n in context ensures n !in c.tools && FirstListed(prefix, enabled, context, n).Some? {
      var t :| t in enabled && IsRead(t) && t.name !in READ_NAMES && !t.takesArguments && n == FullName(prefix, t);
      assert prefix + "." <= n;
    }
    if ReadsComeFirst(prefix, tools, disabled) {
      ListedAreSound(c, files, after, prefix, enabled, context);
    } else {
      var n :| n in context && !IsRead(FirstListed(prefix, enabled, context, n).value);
      assert RequiresAction(after, n, n);
      RequiringActionIsUnsound(after, files);
    }
  }

  /** The tool requires, as a read, something that is registered as an action. */
  predicate RequiresAction(c: Catalog, name: string, read: string) {
    name in c.tools && read in c.tools[name].requiredReads && read in c.tools && !c.tools[read].readOnly
  }

  ghost predicate SomeRequiresAction(c: Catalog) {
    exists name, read :: RequiresAction(c, name, read)
  }

  lemma RequiringActionIsUnsound(c: Catalog, files: set<string>)
    requires SomeRequiresAction(c)
    ensures !Sound(c, files)
  {
    var name, read :| RequiresAction(c, name, read);
    assert !ToolSound(c, name);
  }

  lemma ListedAreSound(c: Catalog, files: set<string>, after: Catalog, prefix: string, enabled: seq<ToolInfo>,
                       context: seq<string>)
    requires Sound(c, files) && after == RegisterListed(c, prefix, enabled, context)
    requires forall n :: n in context ==>
               && n !in c.tools && FirstListed(prefix, enabled, context, n).Some?
               && IsRead(FirstListed(prefix, enabled, context, n).value)
    ensures Sound(after, files)
  {
    RegisterListedAdds(c, prefix, enabled, context);
    forall name | name in after.tools ensures ToolSound(after, name) {
      if name in c.tools {
        assert ToolSound(c, name);
      } else {
        forall r | r in after.tools[name].requiredReads ensures r in after.tools && after.tools[r].readOnly {
          assert r in context;
        }
      }
    }
    forall name | name in after.skills ensures SkillSound(after, files, name) {
      assert SkillSound(c, files, name);
    }
  }

  /** The least such listing: one name, first as an action, then as a read. */
  lemma ActionBeforeRead(name: string)
    requires name !in READ_NAMES
    ensures !ReadsComeFirst("s", [ToolInfo(name, Some(false), false), ToolInfo(name, Some(true), false)], {})
    ensures ReadsComeFirst("s", [ToolInfo(name, Some(true), false), ToolInfo(name, Some(false), false)], {})
  {
    var action, read := ToolInfo(name, Some(false), false), ToolInfo(name, Some(true), false);
    BothOrders([action, read], [read, action], action, read);
  }

  lemma NoneDisabled(one: ToolInfo, other: ToolInfo, prefix: string)
    ensures Enabled([one, other], prefix, {}) == [one, other]
  {
    assert [one, other][1..] == [other] && [other][1..] == [];
    assert Enabled([other], prefix, {}) == [other] + [];
    assert Enabled([one, other], prefix, {}) == [one] + [other];
  }

  lemma BothOrders(bad: seq<ToolInfo>, good: seq<ToolInfo>, action: ToolInfo, read: ToolInfo)
    requires bad == [action, read] && good == [read, action] && action.name == read.name && read.name !in READ_NAMES
    requires !IsRead(action) && IsRead(read) && !read.takesArguments
    ensures !ReadsComeFirst("s", bad, {}) && ReadsComeFirst("s", good, {})
  {
    var n := FullName("s", read);
    var context := ContextReads(Enabled(bad, "s", {}), "s");
    NoneDisabled(action, read, "s");
    NoneDisabled(read, action, "s");
    assert n in context && FirstListed("s", bad, context, n) == Some(action);
    var others := ContextReads(good, "s");
    forall m | m in others ensures FirstListed("s", good, others, m) == Some(read) {
      var t :| t in good && IsRead(t) && t.name !in READ_NAMES && !t.takesArguments && m == FullName("s", t);
    }
  }

  // ----- learned skills

  datatype LearnedMeta = LearnedMeta(tools: seq<string>, events: seq<string>)

  /** The SKILL.md of a learned service; its name equals its directory, or reading it fails. */
  datatype LearnedFile = LearnedFile(name: string, path: string, meta: Option<LearnedMeta>)

  function SkillOf(file: LearnedFile): Skill
    requires file.meta.Some?
  {
    Skill(file.path, file.meta.value.tools, file.meta.value.events)
  }

  predicate Registrable(c: Catalog, file: LearnedFile, files: set<string>) {
    && file.meta.Some?
    && (forall t :: t in file.meta.value.tools ==> t in c.tools)
    && (forall t, r :: t in file.meta.value.tools && r in c.tools[t].requiredReads ==> r in file.meta.value.tools)
    && file.name != "" && file.name !in c.skills && file.path in files
  }

  function WithoutLearned(c: Catalog): Catalog {
    c.(skills := map name | name in c.skills && c.skills[name].events == [] :: c.skills[name])
  }

  function RegisterFiles(c: Catalog, learned: seq<LearnedFile>, files: set<string>): Catalog
    decreases |learned|
  {
    if learned == [] then c
    else
      var file := learned[0];
      var next := if Registrable(c, file, files)
                  then c.(skills := c.skills[file.name := SkillOf(file)])
                  else c;
      RegisterFiles(next, learned[1..], files)
  }

  function RegisterLearned(c: Catalog, learned: seq<LearnedFile>, files: set<string>): Catalog {
    RegisterFiles(WithoutLearned(c), learned, files)
  }

  lemma {:induction false} RegisterFilesKeepsSound(c: Catalog, learned: seq<LearnedFile>, files: set<string>)
    requires Sound(c, files)
    ensures Sound(RegisterFiles(c, learned, files), files)
    decreases |learned|
  {
    if learned != [] {
      var file := learned[0];
      var next := if Registrable(c, file, files)
                  then c.(skills := c.skills[file.name := SkillOf(file)])
                  else c;
      forall name | name in next.tools ensures ToolSound(next, name) { assert ToolSound(c, name); }
      forall name | name in next.skills ensures SkillSound(next, files, name) {
        if name in c.skills && next.skills[name] == c.skills[name] { assert SkillSound(c, files, name); }
      }
      RegisterFilesKeepsSound(next, learned[1..], files);
    }
  }

  /** Tools and hand-written skills stay as they are; every new skill is a learned one. */
  lemma {:induction false} RegisterFilesAddsLearned(c: Catalog, learned: seq<LearnedFile>, files: set<string>)
    requires forall file :: file in learned && file.meta.Some? ==> file.meta.value.events != []
    ensures var after := RegisterFiles(c, learned, files);
            && after.tools == c.tools && after.schemas == c.schemas
            && (forall n :: n in c.skills ==> n in after.skills && after.skills[n] == c.skills[n])
            && (forall n :: n in after.skills && n !in c.skills ==> after.skills[n].events != [])
    decreases |learned|
  {
    if learned != [] {
      var file := learned[0];
      assert file in learned;
      var next := if Registrable(c, file, files)
                  then c.(skills := c.skills[file.name := SkillOf(file)])
                  else c;
      RegisterFilesAddsLearned(next, learned[1..], files);
    }
  }

  /** A refresh keeps the catalogue valid, touches nothing that was not learned, and refreshing again from the
      same files changes nothing. Parsed metadata always lists at least one event. */
  lemma RefreshLearned(c: Catalog, learned: seq<LearnedFile>, files: set<string>)
    requires Sound(c, files)
    requires forall file :: file in learned && file.meta.Some? ==> file.meta.value.events != []
    ensures var after := RegisterLearned(c, learned, files);
            && Sound(after, files)
            && after.tools == c.tools
            && (forall n :: n in c.skills && c.skills[n].events == [] ==>
                     n in after.skills && after.skills[n] == c.skills[n])
            && RegisterLearned(after, learned, files) == after
  {
    var base := WithoutLearned(c);
    forall name | name in base.tools ensures ToolSound(base, name) { assert ToolSound(c, name); }
    forall name | name in base.skills ensures SkillSound(base, files, name) { assert SkillSound(c, files, name); }
    RegisterFilesKeepsSound(base, learned, files);
    RegisterFilesAddsLearned(base, learned, files);
    var after := RegisterLearned(c, learned, files);
    assert WithoutLearned(after).skills == base.skills;
    assert WithoutLearned(after) == base;
  }
}

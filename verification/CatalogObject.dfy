/** The mutable catalogue object, and discovery of connected servers into it. */
module CatalogObject {
  import opened Capabilities

  class CapabilityCatalog {
    var tools: map<string, Capability>
    var skills: map<string, Skill>
    var schemas: set<string>

    function Contents(): Catalog
      reads this
    {
      Catalog(tools, skills, schemas)
    }

    constructor ()
      ensures Contents() == Catalog(map[], map[], {})
    {
      tools, skills, schemas := map[], map[], {};
    }

    /** False where the source raises; the catalogue is then as it was. */
    method RegisterTool(name: string, capability: Capability) returns (ok: bool)
      modifies this
      ensures ok <==>
              && name != "" && name !in old(tools)
              && (capability.readOnly || (capability.requiredReads != [] && capability.hasValidator))
      ensures Contents() == if ok then old(Contents()).(tools := old(tools)[name := capability]) else old(Contents())
    {
      if name == "" || name in tools {
        return false;
      }
      if !capability.readOnly && (capability.requiredReads == [] || !capability.hasValidator) {
        return false;
      }
      tools := tools[name := capability];
      ok := true;
    }

    method RegisterSkill(name: string, skill: Skill, files: set<string>) returns (ok: bool)
      modifies this
      ensures ok <==> && name != "" && name !in old(skills) && skill.path in files
                      && forall t :: t in skill.tools ==> t in tools
      ensures Contents() == if ok then old(Contents()).(skills := old(skills)[name := skill]) else old(Contents())
    {
      if name == "" || name in skills {
        return false;
      }
      if skill.path !in files || exists t :: t in skill.tools && t !in tools {
        return false;
      }
      skills := skills[name := skill];
      ok := true;
    }

    method RemoveSkill(name: string)
      modifies this
      ensures Contents() == old(Contents()).(skills := old(skills) - {name})
    {
      skills := skills - {name};
    }

    /** Widens the set until nothing left depends on it, then drops the tools and the skills that list one. */
    method RemoveTools(names: set<string>)
      modifies this
      ensures Contents() == Capabilities.RemoveTools(old(Contents()), names)
      ensures forall files :: old(Sound(Contents(), files)) ==> Sound(Contents(), files)
    {
      forall files | Sound(Contents(), files) ensures Sound(Capabilities.RemoveTools(Contents(), names), files) {
        RemoveKeepsSound(Contents(), files, names);
      }
      var removed := names;
      while true
        invariant Cascade(tools, removed) == Cascade(tools, names)
        decreases tools.Keys - removed
      {
        var dependent := Dependents(tools, removed);
        if dependent <= removed {
          break;
        }
        assert exists n :: n in dependent && n !in removed;
        assert tools.Keys - (removed + dependent) <= tools.Keys - removed;
        removed := removed + dependent;
      }
      tools := tools - removed;
      schemas := schemas - removed;
      var left := skills.Keys;
      while left != {}
        modifies `skills
        invariant left <= skills.Keys <= old(skills).Keys
        invariant forall n :: n in skills ==> skills[n] == old(skills)[n]
        invariant forall n :: n in left ==> n in skills
        invariant forall n :: n in old(skills) && n !in left ==>
                       (n in skills <==> !Touches(old(skills)[n].tools, removed))
      {
        var name :| name in left;
        if Touches(skills[name].tools, removed) {
          skills := skills - {name};
        }
        left := left - {name};
      }
    }

    /** Whether validate() passes. */
    method Validate(files: set<string>) returns (ok: bool)
      ensures ok <==> Sound(Contents(), files)
    {
      var left := tools.Keys;
      while left != {}
        invariant left <= tools.Keys
        invariant forall n :: n in tools && n !in left ==> ToolSound(Contents(), n)
      {
        var name :| name in left;
        if !ToolSound(Contents(), name) {
          return false;
        }
        left := left - {name};
      }
      left := skills.Keys;
      while left != {}
        invariant left <= skills.Keys
        invariant forall n :: n in skills && n !in left ==> SkillSound(Contents(), files, n)
      {
        var name :| name in left;
        if !SkillSound(Contents(), files, name) {
          return false;
        }
        left := left - {name};
      }
      ok := true;
    }

    /** Drops the learned skills and registers again those whose files still fit the catalogue. */
    method RegisterLearnedSkills(learned: seq<LearnedFile>, files: set<string>) returns (skipped: set<string>)
      modifies this
      ensures Contents() == RegisterLearned(old(Contents()), learned, files)
      ensures forall name :: name in skipped ==> exists file :: file in learned && file.name == name
    {
      var left := skills.Keys;
      while left != {}
        modifies `skills
        invariant left <= skills.Keys <= old(skills).Keys
        invariant forall n :: n in skills ==> skills[n] == old(skills)[n]
        invariant forall n :: n in old(skills) && n !in left ==> (n in skills <==> old(skills)[n].events == [])
      {
        var name :| name in left;
        if skills[name].events != [] {
          skills := skills - {name};
        }
        left := left - {name};
      }
      assert Contents() == WithoutLearned(old(Contents()));
      skipped := {};
      var i := 0;
      while i < |learned|
        invariant 0 <= i <= |learned|
        invariant RegisterFiles(Contents(), learned[i..], files) == RegisterLearned(old(Contents()), learned, files)
        invariant forall name :: name in skipped ==> exists file :: file in learned && file.name == name
      {
        var file := learned[i];
        assert file in learned;
        assert learned[i..][1..] == learned[i + 1..];
        var ok := false;
        if file.meta.Some? {
          var meta := file.meta.value;
          if (forall t :: t in meta.tools ==> t in tools)
             && (forall t :: t in meta.tools ==> forall r :: r in tools[t].requiredReads ==> r in meta.tools) {
            ok := RegisterSkill(file.name, Skill(file.path, meta.tools, meta.events), files);
          }
        }
        if !ok {
          skipped := skipped + {file.name};
        }
        i := i + 1;
      }
    }
  }

  // ----- service names

  predicate ServiceChar(c: char) {
    'a' <= c <= 'z' || '0' <= c <= '9' || c == '-'
  }

  predicate IsService(s: string) {
    0 < |s| <= 40 && 'a' <= s[0] <= 'z' && forall i :: 0 <= i < |s| ==> ServiceChar(s[i])
  }

  function Lower(c: char): char {
    if 'A' <= c <= 'Z' then c - 'A' + 'a' else c
  }

  /** Every run of other characters becomes one dash; `inRun` says the previous character belonged to such a run. */
  function Dashed(s: string, inRun: bool): (r: string)
    ensures forall i :: 0 <= i < |r| ==> ServiceChar(r[i])
  {
    if s == "" then ""
    else
      var c := Lower(s[0]);
      if ServiceChar(c) then [c] + Dashed(s[1..], false)
      else (if inRun then "" else "-") + Dashed(s[1..], true)
  }

  function DropLead(s: string): (r: string)
    ensures r == "" || !(r[0] == '-' || '0' <= r[0] <= '9')
    ensures |r| <= |s| && r == s[|s| - |r|..]
  {
    if s != "" && (s[0] == '-' || '0' <= s[0] <= '9') then DropLead(s[1..]) else s
  }

  function DropDashes(s: string): (r: string)
    ensures |r| <= |s| && r == s[..|r|]
    ensures s != "" && s[0] != '-' ==> r != ""
  {
    if s != "" && s[|s| - 1] == '-' then DropDashes(s[..|s| - 1]) else s
  }

  const BUILT_IN := {"order-accuracy", "order-accuracy-take-away", "order-accuracy-dine-in"}

  /** Cutting a cleaned name to forty characters without trailing dashes leaves a service name, or nothing. */
  lemma CutIsService(s: string)
    requires forall i :: 0 <= i < |s| ==> ServiceChar(s[i])
    requires s == "" || !(s[0] == '-' || '0' <= s[0] <= '9')
    ensures var r := DropDashes(if |s| > 40 then s[..40] else s); r == "" || IsService(r)
  {
    if s != "" {
      assert ServiceChar(s[0]);
    }
  }

  /** The catalogue prefix of a configured server: always a name the journal accepts as a service. */
  function ServicePrefix(server: string): (r: string)
    ensures IsService(r)
  {
    if server in BUILT_IN then "accuracy"
    else
      var trimmed := DropLead(Dashed(server, false));
      CutIsService(trimmed);
      var name := DropDashes(if |trimmed| > 40 then trimmed[..40] else trimmed);
      if name == "" then "service" else name
  }

  /** Tools of servers with different prefixes never share a catalogue name. */
  lemma PrefixesSeparateNames(a: string, b: string, x: ToolInfo, y: ToolInfo)
    requires IsService(a) && IsService(b) && FullName(a, x) == FullName(b, y)
    ensures a == b && x.name == y.name
  {
    var left, right := FullName(a, x), FullName(b, y);
    assert left[|a|] == '.' && right[|b|] == '.';
    assert forall i :: 0 <= i < |a| ==> left[i] == a[i] && left[i] != '.';
    assert forall i :: 0 <= i < |b| ==> right[i] == b[i] && right[i] != '.';
    assert |a| == |b|;
    assert left[..|a|] == a && right[..|b|] == b;
    FullNameInjective(a, x, y);
  }

  // ----- discover

  /** The catalogue with what discovery remembers of each server. */
  datatype Known = Known(catalog: Catalog, seen: set<string>, failed: map<string, real>)

  /** Whether a pass asks the server for its tools. */
  predicate Due(k: Known, server: Server, now: real) {
    && server.name !in k.seen && !UsesPrefix(k.catalog, ServicePrefix(server.name))
    && !(server.name in k.failed && now - k.failed[server.name] < RETRY_SECONDS)
  }

  function Ask(k: Known, server: Server, disabled: set<string>, now: real): Known {
    if !Due(k, server, now) || server.listing.NoClient? then k
    else if server.listing.Unreachable? then k.(failed := k.failed[server.name := now])
    else Known(DiscoverTools(k.catalog, ServicePrefix(server.name), server.listing.tools, disabled),
               k.seen + {server.name}, k.failed - {server.name})
  }

  function Pass(k: Known, servers: seq<Server>, disabled: set<string>, now: real): Known
    decreases |servers|
  {
    if servers == [] then k else Pass(Ask(k, servers[0], disabled, now), servers[1..], disabled, now)
  }

  /** Every server this pass asks lists the names its actions depend on as reads first. */
  predicate AskedAreFine(k: Known, servers: seq<Server>, disabled: set<string>, now: real)
    decreases |servers|
  {
    servers == []
    || ((Due(k, servers[0], now) && servers[0].listing.Listed? ==>
           ReadsComeFirst(ServicePrefix(servers[0].name), servers[0].listing.tools, disabled))
        && AskedAreFine(Ask(k, servers[0], disabled, now), servers[1..], disabled, now))
  }

  ghost predicate Keeps(before: Catalog, after: Catalog) {
    && after.skills == before.skills
    && forall n :: n in before.tools ==> n in after.tools && after.tools[n] == before.tools[n]
  }

  lemma AskKeeps(k: Known, s: Server, disabled: set<string>, now: real)
    ensures var next := Ask(k, s, disabled, now);
            && Keeps(k.catalog, next.catalog) && k.seen <= next.seen
            && (forall n :: n in next.catalog.tools && n !in k.catalog.tools ==>
                  n !in disabled && FromSeenServer(next.seen, [s], n, next.catalog.tools[n].readOnly))
  {
    if Due(k, s, now) && s.listing.Listed? {
      var prefix := ServicePrefix(s.name);
      var enabled := Enabled(s.listing.tools, prefix, disabled);
      var context := ContextReads(enabled, prefix);
      RegisterListedAdds(k.catalog, prefix, enabled, context);
      var next := Ask(k, s, disabled, now);
      forall n | n in next.catalog.tools && n !in k.catalog.tools
        ensures n !in disabled && FromSeenServer(next.seen, [s], n, next.catalog.tools[n].readOnly)
      {
        var t := FirstListed(prefix, enabled, context, n).value;
        assert t in s.listing.tools && s in [s];
      }
    }
  }

  /** A pass changes nothing already registered, adds only enabled tools of servers it has now seen, each as the read or
      action its listing makes it, and forgets no server. */
  lemma {:induction false} PassAdds(k: Known, servers: seq<Server>, disabled: set<string>, now: real)
    ensures var after := Pass(k, servers, disabled, now);
            && Keeps(k.catalog, after.catalog) && k.seen <= after.seen
            && (forall n :: n in after.catalog.tools && n !in k.catalog.tools ==>
                  n !in disabled && FromSeenServer(after.seen, servers, n, after.catalog.tools[n].readOnly))
    decreases |servers|
  {
    if servers != [] {
      var s := servers[0];
      var next := Ask(k, s, disabled, now);
      AskKeeps(k, s, disabled, now);
      PassAdds(next, servers[1..], disabled, now);
      var after := Pass(k, servers, disabled, now);
      forall n | n in after.catalog.tools && n !in k.catalog.tools
        ensures n !in disabled && FromSeenServer(after.seen, servers, n, after.catalog.tools[n].readOnly)
      {
        FromSome(after.seen, next.seen, servers, n, after.catalog.tools[n].readOnly, n in next.catalog.tools);
      }
    }
  }

  lemma FromSome(seen: set<string>, some: set<string>, servers: seq<Server>, n: string, readOnly: bool, first: bool)
    requires servers != [] && some <= seen
    requires if first then FromSeenServer(some, [servers[0]], n, readOnly)
             else FromSeenServer(seen, servers[1..], n, readOnly)
    ensures FromSeenServer(seen, servers, n, readOnly)
  {
    var part := if first then [servers[0]] else servers[1..];
    var s, t :| s in part && s.name in seen && s.listing.Listed? && t in s.listing.tools
      && n == FullName(ServicePrefix(s.name), t) && readOnly == IsRead(t);
    assert s in servers;
  }

  ghost predicate FromSeenServer(seen: set<string>, servers: seq<Server>, n: string, readOnly: bool) {
    exists s, t :: s in servers && s.name in seen && s.listing.Listed? && t in s.listing.tools
      && n == FullName(ServicePrefix(s.name), t) && readOnly == IsRead(t)
  }

  lemma RequiringActionStays(before: Catalog, after: Catalog)
    requires SomeRequiresAction(before) && Keeps(before, after)
    ensures SomeRequiresAction(after)
  {
    var name, read :| RequiresAction(before, name, read);
    assert RequiresAction(after, name, read);
  }

  /** A pass keeps a valid catalogue valid if and only if every server it asks lists the names its actions depend on as
      reads before it lists them as actions. */
  lemma {:induction false} PassKeepsSoundExactly(k: Known, files: set<string>, servers: seq<Server>,
                                                 disabled: set<string>,
                                                 now: real)
    requires Sound(k.catalog, files)
    ensures Sound(Pass(k, servers, disabled, now).catalog, files) <==> AskedAreFine(k, servers, disabled, now)
    decreases |servers|
  {
    if servers != [] {
      var s := servers[0];
      var next := Ask(k, s, disabled, now);
      if Due(k, s, now) && s.listing.Listed? {
        DiscoverKeepsSoundExactly(k.catalog, files, ServicePrefix(s.name), s.listing.tools, disabled);
      }
      if Sound(next.catalog, files) {
        PassKeepsSoundExactly(next, files, servers[1..], disabled, now);
      } else {
        PassAdds(next, servers[1..], disabled, now);
        RequiringActionStays(next.catalog, Pass(next, servers[1..], disabled, now).catalog);
        RequiringActionIsUnsound(Pass(next, servers[1..], disabled, now).catalog, files);
      }
    }
  }

  class Discovery {
    var seen: set<string>
    var failed: map<string, real>

    constructor ()
      ensures seen == {} && failed == map[]
    {
      seen, failed := {}, map[];
    }

    /** Registers one listed tool unless its name is taken or it is an action without any context read. */
    method RegisterOne(catalog: CapabilityCatalog, prefix: string, tool: ToolInfo, context: seq<string>)
      requires prefix != ""
      modifies catalog
      ensures var before := old(catalog.Contents()); var name := FullName(prefix, tool);
              catalog.Contents() == if name in before.tools || !Usable(tool, context) then before
                                    else before.(tools := before.tools[name := DiscoveredTool(tool, context)])
    {
      var name := FullName(prefix, tool);
      var read := IsRead(tool);
      if !(name in catalog.tools || !(read || context != [])) {
        var ok := catalog.RegisterTool(name, DiscoveredTool(tool, context));
        assert ok;
      }
    }

    /** Registers what one reachable server lists; no registration can fail. */
    method RegisterServer(catalog: CapabilityCatalog, prefix: string, listed: seq<ToolInfo>, disabled: set<string>)
      requires prefix != ""
      modifies catalog
      ensures catalog.Contents() == DiscoverTools(old(catalog.Contents()), prefix, listed, disabled)
    {
      var tools := Enabled(listed, prefix, disabled);
      var context := ContextReads(tools, prefix);
      var i := 0;
      while i < |tools|
        invariant 0 <= i <= |tools|
        invariant RegisterListed(catalog.Contents(), prefix, tools[i..], context)
                  == DiscoverTools(old(catalog.Contents()), prefix, listed, disabled)
      {
        assert tools[i..][1..] == tools[i + 1..];
        RegisterOne(catalog, prefix, tools[i], context);
        i := i + 1;
      }
    }

    /** One pass over the configured servers; returns those it could not reach. */
    method Discover(catalog: CapabilityCatalog, servers: seq<Server>, disabled: set<string>, now: real)
      returns (errors: set<string>)
      modifies this, catalog
      ensures Known(catalog.Contents(), seen, failed)
              == Pass(old(Known(catalog.Contents(), seen, failed)), servers, disabled, now)
      ensures forall e :: e in errors ==> e in failed && failed[e] == now && e !in old(seen)
    {
      errors := {};
      var i := 0;
      while i < |servers|
        invariant 0 <= i <= |servers|
        invariant Pass(Known(catalog.Contents(), seen, failed), servers[i..], disabled, now)
                  == Pass(old(Known(catalog.Contents(), seen, failed)), servers, disabled, now)
        invariant old(seen) <= seen
        invariant forall e :: e in errors ==> e in failed && failed[e] == now && e !in old(seen)
      {
        var server := servers[i];
        assert servers[i..][1..] == servers[i + 1..];
        i := i + 1;
        if Due(Known(catalog.Contents(), seen, failed), server, now) {
          match server.listing
          case NoClient =>
          case Unreachable =>
            failed := failed[server.name := now];
            errors := errors + {server.name};
          case Listed(tools) =>
            seen := seen + {server.name};
            failed := failed - {server.name};
            RegisterServer(catalog, ServicePrefix(server.name), tools, disabled);
        }
      }
    }
  }
}

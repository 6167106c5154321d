/** The bounded reasoning loop of autonomy/event_agent.py, for any replies of the language model. */
module Agent {
  import opened Wrappers
  import opened JsonValues
  import opened StoreTables
  import opened Capabilities
  import opened Rules
  import opened SkillText
  import opened AgentReads
  import Controller

  // ----- learned settings

  function MergeAll(merged: Settings, more: Settings): Settings {
    map tool | tool in merged.Keys + more.Keys ::
      (if tool in merged then merged[tool] else map[]) + (if tool in more then more[tool] else map[])
  }

  function LearnedFrom(c: Catalog, w: World, selected: seq<(string, seq<Line>)>, fields: Fields): Settings {
    if selected == [] then map[]
    else
      var n := |selected| - 1;
      var (name, text) := selected[n];
      var before := LearnedFrom(c, w, selected[..n], fields);
      if name !in c.skills || c.skills[name].events == [] then before
      else
        match SectionRules(text, w.parse)
        case Malformed => before
        case Read(rules) => MergeAll(before, MatchingSettings(rules, fields))
  }

  /** Settings of learned rules whose conditions hold for the event and the observed context. */
  function LearnedMatches(c: Catalog, w: World, payload: Dict, m: Memory): Settings {
    if m.observations == [] then map[] else LearnedFrom(c, w, m.selected, EventFields(payload, m.observations))
  }

  method AsDict(settings: map<string, Json>) returns (d: Dict)
    ensures forall k :: Get(d, k) == if k in settings then Some(settings[k]) else None
  {
    d := [];
    var left := settings.Keys;
    while left != {}
      invariant left <= settings.Keys
      invariant forall k :: Get(d, k) == if k in settings && k !in left then Some(settings[k]) else None
    {
      var k :| k in left;
      left := left - {k};
      d := Put(d, k, settings[k]);
    }
  }

  /** The settings with what the model's own arguments say put over them. */
  ghost predicate IsOverlay(merged: Dict, learned: map<string, Json>, arguments: Dict) {
    forall k :: Get(merged, k) == if Get(arguments, k).Some? then Get(arguments, k)
                                  else if k in learned then Some(learned[k]) else None
  }

  method Overlaid(learned: map<string, Json>, arguments: Dict) returns (merged: Dict)
    ensures IsOverlay(merged, learned, arguments)
  {
    var base := AsDict(map k | k in learned && Get(arguments, k).None? :: learned[k]);
    GetAppend(base, arguments);
    merged := base + arguments;
  }

  lemma {:induction false} GetAppend(a: Dict, b: Dict)
    ensures forall k :: Get(a + b, k) == if Get(a, k).Some? then Get(a, k) else Get(b, k)
  {
    if a == [] {
      assert a + b == b;
    } else {
      assert (a + b)[1..] == a[1..] + b;
      GetAppend(a[1..], b);
    }
  }

  /** The settings, but for a reason that may be added. */
  ghost predicate SettingsOf(arguments: Dict, settings: map<string, Json>) {
    forall k :: k != "reason" ==> Get(arguments, k) == if k in settings then Some(settings[k]) else None
  }

  ghost predicate TurnedDown(c: Catalog, w: World, observations: Dict, tool: string, settings: map<string, Json>) {
    exists tick, arguments :: SettingsOf(arguments, settings)
      && ValidateAction(c, w, tick, tool, Obj(arguments), observations) == Bad
  }

  ghost predicate AcceptedOrStale(c: Catalog, w: World, observations: Dict, tool: string, arguments: Dict) {
    exists tick :: ValidateAction(c, w, tick, tool, Obj(arguments), observations) in {Fine, Stale}
  }

  /** The settings cannot even be turned down: there is no schema to look into, or a check raises something else. */
  ghost predicate CannotTry(c: Catalog, w: World, observations: Dict, tool: string, settings: map<string, Json>,
                            step: Step) {
    || (step.Faulty? && (tool !in c.tools || exists tick :: w.reason(tick, tool).NoSchema?))
    || (step.Crashed? && exists tick :: w.reason(tick, tool).SchemaFails?)
    || exists tick, arguments :: SettingsOf(arguments, settings)
         && ValidateAction(c, w, tick, tool, Obj(arguments), observations) == if step.Faulty? then Mistyped else Broken
  }

  /** Every learned setting for a permitted tool was turned down. */
  ghost predicate NoneLearned(c: Catalog, w: World, payload: Dict, m: Memory) {
    var learned := LearnedMatches(c, w, payload, m);
    forall tool :: tool in learned && tool in Allowed(c, Names(m.selected)) ==>
      TurnedDown(c, w, m.observations, tool, learned[tool])
  }

  ghost predicate IsLearned(c: Catalog, w: World, payload: Dict, m: Memory, tool: string, arguments: Dict) {
    var learned := LearnedMatches(c, w, payload, m);
    && tool in Allowed(c, Names(m.selected)) && tool in learned
    && SettingsOf(arguments, learned[tool]) && AcceptedOrStale(c, w, m.observations, tool, arguments)
  }

  ghost predicate SomeCannotBeTried(c: Catalog, w: World, payload: Dict, m: Memory, step: Step) {
    var learned := LearnedMatches(c, w, payload, m);
    exists tool :: tool in learned && tool in Allowed(c, Names(m.selected))
      && CannotTry(c, w, m.observations, tool, learned[tool], step)
  }

  /** A permitted tool's learned settings that are not turned down; none when all are; or one that cannot be tried. */
  ghost predicate LearnedChoice(c: Catalog, w: World, payload: Dict, m: Memory, next: Memory, step: Step,
                                action: Option<(string, Dict)>) {
    && next == m.(tick := next.tick) && m.tick <= next.tick
    && if !step.Done? then action.None? && SomeCannotBeTried(c, w, payload, m, step)
       else if action.Some? then IsLearned(c, w, payload, m, action.value.0, action.value.1)
       else NoneLearned(c, w, payload, m)
  }

  /** A learned setting an operator taught for this event and context becomes the action when the model has none. */
  method LearnedAction(c: Catalog, w: World, payload: Dict, m: Memory)
    returns (next: Memory, step: Step, action: Option<(string, Dict)>)
    requires Inv(c, w, m)
    ensures LearnedChoice(c, w, payload, m, next, step, action) && Inv(c, w, next)
    ensures LearnedMatches(c, w, payload, m) == map[] ==> step.Done? && action.None?
  {
    next, action := m, None;
    var learned := LearnedMatches(c, w, payload, m);
    var left := learned.Keys;
    while left != {}
      invariant left <= learned.Keys
      invariant next == m.(tick := next.tick) && m.tick <= next.tick && action.None?
      invariant forall tool :: tool in learned.Keys - left && tool in Allowed(c, Names(m.selected)) ==>
                  TurnedDown(c, w, m.observations, tool, learned[tool])
    {
      var tool :| tool in left;
      left := left - {tool};
      if tool in Allowed(c, Names(m.selected)) {
        var arguments;
        next, step, arguments := TryLearned(c, w, next, tool, learned[tool]);
        if !step.Done? {
          return;
        }
        if arguments.Some? {
          return next, Done, Some((tool, arguments.value));
        }
      }
    }
    step := Done;
  }

  /** The settings as an action, None when schema or owner turn it down; expired evidence is left to the caller. */
  method TryLearned(c: Catalog, w: World, m: Memory, tool: string, settings: map<string, Json>)
    returns (next: Memory, step: Step, arguments: Option<Dict>)
    ensures next == m.(tick := next.tick) && m.tick <= next.tick
    ensures arguments.Some? ==>
              && step.Done? && SettingsOf(arguments.value, settings)
              && AcceptedOrStale(c, w, m.observations, tool, arguments.value)
    ensures step.Done? && arguments.None? ==> TurnedDown(c, w, m.observations, tool, settings)
    ensures !step.Done? ==> CannotTry(c, w, m.observations, tool, settings, step)
  {
    arguments := None;
    var d := AsDict(settings);
    var field := if tool in c.tools then w.reason(m.tick, tool) else NoSchema;
    next := m.(tick := m.tick + 1);
    if field.NoSchema? {
      return next, Faulty, None;
    }
    if field.SchemaFails? {
      return next, Crashed, None;
    }
    if field.Wanted? && Get(d, "reason").None? {
      d := Put(d, "reason", Str("Operator-taught rule matched this event and context."));
    }
    assert SettingsOf(d, settings);
    var check := ValidateAction(c, w, next.tick, tool, Obj(d), m.observations);
    next := next.(tick := next.tick + 1);
    step := if check == Broken then Crashed else if check == Mistyped then Faulty else Done;
    if check == Fine || check == Stale {
      arguments := Some(d);
    }
  }

  // ----- deciding

  /** Some read of the skill has been observed; a tool that is not registered ends the search. */
  predicate ContextRead(c: Catalog, observations: Dict, tools: seq<string>) {
    tools != [] && tools[0] in c.tools
    && ((c.tools[tools[0]].readOnly && Get(observations, tools[0]).Some?) || ContextRead(c, observations, tools[1..]))
  }

  predicate AllContextRead(c: Catalog, skills: seq<string>, observations: Dict) {
    forall name :: name in skills ==> name in c.skills && ContextRead(c, observations, c.skills[name].tools)
  }

  predicate GoodSummary(summary: Json) {
    summary.Str? && !AllSpace(summary.s) && |summary.s| <= 1000
  }

  function Missing(m: Memory, required: seq<string>): (r: seq<string>)
    ensures forall t :: t in r <==> t in required && !Observed(m, t)
  {
    if required == [] then []
    else (if Observed(m, required[0]) then [] else [required[0]]) + Missing(m, required[1..])
  }

  /** Why the loop gives up: an event of another restaurant, no prompt or no reply, an error of a call that it does not
      catch, or no rounds left. */
  datatype Cause = OtherStore | ModelSilent | CallFailed | OutOfRounds

  datatype Result = Nothing | Proposed(tool: string, arguments: Dict) | Failure(cause: Cause)

  /** The action is permitted, all its required reads were made, and schema and owner accepted it on just these
      observations. */
  ghost predicate Approvable(c: Catalog, w: World, m: Memory, tool: string, arguments: Dict) {
    && tool in Allowed(c, Names(m.selected)) && tool in c.tools && !c.tools[tool].readOnly
    && (forall r :: r in c.tools[tool].requiredReads ==> Observed(m, r))
    && exists tick :: ValidateAction(c, w, tick, tool, Obj(arguments), m.observations) == Fine
  }

  /** What a finished loop guarantees. */
  ghost predicate Warranted(c: Catalog, w: World, m: Memory, result: Result) {
    && (result.Proposed? ==> Approvable(c, w, m, result.tool, result.arguments))
    && (!result.Failure? ==> AllContextRead(c, Names(m.selected), m.observations))
  }

  /** Learned settings are put under the arguments exactly where schema and owner accept both together. */
  ghost predicate Merges(c: Catalog, w: World, m: Memory, tool: string, arguments: Json, learned: Settings,
                         next: Memory, step: Step, merged: Json) {
    if tool in learned && learned[tool] != map[] && arguments.Obj?
    then
      && next == m.(tick := m.tick + 1)
      && exists both :: IsOverlay(both, learned[tool], arguments.members)
           && var check := ValidateAction(c, w, m.tick, tool, Obj(both), m.observations);
              && step == (if check == Broken then Crashed else if check == Mistyped then Faulty else Done)
              && merged == (if check == Fine then Obj(both) else arguments)
    else next == m && step.Done? && merged == arguments
  }

  /** Puts learned settings under the model's arguments where the owner accepts them together. */
  method WithLearned(c: Catalog, w: World, m: Memory, tool: string, arguments: Json, learned: Settings)
    returns (next: Memory, step: Step, merged: Json)
    requires Inv(c, w, m)
    ensures next == m.(tick := next.tick) && m.tick <= next.tick && Inv(c, w, next)
    ensures Merges(c, w, m, tool, arguments, learned, next, step, merged)
    ensures merged != arguments ==> ValidateAction(c, w, m.tick, tool, merged, m.observations) == Fine
    ensures arguments.Obj? ==> merged.Obj? && forall k :: Get(arguments.members, k).Some? ==>
              Get(merged.members, k) == Get(arguments.members, k)
    ensures merged != arguments ==>
              && tool in learned && merged.Obj?
              && forall k :: k in learned[tool] ==> Get(merged.members, k).Some?
  {
    next, step, merged := m, Done, arguments;
    if tool in learned && learned[tool] != map[] && arguments.Obj? {
      var both := Overlaid(learned[tool], arguments.members);
      var check := ValidateAction(c, w, m.tick, tool, Obj(both), m.observations);
      next := m.(tick := m.tick + 1);
      if check == Broken {
        step := Crashed;
      } else if check == Mistyped {
        step := Faulty;
      } else if check == Fine {
        merged := Obj(both);
      }
    }
  }

  /** Expired evidence was refreshed, and the model is asked again unless the action cannot be validated on it either;
      or a read of the refresh ended the round or the loop. */
  ghost predicate AfterStale(c: Catalog, w: World, m: Memory, next: Memory, tool: string, arguments: Json,
                             result: Option<Result>)
    requires tool in c.tools
  {
    var required := c.tools[tool].requiredReads;
    || (&& AllRetaken(m, next, required) && 0 < next.tick
        && var again := ValidateAction(c, w, next.tick - 1, tool, arguments, next.observations);
           result == if again == Stale || again == Broken then Some(Failure(CallFailed)) else None)
    || (RereadEnds(c, w, m, required, Faulty) && result.None?)
    || (RereadEnds(c, w, m, required, Crashed) && result == Some(Failure(CallFailed)))
  }

  /** What expired evidence comes to. */
  function Reconsidering(c: Catalog, w: World, m: Memory, tool: string, arguments: Json): (Memory, Option<Result>)
    requires tool in c.tools && forall r :: r in c.tools[tool].requiredReads ==> r in m.given
  {
    var (next, step) := Rereading(c, w, m, c.tools[tool].requiredReads);
    match step
    case Crashed => (next, Some(Failure(CallFailed)))
    case Faulty => (next, None)
    case Done =>
      var again := ValidateAction(c, w, next.tick, tool, arguments, next.observations);
      (next.(tick := next.tick + 1), if again == Stale || again == Broken then Some(Failure(CallFailed)) else None)
  }

  /** Refreshes expired evidence and checks that the action can be validated on it. */
  method Reconsider(c: Catalog, w: World, m: Memory, tool: string, arguments: Json)
    returns (next: Memory, result: Option<Result>)
    requires Inv(c, w, m) && tool in c.tools && forall r :: r in c.tools[tool].requiredReads ==> Observed(m, r)
    ensures Inv(c, w, next) && next.given == m.given && next.selected == m.selected
    ensures (next, result) == Reconsidering(c, w, m, tool, arguments)
    ensures AfterStale(c, w, m, next, tool, arguments, result)
    ensures result.None? || result == Some(Failure(CallFailed))
  {
    var step;
    result := None;
    next, step := Refresh(c, w, m, c.tools[tool].requiredReads);
    if step.Crashed? {
      result := Some(Failure(CallFailed));
    } else if step.Done? {
      var again := ValidateAction(c, w, next.tick, tool, arguments, next.observations);
      if again == Stale || again == Broken {
        result := Some(Failure(CallFailed));
      }
      RetakenSettles(c, w, m, next, tool, arguments);
      TickKeeps(c, w, next);
      next := next.(tick := next.tick + 1);
    }
  }

  lemma RetakenSettles(c: Catalog, w: World, m: Memory, next: Memory, tool: string, arguments: Json)
    requires tool in c.tools && AllRetaken(m, next, c.tools[tool].requiredReads)
    ensures var again := ValidateAction(c, w, next.tick, tool, arguments, next.observations);
            AfterStale(c, w, m, next.(tick := next.tick + 1), tool, arguments,
                       if again == Stale || again == Broken then Some(Failure(CallFailed)) else None)
  {
    RetakenLater(m, next, c.tools[tool].requiredReads);
  }

  lemma TickKeeps(c: Catalog, w: World, m: Memory)
    requires Inv(c, w, m)
    ensures Inv(c, w, m.(tick := m.tick + 1))
  {
  }

  lemma RetakenLater(m: Memory, next: Memory, tools: seq<string>)
    requires AllRetaken(m, next, tools)
    ensures AllRetaken(m, next.(tick := next.tick + 1), tools)
  {
    forall t | t in tools ensures Retaken(m, next.(tick := next.tick + 1), t) {
      assert Retaken(m, next, t);
    }
  }

  lemma StaleLater(c: Catalog, w: World, m: Memory, next: Memory, tool: string, arguments: Json, result: Option<Result>)
    requires tool in c.tools && AfterStale(c, w, m.(tick := m.tick + 1), next, tool, arguments, result)
    ensures AfterStale(c, w, m, next, tool, arguments, result)
  {
    var required, later := c.tools[tool].requiredReads, m.(tick := m.tick + 1);
    if AllRetaken(later, next, required) {
      forall t | t in required ensures Retaken(m, next, t) {
        assert Retaken(later, next, t);
      }
    }
  }

  function Concluding(c: Catalog, w: World, m: Memory, tool: string, arguments: Json): (Memory, Option<Result>)
    requires tool in c.tools && forall r :: r in c.tools[tool].requiredReads ==> r in m.given
  {
    var asked := m.(tick := m.tick + 1);
    match ValidateAction(c, w, m.tick, tool, arguments, m.observations)
    case Fine => (asked, Some(Proposed(tool, arguments.members)))
    case Bad => (asked, None)
    case Mistyped => (asked, None)
    case Broken => (asked, Some(Failure(CallFailed)))
    case Stale => Reconsidering(c, w, asked, tool, arguments)
  }

  /** Validates the action; expired evidence is refreshed and the model asked again. None: another round. */
  method Conclude(c: Catalog, w: World, m: Memory, tool: string, arguments: Json)
    returns (next: Memory, result: Option<Result>)
    requires Inv(c, w, m) && tool in Allowed(c, Names(m.selected)) && tool in c.tools
              && AllContextRead(c, Names(m.selected), m.observations)
    requires forall r :: r in c.tools[tool].requiredReads ==> Observed(m, r)
    ensures Inv(c, w, next) && (result.Some? ==> Warranted(c, w, next, result.value))
    ensures (next, result) == Concluding(c, w, m, tool, arguments)
    ensures var check := ValidateAction(c, w, m.tick, tool, arguments, m.observations);
            && (check == Fine <==> result.Some? && result.value.Proposed?)
            && (check == Broken ==> result == Some(Failure(CallFailed)))
            && (check == Bad || check == Mistyped ==> result.None? && next == m.(tick := m.tick + 1))
            && (check == Stale ==> AfterStale(c, w, m, next, tool, arguments, result))
    ensures next.given == m.given && next.selected == m.selected
    ensures result.Some? ==> result.value.Proposed? || result.value == Failure(CallFailed)
    ensures result.Some? && result.value.Proposed? ==>
              result.value.tool == tool && Obj(result.value.arguments) == arguments
                  && next.observations == m.observations
  {
    var check := ValidateAction(c, w, m.tick, tool, arguments, m.observations);
    next := m.(tick := m.tick + 1);
    match check {
      case Fine =>
        assert ValidateAction(c, w, m.tick, tool, Obj(arguments.members), next.observations) == Fine;
        result := Some(Proposed(tool, arguments.members));
      case Bad => result := None;
      case Mistyped => result := None;
      case Broken => result := Some(Failure(CallFailed));
      case Stale =>
        next, result := Reconsider(c, w, next, tool, arguments);
        StaleLater(c, w, m, next, tool, arguments, result);
    }
  }

  /** What checking comes to when all reads were made and no learned settings concern the tool. */
  function DirectCheck(c: Catalog, w: World, payload: Dict, m: Memory, tool: string, arguments: Json): Option<Result>
    requires tool in c.tools
  {
    var learned := LearnedMatches(c, w, payload, m);
    if Missing(m, c.tools[tool].requiredReads) != [] then None
    else if tool in learned && learned[tool] != map[] && arguments.Obj? then None
    else
      var check := ValidateAction(c, w, m.tick, tool, arguments, m.observations);
      if check == Fine then Some(Proposed(tool, arguments.members))
      else if check == Broken then Some(Failure(CallFailed))
      else None
  }

  /** What a decision comes to, where learned settings play no part in it. */
  function DirectVerdict(c: Catalog, w: World, payload: Dict, m: Memory, summary: Json,
                         action: ActionRequest): Option<Result> {
    if !AllContextRead(c, Names(m.selected), m.observations) || !GoodSummary(summary) then None
    else
      match action
      case BadAction => None
      case NoneProposed => if LearnedMatches(c, w, payload, m) == map[] then Some(Nothing) else None
      case Act(tool, arguments) =>
        var name := Permitted(c, m, tool);
        if name.None? || name.value !in c.tools then None else DirectCheck(c, w, payload, m, name.value, arguments)
  }

  /** What checking an action comes to: missing context is fetched, or learned settings are merged in and the action is
      validated. */
  ghost predicate Checks(c: Catalog, w: World, payload: Dict, m: Memory, tool: string, arguments: Json, next: Memory,
                         result: Option<Result>)
    requires tool in c.tools
  {
    var missing := Missing(m, c.tools[tool].requiredReads);
    if missing != [] then
      var (fetched, step) := Fetching(c, w, m, missing);
      next == fetched && result == if step.Crashed? then Some(Failure(CallFailed)) else None
    else
      exists middle, step, merged ::
        Merges(c, w, m, tool, arguments, LearnedMatches(c, w, payload, m), middle, step, merged)
          && ChecksOn(c, w, m, middle, step, tool, merged, next, result)
  }

  ghost predicate ChecksOn(c: Catalog, w: World, m: Memory, middle: Memory, step: Step, tool: string, merged: Json,
                           next: Memory, result: Option<Result>)
    requires tool in c.tools
  {
    match step
    case Crashed => next == middle && result == Some(Failure(CallFailed))
    case Faulty => next == middle && result.None?
    case Done =>
      && (forall r :: r in c.tools[tool].requiredReads ==> r in middle.given)
      && (next, result) == Concluding(c, w, middle, tool, merged)
  }

  /** The checks an action goes through before it is proposed. */
  method CheckAction(c: Catalog, w: World, payload: Dict, m: Memory, tool: string, arguments: Json)
    returns (next: Memory, result: Option<Result>)
    requires Inv(c, w, m) && tool in Allowed(c, Names(m.selected)) && tool in c.tools
              && AllContextRead(c, Names(m.selected), m.observations)
    ensures Inv(c, w, next) && (result.Some? ==> Warranted(c, w, next, result.value))
    ensures result.Some? ==> result.value.Proposed? || result.value == Failure(CallFailed)
    ensures Checks(c, w, payload, m, tool, arguments, next, result)
    ensures DirectCheck(c, w, payload, m, tool, arguments).Some? ==>
              result == DirectCheck(c, w, payload, m, tool, arguments)
    ensures (exists r :: r in c.tools[tool].requiredReads && !Observed(m, r)) ==> result.None? || result.value.Failure?
  {
    next, result := m, None;
    var missing := Missing(m, c.tools[tool].requiredReads);
    var step;
    if missing != [] {
      assert missing[0] in missing;
      next, step := ReadMissing(c, w, m, missing);
      if step.Crashed? {
        result := Some(Failure(CallFailed));
      }
      return;
    }
    forall r | r in c.tools[tool].requiredReads ensures Observed(m, r) {
      assert r !in missing;
    }
    next, result := MergeAndConclude(c, w, payload, m, tool, arguments);
  }

  /** The checks on an action whose required reads were made. */
  method MergeAndConclude(c: Catalog, w: World, payload: Dict, m: Memory, tool: string, arguments: Json)
    returns (next: Memory, result: Option<Result>)
    requires Inv(c, w, m) && tool in Allowed(c, Names(m.selected)) && tool in c.tools
              && AllContextRead(c, Names(m.selected), m.observations)
    requires forall r :: r in c.tools[tool].requiredReads ==> Observed(m, r)
    ensures Inv(c, w, next) && (result.Some? ==> Warranted(c, w, next, result.value))
    ensures result.Some? ==> result.value.Proposed? || result.value == Failure(CallFailed)
    ensures exists middle, step, merged ::
              Merges(c, w, m, tool, arguments, LearnedMatches(c, w, payload, m), middle, step, merged)
                && ChecksOn(c, w, m, middle, step, tool, merged, next, result)
    ensures Missing(m, c.tools[tool].requiredReads) == [] && DirectCheck(c, w, payload, m, tool, arguments).Some? ==>
              result == DirectCheck(c, w, payload, m, tool, arguments)
  {
    result := None;
    var step, merged;
    next, step, merged := WithLearned(c, w, m, tool, arguments, LearnedMatches(c, w, payload, m));
    if step.Crashed? {
      return next, Some(Failure(CallFailed));
    }
    if step.Faulty? {
      return;
    }
    next, result := Conclude(c, w, next, tool, merged);
  }

  ghost predicate Chooses(c: Catalog, w: World, payload: Dict, m: Memory, action: ActionRequest, next: Memory,
                          step: Step, tool: Option<string>, arguments: Json) {
    match action
    case BadAction => next == m && step.Faulty?
    case Act(named, given) => next == m && step.Done? && tool == named && arguments == given
    case NoneProposed =>
      exists learned :: LearnedChoice(c, w, payload, m, next, step, learned)
        && if learned.Some? then tool == Some(learned.value.0) && arguments == Obj(learned.value.1) else tool.None?
  }

  /** The model's action, or a learned one where it has none; Nothing when there is neither. */
  method ChooseAction(c: Catalog, w: World, payload: Dict, m: Memory, action: ActionRequest)
    returns (next: Memory, step: Step, tool: Option<string>, arguments: Json)
    requires Inv(c, w, m)
    ensures Inv(c, w, next) && next == m.(tick := next.tick)
    ensures Chooses(c, w, payload, m, action, next, step, tool, arguments)
    ensures step.Done? && action.NoneProposed? && tool.None? ==> NoneLearned(c, w, payload, m)
    ensures action.NoneProposed? && LearnedMatches(c, w, payload, m) == map[] ==> step.Done? && tool.None?
  {
    next, step, tool, arguments := m, Faulty, None, Null;
    match action {
      case BadAction =>
      case Act(named, given) => step, tool, arguments := Done, named, given;
      case NoneProposed =>
        var learned;
        next, step, learned := LearnedAction(c, w, payload, m);
        if learned.Some? {
          tool, arguments := Some(learned.value.0), Obj(learned.value.1);
        }
    }
  }

  /** What a decision comes to. */
  ghost predicate Decides(c: Catalog, w: World, payload: Dict, m: Memory, summary: Json, action: ActionRequest,
                          next: Memory, result: Option<Result>) {
    if !AllContextRead(c, Names(m.selected), m.observations) || !GoodSummary(summary) then next == m && result.None?
    else
      exists middle, step, tool, arguments :: Chooses(c, w, payload, m, action, middle, step, tool, arguments)
        && DecidesOn(c, w, payload, action, middle, step, tool, arguments, next, result)
  }

  ghost predicate DecidesOn(c: Catalog, w: World, payload: Dict, action: ActionRequest, middle: Memory, step: Step,
                            tool: Option<string>, arguments: Json, next: Memory, result: Option<Result>) {
    match step
    case Crashed => next == middle && result == Some(Failure(CallFailed))
    case Faulty => next == middle && result.None?
    case Done =>
      if action.NoneProposed? && tool.None? then next == middle && result == Some(Nothing)
      else
        var name := Permitted(c, middle, tool);
        if name.None? || name.value !in c.tools then next == middle && result.None?
        else Checks(c, w, payload, middle, name.value, arguments, next, result)
  }

  /** A decision of the model: no action, or an action that is checked, or a reason for another round (None). */
  method Decide(c: Catalog, w: World, payload: Dict, m: Memory, summary: Json, action: ActionRequest)
    returns (next: Memory, result: Option<Result>)
    requires Inv(c, w, m)
    ensures Inv(c, w, next) && (result.Some? ==> Warranted(c, w, next, result.value))
    ensures result == Some(Nothing) ==>
              action.NoneProposed? && GoodSummary(summary) && next == m.(tick := next.tick)
                  && NoneLearned(c, w, payload, m)
    ensures result.Some? ==> AllContextRead(c, Names(m.selected), m.observations) && GoodSummary(summary)
    ensures result.Some? && result.value.Failure? ==> result.value.cause == CallFailed
    ensures Decides(c, w, payload, m, summary, action, next, result)
    ensures var direct := DirectVerdict(c, w, payload, m, summary, action); direct.Some? ==> result == direct
  {
    next, result := m, None;
    if !AllContextRead(c, Names(m.selected), m.observations) || !GoodSummary(summary) {
      return;
    }
    var step, requested, arguments;
    next, step, requested, arguments := ChooseAction(c, w, payload, m, action);
    if step.Crashed? {
      return next, Some(Failure(CallFailed));
    }
    if step.Faulty? {
      return;
    }
    if action.NoneProposed? && requested.None? {
      return next, Some(Nothing);
    }
    var tool := Permitted(c, next, requested);
    if tool.None? || tool.value !in c.tools {
      return;
    }
    next, result := CheckAction(c, w, payload, next, tool.value, arguments);
  }

  // ----- what operators taught is proposed

  /** The learned settings are accepted whenever they are tried, under the tool's own name. */
  ghost predicate Welcome(c: Catalog, w: World, m: Memory, tool: string, settings: map<string, Json>) {
    && tool in c.tools && Permitted(c, m, Some(tool)) == Some(tool)
    && (forall tick :: w.reason(tick, tool).Wanted? || w.reason(tick, tool).Unwanted?)
    && forall tick, arguments :: SettingsOf(arguments, settings) ==>
         ValidateAction(c, w, tick, tool, Obj(arguments), m.observations) == Fine
  }

  ghost predicate AllWelcome(c: Catalog, w: World, payload: Dict, m: Memory) {
    var learned := LearnedMatches(c, w, payload, m);
    && (exists tool :: tool in learned && tool in Allowed(c, Names(m.selected)))
    && forall tool :: tool in learned && tool in Allowed(c, Names(m.selected)) ==> Welcome(c, w, m, tool, learned[tool])
  }

  lemma {:induction false} NothingMissing(m: Memory, required: seq<string>)
    requires forall r :: r in required ==> Observed(m, r)
    ensures Missing(m, required) == []
  {
    if required != [] {
      NothingMissing(m, required[1..]);
    }
  }

  lemma OverlayOfSettings(both: Dict, settings: map<string, Json>, arguments: Dict)
    requires IsOverlay(both, settings, arguments) && SettingsOf(arguments, settings)
    ensures SettingsOf(both, settings)
  {
  }

  /** An action of welcome settings is proposed with them. */
  lemma WelcomeIsProposed(c: Catalog, w: World, payload: Dict, m: Memory, tool: string, arguments: Dict, next: Memory,
                          result: Option<Result>)
    requires tool in c.tools && Checks(c, w, payload, m, tool, Obj(arguments), next, result)
    requires tool in LearnedMatches(c, w, payload, m)
    requires Welcome(c, w, m, tool, LearnedMatches(c, w, payload, m)[tool])
    requires SettingsOf(arguments, LearnedMatches(c, w, payload, m)[tool])
    ensures result.Some? && result.value.Proposed? && result.value.tool == tool
    ensures SettingsOf(result.value.arguments, LearnedMatches(c, w, payload, m)[tool])
  {
    var learned := LearnedMatches(c, w, payload, m);
    assert ValidateAction(c, w, m.tick, tool, Obj(arguments), m.observations) == Fine;
    NothingMissing(m, c.tools[tool].requiredReads);
    var middle, step, merged :| Merges(c, w, m, tool, Obj(arguments), learned, middle, step, merged)
      && ChecksOn(c, w, m, middle, step, tool, merged, next, result);
    MergedSettings(c, w, m, tool, arguments, learned, middle, step, merged);
    AcceptedIsProposed(c, w, m, middle, step, tool, merged, next, result);
  }

  lemma AcceptedIsProposed(c: Catalog, w: World, m: Memory, middle: Memory, step: Step, tool: string, merged: Json,
                           next: Memory, result: Option<Result>)
    requires tool in c.tools && ChecksOn(c, w, m, middle, step, tool, merged, next, result)
    requires step.Done? && merged.Obj?
    requires ValidateAction(c, w, middle.tick, tool, merged, middle.observations) == Fine
    ensures result == Some(Proposed(tool, merged.members))
  {
  }

  lemma MergedSettings(c: Catalog, w: World, m: Memory, tool: string, arguments: Dict, learned: Settings, next: Memory,
                       step: Step, merged: Json)
    requires Merges(c, w, m, tool, Obj(arguments), learned, next, step, merged) && tool in learned
    requires Welcome(c, w, m, tool, learned[tool]) && SettingsOf(arguments, learned[tool])
    ensures step.Done? && merged.Obj? && SettingsOf(merged.members, learned[tool])
    ensures ValidateAction(c, w, next.tick, tool, merged, next.observations) == Fine
  {
    if learned[tool] != map[] {
      var both :| IsOverlay(both, learned[tool], arguments)
        && var check := ValidateAction(c, w, m.tick, tool, Obj(both), m.observations);
           && step == (if check == Broken then Crashed else if check == Mistyped then Faulty else Done)
           && merged == (if check == Fine then Obj(both) else Obj(arguments));
      OverlayOfSettings(both, learned[tool], arguments);
    }
  }

  /** Where the model proposes nothing and the learned settings are accepted, a tool's learned settings are proposed. */
  lemma LearnedActionIsProposed(c: Catalog, w: World, payload: Dict, m: Memory, summary: Json, next: Memory,
                                result: Option<Result>)
    requires Decides(c, w, payload, m, summary, NoneProposed, next, result)
    requires AllContextRead(c, Names(m.selected), m.observations) && GoodSummary(summary)
    requires AllWelcome(c, w, payload, m)
    ensures result.Some? && result.value.Proposed? && result.value.tool in LearnedMatches(c, w, payload, m)
    ensures SettingsOf(result.value.arguments, LearnedMatches(c, w, payload, m)[result.value.tool])
  {
    var middle, step, tool, arguments :| Chooses(c, w, payload, m, NoneProposed, middle, step, tool, arguments)
      && DecidesOn(c, w, payload, NoneProposed, middle, step, tool, arguments, next, result);
    ChosenIsProposed(c, w, payload, m, middle, step, tool, arguments, next, result);
  }

  lemma ChosenIsProposed(c: Catalog, w: World, payload: Dict, m: Memory, middle: Memory, step: Step,
                         tool: Option<string>, arguments: Json, next: Memory, result: Option<Result>)
    requires Chooses(c, w, payload, m, NoneProposed, middle, step, tool, arguments)
    requires DecidesOn(c, w, payload, NoneProposed, middle, step, tool, arguments, next, result)
    requires AllWelcome(c, w, payload, m)
    ensures result.Some? && result.value.Proposed? && result.value.tool in LearnedMatches(c, w, payload, m)
    ensures SettingsOf(result.value.arguments, LearnedMatches(c, w, payload, m)[result.value.tool])
  {
    var action :| LearnedChoice(c, w, payload, m, middle, step, action)
      && if action.Some? then tool == Some(action.value.0) && arguments == Obj(action.value.1) else tool.None?;
    WelcomeIsChosen(c, w, payload, m, middle, step, action);
    assert LearnedMatches(c, w, payload, middle) == LearnedMatches(c, w, payload, m);
    WelcomeIsProposed(c, w, payload, middle, action.value.0, action.value.1, next, result);
  }

  lemma WelcomeIsChosen(c: Catalog, w: World, payload: Dict, m: Memory, next: Memory, step: Step,
                        action: Option<(string, Dict)>)
    requires LearnedChoice(c, w, payload, m, next, step, action) && AllWelcome(c, w, payload, m)
    ensures step.Done? && action.Some? && IsLearned(c, w, payload, m, action.value.0, action.value.1)
    ensures Welcome(c, w, m, action.value.0, LearnedMatches(c, w, payload, m)[action.value.0])
    ensures Welcome(c, w, next, action.value.0, LearnedMatches(c, w, payload, m)[action.value.0])
    ensures Permitted(c, next, Some(action.value.0)) == Some(action.value.0)
  {
    var learned := LearnedMatches(c, w, payload, m);
    forall tool | tool in learned && tool in Allowed(c, Names(m.selected))
      ensures !TurnedDown(c, w, m.observations, tool, learned[tool])
      ensures !step.Done? ==> !CannotTry(c, w, m.observations, tool, learned[tool], step)
    {
      NeitherTurnedDown(c, w, m, tool, learned[tool], step);
    }
  }

  lemma NeitherTurnedDown(c: Catalog, w: World, m: Memory, tool: string, settings: map<string, Json>, step: Step)
    requires Welcome(c, w, m, tool, settings)
    ensures !TurnedDown(c, w, m.observations, tool, settings)
    ensures !step.Done? ==> !CannotTry(c, w, m.observations, tool, settings, step)
  {
  }

  /** The learned settings and the model's own arguments are accepted together whenever they are tried. */
  ghost predicate AcceptedTogether(c: Catalog, w: World, m: Memory, tool: string, settings: map<string, Json>,
                                   arguments: Dict) {
    forall tick, both :: IsOverlay(both, settings, arguments) ==>
      ValidateAction(c, w, tick, tool, Obj(both), m.observations) == Fine
  }

  /** Where the model leaves out learned settings that are accepted together with its own, all are proposed. */
  lemma LearnedSettingsAreApplied(c: Catalog, w: World, payload: Dict, m: Memory, summary: Json, tool: string,
                                  arguments: Dict, name: string, next: Memory, result: Option<Result>)
    requires Decides(c, w, payload, m, summary, Act(Some(tool), Obj(arguments)), next, result)
    requires AllContextRead(c, Names(m.selected), m.observations) && GoodSummary(summary)
    requires Permitted(c, m, Some(tool)) == Some(name) && name in c.tools
    requires Missing(m, c.tools[name].requiredReads) == []
    requires name in LearnedMatches(c, w, payload, m) && LearnedMatches(c, w, payload, m)[name] != map[]
    requires AcceptedTogether(c, w, m, name, LearnedMatches(c, w, payload, m)[name], arguments)
    ensures result.Some? && result.value.Proposed? && result.value.tool == name
    ensures IsOverlay(result.value.arguments, LearnedMatches(c, w, payload, m)[name], arguments)
  {
    var learned := LearnedMatches(c, w, payload, m);
    assert Checks(c, w, payload, m, name, Obj(arguments), next, result);
    var middle, step, merged :| Merges(c, w, m, name, Obj(arguments), learned, middle, step, merged)
      && ChecksOn(c, w, m, middle, step, name, merged, next, result);
    AppliedTogether(c, w, m, name, arguments, learned, middle, step, merged);
    AcceptedIsProposed(c, w, m, middle, step, name, merged, next, result);
  }

  lemma AppliedTogether(c: Catalog, w: World, m: Memory, tool: string, arguments: Dict, learned: Settings,
                        next: Memory, step: Step, merged: Json)
    requires tool in learned && learned[tool] != map[]
    requires Merges(c, w, m, tool, Obj(arguments), learned, next, step, merged)
    requires AcceptedTogether(c, w, m, tool, learned[tool], arguments)
    ensures step.Done? && merged.Obj? && IsOverlay(merged.members, learned[tool], arguments)
    ensures ValidateAction(c, w, next.tick, tool, merged, next.observations) == Fine
  {
  }

  // ----- the loop

  /** What a request for skills and reads leaves. */
  function LoadedRound(c: Catalog, w: World, m: Memory, kind: string, names: Option<seq<string>>,
                       requests: Option<seq<ReadRequest>>): (Memory, Step)
  {
    if names.None? || requests.None? || |requests.value| > MAX_READS then (m, Faulty)
    else
      var (selected, step) := Selecting(c, w, kind, m.selected, names.value);
      if step.Done? then Loading(c, w, m.(selected := selected), requests.value) else (m.(selected := selected), step)
  }

  /** All that was asked for is selected and read. */
  ghost predicate AllLoaded(c: Catalog, m: Memory, next: Memory, names: Option<seq<string>>,
                            requests: Option<seq<ReadRequest>>) {
    && names.Some? && requests.Some?
    && (forall n :: n in Names(next.selected) <==> n in names.value || n in Names(m.selected))
    && AllAnswered(c, next, next, requests.value)
  }

  method LoadRound(c: Catalog, w: World, m: Memory, kind: string, names: Option<seq<string>>,
                   requests: Option<seq<ReadRequest>>)
    returns (next: Memory, step: Step)
    requires Inv(c, w, m)
    ensures Inv(c, w, next) && |next.log| <= |m.log| + MAX_READS
    ensures (next, step) == LoadedRound(c, w, m, kind, names, requests)
    ensures step.Done? ==> AllLoaded(c, m, next, names, requests)
    ensures NoneAgain(m, next)
    ensures forall t :: t in m.given ==> t in next.given && next.given[t] == m.given[t]
  {
    next := m;
    if names.None? || requests.None? || |requests.value| > MAX_READS {
      return next, Faulty;
    }
    next, step := LoadSkills(c, w, m, kind, names.value);
    if step.Done? {
      var loaded := next;
      next, step := LoadReads(c, w, next, requests.value);
      if step.Done? { SameSkills(c, next, loaded, requests.value); }
    }
  }

  lemma SameSkills(c: Catalog, m: Memory, skills: Memory, requests: seq<ReadRequest>)
    requires AllAnswered(c, m, skills, requests) && m.selected == skills.selected
    ensures AllAnswered(c, m, m, requests)
  {
    forall r | r in requests ensures Answered(c, m, m, r) {
      assert Answered(c, m, skills, r);
    }
  }

  /** What a reply comes to when the loop can settle it without learned settings or fresh reads. */
  function DirectResult(c: Catalog, w: World, payload: Dict, m: Memory, reply: Reply): Option<Result> {
    match reply
    case NoReply => Some(Failure(ModelSilent))
    case Decision(summary, action) => DirectVerdict(c, w, payload, m, summary, action)
    case _ => None
  }

  /** What one round makes of a reply. */
  ghost predicate RoundGives(c: Catalog, w: World, event: Trigger, m: Memory, reply: Reply, next: Memory,
                             result: Option<Result>) {
    match reply
    case NoReply => next == m && result == Some(Failure(ModelSilent))
    case Garbled => next == m && result.None?
    case Other => next == m && result.None?
    case Load(names, requests) =>
      var (loaded, step) := LoadedRound(c, w, m, event.kind, names, requests);
      next == loaded && result == if step.Crashed? then Some(Failure(CallFailed)) else None
    case Decision(summary, action) => Decides(c, w, event.payload, m, summary, action, next, result)
  }

  /** One reply: the result, or None for another round with what was learnt from it. */
  method OneRound(c: Catalog, w: World, event: Trigger, m: Memory, reply: Reply)
    returns (next: Memory, result: Option<Result>)
    requires Inv(c, w, m)
    ensures Inv(c, w, next) && (result.Some? ==> Ended(c, w, event.payload, next, reply, result.value))
    ensures RoundGives(c, w, event, m, reply, next, result)
    ensures var settled := DirectResult(c, w, event.payload, m, reply); settled.Some? ==> result == settled
  {
    next, result := m, None;
    match reply {
      case NoReply => result := Some(Failure(ModelSilent));
      case Garbled =>
      case Other =>
      case Load(names, requests) =>
        var step;
        next, step := LoadRound(c, w, m, event.kind, names, requests);
        if step.Crashed? {
          result := Some(Failure(CallFailed));
        }
      case Decision(summary, action) =>
        next, result := Decide(c, w, event.payload, m, summary, action);
        if result == Some(Nothing) {
          assert next == m.(tick := next.tick);
        }
    }
  }

  /** The memory and the reply the loop ends with. */
  ghost predicate Ended(c: Catalog, w: World, payload: Dict, m: Memory, reply: Reply, result: Result) {
    && Warranted(c, w, m, result)
    && (!result.Failure? ==> reply.Decision? && GoodSummary(reply.summary))
    && (result.Nothing? ==> reply.action.NoneProposed? && NoneLearned(c, w, payload, m))
    && (result.Failure? ==> result.cause == if reply.NoReply? then ModelSilent else CallFailed)
  }

  predicate EndsWhenDirect(c: Catalog, w: World, payload: Dict, path: seq<Memory>, i: nat, reply: Reply,
                            result: Result)
    requires i < |path|
  {
    var settled := DirectResult(c, w, payload, path[i], reply);
    settled.Some? ==> i == |path| - 1 && result == settled.value
  }

  /** Nothing was read yet, and selected are exactly the learned skills that cover the event, with what they say. */
  ghost predicate Starting(c: Catalog, w: World, kind: string, m: Memory) {
    && m == Memory(m.selected, [], map[], [], [], 0) && TextsFit(c, w, kind, m.selected)
    && forall n :: n in Names(m.selected) <==> CoversEvent(c, w, n, kind)
  }

  lemma StartsWell(c: Catalog, w: World, kind: string, m: Memory)
    requires Starting(c, w, kind, m)
    ensures Inv(c, w, m)
  {
  }

  /** Round i leads from its memory, by its reply, to the memory of the next round; the last one to the final memory,
      and to the result if there is one. */
  ghost predicate RoundAt(c: Catalog, w: World, event: Trigger, path: seq<Memory>, memory: Memory, replies: seq<Reply>,
                          result: Option<Result>, i: nat)
    requires i < |path| <= |replies|
  {
    if i + 1 < |path| then RoundGives(c, w, event, path[i], replies[i], path[i + 1], None)
    else RoundGives(c, w, event, path[i], replies[i], memory, result)
  }

  ghost predicate Trace(c: Catalog, w: World, event: Trigger, path: seq<Memory>, memory: Memory, replies: seq<Reply>,
                        result: Option<Result>)
    requires |path| <= |replies|
  {
    forall i :: 0 <= i < |path| ==> RoundAt(c, w, event, path, memory, replies, result, i)
  }

  /** The memory before the first round. */
  function First(path: seq<Memory>, memory: Memory): Memory {
    if path == [] then memory else path[0]
  }

  function EndOf(result: Result): Option<Result> {
    if result == Failure(OutOfRounds) then None else Some(result)
  }

  /** Every memory of the path keeps the invariant, and a reply that could be settled directly ended the loop. */
  ghost predicate AllDirect(c: Catalog, w: World, payload: Dict, path: seq<Memory>, replies: seq<Reply>, result: Result)
    requires |path| <= |replies|
  {
    forall i :: 0 <= i < |path| ==> Inv(c, w, path[i]) && EndsWhenDirect(c, w, payload, path, i, replies[i], result)
  }

  /** The loop's rounds so far, none of which has a result. */
  ghost predicate Underway(c: Catalog, w: World, event: Trigger, start: Memory, path: seq<Memory>, memory: Memory,
                           replies: seq<Reply>)
    requires |path| <= |replies|
  {
    && Inv(c, w, memory) && First(path, memory) == start && Trace(c, w, event, path, memory, replies, None)
    && AllOpen(c, w, event.payload, path, replies)
  }

  /** No reply so far could be settled directly. */
  ghost predicate AllOpen(c: Catalog, w: World, payload: Dict, path: seq<Memory>, replies: seq<Reply>)
    requires |path| <= |replies|
  {
    forall i :: 0 <= i < |path| ==> Inv(c, w, path[i]) && DirectResult(c, w, payload, path[i], replies[i]).None?
  }

  /** All that is promised of the loop's rounds from a start, of which there may be so many. */
  ghost predicate LoopGives(c: Catalog, w: World, event: Trigger, start: Memory, path: seq<Memory>, memory: Memory,
                           replies: seq<Reply>, maxRounds: nat, result: Result)
  {
    && |path| <= maxRounds <= |replies| && Inv(c, w, memory)
    && First(path, memory) == start && Trace(c, w, event, path, memory, replies, EndOf(result))
    && AllDirect(c, w, event.payload, path, replies, result)
    && if result == Failure(OutOfRounds) then |path| == maxRounds
       else path != [] && Ended(c, w, event.payload, memory, replies[|path| - 1], result)
  }

  lemma RoundNext(c: Catalog, w: World, event: Trigger, start: Memory, path: seq<Memory>, memory: Memory,
                  replies: seq<Reply>, round: nat, maxRounds: nat, next: Memory, ended: Option<Result>)
    requires |path| == round < maxRounds <= |replies|
    requires Underway(c, w, event, start, path, memory, replies) && Inv(c, w, next)
    requires RoundGives(c, w, event, memory, replies[round], next, ended)
    requires ended.Some? ==> Ended(c, w, event.payload, next, replies[round], ended.value)
    requires DirectResult(c, w, event.payload, memory, replies[round]).Some? ==>
               ended == DirectResult(c, w, event.payload, memory, replies[round])
    ensures ended.None? ==> Underway(c, w, event, start, path + [memory], next, replies)
    ensures ended.Some? ==> LoopGives(c, w, event, start, path + [memory], next, replies, maxRounds, ended.value)
  {
    TraceNext(c, w, event, path, memory, replies, next, ended);
    OpenNext(c, w, event.payload, path, memory, replies, ended);
  }

  lemma TraceNext(c: Catalog, w: World, event: Trigger, path: seq<Memory>, memory: Memory, replies: seq<Reply>,
                  next: Memory, result: Option<Result>)
    requires |path| < |replies| && Trace(c, w, event, path, memory, replies, None)
    requires RoundGives(c, w, event, memory, replies[|path|], next, result)
    ensures Trace(c, w, event, path + [memory], next, replies, result)
  {
    forall i | 0 <= i < |path| + 1 ensures RoundAt(c, w, event, path + [memory], next, replies, result, i) {
      if i < |path| {
        RoundStays(c, w, event, path, memory, replies, next, result, i);
      }
    }
  }

  lemma RoundStays(c: Catalog, w: World, event: Trigger, path: seq<Memory>, memory: Memory, replies: seq<Reply>,
                   next: Memory, result: Option<Result>, i: nat)
    requires i < |path| < |replies| && RoundAt(c, w, event, path, memory, replies, None, i)
    ensures RoundAt(c, w, event, path + [memory], next, replies, result, i)
  {
    var longer := path + [memory];
    assert longer[i] == path[i] && longer[i + 1] == if i + 1 < |path| then path[i + 1] else memory;
  }

  lemma OpenNext(c: Catalog, w: World, payload: Dict, path: seq<Memory>, memory: Memory, replies: seq<Reply>,
                 ended: Option<Result>)
    requires |path| < |replies| && AllOpen(c, w, payload, path, replies) && Inv(c, w, memory)
    requires DirectResult(c, w, payload, memory, replies[|path|]).Some? ==>
               ended == DirectResult(c, w, payload, memory, replies[|path|])
    ensures ended.None? ==> AllOpen(c, w, payload, path + [memory], replies)
    ensures ended.Some? ==> AllDirect(c, w, payload, path + [memory], replies, ended.value)
  {
  }

  /** The rounds from what is selected at the start. */
  method Rounds(c: Catalog, w: World, event: Trigger, start: Memory, replies: seq<Reply>, maxRounds: nat)
    returns (result: Result, memory: Memory, ghost path: seq<Memory>)
    requires |replies| >= maxRounds && Inv(c, w, start)
    ensures Inv(c, w, memory) && Warranted(c, w, memory, result)
    ensures LoopGives(c, w, event, start, path, memory, replies, maxRounds, result)
  {
    memory := start;
    path := [];
    var round := 0;
    while round < maxRounds
      invariant |path| == round <= maxRounds
      invariant Underway(c, w, event, start, path, memory, replies)
    {
      var next, ended := OneRound(c, w, event, memory, replies[round]);
      RoundNext(c, w, event, start, path, memory, replies, round, maxRounds, next, ended);
      path := path + [memory];
      memory := next;
      round := round + 1;
      if ended.Some? {
        return ended.value, memory, path;
      }
    }
    result := Failure(OutOfRounds);
    OutOfTime(c, w, event, start, path, memory, replies, maxRounds);
  }

  lemma OutOfTime(c: Catalog, w: World, event: Trigger, start: Memory, path: seq<Memory>, memory: Memory,
                  replies: seq<Reply>, maxRounds: nat)
    requires |path| == maxRounds <= |replies| && Underway(c, w, event, start, path, memory, replies)
    ensures LoopGives(c, w, event, start, path, memory, replies, maxRounds, Failure(OutOfRounds))
  {
  }

  /** Whatever the model replies in each round: only registered reads are called; observations, recorded arguments and
      trace coincide; and a proposal is permitted and was accepted by schema and owner on what was observed. `path` is
      the memory before each round: it starts with the learned skills for the event, each round loads and reads what its
      reply asks for or decides, and the loop ends with the first reply that can be settled directly. */
  method EvaluateEvent(c: Catalog, w: World, event: Trigger, replies: seq<Reply>, maxRounds: nat)
    returns (result: Result, memory: Memory, ghost path: seq<Memory>)
    requires |replies| >= maxRounds
    ensures Inv(c, w, memory) && Warranted(c, w, memory, result)
    ensures if event.store.Some? && event.store.value != w.restaurant
            then result == Failure(OtherStore) && path == [] && memory == Memory([], [], map[], [], [], 0)
            else
              exists start :: Starting(c, w, event.kind, start)
                && LoopGives(c, w, event, start, path, memory, replies, maxRounds, result)
  {
    memory := Memory([], [], map[], [], [], 0);
    path := [];
    if event.store.Some? && event.store.value != w.restaurant {
      return Failure(OtherStore), memory, path;
    }
    var selected := SelectLearned(c, w, event.kind);
    memory := memory.(selected := selected);
    StartsWell(c, w, event.kind, memory);
    result, memory, path := Rounds(c, w, event, memory, replies, maxRounds);
  }

  // ----- approval

  function ArgumentMap(d: Dict): Arguments {
    if d == [] then map[] else ArgumentMap(d[1..])[d[0].0 := d[0].1]
  }

  /** The proposal that is stored. */
  function DraftOf(policy: PolicyId, now: int, m: Memory, result: Result): Draft
    requires result.Proposed?
  {
    Draft(policy, result.tool, ArgumentMap(result.arguments), Evidence(now, Names(m.selected), m.calls))
  }

  /** A proposal of the loop can be executed while the catalogue is the same and its evidence is recent. */
  lemma ProposalMayExecute(c: Catalog, w: World, m: Memory, result: Result, policy: PolicyId, made: int, now: int)
    requires Inv(c, w, m) && Warranted(c, w, m, result) && result.Proposed? && now - made <= 300
    ensures Controller.MayExecute(c, DraftOf(policy, made, m, result), now)
  {
  }

  /** Approval finds arguments for every required read, those of the last snapshot, as long as the tool still requires
      the same reads; so it never gives up for want of them. */
  lemma ApprovalFindsArguments(c: Catalog, w: World, m: Memory, result: Result, policy: PolicyId, made: int,
                               later: Catalog, read: string)
    requires Inv(c, w, m) && Warranted(c, w, m, result) && result.Proposed?
    requires Controller.RequiredReads(later, result.tool) == Controller.RequiredReads(c, result.tool)
    requires read in Controller.RequiredReads(later, result.tool)
    ensures read in m.given
    ensures Controller.RecordedArguments(DraftOf(policy, made, m, result).evidence.calls, read) == Some(m.given[read])
    ensures Exchange(read, m.given[read], Get(m.observations, read)) in m.log
  {
  }

  /** The approval of such a proposal reads on with each answer. */
  lemma ApprovalReadsOn(c: Catalog, w: World, m: Memory, result: Result, made: int, t: Tables, p: Controller.Process,
                        wild: set<PolicyId>, n: nat, answer: Json)
    requires Inv(c, w, m) && Warranted(c, w, m, result) && result.Proposed?
    requires p.holder.Approving? && p.holder.approval.Reading?
    requires p.holder.approval.proposal.draft == DraftOf(p.holder.approval.proposal.draft.policy, made, m, result)
    requires Controller.RequiredReads(p.catalog, result.tool) == Controller.RequiredReads(c, result.tool)
    requires p.holder.approval.next < |Controller.RequiredReads(p.catalog, result.tool)|
    ensures var next := Controller.ApproveNext(t, p, wild, n, Controller.Answer(answer));
            && next.Some? && next.value.0.Some? && next.value.0.value.Reading?
            && next.value.0.value.next == p.holder.approval.next + 1
  {
    var read := Controller.RequiredReads(p.catalog, result.tool)[p.holder.approval.next];
    ApprovalFindsArguments(c, w, m, result, p.holder.approval.proposal.draft.policy, made, p.catalog, read);
  }
}

/** What the agent of autonomy/event_agent.py knows, and how it loads skills and reads context. The services, the schema
    checker and the owners' validators are arbitrary: each answer may depend on how many questions came before it. */
module AgentReads {
  import opened Wrappers
  import opened JsonValues
  import opened StoreTables
  import opened Capabilities
  import opened Rules
  import opened SkillText
  import Controller

  // ----- the world

  /** What a service answers: a result, an error the loop reports to the model, or one that ends the loop. */
  datatype Answer = Given(value: Json) | Unusable | Unreachable

  /** Stale is a kind of Bad that asks for fresh snapshots; Mistyped is a KeyError or TypeError, which only the loop
      itself catches; Broken is any error it does not catch. */
  datatype Check = Fine | Bad | Stale | Mistyped | Broken

  /** Whether a tool's input schema has a `reason`; or no schema can be had, reported to the model or not. */
  datatype ReasonField = Wanted | Unwanted | NoSchema | SchemaFails

  datatype World = World(
    read: (nat, string, Json) -> Answer,
    schema: (nat, string, Json) -> Check,
    judge: (nat, string, Json, Dict) -> Check,
    reason: (nat, string) -> ReasonField,
    file: string -> seq<Line>,
    parse: seq<Line> -> Reading,
    same: (Json, Json) -> bool,
    restaurant: Json)

  /** An event as the agent looks at it. */
  datatype Trigger = Trigger(store: Option<Json>, kind: string, payload: Dict)

  /** A requested read; the tool is None when it is not a text. */
  datatype ReadRequest = BadRequest | ReadRequest(tool: Option<string>, arguments: Json)

  datatype ActionRequest = NoneProposed | BadAction | Act(tool: Option<string>, arguments: Json)

  /** A model's reply; None where a list is missing, too long or of the wrong kind. */
  datatype Reply =
    | NoReply
    | Garbled
    | Other
    | Load(names: Option<seq<string>>, requests: Option<seq<ReadRequest>>)
    | Decision(summary: Json, action: ActionRequest)

  // ----- the loop's state

  /** One call to a service and the snapshot it gave, None when it gave none. */
  datatype Exchange = Exchange(tool: string, given: Json, got: Option<Json>)

  datatype Memory = Memory(
    selected: seq<(string, seq<Line>)>, observations: Dict, given: map<string, Json>, calls: seq<ToolCall>,
    log: seq<Exchange>, tick: nat)

  function Names(selected: seq<(string, seq<Line>)>): (r: seq<string>)
    ensures |r| == |selected| && forall i :: 0 <= i < |r| ==> r[i] == selected[i].0
  {
    if selected == [] then [] else [selected[0].0] + Names(selected[1..])
  }

  function PutText(selected: seq<(string, seq<Line>)>, name: string, text: seq<Line>): (r: seq<(string, seq<Line>)>)
    ensures forall n :: n in Names(r) <==> n == name || n in Names(selected)
  {
    if selected == [] then [(name, text)]
    else if selected[0].0 == name then [(name, text)] + selected[1..]
    else [selected[0]] + PutText(selected[1..], name, text)
  }

  predicate Observed(m: Memory, tool: string) {
    Get(m.observations, tool).Some?
  }

  predicate CalledTools(calls: seq<ToolCall>, tool: string) {
    exists call :: call in calls && call.tool == tool
  }

  /** Observations, recorded arguments and the trace speak of the same tools, with the same arguments. */
  ghost predicate Coincide(m: Memory) {
    && (forall t :: Observed(m, t) <==> t in m.given)
    && (forall t :: t in m.given <==> CalledTools(m.calls, t))
    && (forall t :: t in m.given ==> Controller.RecordedArguments(m.calls, t) == Some(m.given[t]))
  }

  /** Only registered read tools were called, each with arguments its schema accepted. */
  ghost predicate ReadsOnly(c: Catalog, w: World, log: seq<Exchange>) {
    forall x :: x in log ==> Asked(c, w, x)
  }

  ghost predicate Asked(c: Catalog, w: World, x: Exchange) {
    exists tick :: MayRead(c, w, tick, x.tool, x.given)
  }

  /** What was observed of a tool that answers for one store is about this restaurant. */
  ghost predicate OwnStore(c: Catalog, w: World, m: Memory) {
    forall t :: t in c.tools && c.tools[t].storeScoped && Observed(m, t) ==>
      RestaurantOf(Get(m.observations, t).value) == Some(w.restaurant)
  }

  /** Each observation is what the service answered to the recorded arguments. */
  ghost predicate Genuine(m: Memory) {
    forall t :: t in m.given && Observed(m, t) ==> Exchange(t, m.given[t], Get(m.observations, t)) in m.log
  }

  ghost predicate Inv(c: Catalog, w: World, m: Memory) {
    && (forall n :: n in Names(m.selected) ==> n in c.skills)
    && Coincide(m) && ReadsOnly(c, w, m.log) && Genuine(m) && OwnStore(c, w, m)
  }

  // ----- catalogue checks

  /** validate_arguments */
  function ValidateArguments(c: Catalog, w: World, tick: nat, name: string, arguments: Json): Check {
    if name !in c.tools || !arguments.Obj? then Bad
    else if w.schema(tick, name, arguments) == Stale then Bad
    else w.schema(tick, name, arguments)
  }

  /** validate_action */
  function ValidateAction(c: Catalog, w: World, tick: nat, name: string, arguments: Json, observations: Dict): Check {
    var valid := ValidateArguments(c, w, tick, name, arguments);
    if valid != Fine then valid
    else if c.tools[name].readOnly then Bad
    else if exists r :: r in c.tools[name].requiredReads && Get(observations, r).None? then Bad
    else w.judge(tick, name, arguments, observations)
  }

  /** The read may be sent to the service. */
  predicate MayRead(c: Catalog, w: World, tick: nat, name: string, arguments: Json) {
    ValidateArguments(c, w, tick, name, arguments) == Fine && c.tools[name].readOnly
  }

  datatype Step = Done | Faulty | Crashed

  predicate Truthy(value: Option<Json>) {
    && value.Some?
    && match value.value
       case Null => false
       case Bool(b) => b
       case Int(n) => n != 0
       case Float(r) => r != 0.0
       case Str(s) => s != ""
       case Arr(items) => items != []
       case Obj(members) => members != []
  }

  /** The restaurant's id in a result; Null where it has none. None where `restaurant` is no object: an
      AttributeError. */
  function RestaurantOf(result: Json): Option<Json> {
    if !result.Obj? || Get(result.members, "restaurant").None? then Some(Null)
    else
      var restaurant := Get(result.members, "restaurant").value;
      if !restaurant.Obj? then None
      else if Get(restaurant.members, "id").Some? then Get(restaurant.members, "id")
      else Some(Null)
  }

  /** What the loop makes of a result. */
  function Accepts(storeScoped: bool, restaurant: Json, result: Json): Step {
    if !result.Obj? || Truthy(Get(result.members, "error")) || Truthy(Get(result.members, "isError")) then Faulty
    else if !storeScoped then Done
    else if RestaurantOf(result).None? then Crashed
    else if RestaurantOf(result).value != restaurant then Faulty
    else Done
  }

  /** How asking for a read ends. */
  function ReadStep(c: Catalog, w: World, tick: nat, name: string, arguments: Json): Step {
    if !MayRead(c, w, tick, name, arguments) then
      if ValidateArguments(c, w, tick, name, arguments) == Broken then Crashed else Faulty
    else
      match w.read(tick, c.tools[name].tool, arguments)
      case Unusable => Faulty
      case Unreachable => Crashed
      case Given(result) => Accepts(c.tools[name].storeScoped, w.restaurant, result)
  }

  /** The call that is made, if any, and the snapshot it gave. */
  function NewExchange(c: Catalog, w: World, tick: nat, name: string, arguments: Json): seq<Exchange> {
    if !MayRead(c, w, tick, name, arguments) then []
    else [Exchange(name, arguments, if ReadStep(c, w, tick, name, arguments).Done?
                                    then Some(w.read(tick, c.tools[name].tool, arguments).value) else None)]
  }

  /** What asking for a read leaves. */
  function AfterRead(c: Catalog, w: World, m: Memory, name: string, arguments: Json): (next: Memory)
    ensures next.selected == m.selected && m.given.Keys <= next.given.Keys
  {
    var asked := m.(tick := m.tick + 1, log := m.log + NewExchange(c, w, m.tick, name, arguments));
    if ReadStep(c, w, m.tick, name, arguments).Done?
    then Recorded(asked, name, arguments, w.read(m.tick, c.tools[name].tool, arguments).value)
    else asked
  }

  function Recorded(m: Memory, name: string, arguments: Json, value: Json): Memory {
    m.(observations := Put(m.observations, name, value), given := m.given[name := arguments],
       calls := m.calls + [ToolCall(name, arguments)])
  }

  /** Reads a tool and records the snapshot; what it already had of the tool is replaced. */
  method Observe(c: Catalog, w: World, m: Memory, name: string, arguments: Json) returns (next: Memory, step: Step)
    requires Inv(c, w, m)
    ensures Inv(c, w, next) && next.selected == m.selected && next.tick == m.tick + 1
    ensures step == ReadStep(c, w, m.tick, name, arguments) && next == AfterRead(c, w, m, name, arguments)
    ensures next.log == m.log + NewExchange(c, w, m.tick, name, arguments)
    ensures step.Done? ==>
              && MayRead(c, w, m.tick, name, arguments) && next.given == m.given[name := arguments]
              && Get(next.observations, name) == Some(w.read(m.tick, c.tools[name].tool, arguments).value)
              && next.calls == m.calls + [ToolCall(name, arguments)]
              && forall t :: t != name ==> Get(next.observations, t) == Get(m.observations, t)
    ensures !step.Done? ==> next.observations == m.observations && next.given == m.given && next.calls == m.calls
  {
    next := m.(tick := m.tick + 1);
    var check := ValidateArguments(c, w, m.tick, name, arguments);
    if check == Broken {
      return next, Crashed;
    }
    if check != Fine || !c.tools[name].readOnly {
      return next, Faulty;
    }
    var answer := w.read(m.tick, c.tools[name].tool, arguments);
    step := match answer
      case Unusable => Faulty
      case Unreachable => Crashed
      case Given(result) => Accepts(c.tools[name].storeScoped, w.restaurant, result);
    var got := if step.Done? then Some(answer.value) else None;
    AskedKeeps(c, w, next, m.tick, name, arguments, got);
    next := next.(log := m.log + [Exchange(name, arguments, got)]);
    if step.Done? {
      ObservedKeeps(c, w, next, name, arguments, answer.value);
      next := Recorded(next, name, arguments, answer.value);
    }
  }

  lemma AskedKeeps(c: Catalog, w: World, m: Memory, tick: nat, name: string, arguments: Json, got: Option<Json>)
    requires Inv(c, w, m) && MayRead(c, w, tick, name, arguments)
    ensures Inv(c, w, m.(log := m.log + [Exchange(name, arguments, got)]))
  {
    var x := Exchange(name, arguments, got);
    var next := m.(log := m.log + [x]);
    assert Asked(c, w, x);
    assert forall y :: y in next.log <==> y in m.log || y == x;
  }

  lemma ObservedKeeps(c: Catalog, w: World, m: Memory, name: string, arguments: Json, value: Json)
    requires Inv(c, w, m) && Exchange(name, arguments, Some(value)) in m.log
    requires name in c.tools && Accepts(c.tools[name].storeScoped, w.restaurant, value).Done?
    ensures Inv(c, w, Recorded(m, name, arguments, value))
  {
    var next := Recorded(m, name, arguments, value);
    CallsRecorded(m, name, arguments, value);
    assert Genuine(next);
  }

  lemma CallsRecorded(m: Memory, name: string, arguments: Json, value: Json)
    requires Coincide(m)
    ensures Coincide(Recorded(m, name, arguments, value))
  {
    var next := Recorded(m, name, arguments, value);
    var call := ToolCall(name, arguments);
    assert next.calls[|next.calls| - 1] == call && next.calls[..|next.calls| - 1] == m.calls;
    forall t ensures CalledTools(next.calls, t) <==> t == name || CalledTools(m.calls, t) {
      assert call in next.calls;
      forall x | x in m.calls ensures x in next.calls {
      }
    }
  }

  // ----- skills

  function Guidance(name: string, skill: Skill, kind: string, w: World): seq<Line> {
    var text := w.file(skill.path);
    if skill.events == [] then text
    else
      var section := Section(text, kind);
      if section == [] then [] else [Text("# " + name + ": operator-taught rules for " + kind)] + section
  }

  /** "skill.service.tool" means "service.tool" for the first selected skill this fits. */
  function Resolved(name: string, skills: seq<string>, allowed: set<string>): string {
    if skills == [] then name
    else
      var prefix := skills[0] + ".";
      if prefix <= name && name[|prefix|..] in allowed then name[|prefix|..] else Resolved(name, skills[1..], allowed)
  }

  function Permitted(c: Catalog, m: Memory, tool: Option<string>): Option<string> {
    var allowed := Allowed(c, Names(m.selected));
    if tool.None? then None
    else
      var name := Resolved(tool.value, Names(m.selected), allowed);
      if name in allowed then Some(name) else None
  }

  predicate CoversEvent(c: Catalog, w: World, name: string, kind: string) {
    name in c.skills && kind in c.skills[name].events && Guidance(name, c.skills[name], kind, w) != []
  }

  /** Each selected text is what the skill says of the event. */
  predicate TextsFit(c: Catalog, w: World, kind: string, selected: seq<(string, seq<Line>)>) {
    forall s :: s in selected ==> s.0 in c.skills && s.1 == Guidance(s.0, c.skills[s.0], kind, w)
  }

  lemma {:induction false} PutTextFits(c: Catalog, w: World, kind: string, selected: seq<(string, seq<Line>)>,
                                       name: string)
    requires TextsFit(c, w, kind, selected) && name in c.skills
    ensures TextsFit(c, w, kind, PutText(selected, name, Guidance(name, c.skills[name], kind, w)))
  {
    if selected != [] {
      assert selected[0] in selected && forall s :: s in selected[1..] ==> s in selected;
      PutTextFits(c, w, kind, selected[1..], name);
    }
  }

  /** The learned skills that cover the event are selected from the start, in any order. */
  method SelectLearned(c: Catalog, w: World, kind: string) returns (selected: seq<(string, seq<Line>)>)
    ensures forall n :: n in Names(selected) <==> CoversEvent(c, w, n, kind)
    ensures TextsFit(c, w, kind, selected)
  {
    selected := [];
    var left := c.skills.Keys;
    while left != {}
      invariant left <= c.skills.Keys
      invariant forall n :: n in Names(selected) <==> n !in left && CoversEvent(c, w, n, kind)
      invariant TextsFit(c, w, kind, selected)
    {
      var name :| name in left;
      left := left - {name};
      var skill := c.skills[name];
      if CoversEvent(c, w, name, kind) {
        PutTextFits(c, w, kind, selected, name);
        selected := PutText(selected, name, Guidance(name, skill, kind, w));
      }
    }
  }

  // ----- loading skills and reads

  /** The selection after these names, and whether all are known. */
  function Selecting(c: Catalog, w: World, kind: string, selected: seq<(string, seq<Line>)>, names: seq<string>)
    : (seq<(string, seq<Line>)>, Step)
    decreases |names|
  {
    if names == [] then (selected, Done)
    else if names[0] !in c.skills then (selected, Faulty)
    else Selecting(c, w, kind, PutText(selected, names[0], Guidance(names[0], c.skills[names[0]], kind, w)), names[1..])
  }

  /** Selects skills up to the first unknown one. */
  method LoadSkills(c: Catalog, w: World, m: Memory, kind: string, names: seq<string>)
    returns (next: Memory, step: Step)
    requires Inv(c, w, m)
    ensures next == m.(selected := next.selected) && Inv(c, w, next)
    ensures (next.selected, step) == Selecting(c, w, kind, m.selected, names)
    ensures step.Done? <==> forall n :: n in names ==> n in c.skills
    ensures step.Done? ==> forall n :: n in Names(next.selected) <==> n in names || n in Names(m.selected)
    ensures step.Done? || step.Faulty?
  {
    var selected;
    selected, step := Select(c, w, kind, m.selected, names);
    next := m.(selected := selected);
    SelectedKeeps(c, w, m, selected, names);
  }

  method Select(c: Catalog, w: World, kind: string, selected: seq<(string, seq<Line>)>, names: seq<string>)
    returns (more: seq<(string, seq<Line>)>, step: Step)
    ensures (more, step) == Selecting(c, w, kind, selected, names)
    ensures step.Done? <==> forall n :: n in names ==> n in c.skills
    ensures AddsKnown(c, selected, more, names) && (step.Done? ==> AllSelected(c, more, names))
    ensures step.Done? || step.Faulty?
  {
    more := selected;
    var i := 0;
    while i < |names|
      invariant 0 <= i <= |names|
      invariant Selecting(c, w, kind, more, names[i..]) == Selecting(c, w, kind, selected, names)
      invariant AllSelected(c, more, names[..i]) && AddsKnown(c, selected, more, names)
    {
      assert names[i..][0] == names[i] && names[i..][1..] == names[i + 1..] && names[i] in names;
      if names[i] !in c.skills {
        return more, Faulty;
      }
      SelectedNext(c, selected, more, names, i, Guidance(names[i], c.skills[names[i]], kind, w));
      more := PutText(more, names[i], Guidance(names[i], c.skills[names[i]], kind, w));
      i := i + 1;
    }
    assert names[..i] == names;
    step := Done;
  }

  /** What is selected stays so, and what is added are known names of the list. */
  predicate AddsKnown(c: Catalog, selected: seq<(string, seq<Line>)>, more: seq<(string, seq<Line>)>,
                      names: seq<string>) {
    && (forall n :: n in Names(selected) ==> n in Names(more))
    && forall n :: n in Names(more) ==> n in Names(selected) || (n in names && n in c.skills)
  }

  predicate AllSelected(c: Catalog, selected: seq<(string, seq<Line>)>, names: seq<string>) {
    forall n :: n in names ==> n in c.skills && n in Names(selected)
  }

  lemma SelectedNext(c: Catalog, selected: seq<(string, seq<Line>)>, now: seq<(string, seq<Line>)>, names: seq<string>,
                     i: nat, text: seq<Line>)
    requires i < |names| && names[i] in c.skills
    requires AllSelected(c, now, names[..i]) && AddsKnown(c, selected, now, names)
    ensures AllSelected(c, PutText(now, names[i], text), names[..i + 1])
    ensures AddsKnown(c, selected, PutText(now, names[i], text), names)
  {
    assert names[..i + 1] == names[..i] + [names[i]];
  }

  lemma SelectedKeeps(c: Catalog, w: World, m: Memory, selected: seq<(string, seq<Line>)>, names: seq<string>)
    requires Inv(c, w, m) && AddsKnown(c, m.selected, selected, names)
    ensures Inv(c, w, m.(selected := selected))
  {
  }

  const MAX_READS := 4

  /** The request names a permitted tool, and the memory has a snapshot of it. */
  predicate Answered(c: Catalog, m: Memory, skills: Memory, request: ReadRequest) {
    && request.ReadRequest? && Permitted(c, skills, request.tool).Some?
    && Permitted(c, skills, request.tool).value in m.given
  }

  /** Nothing that was read is forgotten or read with other arguments. */
  predicate Extends(m: Memory, next: Memory) {
    && next.selected == m.selected && m.log <= next.log
    && forall t :: t in m.given ==> t in next.given && next.given[t] == m.given[t]
  }

  /** How one request ends. */
  function AnswerStep(c: Catalog, w: World, m: Memory, request: ReadRequest): Step {
    if request.BadRequest? || Permitted(c, m, request.tool).None? then Faulty
    else
      var name := Permitted(c, m, request.tool).value;
      if name in m.given then if w.same(m.given[name], request.arguments) then Done else Faulty
      else ReadStep(c, w, m.tick, name, request.arguments)
  }

  function AfterRequest(c: Catalog, w: World, m: Memory, request: ReadRequest): Memory {
    if request.BadRequest? || Permitted(c, m, request.tool).None? then m
    else
      var name := Permitted(c, m, request.tool).value;
      if name in m.given then m else AfterRead(c, w, m, name, request.arguments)
  }

  /** What the requests leave, up to the first that is refused. */
  function Loading(c: Catalog, w: World, m: Memory, requests: seq<ReadRequest>): (Memory, Step)
    decreases |requests|
  {
    if requests == [] then (m, Done)
    else
      var next, step := AfterRequest(c, w, m, requests[0]), AnswerStep(c, w, m, requests[0]);
      if step.Done? then Loading(c, w, next, requests[1..]) else (next, step)
  }

  /** No call was made for a tool that had been read, and none twice. */
  ghost predicate NoneAgain(m: Memory, next: Memory) {
    && m.log <= next.log
    && (forall i :: |m.log| <= i < |next.log| ==> next.log[i].tool !in m.given)
    && forall i, j :: |m.log| <= i < j < |next.log| ==> next.log[i].tool != next.log[j].tool
  }

  /** Every call that was made gave a snapshot. */
  ghost predicate AllGave(m: Memory, next: Memory) {
    forall i :: |m.log| <= i < |next.log| ==> next.log[i].tool in next.given
  }

  /** A tool that was read before is not read again, and must be asked for with the same arguments. */
  method AnswerRequest(c: Catalog, w: World, m: Memory, request: ReadRequest) returns (next: Memory, step: Step)
    requires Inv(c, w, m)
    ensures Inv(c, w, next) && Extends(m, next) && |next.log| <= |m.log| + 1
    ensures step == AnswerStep(c, w, m, request) && next == AfterRequest(c, w, m, request)
    ensures step.Done? ==> Answered(c, next, m, request)
    ensures NoneAgain(m, next) && (step.Done? ==> AllGave(m, next))
    ensures request.ReadRequest? && Permitted(c, m, request.tool).None? ==> next == m
  {
    next := m;
    if request.BadRequest? {
      return next, Faulty;
    }
    var name := Permitted(c, m, request.tool);
    if name.None? {
      return next, Faulty;
    }
    if Observed(m, name.value) {
      step := if w.same(m.given[name.value], request.arguments) then Done else Faulty;
    } else {
      next, step := ReadOnce(c, w, m, name.value, request.arguments);
    }
  }

  method ReadOnce(c: Catalog, w: World, m: Memory, name: string, arguments: Json) returns (next: Memory, step: Step)
    requires Inv(c, w, m) && name !in m.given
    ensures Inv(c, w, next) && Extends(m, next) && |next.log| <= |m.log| + 1
    ensures step == ReadStep(c, w, m.tick, name, arguments) && next == AfterRead(c, w, m, name, arguments)
    ensures step.Done? ==> name in next.given && AllGave(m, next)
    ensures NoneAgain(m, next)
  {
    next, step := Observe(c, w, m, name, arguments);
    OneCall(m, next, name);
  }

  lemma OneCall(m: Memory, next: Memory, name: string)
    requires m.log <= next.log && |next.log| <= |m.log| + 1 && name !in m.given
    requires |next.log| > |m.log| ==> next.log[|m.log|].tool == name
    ensures NoneAgain(m, next) && (name in next.given ==> AllGave(m, next))
  {
  }

  predicate AllAnswered(c: Catalog, m: Memory, skills: Memory, requests: seq<ReadRequest>) {
    forall r :: r in requests ==> Answered(c, m, skills, r)
  }

  /** Some request ends like this after others were answered. */
  ghost predicate RequestEnds(c: Catalog, w: World, m: Memory, requests: seq<ReadRequest>, step: Step) {
    exists r, before :: r in requests && Extends(m, before) && AnswerStep(c, w, before, r) == step
  }

  lemma LoadedNext(c: Catalog, m: Memory, now: Memory, next: Memory, requests: seq<ReadRequest>, n: nat, step: Step)
    requires n < |requests| && AllAnswered(c, now, m, requests[..n])
    requires Extends(m, now) && NoneAgain(m, now) && AllGave(m, now)
    requires Extends(now, next) && NoneAgain(now, next)
    requires step.Done? ==> AllGave(now, next) && Answered(c, next, now, requests[n])
    ensures Extends(m, next) && NoneAgain(m, next)
    ensures step.Done? ==> AllGave(m, next) && AllAnswered(c, next, m, requests[..n + 1])
  {
    NoneAgainNext(m, now, next);
    if step.Done? {
      assert requests[..n + 1] == requests[..n] + [requests[n]];
      AnsweredNext(c, now, next, m, requests[..n], requests[n]);
    }
  }

  lemma StopsHere(c: Catalog, w: World, m: Memory, requests: seq<ReadRequest>, request: ReadRequest, before: Memory,
                  step: Step)
    requires request in requests && Extends(m, before) && AnswerStep(c, w, before, request) == step
    ensures RequestEnds(c, w, m, requests, step)
  {
  }

  lemma AnsweredNext(c: Catalog, m: Memory, next: Memory, skills: Memory, requests: seq<ReadRequest>, last: ReadRequest)
    requires AllAnswered(c, m, skills, requests) && Extends(m, next) && m.selected == skills.selected
    requires Answered(c, next, m, last)
    ensures AllAnswered(c, next, skills, requests + [last])
  {
    forall r | r in requests ensures Answered(c, next, skills, r) {
      assert Answered(c, m, skills, r);
    }
  }

  lemma NoneAgainNext(m: Memory, now: Memory, next: Memory)
    requires Extends(m, now) && NoneAgain(m, now) && AllGave(m, now) && NoneAgain(now, next)
    ensures NoneAgain(m, next)
    ensures Extends(now, next) && AllGave(now, next) ==> AllGave(m, next)
  {
    forall i | 0 <= i < |now.log| ensures next.log[i] == now.log[i] {
    }
  }

  lemma LoadingNext(c: Catalog, w: World, m: Memory, requests: seq<ReadRequest>, i: nat)
    requires i < |requests|
    ensures var next, step := AfterRequest(c, w, m, requests[i]), AnswerStep(c, w, m, requests[i]);
            Loading(c, w, m, requests[i..])
            == if step.Done? then Loading(c, w, next, requests[i + 1..]) else (next, step)
  {
    assert requests[i..][0] == requests[i] && requests[i..][1..] == requests[i + 1..];
  }

  /** Makes the requested reads up to the first that is refused. */
  method LoadReads(c: Catalog, w: World, m: Memory, requests: seq<ReadRequest>) returns (next: Memory, step: Step)
    requires Inv(c, w, m)
    ensures Inv(c, w, next) && Extends(m, next) && |next.log| <= |m.log| + |requests|
    ensures (next, step) == Loading(c, w, m, requests)
    ensures step.Done? ==> AllAnswered(c, next, m, requests)
    ensures !step.Done? ==> RequestEnds(c, w, m, requests, step)
    ensures NoneAgain(m, next)
  {
    next := m;
    var i := 0;
    while i < |requests|
      invariant 0 <= i <= |requests|
      invariant Inv(c, w, next) && Extends(m, next) && |next.log| <= |m.log| + i
      invariant AllAnswered(c, next, m, requests[..i])
      invariant Loading(c, w, next, requests[i..]) == Loading(c, w, m, requests)
      invariant NoneAgain(m, next) && AllGave(m, next)
    {
      var request := requests[i];
      LoadingNext(c, w, next, requests, i);
      ghost var before := next;
      next, step := AnswerRequest(c, w, next, request);
      LoadedNext(c, m, before, next, requests, i, step);
      if !step.Done? {
        StopsHere(c, w, m, requests, request, before, step);
        return;
      }
      i := i + 1;
    }
    assert requests[..i] == requests;
    step := Done;
  }

  function Fetching(c: Catalog, w: World, m: Memory, missing: seq<string>): (Memory, Step)
    decreases |missing|
  {
    if missing == [] then (m, Done)
    else
      var next, step := AfterRead(c, w, m, missing[0], Obj([])), ReadStep(c, w, m.tick, missing[0], Obj([]));
      if step.Done? then Fetching(c, w, next, missing[1..]) else (next, step)
  }

  /** Fetches required context without arguments. */
  method ReadMissing(c: Catalog, w: World, m: Memory, missing: seq<string>) returns (next: Memory, step: Step)
    requires Inv(c, w, m)
    ensures Inv(c, w, next) && next.selected == m.selected
    ensures (next, step) == Fetching(c, w, m, missing)
    ensures step.Done? ==> AllFetched(next.given, missing)
    ensures !step.Done? ==> FetchEnds(c, w, missing, step)
  {
    next := m;
    var i := 0;
    while i < |missing|
      invariant 0 <= i <= |missing|
      invariant Inv(c, w, next) && next.selected == m.selected && AllFetched(next.given, missing[..i])
      invariant Fetching(c, w, next, missing[i..]) == Fetching(c, w, m, missing)
    {
      FetchingNext(c, w, next, missing, i);
      ghost var before := next;
      next, step := Observe(c, w, next, missing[i], Obj([]));
      if !step.Done? {
        FetchEndsHere(c, w, before.tick, missing, i, step);
        return;
      }
      FetchedNext(before.given, missing, i);
      i := i + 1;
    }
    assert missing[..i] == missing;
    step := Done;
  }

  predicate AllFetched(given: map<string, Json>, missing: seq<string>) {
    forall r :: r in missing ==> r in given && given[r] == Obj([])
  }

  /** Some read without arguments ends like this. */
  ghost predicate FetchEnds(c: Catalog, w: World, missing: seq<string>, step: Step) {
    exists r, tick :: r in missing && ReadStep(c, w, tick, r, Obj([])) == step
  }

  lemma FetchingNext(c: Catalog, w: World, m: Memory, missing: seq<string>, i: nat)
    requires i < |missing|
    ensures var next, step := AfterRead(c, w, m, missing[i], Obj([])), ReadStep(c, w, m.tick, missing[i], Obj([]));
            Fetching(c, w, m, missing[i..])
            == if step.Done? then Fetching(c, w, next, missing[i + 1..]) else (next, step)
  {
    assert missing[i..][0] == missing[i] && missing[i..][1..] == missing[i + 1..];
  }

  lemma FetchedNext(given: map<string, Json>, missing: seq<string>, i: nat)
    requires i < |missing| && AllFetched(given, missing[..i])
    ensures AllFetched(given[missing[i] := Obj([])], missing[..i + 1])
  {
    assert missing[..i + 1] == missing[..i] + [missing[i]];
  }

  lemma FetchEndsHere(c: Catalog, w: World, tick: nat, missing: seq<string>, i: nat, step: Step)
    requires i < |missing| && ReadStep(c, w, tick, missing[i], Obj([])) == step
    ensures FetchEnds(c, w, missing, step)
  {
    assert missing[i] in missing;
  }

  /** The observation comes from a call made since. */
  ghost predicate Retaken(m: Memory, next: Memory, tool: string) {
    && tool in next.given
    && exists i :: |m.log| <= i < |next.log|
                   && next.log[i] == Exchange(tool, next.given[tool], Get(next.observations, tool))
  }

  ghost predicate AllRetaken(m: Memory, next: Memory, tools: seq<string>) {
    forall t :: t in tools ==> Retaken(m, next, t)
  }

  /** Some required read ends like this with the recorded arguments. */
  ghost predicate RereadEnds(c: Catalog, w: World, m: Memory, required: seq<string>, step: Step) {
    exists r, tick :: r in required && r in m.given && ReadStep(c, w, tick, r, m.given[r]) == step
  }

  function Rereading(c: Catalog, w: World, m: Memory, required: seq<string>): (Memory, Step)
    requires forall r :: r in required ==> r in m.given
    decreases |required|
  {
    if required == [] then (m, Done)
    else
      var given := m.given[required[0]];
      var next, step := AfterRead(c, w, m, required[0], given), ReadStep(c, w, m.tick, required[0], given);
      if step.Done? then Rereading(c, w, next, required[1..]) else (next, step)
  }

  lemma RereadingNext(c: Catalog, w: World, m: Memory, required: seq<string>, i: nat)
    requires i < |required| && forall r :: r in required ==> r in m.given
    ensures var given := m.given[required[i]];
            var next, step := AfterRead(c, w, m, required[i], given), ReadStep(c, w, m.tick, required[i], given);
            Rereading(c, w, m, required[i..])
            == if step.Done? then Rereading(c, w, next, required[i + 1..]) else (next, step)
  {
    assert required[i..][0] == required[i] && required[i..][1..] == required[i + 1..];
  }

  /** Reads a tool again with the arguments recorded for it. */
  method Reread(c: Catalog, w: World, m: Memory, tool: string) returns (next: Memory, step: Step)
    requires Inv(c, w, m) && tool in m.given
    ensures Inv(c, w, next) && next.selected == m.selected && next.given == m.given
    ensures m.tick <= next.tick && m.log <= next.log
    ensures step == ReadStep(c, w, m.tick, tool, m.given[tool]) && next == AfterRead(c, w, m, tool, m.given[tool])
    ensures step.Done? ==>
              && next.log == m.log + [Exchange(tool, m.given[tool], Get(next.observations, tool))]
              && forall t :: t != tool ==> Get(next.observations, t) == Get(m.observations, t)
  {
    next, step := Observe(c, w, m, tool, m.given[tool]);
    SameArguments(m.given, tool);
    if step.Done? { OneExchange(c, w, m, tool, m.given[tool]); }
  }

  lemma SameArguments(given: map<string, Json>, tool: string)
    requires tool in given
    ensures given[tool := given[tool]] == given
  {
  }

  lemma OneExchange(c: Catalog, w: World, m: Memory, tool: string, arguments: Json)
    requires ReadStep(c, w, m.tick, tool, arguments).Done?
    ensures MayRead(c, w, m.tick, tool, arguments)
    ensures NewExchange(c, w, m.tick, tool, arguments)
            == [Exchange(tool, arguments, Some(w.read(m.tick, c.tools[tool].tool, arguments).value))]
  {
  }

  /** Takes fresh snapshots with the arguments recorded before. */
  method Refresh(c: Catalog, w: World, m: Memory, required: seq<string>) returns (next: Memory, step: Step)
    requires Inv(c, w, m) && forall r :: r in required ==> r in m.given
    ensures Inv(c, w, next) && next.selected == m.selected && next.given == m.given && m.tick <= next.tick
    ensures (next, step) == Rereading(c, w, m, required)
    ensures step.Done? ==> AllRetaken(m, next, required)
    ensures !step.Done? ==> RereadEnds(c, w, m, required, step)
  {
    next := m;
    var i := 0;
    while i < |required|
      invariant 0 <= i <= |required| && m.tick <= next.tick && m.log <= next.log
      invariant Inv(c, w, next) && next.selected == m.selected && next.given == m.given
      invariant AllRetaken(m, next, required[..i])
      invariant Rereading(c, w, next, required[i..]) == Rereading(c, w, m, required)
    {
      var tool := required[i];
      RereadingNext(c, w, next, required, i);
      ghost var before := next;
      next, step := Reread(c, w, next, tool);
      if !step.Done? {
        EndsHere(c, w, m, required, tool, before.tick, step);
        return;
      }
      RetakenNext(m, before, next, required, i);
      i := i + 1;
    }
    assert required[..i] == required;
    step := Done;
  }

  lemma EndsHere(c: Catalog, w: World, m: Memory, required: seq<string>, tool: string, tick: nat, step: Step)
    requires tool in required && tool in m.given && ReadStep(c, w, tick, tool, m.given[tool]) == step
    ensures RereadEnds(c, w, m, required, step)
  {
  }

  lemma RetakenNext(m: Memory, before: Memory, next: Memory, tools: seq<string>, n: nat)
    requires n < |tools| && AllRetaken(m, before, tools[..n]) && m.log <= before.log
    requires tools[n] in before.given && next.given == before.given
    requires next.log == before.log + [Exchange(tools[n], before.given[tools[n]], Get(next.observations, tools[n]))]
    requires forall t :: t != tools[n] ==> Get(next.observations, t) == Get(before.observations, t)
    ensures AllRetaken(m, next, tools[..n + 1]) && m.log <= next.log
  {
    var tool, done := tools[n], tools[..n];
    assert tools[..n + 1] == done + [tool];
    assert next.log[|before.log|] == Exchange(tool, next.given[tool], Get(next.observations, tool));
    forall t | t in done && t != tool ensures Retaken(m, next, t) {
      var i :| |m.log| <= i < |before.log|
          && before.log[i] == Exchange(t, before.given[t], Get(before.observations, t));
      assert next.log[i] == before.log[i];
    }
  }
}

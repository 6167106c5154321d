/** render_skill (autonomy/learning.py): SKILL.md printed from verified rules beside the sections kept from an existing
    file, and what reading it gives, for one rendering and over any number of them. */
module SkillFile {
  import opened Wrappers
  import opened Rules
  import opened SkillText
  import opened Verification
  import opened RuleOrder
  import opened SkillBody

  /** A written skill: the events its frontmatter lists, and its lines. */
  datatype File = File(events: seq<string>, text: seq<Line>)

  type Bodies = map<string, seq<Line>>

  // ----- what is printed

  function Sections(order: seq<string>, bodies: Bodies): seq<Line>
    requires forall e :: e in order ==> e in bodies
  {
    if order == [] then []
    else [Heading(order[0])] + (bodies[order[0]] + ([Text("")] + Sections(order[1..], bodies)))
  }

  function Title(service: string, w: Wording): seq<string> {
    ["---", "name: learned-" + service, "description: " + w.description]
  }

  const PLATFORM := ["version: 1.0.0", "platforms: [linux]", "metadata:", "  hermes:"]

  function Metadata(service: string, order: seq<string>, listed: seq<string>): seq<string> {
    ["    tags: [QSR, Learned, " + service + "]", "  qsr:", "    service: " + service,
     "    events: [" + Join(order, ", ") + "]", "    tools: [" + Join(listed, ", ") + "]"]
  }

  function AllLines(texts: seq<string>): seq<Line> {
    if texts == [] then [] else Lines(texts[0]) + AllLines(texts[1..])
  }

  function Introduction(service: string, w: Wording): seq<string> {
    ["---", "# Learned: " + service, "", "Rules " + w.introduction, ""]
  }

  /** The frontmatter and the introduction. `listed` are the tools the skill may use. */
  function Preamble(service: string, order: seq<string>, listed: seq<string>, w: Wording): seq<Line> {
    AllLines(Title(service, w) + PLATFORM + Metadata(service, order, listed) + Introduction(service, w))
  }

  function Printed(before: seq<Line>, order: seq<string>, bodies: Bodies): seq<Line>
    requires forall e :: e in order ==> e in bodies
  {
    before + (Sections(order, bodies) + [Text("")])
  }

  function EventsOf(rules: seq<Accepted>): set<string> {
    set a | a in rules :: a.event
  }

  /** The rules learnt for each event, in the order they are printed. */
  function Learnt(rules: seq<Accepted>): map<string, seq<Accepted>> {
    map event | event in EventsOf(rules) :: OfEvent(BySupport(rules), event)
  }

  function Relearnt(rules: seq<Accepted>, w: Wording): Bodies {
    map event | event in EventsOf(rules) :: Body(OfEvent(BySupport(rules), event), w)
  }

  function Kept(file: File, relearnt: set<string>): Bodies {
    map event | event in file.events && event !in relearnt && Section(file.text, event) != []
      :: Section(file.text, event)
  }

  /** Sections for the events relearnt, and those of the existing file for the other events it lists. */
  function BodiesOf(rules: seq<Accepted>, existing: Option<File>, w: Wording): Bodies {
    Relearnt(rules, w) + if existing.Some? then Kept(existing.value, EventsOf(rules)) else map[]
  }

  /** `order` lists every section once; the source sorts them. */
  ghost predicate IsOrder(order: seq<string>, names: set<string>) {
    (forall e :: e in order <==> e in names) && forall i, j :: 0 <= i < j < |order| ==> order[i] != order[j]
  }

  function Render(service: string, rules: seq<Accepted>, existing: Option<File>, order: seq<string>,
                  listed: seq<string>, w: Wording): File
    requires IsOrder(order, BodiesOf(rules, existing, w).Keys)
  {
    File(order, Printed(Preamble(service, order, listed, w), order, BodiesOf(rules, existing, w)))
  }

  // ----- what is read

  predicate AllNames(names: set<string>) {
    forall e :: e in names ==> EventName(e)
  }

  /** What the sections give for an event: the body of the first one under its name, up to case, unless a heading for it
      stands in a body before that. */
  function ReadSections(order: seq<string>, bodies: Bodies, event: string): seq<Line>
    requires forall e :: e in order ==> e in bodies
  {
    if order == [] then []
    else if Lower(order[0]) == Lower(event) then Strip(UntilNext(bodies[order[0]]))
    else if AfterHeading(bodies[order[0]], event).Some? then Section(bodies[order[0]], event)
    else ReadSections(order[1..], bodies, event)
  }

  function ReadPrinted(before: seq<Line>, order: seq<string>, bodies: Bodies, event: string): seq<Line>
    requires forall e :: e in order ==> e in bodies
  {
    if AfterHeading(before, event).Some? then Section(before, event) else ReadSections(order, bodies, event)
  }

  lemma ClosedSections(order: seq<string>, bodies: Bodies)
    requires forall e :: e in order ==> e in bodies
    ensures ClosedTail(Sections(order, bodies) + [Text("")])
    ensures ClosedTail([Text("")] + (Sections(order, bodies) + [Text("")]))
  {
    var lines := Sections(order, bodies) + [Text("")];
    if order == [] {
      assert lines == [Text("")] && lines[1..] == [];
    } else {
      HeadingEnds(order[0]);
      assert lines[0] == Heading(order[0]);
    }
    assert ([Text("")] + lines)[1..] == lines;
  }

  lemma HeadingEnds(name: string)
    ensures EndsSection(Heading(name))
  {
    assert ("## event: " + name)[2] == ' ';
  }

  /** A section begins and ends within one of two texts. */
  lemma SectionAppend(lines: seq<Line>, tail: seq<Line>, event: string)
    requires ClosedTail(tail) && EventName(event)
    ensures Section(lines + tail, event)
            == if AfterHeading(lines, event).Some? then Section(lines, event) else Section(tail, event)
  {
    AfterHeadingAppend(lines, tail, event);
    if AfterHeading(lines, event).Some? {
      SectionAlone(AfterHeading(lines, event).value, tail);
    }
  }

  lemma SectionAfterBlank(lines: seq<Line>, event: string)
    ensures Section([Text("")] + lines, event) == Section(lines, event)
  {
    assert ([Text("")] + lines)[1..] == lines;
  }

  lemma SectionUnderName(name: string, rest: seq<Line>, event: string)
    requires EventName(name) && EventName(event)
    ensures Section([Heading(name)] + rest, event)
            == if Lower(name) == Lower(event) then Strip(UntilNext(rest)) else Section(rest, event)
  {
    HeadingFits(name, event, rest);
    assert ([Heading(name)] + rest)[1..] == rest;
  }

  lemma {:induction false} SectionsRead(order: seq<string>, bodies: Bodies, event: string)
    requires EventName(event) && forall e :: e in order ==> e in bodies && EventName(e)
    ensures Section(Sections(order, bodies) + [Text("")], event) == ReadSections(order, bodies, event)
  {
    if order == [] {
      assert Sections(order, bodies) + [Text("")] == [Text("")] + [];
      SectionAfterBlank([], event);
    } else {
      assert order[0] in order;
      var body, rest := bodies[order[0]], Sections(order[1..], bodies) + [Text("")];
      var tail := [Text("")] + rest;
      assert Sections(order, bodies) + [Text("")] == [Heading(order[0])] + (body + tail);
      SectionUnderName(order[0], body + tail, event);
      ClosedSections(order[1..], bodies);
      SectionAlone(body, tail);
      SectionAppend(body, tail, event);
      SectionAfterBlank(rest, event);
      SectionsRead(order[1..], bodies, event);
    }
  }

  /** Exactly what is read for any event from any text followed by printed sections, whatever their bodies hold. */
  lemma PrintedReadExactly(before: seq<Line>, order: seq<string>, bodies: Bodies, event: string)
    requires EventName(event) && forall e :: e in order ==> e in bodies && EventName(e)
    ensures Section(Printed(before, order, bodies), event) == ReadPrinted(before, order, bodies, event)
  {
    ClosedSections(order, bodies);
    SectionAppend(before, Sections(order, bodies) + [Text("")], event);
    SectionsRead(order, bodies, event);
  }

  // ----- when a section is read under its own name

  /** No section printed before the event's own has its name, up to case, or a heading for it. */
  predicate Reached(order: seq<string>, bodies: Bodies, event: string)
    requires forall e :: e in order ==> e in bodies
  {
    && order != []
    && (|| order[0] == event
        || (&& Lower(order[0]) != Lower(event)
            && AfterHeading(bodies[order[0]], event).None?
            && Reached(order[1..], bodies, event)))
  }

  /** Nothing printed before the event's section can be taken for it. */
  predicate Clear(before: seq<Line>, order: seq<string>, bodies: Bodies, event: string)
    requires forall e :: e in order ==> e in bodies
  {
    AfterHeading(before, event).None? && Reached(order, bodies, event)
  }

  lemma {:induction false} ReachedReadsOwn(order: seq<string>, bodies: Bodies, event: string)
    requires (forall e :: e in order ==> e in bodies) && Reached(order, bodies, event)
    ensures event in order && ReadSections(order, bodies, event) == Strip(UntilNext(bodies[event]))
  {
    if order[0] != event { ReachedReadsOwn(order[1..], bodies, event); }
  }

  lemma {:induction false} OwnTextIgnored(order: seq<string>, bodies: Bodies, event: string, body: seq<Line>)
    requires (forall e :: e in order ==> e in bodies) && event in bodies
    ensures Reached(order, bodies[event := body], event) == Reached(order, bodies, event)
    ensures !Reached(order, bodies, event)
            ==> ReadSections(order, bodies[event := body], event) == ReadSections(order, bodies, event)
  {
    if order != [] && order[0] != event {
      OwnTextIgnored(order[1..], bodies, event, body);
    }
  }

  /** A body that reading would give back as it is, if it is reached. */
  predicate Whole(body: seq<Line>) {
    body != [] && Stripped(body) && NoEnds(body)
  }

  /** What is read for an event when its section says this. */
  function ReadWith(before: seq<Line>, order: seq<string>, bodies: Bodies, event: string, body: seq<Line>): seq<Line>
    requires (forall e :: e in order ==> e in bodies) && event in bodies
  {
    Section(Printed(before, order, bodies[event := body]), event)
  }

  ghost predicate ReadWhateverItSays(before: seq<Line>, order: seq<string>, bodies: Bodies, event: string)
    requires (forall e :: e in order ==> e in bodies) && event in bodies
  {
    forall body :: Whole(body) ==> ReadWith(before, order, bodies, event, body) == body
  }

  ghost predicate NeverRead(before: seq<Line>, order: seq<string>, bodies: Bodies, event: string)
    requires (forall e :: e in order ==> e in bodies) && event in bodies
  {
    forall one, other :: ReadWith(before, order, bodies, event, one) == ReadWith(before, order, bodies, event, other)
  }

  /** An event's section is read under its name, whatever it says, if and only if no heading for the event and no name
      that differs from it only in case is printed before it. Otherwise what it says is never read. */
  lemma OwnSectionIsReadIff(before: seq<Line>, order: seq<string>, bodies: Bodies, event: string)
    requires (forall e :: e in order ==> e in bodies && EventName(e)) && event in order
    ensures ReadWhateverItSays(before, order, bodies, event) <==> Clear(before, order, bodies, event)
    ensures NeverRead(before, order, bodies, event) <==> !Clear(before, order, bodies, event)
  {
    forall body
      ensures if !Clear(before, order, bodies, event)
              then ReadWith(before, order, bodies, event, body) == ReadPrinted(before, order, bodies, event)
              else Whole(body) ==> ReadWith(before, order, bodies, event, body) == body
    {
      OneText(before, order, bodies, event, body);
    }
    TwoTexts();
    var x, y := [Text("x")], [Text("y")];
    assert ReadWith(before, order, bodies, event, x) == ReadWith(before, order, bodies, event, y)
      <==> !Clear(before, order, bodies, event);
  }

  lemma OneText(before: seq<Line>, order: seq<string>, bodies: Bodies, event: string, body: seq<Line>)
    requires (forall e :: e in order ==> e in bodies && EventName(e)) && event in order
    ensures if !Clear(before, order, bodies, event)
            then ReadWith(before, order, bodies, event, body) == ReadPrinted(before, order, bodies, event)
            else Whole(body) ==> ReadWith(before, order, bodies, event, body) == body
  {
    PrintedReadExactly(before, order, bodies[event := body], event);
    OwnTextIgnored(order, bodies, event, body);
    if Clear(before, order, bodies, event) && Whole(body) {
      ReachedReadsOwn(order, bodies[event := body], event);
      StandsIffNoEnds(body);
    }
  }

  lemma TwoTexts()
    ensures Whole([Text("x")]) && Whole([Text("y")]) && [Text("x")] != [Text("y")]
  {
    assert "x"[0] in "x" && "y"[0] in "y" && !Space('x') && !Space('y');
  }

  /** The section that stands first in every reading is the body itself, cut at the first line that ends it; or it is
      what stands in the section's place, when that says the same. */
  predicate Stands(before: seq<Line>, order: seq<string>, bodies: Bodies, event: string)
    requires (forall e :: e in order ==> e in bodies) && event in bodies
  {
    if Clear(before, order, bodies, event) then NoEnds(bodies[event])
    else ReadPrinted(before, order, bodies, event) == bodies[event]
  }

  /** A printed section is read as it was printed if and only if it stands. */
  lemma ReadIffStands(before: seq<Line>, order: seq<string>, bodies: Bodies, event: string)
    requires (forall e :: e in order ==> e in bodies && EventName(e)) && event in order
    requires bodies[event] != [] && Stripped(bodies[event])
    ensures Section(Printed(before, order, bodies), event) == bodies[event] <==> Stands(before, order, bodies, event)
  {
    PrintedReadExactly(before, order, bodies, event);
    if Clear(before, order, bodies, event) {
      ReachedReadsOwn(order, bodies, event);
      StandsIffNoEnds(bodies[event]);
    }
  }

  /** A section of any existing file, also one edited by hand, whose event is not relearnt reads back unchanged if and
      only if it stands: nothing printed before it is taken for it and no line in it ends it. */
  lemma KeptSectionExactly(service: string, rules: seq<Accepted>, existing: File, order: seq<string>,
                           listed: seq<string>, w: Wording, event: string)
    requires IsOrder(order, BodiesOf(rules, Some(existing), w).Keys)
    requires AllNames(BodiesOf(rules, Some(existing), w).Keys)
    requires event in existing.events && event !in EventsOf(rules) && Section(existing.text, event) != []
    ensures Section(Render(service, rules, Some(existing), order, listed, w).text, event)
            == Section(existing.text, event)
            <==> Stands(Preamble(service, order, listed, w), order, BodiesOf(rules, Some(existing), w), event)
  {
    var bodies := BodiesOf(rules, Some(existing), w);
    assert bodies[event] == Section(existing.text, event);
    StripIsStripped(UntilNext(AfterHeading(existing.text, event).value));
    ReadIffStands(Preamble(service, order, listed, w), order, bodies, event);
  }

  // ----- what a file says

  /** The file has exactly these events, each with the section printed for these rules. */
  ghost predicate Says(file: File, learnt: map<string, seq<Accepted>>, w: Wording) {
    && (forall e :: e in file.events <==> e in learnt)
    && forall e :: e in learnt ==> learnt[e] != [] && Section(file.text, e) == Body(learnt[e], w)
  }

  ghost predicate PrintedAs(bodies: Bodies, learnt: map<string, seq<Accepted>>, w: Wording) {
    bodies.Keys == learnt.Keys && forall e :: e in learnt ==> learnt[e] != [] && bodies[e] == Body(learnt[e], w)
  }

  lemma LearntHasRules(rules: seq<Accepted>, event: string)
    requires event in EventsOf(rules)
    ensures OfEvent(BySupport(rules), event) != []
  {
    SupportOrderIsStable(rules, 0);
    OfEventMembers(BySupport(rules), event);
    var a :| a in rules && a.event == event;
    assert a in OfEvent(BySupport(rules), event);
  }

  lemma RelearntPrinted(rules: seq<Accepted>, w: Wording)
    ensures PrintedAs(Relearnt(rules, w), Learnt(rules), w)
  {
    forall e | e in EventsOf(rules) ensures Learnt(rules)[e] != [] {
      LearntHasRules(rules, e);
    }
  }

  lemma KeptPrinted(file: File, relearnt: set<string>, learnt: map<string, seq<Accepted>>, w: Wording)
    requires Says(file, learnt, w)
    ensures PrintedAs(Kept(file, relearnt), learnt - relearnt, w)
  {
    forall e ensures e in Kept(file, relearnt) <==> e in learnt - relearnt {
    }
    assert Kept(file, relearnt).Keys == (learnt - relearnt).Keys;
  }

  lemma PrintedUnion(one: Bodies, printed: map<string, seq<Accepted>>, other: Bodies,
                     learnt: map<string, seq<Accepted>>, w: Wording)
    requires PrintedAs(one, printed, w) && PrintedAs(other, learnt - printed.Keys, w)
    ensures PrintedAs(one + other, learnt + printed, w)
  {
    var bodies, all := one + other, learnt + printed;
    assert bodies.Keys == one.Keys + other.Keys && all.Keys == bodies.Keys;
    forall e | e in all ensures all[e] != [] && bodies[e] == Body(all[e], w) {
      if e in printed {
        assert e !in other && bodies[e] == one[e];
      } else {
        assert bodies[e] == other[e];
      }
    }
  }

  ghost predicate SaysBefore(existing: Option<File>, learnt: map<string, seq<Accepted>>, w: Wording) {
    if existing.Some? then Says(existing.value, learnt, w) else learnt == map[]
  }

  lemma BodiesPrinted(rules: seq<Accepted>, existing: Option<File>, learnt: map<string, seq<Accepted>>, w: Wording)
    requires SaysBefore(existing, learnt, w)
    ensures PrintedAs(BodiesOf(rules, existing, w), learnt + Learnt(rules), w)
  {
    var names := EventsOf(rules);
    RelearntPrinted(rules, w);
    assert Learnt(rules).Keys == names;
    if existing.Some? {
      KeptPrinted(existing.value, names, learnt, w);
      PrintedUnion(Relearnt(rules, w), Learnt(rules), Kept(existing.value, names), learnt, w);
    } else {
      assert PrintedAs(map[], learnt - names, w);
      PrintedUnion(Relearnt(rules, w), Learnt(rules), map[], learnt, w);
    }
  }

  predicate AllStand(before: seq<Line>, order: seq<string>, bodies: Bodies)
    requires forall e :: e in order ==> e in bodies
  {
    forall e :: e in bodies ==> Stands(before, order, bodies, e)
  }

  lemma PrintedSays(before: seq<Line>, order: seq<string>, bodies: Bodies, learnt: map<string, seq<Accepted>>,
                    w: Wording)
    requires PrintedAs(bodies, learnt, w) && IsOrder(order, bodies.Keys) && AllNames(bodies.Keys)
    ensures Says(File(order, Printed(before, order, bodies)), learnt, w) <==> AllStand(before, order, bodies)
  {
    var text := Printed(before, order, bodies);
    forall e | e in bodies
      ensures learnt[e] != [] && (Section(text, e) == Body(learnt[e], w) <==> Stands(before, order, bodies, e))
    {
      OneStands(before, order, bodies, learnt, w, e);
    }
    SaysIff(File(order, text), learnt, w, set e | e in bodies && Stands(before, order, bodies, e));
  }

  lemma OneStands(before: seq<Line>, order: seq<string>, bodies: Bodies, learnt: map<string, seq<Accepted>>, w: Wording,
                  event: string)
    requires PrintedAs(bodies, learnt, w) && IsOrder(order, bodies.Keys) && AllNames(bodies.Keys) && event in bodies
    ensures Section(Printed(before, order, bodies), event) == Body(learnt[event], w)
            <==> Stands(before, order, bodies, event)
  {
    BodyStripped(learnt[event], w);
    ReadIffStands(before, order, bodies, event);
  }

  lemma SaysIff(file: File, learnt: map<string, seq<Accepted>>, w: Wording, standing: set<string>)
    requires (forall e :: e in file.events <==> e in learnt) && standing <= learnt.Keys
    requires forall e :: e in learnt ==>
                  learnt[e] != [] && (Section(file.text, e) == Body(learnt[e], w) <==> e in standing)
    ensures Says(file, learnt, w) <==> forall e :: e in learnt ==> e in standing
  {
    if Says(file, learnt, w) {
      forall e | e in learnt ensures e in standing {
      }
    } else if forall e :: e in learnt ==> e in standing {
      assert Says(file, learnt, w);
    }
  }

  /** Rendering replaces the sections of the events relearnt and leaves what the file says of the others, if and only if
      every section printed stands. */
  lemma RenderSaysExactly(service: string, rules: seq<Accepted>, existing: Option<File>, order: seq<string>,
                          listed: seq<string>, w: Wording, learnt: map<string, seq<Accepted>>)
    requires SaysBefore(existing, learnt, w) && AllNames(learnt.Keys + EventsOf(rules))
    requires IsOrder(order, BodiesOf(rules, existing, w).Keys)
    ensures Says(Render(service, rules, existing, order, listed, w), learnt + Learnt(rules), w)
            <==> AllStand(Preamble(service, order, listed, w), order, BodiesOf(rules, existing, w))
  {
    BodiesPrinted(rules, existing, learnt, w);
    PrintedSays(Preamble(service, order, listed, w), order, BodiesOf(rules, existing, w), learnt + Learnt(rules), w);
  }

  // ----- any number of renderings

  /** One run of the learner that was written to the skill. */
  datatype Lesson = Lesson(rules: seq<Accepted>, order: seq<string>, listed: seq<string>)

  function LastFile(files: seq<File>): Option<File> {
    if files == [] then None else Some(files[|files| - 1])
  }

  ghost predicate IsNext(service: string, lesson: Lesson, w: Wording, before: Option<File>, file: File) {
    && IsOrder(lesson.order, BodiesOf(lesson.rules, before, w).Keys)
    && file == Render(service, lesson.rules, before, lesson.order, lesson.listed, w)
  }

  /** The files these lessons leave, each rendered over the one before it. */
  ghost predicate RenderedBy(service: string, lessons: seq<Lesson>, w: Wording, files: seq<File>) {
    && |files| == |lessons|
    && (lessons != [] ==>
          var n := |lessons| - 1;
          && RenderedBy(service, lessons[..n], w, files[..n])
          && IsNext(service, lessons[n], w, LastFile(files[..n]), files[n]))
  }

  /** For each event, the rules of the last lesson that had any. */
  function LastLearnt(lessons: seq<Lesson>): map<string, seq<Accepted>> {
    if lessons == [] then map[]
    else LastLearnt(lessons[..|lessons| - 1]) + Learnt(lessons[|lessons| - 1].rules)
  }

  ghost predicate StandsNext(service: string, lesson: Lesson, w: Wording, before: Option<File>) {
    var bodies := BodiesOf(lesson.rules, before, w);
    && IsOrder(lesson.order, bodies.Keys)
    && AllStand(Preamble(service, lesson.order, lesson.listed, w), lesson.order, bodies)
  }

  /** In every rendering of the run every section printed stands. */
  ghost predicate AllStandAlong(service: string, lessons: seq<Lesson>, w: Wording, files: seq<File>)
    requires |files| == |lessons|
  {
    lessons != [] ==>
      var n := |lessons| - 1;
      && AllStandAlong(service, lessons[..n], w, files[..n])
      && StandsNext(service, lessons[n], w, LastFile(files[..n]))
  }

  /** After every lesson the file says what was learnt last for each event. */
  ghost predicate SaysAlong(lessons: seq<Lesson>, w: Wording, files: seq<File>)
    requires |files| == |lessons|
  {
    lessons != [] ==>
      var n := |lessons| - 1;
      SaysAlong(lessons[..n], w, files[..n]) && Says(files[n], LastLearnt(lessons), w)
  }

  ghost predicate AllEventNames(lessons: seq<Lesson>) {
    forall l :: l in lessons ==> AllNames(EventsOf(l.rules))
  }

  lemma {:induction false} LearntNames(lessons: seq<Lesson>)
    requires AllEventNames(lessons)
    ensures AllNames(LastLearnt(lessons).Keys)
  {
    if lessons != [] {
      var n := |lessons| - 1;
      assert lessons[n] in lessons && forall l :: l in lessons[..n] ==> l in lessons;
      LearntNames(lessons[..n]);
    }
  }

  lemma NextSays(service: string, lesson: Lesson, w: Wording, before: Option<File>, file: File,
                 learnt: map<string, seq<Accepted>>)
    requires IsNext(service, lesson, w, before, file) && SaysBefore(before, learnt, w)
    requires AllNames(learnt.Keys) && AllNames(EventsOf(lesson.rules))
    ensures Says(file, learnt + Learnt(lesson.rules), w) <==> StandsNext(service, lesson, w, before)
  {
    RenderSaysExactly(service, lesson.rules, before, lesson.order, lesson.listed, w, learnt);
  }

  /** The file says after every lesson what was learnt last for each event, if and only if every section printed in the
      run stands. */
  lemma {:induction false} RunSaysExactly(service: string, lessons: seq<Lesson>, w: Wording, files: seq<File>)
    requires RenderedBy(service, lessons, w, files) && AllEventNames(lessons)
    ensures SaysAlong(lessons, w, files) <==> AllStandAlong(service, lessons, w, files)
    decreases |lessons|
  {
    if lessons != [] {
      var n := |lessons| - 1;
      assert lessons[n] in lessons && forall l :: l in lessons[..n] ==> l in lessons;
      RunSaysExactly(service, lessons[..n], w, files[..n]);
      if SaysAlong(lessons[..n], w, files[..n]) {
        LearntNames(lessons[..n]);
        SaysLast(lessons[..n], w, files[..n]);
        NextSays(service, lessons[n], w, LastFile(files[..n]), files[n], LastLearnt(lessons[..n]));
      }
    }
  }

  lemma SaysLast(lessons: seq<Lesson>, w: Wording, files: seq<File>)
    requires |files| == |lessons| && SaysAlong(lessons, w, files)
    ensures SaysBefore(LastFile(files), LastLearnt(lessons), w)
  {
  }

  ghost predicate ReadAsLearnt(file: File, event: string, rules: seq<Accepted>) {
    forall parse :: SectionRules(Section(file.text, event), parse) == Readback(rules)
  }

  /** After any number of lessons whose sections stand, the file reads back, for each event, exactly the rules of the
      last lesson that had any for it, in the order printed, if and only if none of their bullets opens a block; a
      string with three backticks makes that block unreadable. */
  lemma FileReadsBackExactly(service: string, lessons: seq<Lesson>, w: Wording, files: seq<File>, event: string)
    requires RenderedBy(service, lessons, w, files) && AllEventNames(lessons)
    requires AllStandAlong(service, lessons, w, files) && event in LastLearnt(lessons)
    ensures files != []
    ensures ReadAsLearnt(files[|files| - 1], event, LastLearnt(lessons)[event])
            <==> NoOpeners(Bullets(LastLearnt(lessons)[event], w))
  {
    RunSaysExactly(service, lessons, w, files);
    SaysLast(lessons, w, files);
    SaysReadsBack(files[|files| - 1], LastLearnt(lessons), w, event);
  }

  lemma SaysReadsBack(file: File, learnt: map<string, seq<Accepted>>, w: Wording, event: string)
    requires Says(file, learnt, w) && event in learnt
    ensures ReadAsLearnt(file, event, learnt[event]) <==> NoOpeners(Bullets(learnt[event], w))
  {
    BodyReadIff(file, event, learnt[event], w);
  }

  lemma BodyReadIff(file: File, event: string, rules: seq<Accepted>, w: Wording)
    requires Section(file.text, event) == Body(rules, w) && rules != []
    ensures ReadAsLearnt(file, event, rules) <==> NoOpeners(Bullets(rules, w))
  {
    if NoOpeners(Bullets(rules, w)) {
      forall parse ensures SectionRules(Section(file.text, event), parse) == Readback(rules) {
        BodyReadsBack(rules, w, parse);
      }
    } else {
      OpenerReadsNoList(rules, w, ParsesNothing);
      EmptyIsNoReadback(rules, SectionRules(Section(file.text, event), ParsesNothing));
    }
  }

  lemma ReadWithAny(file: File, event: string, rules: seq<Accepted>, parse: seq<Line> -> Reading)
    requires ReadAsLearnt(file, event, rules)
    ensures SectionRules(Section(file.text, event), parse) == Readback(rules)
  {
  }

  /** Printing then running preserves meaning: the settings proposed from the file are those of the verified rules in
      descending order of support. */
  lemma PrintThenRun(service: string, lessons: seq<Lesson>, w: Wording, files: seq<File>, event: string,
                     parse: seq<Line> -> Reading, fields: Fields)
    requires RenderedBy(service, lessons, w, files) && AllEventNames(lessons)
    requires AllStandAlong(service, lessons, w, files)
    requires lessons != [] && event in EventsOf(lessons[|lessons| - 1].rules)
    requires var printed := BySupport(OfEvent(lessons[|lessons| - 1].rules, event));
             NoOpeners(Bullets(printed, w)) && !RulesTicks(JustRules(printed))
    ensures var reading := SectionRules(Section(files[|files| - 1].text, event), parse);
            && reading.Read?
            && MatchingSettings(reading.rules, fields)
               == MatchingSettings(JustRules(BySupport(OfEvent(lessons[|lessons| - 1].rules, event))), fields)
  {
    var rules := lessons[|lessons| - 1].rules;
    EventInOrder(rules, event);
    assert LastLearnt(lessons)[event] == BySupport(OfEvent(rules, event));
    FileReadsBackExactly(service, lessons, w, files, event);
    ReadWithAny(files[|files| - 1], event, BySupport(OfEvent(rules, event)), parse);
  }
}

/** Where the laws of SkillFile apply: names without line breaks are enough, and files on which a section is lost. */
module SkillLimits {
  import opened Wrappers
  import opened SkillText
  import opened Verification
  import opened RuleOrder
  import opened SkillBody
  import opened SkillFile

  // ----- names without line breaks are enough

  /** No two names differ only in case. */
  predicate CaseDistinct(names: set<string>) {
    forall a, b :: a in names && b in names && Lower(a) == Lower(b) ==> a == b
  }

  predicate Ordinary(s: string) {
    Flat(s) && !(MARK <= s)
  }

  predicate AllOrdinary(texts: seq<string>) {
    forall s :: s in texts ==> Ordinary(s)
  }

  lemma {:induction false} AllLinesOrdinary(texts: seq<string>)
    requires AllOrdinary(texts)
    ensures forall l :: l in AllLines(texts) ==> l.Text? && !(MARK <= l.s)
  {
    if texts != [] {
      assert texts[0] in texts;
      AllLinesOrdinary(texts[1..]);
    }
  }

  lemma OtherwiseOrdinary(s: string)
    requires Flat(s) && (s == "" || s[0] != '#' || (|s| > 1 && s[1] != '#'))
    ensures Ordinary(s)
  {
  }

  lemma TitleOrdinary(service: string, w: Wording)
    requires Flat(service) && FlatWording(w)
    ensures AllOrdinary(Title(service, w))
  {
    assert "---"[0] == '-' && "name: learned-"[0] == 'n' && "description: "[0] == 'd';
    OtherwiseOrdinary("---");
    OtherwiseOrdinary("name: learned-" + service);
    OtherwiseOrdinary("description: " + w.description);
  }

  lemma PlatformOrdinary()
    ensures AllOrdinary(PLATFORM)
  {
    OtherwiseOrdinary("version: 1.0.0");
    OtherwiseOrdinary("platforms: [linux]");
    OtherwiseOrdinary("metadata:");
    OtherwiseOrdinary("  hermes:");
  }

  lemma MetadataOrdinary(service: string, order: seq<string>, listed: seq<string>)
    requires Flat(service) && FlatParts(order) && FlatParts(listed)
    ensures AllOrdinary(Metadata(service, order, listed))
  {
    JoinFlat(order, ", ");
    JoinFlat(listed, ", ");
    var texts := Metadata(service, order, listed);
    forall i | 0 <= i < |texts| ensures Ordinary(texts[i]) {
      assert Flat(texts[i]);
      assert texts[i][0] != '#';
    }
  }

  lemma IntroductionOrdinary(service: string, w: Wording)
    requires Flat(service) && FlatWording(w)
    ensures AllOrdinary(Introduction(service, w))
  {
    assert "---"[0] == '-' && "# Learned: "[1] == ' ' && "Rules "[0] == 'R';
    OtherwiseOrdinary("---");
    OtherwiseOrdinary("# Learned: " + service);
    OtherwiseOrdinary("Rules " + w.introduction);
  }

  lemma {:induction false} FlatPreamble(service: string, order: seq<string>, listed: seq<string>, w: Wording,
                                        event: string)
    requires Flat(service) && FlatParts(order) && FlatParts(listed) && FlatWording(w)
    ensures AfterHeading(Preamble(service, order, listed, w), event).None?
  {
    TitleOrdinary(service, w);
    PlatformOrdinary();
    MetadataOrdinary(service, order, listed);
    IntroductionOrdinary(service, w);
    AllLinesOrdinary(Title(service, w) + PLATFORM + Metadata(service, order, listed) + Introduction(service, w));
    UnmarkedHasNoHeading(Preamble(service, order, listed, w), event);
  }

  ghost predicate FlatLearnt(learnt: map<string, seq<Accepted>>) {
    forall e, a :: e in learnt && a in learnt[e] ==> FlatRule(a.rule)
  }

  lemma {:induction false} FlatReached(order: seq<string>, bodies: Bodies, learnt: map<string, seq<Accepted>>,
                                       w: Wording,
                                       event: string)
    requires PrintedAs(bodies, learnt, w) && FlatLearnt(learnt) && FlatWording(w) && CaseDistinct(bodies.Keys)
    requires (forall e :: e in order ==> e in bodies) && event in order
    ensures Reached(order, bodies, event)
  {
    if order[0] != event {
      assert order[0] in bodies && event in bodies;
      FlatBody(learnt[order[0]], w, event);
      FlatReached(order[1..], bodies, learnt, w, event);
    }
  }

  lemma FlatStands(service: string, order: seq<string>, listed: seq<string>, bodies: Bodies,
                   learnt: map<string, seq<Accepted>>, w: Wording)
    requires PrintedAs(bodies, learnt, w) && FlatLearnt(learnt) && FlatWording(w) && Flat(service) && FlatParts(listed)
    requires IsOrder(order, bodies.Keys) && AllNames(bodies.Keys) && CaseDistinct(bodies.Keys)
    ensures AllStand(Preamble(service, order, listed, w), order, bodies)
  {
    OrderFlat(order, bodies.Keys);
    var before := Preamble(service, order, listed, w);
    forall e | e in bodies ensures AfterHeading(before, e).None? {
      FlatPreamble(service, order, listed, w, e);
    }
    AllFlatStand(before, order, bodies, learnt, w);
  }

  lemma OrderFlat(order: seq<string>, names: set<string>)
    requires IsOrder(order, names) && AllNames(names)
    ensures FlatParts(order) && forall e :: e in order ==> EventName(e)
  {
    forall e | e in order ensures Flat(e) && EventName(e) {
      assert e in names;
    }
  }

  lemma AllFlatStand(before: seq<Line>, order: seq<string>, bodies: Bodies, learnt: map<string, seq<Accepted>>,
                     w: Wording)
    requires PrintedAs(bodies, learnt, w) && FlatLearnt(learnt) && FlatWording(w) && CaseDistinct(bodies.Keys)
    requires IsOrder(order, bodies.Keys) && forall e :: e in bodies ==> AfterHeading(before, e).None?
    ensures AllStand(before, order, bodies)
  {
    forall e | e in bodies ensures Stands(before, order, bodies, e) {
      OneFlatStands(before, order, bodies, learnt, w, e);
    }
  }

  lemma OneFlatStands(before: seq<Line>, order: seq<string>, bodies: Bodies, learnt: map<string, seq<Accepted>>,
                      w: Wording, event: string)
    requires PrintedAs(bodies, learnt, w) && FlatLearnt(learnt) && FlatWording(w) && CaseDistinct(bodies.Keys)
    requires (forall e :: e in order ==> e in bodies) && event in order && AfterHeading(before, event).None?
    ensures Stands(before, order, bodies, event)
  {
    FlatReached(order, bodies, learnt, w, event);
    FlatBody(learnt[event], w, event);
  }

  ghost predicate FlatLessons(lessons: seq<Lesson>) {
    forall l :: l in lessons ==> FlatParts(l.listed) && forall a :: a in l.rules ==> FlatRule(a.rule)
  }

  lemma FlatUnion(learnt: map<string, seq<Accepted>>, rules: seq<Accepted>)
    requires FlatLearnt(learnt) && forall a :: a in rules ==> FlatRule(a.rule)
    ensures FlatLearnt(learnt + Learnt(rules))
  {
    forall e, a | e in learnt + Learnt(rules) && a in (learnt + Learnt(rules))[e] ensures FlatRule(a.rule) {
      if e in Learnt(rules) {
        SupportOrderIsStable(rules, 0);
        OfEventMembers(BySupport(rules), e);
      }
    }
  }

  lemma {:induction false} LearntFlat(lessons: seq<Lesson>)
    requires FlatLessons(lessons)
    ensures FlatLearnt(LastLearnt(lessons))
  {
    if lessons != [] {
      var n := |lessons| - 1;
      assert lessons[n] in lessons && forall l :: l in lessons[..n] ==> l in lessons;
      LearntFlat(lessons[..n]);
      FlatUnion(LastLearnt(lessons[..n]), lessons[n].rules);
    }
  }

  lemma NextFlatStands(service: string, lesson: Lesson, w: Wording, before: Option<File>, file: File,
                       learnt: map<string, seq<Accepted>>)
    requires IsNext(service, lesson, w, before, file) && SaysBefore(before, learnt, w)
    requires FlatWording(w) && Flat(service) && FlatParts(lesson.listed)
    requires FlatLearnt(learnt + Learnt(lesson.rules))
    requires AllNames((learnt + Learnt(lesson.rules)).Keys) && CaseDistinct((learnt + Learnt(lesson.rules)).Keys)
    ensures StandsNext(service, lesson, w, before)
  {
    BodiesPrinted(lesson.rules, before, learnt, w);
    FlatStands(service, lesson.order, lesson.listed, BodiesOf(lesson.rules, before, w), learnt + Learnt(lesson.rules),
               w);
  }

  /** Where no name breaks a line and no two event names differ only in case, every section of the run stands and no
      bullet opens a block. */
  lemma {:induction false} FlatRunStands(service: string, lessons: seq<Lesson>, w: Wording, files: seq<File>)
    requires RenderedBy(service, lessons, w, files) && AllEventNames(lessons)
    requires FlatLessons(lessons) && FlatWording(w) && Flat(service) && CaseDistinct(LastLearnt(lessons).Keys)
    ensures AllStandAlong(service, lessons, w, files)
    ensures forall e :: e in LastLearnt(lessons) ==> NoOpeners(Bullets(LastLearnt(lessons)[e], w))
    decreases |lessons|
  {
    LearntFlat(lessons);
    forall e | e in LastLearnt(lessons) ensures NoOpeners(Bullets(LastLearnt(lessons)[e], w)) {
      FlatBody(LastLearnt(lessons)[e], w, e);
    }
    if lessons != [] {
      var n := |lessons| - 1;
      assert lessons[n] in lessons && forall l :: l in lessons[..n] ==> l in lessons;
      FlatRunStands(service, lessons[..n], w, files[..n]);
      RunSaysExactly(service, lessons[..n], w, files[..n]);
      SaysLast(lessons[..n], w, files[..n]);
      LearntNames(lessons);
      NextFlatStands(service, lessons[n], w, LastFile(files[..n]), files[n], LastLearnt(lessons[..n]));
    }
  }

  // ----- what goes wrong otherwise

  lemma {:induction false} HeadingsUpToCase(lines: seq<Line>, one: string, other: string)
    requires Lower(one) == Lower(other)
    ensures AfterHeading(lines, one) == AfterHeading(lines, other)
  {
    assert |Lower(one)| == |one| == |other|;
    if lines != [] { HeadingsUpToCase(lines[1..], one, other); }
  }

  lemma {:induction false} BehindOtherSpelling(order: seq<string>, bodies: Bodies, i: nat, j: nat)
    requires i < j < |order| && order[j] !in order[..j] && Lower(order[i]) == Lower(order[j])
    requires forall e :: e in order ==> e in bodies
    ensures !Reached(order, bodies, order[j])
  {
    assert order[0] in order[..j];
    if i > 0 {
      assert forall e :: e in order[1..][..j - 1] ==> e in order[..j];
      BehindOtherSpelling(order[1..], bodies, i - 1, j - 1);
    }
  }

  /** Of two names that differ only in case, the one printed second is never read: whatever its section says, for both
      events the same lines are read. */
  lemma SecondSpellingIsHidden(before: seq<Line>, order: seq<string>, bodies: Bodies, i: nat, j: nat)
    requires IsOrder(order, bodies.Keys) && AllNames(bodies.Keys)
    requires i < j < |order| && Lower(order[i]) == Lower(order[j])
    ensures NeverRead(before, order, bodies, order[j])
    ensures Section(Printed(before, order, bodies), order[j]) == Section(Printed(before, order, bodies), order[i])
  {
    BehindOtherSpelling(order, bodies, i, j);
    OwnSectionIsReadIff(before, order, bodies, order[j]);
    HeadingsUpToCase(Printed(before, order, bodies), order[i], order[j]);
  }

  lemma OneLine(s: string)
    requires s != "" && !Space(s[0]) && !Space(s[|s| - 1]) && s[0] != '#'
    ensures Whole([Text(s)])
  {
    assert s[0] in s;
  }

  lemma WholeSection(body: seq<Line>)
    requires Whole(body)
    ensures Strip(UntilNext(body)) == body
  {
    StandsIffNoEnds(body);
  }

  /** A hand-edited section in which a mark is indented, so that it ends nothing. */
  function Indented(event: string): File {
    File([event], [Heading(event)] + [Text(" ## x"), Text("y")])
  }

  lemma IndentedSection(event: string)
    requires EventName(event)
    ensures Section(Indented(event).text, event) == [Text("## x"), Text("y")]
  {
    var rest := [Text(" ## x"), Text("y")];
    SectionUnderName(event, rest, event);
    IndentedStrips(Text(" ## x"), Text("y"));
  }

  lemma IndentedStrips(first: Line, last: Line)
    requires first == Text(" ## x") && last == Text("y")
    ensures Strip(UntilNext([first, last])) == [Text("## x"), Text("y")]
  {
    assert first.s[0] == ' ' && first.s[1] in first.s && last.s[0] == 'y' && last.s[0] in last.s;
    TwoLines(first, last);
    SkipSpace("## x");
    assert " " + "## x" == first.s;
  }

  lemma TwoLines(first: Line, last: Line)
    requires !EndsSection(first) && !EndsSection(last) && !Blank(first) && !Blank(last)
    ensures Strip(UntilNext([first, last])) == [TrimmedLeft(first), TrimmedRight(last)]
  {
    UntilNextAppend([first, last], []);
    assert [first, last] + [] == [first, last];
    assert TrimEnds([first, last]) == [TrimmedLeft(first), TrimmedRight(last)];
  }

  /** Stripping moves the mark to the start of its line. When the file is rendered again it ends the section before its
      first word: nothing is read of a kept section, which validate_learned_skill then refuses. */
  lemma IndentedMarkIsLost(service: string, rules: seq<Accepted>, order: seq<string>, listed: seq<string>, w: Wording,
                           event: string)
    requires FlatWording(w) && Flat(service) && FlatParts(listed) && EventName(event) && event !in EventsOf(rules)
    requires IsOrder(order, BodiesOf(rules, Some(Indented(event)), w).Keys) && AllNames(EventsOf(rules))
    requires order != [] && order[0] == event
    ensures Section(Indented(event).text, event) != []
    ensures Section(Render(service, rules, Some(Indented(event)), order, listed, w).text, event) == []
  {
    IndentedSection(event);
    MarkEnds(Text("## x"));
    FirstLineEnds(service, rules, Indented(event), order, listed, w);
  }

  lemma MarkEnds(line: Line)
    requires line == Text("## x")
    ensures EndsSection(line)
  {
    assert line.s[..2] == MARK && line.s[2] == ' ';
  }

  lemma FirstLineEnds(service: string, rules: seq<Accepted>, existing: File, order: seq<string>, listed: seq<string>,
                      w: Wording)
    requires FlatWording(w) && Flat(service) && FlatParts(listed)
    requires var bodies := BodiesOf(rules, Some(existing), w); IsOrder(order, bodies.Keys) && AllNames(bodies.Keys)
    requires order != [] && order[0] in existing.events && order[0] !in EventsOf(rules)
    requires Section(existing.text, order[0]) != [] && EndsSection(Section(existing.text, order[0])[0])
    ensures Section(Render(service, rules, Some(existing), order, listed, w).text, order[0]) == []
  {
    var bodies := BodiesOf(rules, Some(existing), w);
    OrderFlat(order, bodies.Keys);
    FlatPreamble(service, order, listed, w, order[0]);
    PrintedReadExactly(Preamble(service, order, listed, w), order, bodies, order[0]);
  }

  /** Without the space a line is a heading, but ends no section. */
  function Unspaced(event: string): Line {
    Text("##event:" + event)
  }

  lemma UnspacedFits(event: string, rest: seq<Line>)
    requires EventName(event)
    ensures MatchHeading([Unspaced(event)] + rest, event) == Some(rest) && !EndsSection(Unspaced(event))
  {
    var lines := [Unspaced(event)] + rest;
    var s := "##event:" + event;
    IdCharIsNoSpace(event[0]);
    assert lines[0].s == s && lines[1..] == rest;
    UnspacedText(event, s);
    NameFits(event, event);
  }

  lemma UnspacedText(event: string, s: string)
    requires s == "##event:" + event
    ensures MARK <= s && s[2..] == "event:" + event && TrimLeft(s[2..]) == s[2..] && !Space(s[2])
    ensures s[2..][..6] == EVENT && s[2..][6..] == event
  {
    assert s[2] == 'e';
  }

  /** A hand-edited file whose second section quotes such a heading for the first. */
  function Quoting(event: string, other: string): File {
    File([event, other],
         [Heading(event)] + ([Text("one")] + ([Heading(other)] + ([Unspaced(event)] + [Text("two")]))))
  }

  lemma QuotingSections(event: string, other: string)
    requires EventName(event) && EventName(other) && Lower(event) != Lower(other)
    ensures Section(Quoting(event, other).text, event) == [Text("one")]
    ensures Section(Quoting(event, other).text, other) == [Unspaced(event)] + [Text("two")]
  {
    OneLine("one");
    QuoteIsWhole(event);
    TwoSections(event, other, [Text("one")], [Unspaced(event)] + [Text("two")]);
  }

  lemma TwoSections(event: string, other: string, one: seq<Line>, two: seq<Line>)
    requires EventName(event) && EventName(other) && Lower(event) != Lower(other)
    requires Whole(one) && Whole(two) && AfterHeading(one, other).None?
    ensures Section([Heading(event)] + (one + ([Heading(other)] + two)), event) == one
    ensures Section([Heading(event)] + (one + ([Heading(other)] + two)), other) == two
  {
    var second := [Heading(other)] + two;
    SectionUnderName(event, one + second, event);
    SectionUnderName(event, one + second, other);
    HeadingEnds(other);
    SectionAlone(one, second);
    SectionAppend(one, second, other);
    WholeSection(one);
    SectionUnderName(other, two, other);
    WholeSection(two);
  }

  lemma QuoteIsWhole(event: string)
    requires EventName(event)
    ensures Whole([Unspaced(event)] + [Text("two")])
  {
    UnspacedFits(event, []);
    var s, two := "##event:" + event, "two";
    assert s[0] in s && !Space(s[0]) && two[0] in two && !Space(two[0]) && !Space(two[2]);
  }

  /** Sections are printed in the order of their names. When the quoting one comes first, what it says after the quoted
      heading is read in place of the other section, which is still there. */
  lemma QuotedHeadingTakesOver(service: string, rules: seq<Accepted>, order: seq<string>, listed: seq<string>,
                               w: Wording,
                               event: string, other: string)
    requires FlatWording(w) && Flat(service) && FlatParts(listed) && EventName(event) && EventName(other)
    requires Lower(event) != Lower(other) && event !in EventsOf(rules) && other !in EventsOf(rules)
    requires IsOrder(order, BodiesOf(rules, Some(Quoting(event, other)), w).Keys) && AllNames(EventsOf(rules))
    requires order != [] && order[0] == other
    ensures Section(Quoting(event, other).text, event) == [Text("one")]
    ensures Section(Render(service, rules, Some(Quoting(event, other)), order, listed, w).text, event) == [Text("two")]
  {
    QuotingSections(event, other);
    WholeTwo();
    FirstBodyTakesOver(service, rules, Quoting(event, other), order, listed, w, event, [Text("two")]);
  }

  lemma WholeTwo()
    ensures Strip(UntilNext([Text("two")])) == [Text("two")]
  {
    OneLine("two");
    WholeSection([Text("two")]);
  }

  /** A kept section that is printed first and begins with such a heading is read for the other event. */
  lemma FirstBodyTakesOver(service: string, rules: seq<Accepted>, existing: File, order: seq<string>,
                           listed: seq<string>, w: Wording, event: string, rest: seq<Line>)
    requires FlatWording(w) && Flat(service) && FlatParts(listed) && EventName(event)
    requires var bodies := BodiesOf(rules, Some(existing), w); IsOrder(order, bodies.Keys) && AllNames(bodies.Keys)
    requires order != [] && order[0] in existing.events && order[0] !in EventsOf(rules)
    requires Lower(event) != Lower(order[0]) && Section(existing.text, order[0]) == [Unspaced(event)] + rest
    ensures Section(Render(service, rules, Some(existing), order, listed, w).text, event) == Strip(UntilNext(rest))
  {
    var bodies := BodiesOf(rules, Some(existing), w);
    OrderFlat(order, bodies.Keys);
    FlatPreamble(service, order, listed, w, event);
    TakenOver(Preamble(service, order, listed, w), order, bodies, event, rest);
  }

  lemma TakenOver(before: seq<Line>, order: seq<string>, bodies: Bodies, event: string, rest: seq<Line>)
    requires EventName(event) && forall e :: e in order ==> e in bodies && EventName(e)
    requires order != [] && Lower(order[0]) != Lower(event) && bodies[order[0]] == [Unspaced(event)] + rest
    requires AfterHeading(before, event).None?
    ensures Section(Printed(before, order, bodies), event) == Strip(UntilNext(rest))
  {
    PrintedReadExactly(before, order, bodies, event);
    UnspacedFits(event, rest);
  }

  lemma OneRule(a: Accepted, w: Wording)
    ensures BodiesOf([a], None, w) == map[a.event := Body([a], w)]
  {
    OneSorted(a);
    var bodies := Relearnt([a], w);
    assert a in [a] && EventsOf([a]) == {a.event};
    assert bodies.Keys == {a.event} && bodies[a.event] == Body([a], w);
    assert BodiesOf([a], None, w) == bodies + map[] == bodies;
  }

  lemma OneSorted(a: Accepted)
    ensures OfEvent(BySupport([a]), a.event) == [a]
  {
    assert [a][1..] == [] && BySupport([]) == [];
    assert InsertRule(a, []) == [a] + [] == [a];
    assert OfEvent([a], a.event) == [a] + [];
  }

  /** A field name may hold a line break; it is printed as it is. With a mark behind the break the file is written,
      lists the event, and gives no rule for it. */
  lemma LineBreakLosesRule(service: string, a: Accepted, listed: seq<string>, w: Wording, x: string, y: string,
                           parse: seq<Line> -> Reading)
    requires FlatWording(w) && Flat(service) && FlatParts(listed) && EventName(a.event)
    requires a.rule.when != [] && Flat(x) && "## " <= y && a.rule.when[0].field == x + ("\n" + y)
    ensures IsOrder([a.event], BodiesOf([a], None, w).Keys)
    ensures SectionRules(Section(Render(service, [a], None, [a.event], listed, w).text, a.event), parse) == Read([])
  {
    OneRule(a, w);
    LineBreakLosesRules([a], w, x, y, parse);
    OnlyRender(service, a, listed, w);
  }

  lemma OnlyRender(service: string, a: Accepted, listed: seq<string>, w: Wording)
    requires FlatWording(w) && Flat(service) && FlatParts(listed) && EventName(a.event)
    requires IsOrder([a.event], BodiesOf([a], None, w).Keys)
    ensures Section(Render(service, [a], None, [a.event], listed, w).text, a.event) == Strip(UntilNext(Body([a], w)))
  {
    OneRule(a, w);
    OneNameFlat(a.event);
    var order := [a.event];
    FlatPreamble(service, order, listed, w, a.event);
    OnlySection(Preamble(service, order, listed, w), a.event, Body([a], w));
  }

  lemma OneNameFlat(event: string)
    requires EventName(event)
    ensures FlatParts([event])
  {
  }

  lemma OnlySection(before: seq<Line>, event: string, body: seq<Line>)
    requires EventName(event) && AfterHeading(before, event).None?
    ensures Section(Printed(before, [event], map[event := body]), event) == Strip(UntilNext(body))
  {
    PrintedReadExactly(before, [event], map[event := body], event);
  }

  /** A field can bring a heading for another event. Printed first, its section hides the other's: what that says is
      never read. */
  lemma LineBreakHidesOther(before: seq<Line>, order: seq<string>, bodies: Bodies, a: Accepted, w: Wording, x: string,
                            other: string)
    requires (forall e :: e in order ==> e in bodies && EventName(e)) && other in order
    requires order[0] == a.event != other && bodies[a.event] == Body([a], w)
    requires a.rule.when != [] && Flat(x) && a.rule.when[0].field == x + ("\n" + ("## event: " + other + "\n"))
    ensures NeverRead(before, order, bodies, other)
  {
    LineBreakPrintsHeading(a, w, x, other);
    OwnSectionIsReadIff(before, order, bodies, other);
  }
}

/** How a learned SKILL.md is read (autonomy/learning.py: skill_section, section_rules). A file is a sequence of lines;
    a rule list dumped as JSON is one line, because JSON strings escape control characters (section 7 of RFC 8259). */
module SkillText {
  import opened Wrappers
  import opened JsonValues
  import opened Rules

  datatype Line = Text(s: string) | Dump(rules: seq<Rule>)

  // ----- characters

  /** What `\s` and str.strip() take for a space. */
  predicate Space(c: char) {
    var n := c as int;
    || 9 <= n <= 13 || 28 <= n <= 32 || n == 0x85 || n == 0xA0 || n == 0x1680 || 0x2000 <= n <= 0x200A
    || n == 0x2028 || n == 0x2029 || n == 0x202F || n == 0x205F || n == 0x3000
  }

  predicate AllSpace(s: string) {
    forall c :: c in s ==> Space(c)
  }

  function TrimLeft(s: string): string {
    if s != "" && Space(s[0]) then TrimLeft(s[1..]) else s
  }

  function TrimRight(s: string): string {
    if s != "" && Space(s[|s| - 1]) then TrimRight(s[..|s| - 1]) else s
  }

  function LowerChar(c: char): char {
    if 'A' <= c <= 'Z' then ((c as int) + 32) as char else c
  }

  function Lower(s: string): (r: string)
    ensures |r| == |s| && forall i :: 0 <= i < |s| ==> r[i] == LowerChar(s[i])
  {
    seq(|s|, i requires 0 <= i < |s| => LowerChar(s[i]))
  }

  /** A name the journal accepts, without the final line break its pattern lets through. */
  predicate EventName(s: string) {
    s != "" && forall c :: c in s ==> IdChar(c)
  }

  // ----- headings

  const MARK := "##"
  const EVENT := "event:"

  predicate PrefixIgnoringCase(p: string, s: string) {
    |p| <= |s| && Lower(s[..|p|]) == Lower(p)
  }

  /** What `\s*` leaves of a text and the lines after it: it skips line breaks as well. None where a dumped list or the
      end of the file comes first. */
  function SkipSpaces(s: string, lines: seq<Line>): (r: Option<(string, seq<Line>)>)
    ensures r.Some? ==> r.value.0 != ""
    decreases |lines|
  {
    if TrimLeft(s) != "" then Some((TrimLeft(s), lines))
    else if lines == [] || !lines[0].Text? then None
    else SkipSpaces(lines[0].s, lines[1..])
  }

  /** `##`, spaces, `event:`, spaces, the name, spaces up to the end of a line; letters in any case. The lines after a
      heading that begins with the first line. */
  function MatchHeading(lines: seq<Line>, event: string): Option<seq<Line>> {
    if lines == [] || !lines[0].Text? || !(MARK <= lines[0].s) then None
    else
      var a := SkipSpaces(lines[0].s[2..], lines[1..]);
      if a.None? || !PrefixIgnoringCase(EVENT, a.value.0) then None
      else
        var b := SkipSpaces(a.value.0[6..], a.value.1);
        if b.None? || !PrefixIgnoringCase(event, b.value.0) || !AllSpace(b.value.0[|event|..]) then None
        else Some(b.value.1)
  }

  /** A line that ends the section before it. */
  predicate EndsSection(line: Line) {
    line.Text? && MARK <= line.s && (|line.s| == 2 || Space(line.s[2]))
  }

  /** The lines after the first heading of the event. */
  function AfterHeading(lines: seq<Line>, event: string): Option<seq<Line>> {
    if lines == [] then None
    else if MatchHeading(lines, event).Some? then MatchHeading(lines, event)
    else AfterHeading(lines[1..], event)
  }

  function UntilNext(lines: seq<Line>): seq<Line> {
    if lines == [] || EndsSection(lines[0]) then [] else [lines[0]] + UntilNext(lines[1..])
  }

  // ----- strip

  predicate Blank(line: Line) {
    line.Text? && AllSpace(line.s)
  }

  function DropBlank(lines: seq<Line>): seq<Line> {
    if lines != [] && Blank(lines[0]) then DropBlank(lines[1..]) else lines
  }

  function DropBlankEnd(lines: seq<Line>): seq<Line> {
    if lines != [] && Blank(lines[|lines| - 1]) then DropBlankEnd(lines[..|lines| - 1]) else lines
  }

  function TrimmedLeft(line: Line): Line {
    if line.Text? then Text(TrimLeft(line.s)) else line
  }

  function TrimmedRight(line: Line): Line {
    if line.Text? then Text(TrimRight(line.s)) else line
  }

  function TrimEnds(lines: seq<Line>): seq<Line> {
    if lines == [] then []
    else
      var first := [TrimmedLeft(lines[0])] + lines[1..];
      first[..|lines| - 1] + [TrimmedRight(first[|lines| - 1])]
  }

  function Strip(lines: seq<Line>): seq<Line> {
    TrimEnds(DropBlankEnd(DropBlank(lines)))
  }

  /** skill_section: the stripped body of the first section for the event; empty when there is none. */
  function Section(lines: seq<Line>, event: string): seq<Line> {
    var rest := AfterHeading(lines, event);
    if rest.None? then [] else Strip(UntilNext(rest.value))
  }

  // ----- section_rules

  const TICKS := "```"
  const FENCE := "```json"

  /** Where the first three backticks of a text begin. */
  function FindTicks(s: string): (k: Option<nat>)
    ensures k.Some? ==> k.value + 3 <= |s|
  {
    if |s| < 3 then None
    else if s[..3] == TICKS then Some(0)
    else
      var k := FindTicks(s[1..]);
      if k.Some? then Some(k.value + 1) else None
  }

  predicate Ticks(s: string) {
    FindTicks(s).Some?
  }

  predicate JsonTicks(j: Json) {
    match j
    case Str(s) => Ticks(s)
    case Arr(items) => exists i :: 0 <= i < |items| && JsonTicks(items[i])
    case Obj(members) => exists i :: 0 <= i < |members| && (Ticks(members[i].0) || JsonTicks(members[i].1))
    case _ => false
  }

  predicate ConditionTicks(c: Condition) {
    Ticks(c.field) || JsonTicks(c.value)
  }

  /** A dumped rule has three backticks in a row exactly when one of its strings has: quotes separate strings. */
  predicate RuleTicks(r: Rule) {
    || Ticks(r.tool)
    || (exists c :: c in r.when + r.whenAny && ConditionTicks(c))
    || (exists m :: m in r.settings && (Ticks(m.0) || JsonTicks(m.1)))
  }

  predicate RulesTicks(rules: seq<Rule>) {
    exists r :: r in rules && RuleTicks(r)
  }

  /** A line whose end opens a block: three backticks, `json`, spaces. */
  predicate OpensBlock(line: Line) {
    line.Text? && EndsWith(TrimRight(line.s), FENCE)
  }

  /** What follows the line that opens the first block; a last line opens none, its line break is missing. */
  function AfterFence(lines: seq<Line>): Option<seq<Line>> {
    if |lines| <= 1 then None else if OpensBlock(lines[0]) then Some(lines[1..]) else AfterFence(lines[1..])
  }

  /** A block up to the first three backticks. CutShort: they lie inside a string of a dumped list. */
  datatype Block = Unclosed | CutShort | Closed(content: seq<Line>)

  function BlockOf(lines: seq<Line>): Block {
    if lines == [] then Unclosed
    else if lines[0].Dump? && RulesTicks(lines[0].rules) then CutShort
    else if lines[0].Text? && Ticks(lines[0].s) then Closed([Text(lines[0].s[..FindTicks(lines[0].s).value])])
    else
      var rest := BlockOf(lines[1..]);
      if rest.Closed? then Closed([lines[0]] + rest.content) else rest
  }

  function NonBlank(lines: seq<Line>): seq<Line> {
    if lines == [] then [] else (if Blank(lines[0]) then [] else [lines[0]]) + NonBlank(lines[1..])
  }

  /** Malformed is a JSON error, which reaches the caller. */
  datatype Reading = Malformed | Read(rules: seq<Rule>)

  /** section_rules; `parse` is json.loads on a block that is not simply one dumped list. */
  function SectionRules(section: seq<Line>, parse: seq<Line> -> Reading): Reading {
    var rest := AfterFence(section);
    if rest.None? then Read([])
    else
      match BlockOf(rest.value)
      case Unclosed => Read([])
      case CutShort => Malformed
      case Closed(content) =>
        var lines := NonBlank(content);
        if |lines| == 1 && lines[0].Dump? then Read(lines[0].rules) else parse(lines)
  }

  // ----- facts about reading

  lemma {:induction false} TrimLeftFixed(s: string)
    ensures var t := TrimLeft(s); (t == "" || !Space(t[0])) && |t| <= |s| && (AllSpace(s) <==> t == "")
  {
    if s != "" && Space(s[0]) {
      assert s == [s[0]] + s[1..];
      TrimLeftFixed(s[1..]);
    }
  }

  lemma {:induction false} TrimRightFixed(s: string)
    ensures var t := TrimRight(s); (t == "" || !Space(t[|t| - 1])) && t <= s && (AllSpace(s) <==> t == "")
  {
    if s != "" && Space(s[|s| - 1]) {
      assert s == s[..|s| - 1] + [s[|s| - 1]];
      TrimRightFixed(s[..|s| - 1]);
    }
  }

  lemma IdCharIsNoSpace(c: char)
    requires IdChar(c)
    ensures !Space(c)
  {
  }

  lemma SkipSpace(s: string)
    requires s != "" && !Space(s[0])
    ensures TrimLeft(" " + s) == s
  {
    assert (" " + s)[1..] == s;
  }

  function Heading(event: string): Line {
    Text("## event: " + event)
  }

  /** The heading written for one name is read as that of another exactly when the names differ only in case. */
  lemma HeadingFits(name: string, event: string, rest: seq<Line>)
    requires EventName(name) && EventName(event)
    ensures MatchHeading([Heading(name)] + rest, event) == if Lower(name) == Lower(event) then Some(rest) else None
  {
    var lines := [Heading(name)] + rest;
    HeadingParts(name);
    assert lines[0] == Heading(name) && lines[1..] == rest;
    SkipSpace(EVENT + (" " + name));
    EventParts(EVENT, name);
    IdCharIsNoSpace(name[0]);
    SkipSpace(name);
    NameFits(name, event);
  }

  lemma HeadingParts(name: string)
    ensures var s := Heading(name).s; MARK <= s && s[2..] == " " + (EVENT + (" " + name))
  {
    assert "## event: " == MARK + " " + EVENT + " ";
  }

  lemma EventParts(event: string, name: string)
    requires |event| == 6
    ensures var s := event + (" " + name); s[..6] == event && s[6..] == " " + name
  {
  }

  lemma NameFits(name: string, event: string)
    requires EventName(name) && EventName(event)
    ensures PrefixIgnoringCase(event, name) && AllSpace(name[|event|..]) <==> Lower(name) == Lower(event)
  {
    if |event| < |name| {
      var c := name[|event|];
      assert c in name && c in name[|event|..];
      IdCharIsNoSpace(c);
    } else if |event| == |name| {
      assert name[..|event|] == name;
    }
  }

  /** Strip leaves such a body alone. */
  predicate Stripped(lines: seq<Line>) {
    lines != [] ==>
      && !Blank(lines[0]) && TrimmedLeft(lines[0]) == lines[0]
      && !Blank(lines[|lines| - 1]) && TrimmedRight(lines[|lines| - 1]) == lines[|lines| - 1]
  }

  lemma {:induction false} DropTail(lines: seq<Line>, tail: seq<Line>)
    requires forall l :: l in tail ==> Blank(l)
    ensures DropBlankEnd(lines + tail) == DropBlankEnd(lines)
    decreases |tail|
  {
    if tail == [] {
      assert lines + tail == lines;
    } else {
      var n := |tail| - 1;
      assert tail[n] in tail && forall l :: l in tail[..n] ==> l in tail;
      assert (lines + tail)[..|lines + tail| - 1] == lines + tail[..n];
      DropTail(lines, tail[..n]);
    }
  }

  lemma StripStripped(lines: seq<Line>, tail: seq<Line>)
    requires lines != [] && Stripped(lines) && forall l :: l in tail ==> Blank(l)
    ensures Strip(lines + tail) == lines
  {
    assert DropBlank(lines + tail) == lines + tail;
    DropTail(lines, tail);
    assert [lines[0]] + lines[1..] == lines;
  }

  // ----- reading text in which sections follow one another

  /** Blank lines up to the next section or the end. */
  predicate ClosedTail(lines: seq<Line>) {
    lines == [] || EndsSection(lines[0]) || (Blank(lines[0]) && ClosedTail(lines[1..]))
  }

  predicate NoEnds(lines: seq<Line>) {
    forall l :: l in lines ==> !EndsSection(l)
  }

  lemma {:induction false} UntilTail(tail: seq<Line>)
    requires ClosedTail(tail)
    ensures forall l :: l in UntilNext(tail) ==> Blank(l)
  {
    if tail != [] && !EndsSection(tail[0]) { UntilTail(tail[1..]); }
  }

  lemma {:induction false} UntilNextAppend(lines: seq<Line>, tail: seq<Line>)
    ensures UntilNext(lines + tail) == if NoEnds(lines) then lines + UntilNext(tail) else UntilNext(lines)
    ensures NoEnds(lines) ==> UntilNext(lines) == lines
    ensures |UntilNext(lines)| <= |lines| && (!NoEnds(lines) ==> |UntilNext(lines)| < |lines|)
    ensures forall l :: l in UntilNext(lines) ==> l in lines
  {
    if lines == [] {
      assert lines + tail == tail;
    } else {
      assert (lines + tail)[0] == lines[0] && (lines + tail)[1..] == lines[1..] + tail;
      assert forall l :: l in lines <==> l == lines[0] || l in lines[1..];
      UntilNextAppend(lines[1..], tail);
      if !EndsSection(lines[0]) {
        assert [lines[0]] + (lines[1..] + UntilNext(tail)) == lines + UntilNext(tail);
        assert [lines[0]] + lines[1..] == lines;
      }
    }
  }

  /** What follows a section does not show in it. */
  lemma SectionAlone(lines: seq<Line>, tail: seq<Line>)
    requires ClosedTail(tail)
    ensures Strip(UntilNext(lines + tail)) == Strip(UntilNext(lines))
  {
    UntilNextAppend(lines, tail);
    if NoEnds(lines) {
      UntilTail(tail);
      StripTail(lines, UntilNext(tail));
    }
  }

  lemma {:induction false} StripTail(lines: seq<Line>, tail: seq<Line>)
    requires forall l :: l in tail ==> Blank(l)
    ensures Strip(lines + tail) == Strip(lines)
  {
    DropBlankAppend(lines, tail);
    if DropBlank(lines) != [] {
      DropTail(DropBlank(lines), tail);
    }
  }

  lemma {:induction false} DropBlankAppend(lines: seq<Line>, tail: seq<Line>)
    requires forall l :: l in tail ==> Blank(l)
    ensures DropBlank(lines + tail) == if DropBlank(lines) == [] then [] else DropBlank(lines) + tail
  {
    if lines == [] {
      assert lines + tail == tail;
      AllBlank(tail);
    } else {
      assert (lines + tail)[0] == lines[0] && (lines + tail)[1..] == lines[1..] + tail;
      DropBlankAppend(lines[1..], tail);
    }
  }

  lemma {:induction false} AllBlank(lines: seq<Line>)
    requires forall l :: l in lines ==> Blank(l)
    ensures DropBlank(lines) == []
  {
    if lines != [] {
      assert lines[0] in lines && forall l :: l in lines[1..] ==> l in lines;
      AllBlank(lines[1..]);
    }
  }

  /** Nothing but a heading mark, or the end, can follow where a search for spaces runs into the tail. */
  lemma {:induction false} SkipIntoTail(s: string, tail: seq<Line>)
    requires ClosedTail(tail) && TrimLeft(s) == ""
    ensures var r := SkipSpaces(s, tail); r.Some? ==> r.value.0[0] == '#'
    decreases |tail|
  {
    if tail != [] && tail[0].Text? {
      TrimLeftFixed(tail[0].s);
      if TrimLeft(tail[0].s) == "" {
        SkipIntoTail(tail[0].s, tail[1..]);
      } else {
        assert EndsSection(tail[0]) && tail[0].s[0] == MARK[0];
      }
    }
  }

  lemma {:induction false} SkipSpacesAppend(s: string, lines: seq<Line>, tail: seq<Line>)
    requires ClosedTail(tail)
    ensures var r := SkipSpaces(s, lines);
            if r.Some? then SkipSpaces(s, lines + tail) == Some((r.value.0, r.value.1 + tail))
            else SkipSpaces(s, lines + tail).Some? ==> SkipSpaces(s, lines + tail).value.0[0] == '#'
    decreases |lines|
  {
    if TrimLeft(s) == "" {
      if lines == [] {
        assert lines + tail == tail;
        SkipIntoTail(s, tail);
      } else {
        assert (lines + tail)[0] == lines[0] && (lines + tail)[1..] == lines[1..] + tail;
        if lines[0].Text? {
          SkipSpacesAppend(lines[0].s, lines[1..], tail);
        }
      }
    }
  }

  lemma NoMark(p: string, s: string)
    requires EventName(p) || p == EVENT
    requires s != "" && s[0] == '#'
    ensures !PrefixIgnoringCase(p, s)
  {
    assert p[0] in p && LowerChar('#') == '#' && LowerChar(p[0]) != '#';
    if |p| <= |s| {
      assert Lower(s[..|p|])[0] == '#' && Lower(p)[0] == LowerChar(p[0]);
    }
  }

  /** No heading reaches from one section into the next. */
  lemma MatchAppend(lines: seq<Line>, tail: seq<Line>, event: string)
    requires lines != [] && ClosedTail(tail) && EventName(event)
    ensures var r := MatchHeading(lines, event);
            MatchHeading(lines + tail, event) == if r.Some? then Some(r.value + tail) else None
  {
    assert (lines + tail)[0] == lines[0] && (lines + tail)[1..] == lines[1..] + tail;
    if lines[0].Text? && MARK <= lines[0].s {
      var s := lines[0].s[2..];
      SkipSpacesAppend(s, lines[1..], tail);
      var a := SkipSpaces(s, lines[1..]);
      if a.None? {
        var b := SkipSpaces(s, lines[1..] + tail);
        if b.Some? { NoMark(EVENT, b.value.0); }
      } else if PrefixIgnoringCase(EVENT, a.value.0) {
        NameAfter(a.value.0[6..], a.value.1, tail, event);
      }
    }
  }

  lemma NameAfter(s: string, lines: seq<Line>, tail: seq<Line>, event: string)
    requires ClosedTail(tail) && EventName(event)
    ensures var a, b := SkipSpaces(s, lines), SkipSpaces(s, lines + tail);
            if a.Some? then b == Some((a.value.0, a.value.1 + tail))
            else b.Some? ==> !PrefixIgnoringCase(event, b.value.0)
  {
    SkipSpacesAppend(s, lines, tail);
    var b := SkipSpaces(s, lines + tail);
    if SkipSpaces(s, lines).None? && b.Some? { NoMark(event, b.value.0); }
  }

  lemma {:induction false} AfterHeadingAppend(lines: seq<Line>, tail: seq<Line>, event: string)
    requires ClosedTail(tail) && EventName(event)
    ensures var r := AfterHeading(lines, event);
            AfterHeading(lines + tail, event) == if r.Some? then Some(r.value + tail) else AfterHeading(tail, event)
  {
    if lines == [] {
      assert lines + tail == tail;
    } else {
      MatchAppend(lines, tail, event);
      assert (lines + tail)[1..] == lines[1..] + tail;
      AfterHeadingAppend(lines[1..], tail, event);
    }
  }

  /** Without heading marks there is no heading. */
  lemma {:induction false} UnmarkedHasNoHeading(lines: seq<Line>, event: string)
    requires forall l :: l in lines && l.Text? ==> !(MARK <= l.s)
    ensures AfterHeading(lines, event).None? && NoEnds(lines)
  {
    if lines != [] {
      assert lines[0] in lines && forall l :: l in lines[1..] ==> l in lines;
      UnmarkedHasNoHeading(lines[1..], event);
    }
  }

  // ----- strip gives a stripped body

  lemma {:induction false} DropBlankFirst(lines: seq<Line>)
    ensures var d := DropBlank(lines); d != [] ==> !Blank(d[0])
  {
    if lines != [] && Blank(lines[0]) { DropBlankFirst(lines[1..]); }
  }

  lemma {:induction false} DropBlankLast(lines: seq<Line>)
    ensures var d := DropBlankEnd(lines); d <= lines && (d != [] ==> !Blank(d[|d| - 1]))
  {
    if lines != [] && Blank(lines[|lines| - 1]) { DropBlankLast(lines[..|lines| - 1]); }
  }

  lemma TrimBoth(s: string)
    requires !AllSpace(s)
    ensures var t := TrimRight(TrimLeft(s)); !AllSpace(t) && TrimLeft(t) == t && TrimRight(t) == t
    ensures !AllSpace(TrimLeft(s)) && TrimLeft(TrimLeft(s)) == TrimLeft(s)
    ensures !AllSpace(TrimRight(s)) && TrimRight(TrimRight(s)) == TrimRight(s)
  {
    TrimLeftFixed(s);
    TrimLeftFixed(TrimLeft(s));
    TrimRightFixed(s);
    TrimRightFixed(TrimLeft(s));
    var u, t := TrimLeft(s), TrimRight(TrimLeft(s));
    assert u[0] in u && t[0] == u[0] && t[0] in t;
    var r := TrimRight(s);
    assert r[|r| - 1] in r;
  }

  lemma StripIsStripped(lines: seq<Line>)
    ensures Stripped(Strip(lines))
  {
    DropBlankFirst(lines);
    DropBlankLast(DropBlank(lines));
    EndsTrimmed(DropBlankEnd(DropBlank(lines)));
  }

  lemma EndsTrimmed(lines: seq<Line>)
    requires lines != [] ==> !Blank(lines[0]) && !Blank(lines[|lines| - 1])
    ensures Stripped(TrimEnds(lines))
  {
    if lines != [] {
      var n := |lines| - 1;
      TrimmedLine(lines[0]);
      TrimmedLine(lines[n]);
      if n > 0 {
        assert TrimEnds(lines)[0] == TrimmedLeft(lines[0]) && TrimEnds(lines)[n] == TrimmedRight(lines[n]);
      } else {
        assert TrimEnds(lines) == [TrimmedRight(TrimmedLeft(lines[0]))];
      }
    }
  }

  lemma TrimmedLine(line: Line)
    requires !Blank(line)
    ensures var left, right := TrimmedLeft(line), TrimmedRight(line);
            && !Blank(left) && TrimmedLeft(left) == left && !Blank(right) && TrimmedRight(right) == right
    ensures var both := TrimmedRight(TrimmedLeft(line));
            !Blank(both) && TrimmedLeft(both) == both && TrimmedRight(both) == both
  {
    if line.Text? { TrimBoth(line.s); }
  }
}

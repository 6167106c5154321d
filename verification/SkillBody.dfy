/** The section render_skill (autonomy/learning.py) prints for one event, and when it reads back. Field, tool and
    argument names are printed as they are, so that one with a line break puts lines of its own into the section. */
module SkillBody {
  import opened Wrappers
  import opened JsonValues
  import opened Rules
  import opened SkillText
  import opened Verification
  import opened RuleOrder

  /** How values, counts, the sanitised intent of a rule and the standing texts are worded. */
  datatype Wording = Wording(dumps: Json -> string, number: nat -> string, intent: Accepted -> string, advice: string,
                             description: string, introduction: string)

  predicate Flat(s: string) {
    '\n' !in s && '\r' !in s
  }

  // ----- the lines of a text

  function LineEnd(s: string): (n: nat)
    ensures n <= |s| && (n == |s| <==> Flat(s)) && Flat(s[..n])
  {
    if s == "" then 0
    else
      assert s == [s[0]] + s[1..];
      if s[0] == '\n' || s[0] == '\r' then 0
      else
        var n := LineEnd(s[1..]);
        assert s[..n + 1] == [s[0]] + s[1..][..n];
        n + 1
  }

  /** The lines of a text; a file is read with universal newlines. */
  function Lines(s: string): (lines: seq<Line>)
    ensures lines != [] && lines[0] == Text(s[..LineEnd(s)])
    ensures AllText(lines) && (Flat(s) ==> lines == [Text(s)])
    decreases |s|
  {
    var n := LineEnd(s);
    if n == |s| then
      assert s[..n] == s;
      [Text(s)]
    else
      var skip := if s[n] == '\r' && n + 1 < |s| && s[n + 1] == '\n' then 2 else 1;
      [Text(s[..n])] + Lines(s[n + skip..])
  }

  predicate AllText(lines: seq<Line>) {
    forall l :: l in lines ==> l.Text?
  }

  // ----- what is printed

  function Join(parts: seq<string>, sep: string): string {
    if parts == [] then "" else if |parts| == 1 then parts[0] else parts[0] + sep + Join(parts[1..], sep)
  }

  function OpText(op: Op): string {
    match op
    case Ge => ">="
    case Le => "<="
    case Gt => ">"
    case Lt => "<"
    case Eq => "=="
    case Ne => "!="
  }

  function ConditionText(c: Condition, w: Wording): string {
    c.field + " " + OpText(c.op) + " " + w.dumps(c.value)
  }

  function ConditionTexts(cs: seq<Condition>, w: Wording): seq<string> {
    if cs == [] then [] else [ConditionText(cs[0], w)] + ConditionTexts(cs[1..], w)
  }

  function SettingTexts(settings: Dict, w: Wording): seq<string> {
    if settings == [] then []
    else [settings[0].0 + "=" + w.dumps(settings[0].1)] + SettingTexts(settings[1..], w)
  }

  function WhenText(rule: Rule, w: Wording): string {
    var either := if rule.whenAny == [] then [] else ["(" + Join(ConditionTexts(rule.whenAny, w), " or ") + ")"];
    Join(ConditionTexts(rule.when, w) + either, " and ")
  }

  function IntentText(a: Accepted, w: Wording): string {
    if w.intent(a) == "" then "" else ": " + w.intent(a)
  }

  function CountsText(a: Accepted, w: Wording): string {
    " (taught " + w.number(a.support) + "x of " + w.number(a.matched) + " matching events, rejected "
    + w.number(a.rejected) + "x)"
  }

  /** What a rule proposes, for what reason and with which counts. */
  function ThenText(a: Accepted, w: Wording): string {
    " -> propose " + a.rule.tool + " with " + Join(SettingTexts(a.rule.settings, w), ", ") + IntentText(a, w)
    + CountsText(a, w)
  }

  function Bullet(a: Accepted, w: Wording): string {
    "- When " + WhenText(a.rule, w) + ThenText(a, w)
  }

  function Bullets(rules: seq<Accepted>, w: Wording): (lines: seq<Line>)
    ensures AllText(lines)
    ensures rules != [] ==> lines != [] && lines[0] == Text(Bullet(rules[0], w)[..LineEnd(Bullet(rules[0], w))])
  {
    if rules == [] then [] else Lines(Bullet(rules[0], w)) + Bullets(rules[1..], w)
  }

  /** The standing instruction below the rules; its wording is a parameter. */
  function Check(w: Wording): string {
    "- " + w.advice + "."
  }

  const MACHINE := "Machine-readable rules:"

  function Standing(w: Wording): (lines: seq<Line>)
    ensures AllText(lines)
  {
    [Text(Check(w)), Text(""), Text(MACHINE)]
  }

  function Listed(rules: seq<Accepted>): seq<Line> {
    [Dump(JustRules(rules)), Text(TICKS)]
  }

  function Closing(rules: seq<Accepted>, w: Wording): seq<Line> {
    Standing(w) + ([Text(FENCE)] + Listed(rules))
  }

  function Body(rules: seq<Accepted>, w: Wording): seq<Line> {
    Bullets(rules, w) + Closing(rules, w)
  }

  // ----- the lines that are always there

  /** A line that neither ends a section nor opens a block. */
  predicate Plain(line: Line) {
    && (line.Text? ==> !(MARK <= line.s))
    && !OpensBlock(line)
  }

  lemma FixedLines(w: Wording)
    ensures Plain(Text(Check(w))) && Plain(Text("")) && Plain(Text(MACHINE))
  {
    var check := Check(w);
    assert check[0] == '-' && check[|check| - 1] == '.';
    assert TrimRight(check) == check;
    assert MACHINE[0] == 'M' && MACHINE[|MACHINE| - 1] == ':';
    assert TrimRight(MACHINE) == MACHINE;
  }

  lemma FenceLine()
    ensures !(MARK <= FENCE) && OpensBlock(Text(FENCE)) && Ticks(FENCE)
  {
    assert FENCE[0] == '`' && FENCE[6] == 'n';
    assert TrimRight(FENCE) == FENCE;
    assert FENCE[..3] == TICKS;
  }

  lemma LastLine()
    ensures !(MARK <= TICKS) && !Blank(Text(TICKS)) && TrimmedRight(Text(TICKS)) == Text(TICKS)
  {
    assert TICKS[0] == '`' && TICKS[0] in TICKS;
    assert TrimRight(TICKS) == TICKS;
  }

  predicate AllUnmarked(lines: seq<Line>) {
    forall l :: l in lines && l.Text? ==> !(MARK <= l.s)
  }

  lemma ClosingUnmarked(rules: seq<Accepted>, w: Wording)
    ensures AllUnmarked(Closing(rules, w))
  {
    FixedLines(w);
    FenceLine();
    LastLine();
    UnmarkedTogether(Text(Check(w)), Text(""), Text(MACHINE), Text(FENCE), Dump(JustRules(rules)), Text(TICKS));
  }

  lemma UnmarkedTogether(a: Line, b: Line, c: Line, d: Line, e: Line, f: Line)
    requires forall l :: l in {a, b, c, d, e, f} && l.Text? ==> !(MARK <= l.s)
    ensures AllUnmarked([a, b, c] + ([d] + [e, f]))
  {
  }

  lemma ClosingEndsNothing(rules: seq<Accepted>, w: Wording)
    ensures NoEnds(Closing(rules, w)) && UntilNext(Closing(rules, w)) == Closing(rules, w)
  {
    ClosingUnmarked(rules, w);
    UntilNextAppend(Closing(rules, w), []);
  }

  /** The first line of the first rule and the closing ticks keep the section from being stripped. */
  lemma BodyStripped(rules: seq<Accepted>, w: Wording)
    requires rules != []
    ensures Body(rules, w) != [] && Stripped(Body(rules, w))
  {
    LastLine();
    var first := Bullet(rules[0], w);
    FirstLineStands(first);
    var body := Body(rules, w);
    assert body[0] == Text(first[..LineEnd(first)]) && body[|body| - 1] == Text(TICKS);
  }

  lemma FirstLineStands(s: string)
    requires s != "" && s[0] == '-'
    ensures var line := Text(s[..LineEnd(s)]); !Blank(line) && TrimmedLeft(line) == line
  {
    var n := LineEnd(s);
    assert n > 0 && s[..n][0] == '-' && s[..n][0] in s[..n];
  }

  // ----- reading the section back

  /** What the block printed for these rules is read as: they read back unless a string in them closes the block. */
  function Readback(rules: seq<Accepted>): Reading {
    if RulesTicks(JustRules(rules)) then Malformed else Read(JustRules(rules))
  }

  predicate NoOpeners(lines: seq<Line>) {
    forall l :: l in lines ==> !OpensBlock(l)
  }

  /** No line ends the section or opens a block. */
  predicate Unbroken(lines: seq<Line>) {
    NoEnds(lines) && NoOpeners(lines)
  }

  lemma {:induction false} SkipToFence(before: seq<Line>, rest: seq<Line>)
    requires NoOpeners(before) && |rest| > 1
    ensures AfterFence(before + rest) == AfterFence(rest)
  {
    if before == [] {
      assert before + rest == rest;
    } else {
      assert (before + rest)[1..] == before[1..] + rest;
      assert before[0] in before && forall l :: l in before[1..] ==> l in before;
      SkipToFence(before[1..], rest);
    }
  }

  lemma {:induction false} FenceWithin(before: seq<Line>, rest: seq<Line>) returns (k: nat)
    requires !NoOpeners(before) && rest != []
    ensures k <= |before| && AfterFence(before + rest) == Some(before[k..] + rest)
  {
    assert (before + rest)[0] == before[0] && (before + rest)[1..] == before[1..] + rest;
    if OpensBlock(before[0]) {
      k := 1;
    } else {
      assert forall l :: l in before <==> l == before[0] || l in before[1..];
      k := FenceWithin(before[1..], rest);
      k := k + 1;
      assert before[k..] == before[1..][k - 1..];
    }
  }

  /** Below bullets that open no block, the block printed for the rules is the one that is read. */
  lemma BodyReadsBack(rules: seq<Accepted>, w: Wording, parse: seq<Line> -> Reading)
    requires NoOpeners(Bullets(rules, w))
    ensures SectionRules(Body(rules, w), parse) == Readback(rules)
  {
    FenceFound(rules, w);
    BlockReadsBack(JustRules(rules));
  }

  lemma FenceFound(rules: seq<Accepted>, w: Wording)
    requires NoOpeners(Bullets(rules, w))
    ensures AfterFence(Body(rules, w)) == Some([Dump(JustRules(rules)), Text(TICKS)])
  {
    var before := Bullets(rules, w) + Standing(w);
    var block := [Dump(JustRules(rules)), Text(TICKS)];
    assert Body(rules, w) == before + ([Text(FENCE)] + block);
    FixedLines(w);
    SkipToFence(before, [Text(FENCE)] + block);
    FenceLine();
    assert ([Text(FENCE)] + block)[1..] == block;
  }

  lemma BlockReadsBack(rules: seq<Rule>)
    ensures var block := BlockOf([Dump(rules), Text(TICKS)]);
            if RulesTicks(rules) then block == CutShort else block.Closed? && NonBlank(block.content) == [Dump(rules)]
  {
    var dump, close := Dump(rules), Text(TICKS);
    assert [dump, close][1..] == [close];
    assert FindTicks(TICKS) == Some(0);
    assert BlockOf([close]) == Closed([Text(TICKS[..0])]);
    var blank := Text(TICKS[..0]);
    assert Blank(blank);
    assert [dump, blank][1..] == [blank] && [blank][1..] == [];
    assert NonBlank([blank]) == [];
    assert [dump] + [blank] == [dump, blank];
    assert NonBlank([dump, blank]) == [dump] + [];
  }

  // ----- a broken section

  /** No printed list is read: nothing at all, or what json.loads makes of other text. */
  ghost predicate ReadsNoList(reading: Reading, parse: seq<Line> -> Reading) {
    reading == Read([]) || exists lines :: AllText(lines) && reading == parse(lines)
  }

  lemma {:induction false} TextBlock(lines: seq<Line>)
    requires AllText(lines)
    ensures var block := BlockOf(lines); !block.CutShort? && (block.Closed? ==> AllText(block.content))
  {
    if lines != [] {
      assert lines[0] in lines && forall l :: l in lines[1..] ==> l in lines;
      TextBlock(lines[1..]);
    }
  }

  lemma {:induction false} BlockEndsInText(lines: seq<Line>, rest: seq<Line>)
    requires AllText(lines) && exists l :: l in lines && Ticks(l.s)
    ensures var block := BlockOf(lines + rest); block.Closed? && AllText(block.content)
  {
    assert (lines + rest)[0] == lines[0] && (lines + rest)[1..] == lines[1..] + rest;
    assert forall l :: l in lines <==> l == lines[0] || l in lines[1..];
    if !Ticks(lines[0].s) {
      BlockEndsInText(lines[1..], rest);
    }
  }

  lemma {:induction false} NonBlankText(lines: seq<Line>)
    requires AllText(lines)
    ensures AllText(NonBlank(lines))
  {
    if lines != [] {
      assert lines[0] in lines && forall l :: l in lines[1..] ==> l in lines;
      NonBlankText(lines[1..]);
    }
  }

  lemma {:induction false} FenceInText(lines: seq<Line>)
    requires AllText(lines)
    ensures var rest := AfterFence(lines); rest.Some? ==> AllText(rest.value)
  {
    if |lines| > 1 {
      assert forall l :: l in lines[1..] ==> l in lines;
      FenceInText(lines[1..]);
    }
  }

  lemma TextReadsNoList(lines: seq<Line>, parse: seq<Line> -> Reading)
    requires AllText(lines)
    ensures ReadsNoList(SectionRules(lines, parse), parse)
  {
    FenceInText(lines);
    var rest := AfterFence(lines);
    if rest.Some? {
      TextBlock(rest.value);
      var block := BlockOf(rest.value);
      if block.Closed? { ContentReadsNoList(block.content, parse); }
    }
  }

  lemma ContentReadsNoList(content: seq<Line>, parse: seq<Line> -> Reading)
    requires AllText(content)
    ensures ReadsNoList(parse(NonBlank(content)), parse)
    ensures !(|NonBlank(content)| == 1 && NonBlank(content)[0].Dump?)
  {
    NonBlankText(content);
    var lines := NonBlank(content);
    assert AllText(lines);
    if |lines| == 1 { assert lines[0] in lines; }
  }

  lemma StripText(lines: seq<Line>)
    requires AllText(lines)
    ensures AllText(Strip(lines))
  {
    DropBlankText(lines);
    DropBlankEndText(DropBlank(lines));
    var kept := DropBlankEnd(DropBlank(lines));
    forall i | 0 <= i < |kept| ensures TrimEnds(kept)[i].Text? {
      assert kept[i] in kept;
    }
  }

  lemma {:induction false} DropBlankText(lines: seq<Line>)
    requires AllText(lines)
    ensures AllText(DropBlank(lines))
  {
    if lines != [] {
      assert forall l :: l in lines[1..] ==> l in lines;
      DropBlankText(lines[1..]);
    }
  }

  lemma {:induction false} DropBlankEndText(lines: seq<Line>)
    requires AllText(lines)
    ensures AllText(DropBlankEnd(lines))
  {
    DropBlankLast(lines);
    assert forall l :: l in DropBlankEnd(lines) ==> l in lines;
  }

  lemma CutReadsNoList(rules: seq<Accepted>, w: Wording, parse: seq<Line> -> Reading)
    requires !NoEnds(Bullets(rules, w))
    ensures ReadsNoList(SectionRules(Strip(UntilNext(Body(rules, w))), parse), parse)
  {
    UntilNextAppend(Bullets(rules, w), Closing(rules, w));
    StripText(UntilNext(Bullets(rules, w)));
    TextReadsNoList(Strip(UntilNext(Bullets(rules, w))), parse);
  }

  lemma OpenerReadsNoList(rules: seq<Accepted>, w: Wording, parse: seq<Line> -> Reading)
    requires !NoOpeners(Bullets(rules, w))
    ensures ReadsNoList(SectionRules(Body(rules, w), parse), parse)
  {
    var fence := Text(FENCE);
    assert fence.Text? && Ticks(fence.s) by { FenceLine(); }
    EarlyBlock(Bullets(rules, w), Standing(w), fence, Listed(rules), parse);
  }

  /** A block opened too early ends at the next line with three backticks. */
  lemma EarlyBlock(bullets: seq<Line>, more: seq<Line>, line: Line, rest: seq<Line>, parse: seq<Line> -> Reading)
    requires AllText(bullets) && !NoOpeners(bullets) && AllText(more) && line.Text? && Ticks(line.s)
    ensures ReadsNoList(SectionRules(bullets + (more + ([line] + rest)), parse), parse)
  {
    var k := FenceWithin(bullets, more + ([line] + rest));
    assert forall l :: l in bullets[k..] ==> l in bullets;
    ClosedAtTicks(bullets[k..], more, line, rest);
    ContentReadsNoList(BlockOf(bullets[k..] + (more + ([line] + rest))).content, parse);
  }

  lemma ClosedAtTicks(before: seq<Line>, more: seq<Line>, line: Line, rest: seq<Line>)
    requires AllText(before) && AllText(more) && line.Text? && Ticks(line.s)
    ensures var block := BlockOf(before + (more + ([line] + rest))); block.Closed? && AllText(block.content)
  {
    assert line in before + more + [line];
    BlockEndsInText(before + more + [line], rest);
    assert before + more + [line] + rest == before + (more + ([line] + rest));
  }

  /** A section whose bullets are broken never gives its rules back. */
  lemma BrokenReadsNoList(rules: seq<Accepted>, w: Wording, parse: seq<Line> -> Reading)
    requires rules != [] && !Unbroken(Bullets(rules, w))
    ensures ReadsNoList(SectionRules(Strip(UntilNext(Body(rules, w))), parse), parse)
  {
    if !NoEnds(Bullets(rules, w)) {
      CutReadsNoList(rules, w, parse);
    } else {
      WholeBody(rules, w);
      OpenerReadsNoList(rules, w, parse);
    }
  }

  /** The section stands as printed exactly when no line of the bullets ends it. */
  lemma WholeBody(rules: seq<Accepted>, w: Wording)
    requires rules != []
    ensures Strip(UntilNext(Body(rules, w))) == Body(rules, w) <==> NoEnds(Bullets(rules, w))
    ensures NoEnds(Body(rules, w)) <==> NoEnds(Bullets(rules, w))
  {
    ClosingEndsNothing(rules, w);
    BodyStripped(rules, w);
    StandsIffNoEnds(Body(rules, w));
    assert forall l :: l in Body(rules, w) <==> l in Bullets(rules, w) || l in Closing(rules, w);
  }

  /** A stripped section stands exactly when none of its lines ends it. */
  lemma StandsIffNoEnds(body: seq<Line>)
    requires body != [] && Stripped(body)
    ensures Strip(UntilNext(body)) == body <==> NoEnds(body)
  {
    assert body + [] == body;
    UntilNextAppend(body, []);
    StripStripped(body, []);
    StripShortens(UntilNext(body));
  }

  lemma StripShortens(lines: seq<Line>)
    ensures |Strip(lines)| <= |lines|
  {
    DropBlankShortens(lines);
    DropBlankLast(DropBlank(lines));
  }

  lemma {:induction false} DropBlankShortens(lines: seq<Line>)
    ensures |DropBlank(lines)| <= |lines|
  {
    if lines != [] { DropBlankShortens(lines[1..]); }
  }

  function ParsesNothing(lines: seq<Line>): Reading {
    Read([])
  }

  ghost predicate ReadsBackAnyhow(rules: seq<Accepted>, w: Wording) {
    forall parse :: SectionRules(Strip(UntilNext(Body(rules, w))), parse) == Readback(rules)
  }

  /** The section printed for rules reads back, whatever json.loads makes of other blocks, if and only if no line of its
      bullets ends the section or opens a block. It then gives exactly these rules, or a JSON error when one of their
      strings has three backticks. */
  lemma BodyReadsBackExactly(rules: seq<Accepted>, w: Wording)
    requires rules != []
    ensures ReadsBackAnyhow(rules, w) <==> Unbroken(Bullets(rules, w))
  {
    if Unbroken(Bullets(rules, w)) {
      WholeBody(rules, w);
      forall parse ensures SectionRules(Strip(UntilNext(Body(rules, w))), parse) == Readback(rules) {
        BodyReadsBack(rules, w, parse);
      }
    } else {
      BrokenReadsNoList(rules, w, ParsesNothing);
      EmptyIsNoReadback(rules, SectionRules(Strip(UntilNext(Body(rules, w))), ParsesNothing));
    }
  }

  lemma EmptyIsNoReadback(rules: seq<Accepted>, reading: Reading)
    requires rules != [] && ReadsNoList(reading, ParsesNothing)
    ensures reading != Readback(rules)
  {
    assert |JustRules(rules)| > 0;
  }

  // ----- names without line breaks are enough

  /** None of them breaks a line. */
  ghost predicate FlatWording(w: Wording) {
    && (forall j :: Flat(w.dumps(j)))
    && (forall n :: Flat(w.number(n)))
    && (forall a :: Flat(w.intent(a))) && Flat(w.advice) && Flat(w.description) && Flat(w.introduction)
  }

  predicate FlatConditions(cs: seq<Condition>) {
    forall c :: c in cs ==> Flat(c.field)
  }

  /** No name in the rule breaks a line. */
  predicate FlatRule(r: Rule) {
    FlatConditions(r.when) && FlatConditions(r.whenAny) && Flat(r.tool) && forall m :: m in r.settings ==> Flat(m.0)
  }

  predicate FlatParts(parts: seq<string>) {
    forall p :: p in parts ==> Flat(p)
  }

  lemma {:induction false} JoinFlat(parts: seq<string>, sep: string)
    requires FlatParts(parts) && Flat(sep)
    ensures Flat(Join(parts, sep))
  {
    if |parts| > 1 {
      assert parts[0] in parts;
      JoinFlat(parts[1..], sep);
    } else if |parts| == 1 {
      assert parts[0] in parts;
    }
  }

  lemma {:induction false} ConditionsFlat(cs: seq<Condition>, w: Wording)
    requires FlatConditions(cs) && FlatWording(w)
    ensures FlatParts(ConditionTexts(cs, w))
  {
    if cs != [] {
      assert cs[0] in cs;
      ConditionsFlat(cs[1..], w);
      assert Flat(OpText(cs[0].op));
      assert Flat(w.dumps(cs[0].value));
      assert Flat(ConditionText(cs[0], w));
    }
  }

  lemma {:induction false} SettingsFlat(settings: Dict, w: Wording)
    requires (forall m :: m in settings ==> Flat(m.0)) && FlatWording(w)
    ensures FlatParts(SettingTexts(settings, w))
  {
    if settings != [] {
      assert settings[0] in settings;
      SettingsFlat(settings[1..], w);
      assert Flat(w.dumps(settings[0].1));
    }
  }

  lemma CountsFlat(a: Accepted, w: Wording)
    requires FlatWording(w)
    ensures Flat(CountsText(a, w))
  {
    assert Flat(w.number(a.support)) && Flat(w.number(a.matched)) && Flat(w.number(a.rejected));
  }

  lemma IntentFlat(a: Accepted, w: Wording)
    requires FlatWording(w)
    ensures Flat(IntentText(a, w))
  {
    assert Flat(w.intent(a));
  }

  lemma WhenFlat(rule: Rule, w: Wording)
    requires FlatRule(rule) && FlatWording(w)
    ensures Flat(WhenText(rule, w))
  {
    ConditionsFlat(rule.when, w);
    ConditionsFlat(rule.whenAny, w);
    JoinFlat(ConditionTexts(rule.whenAny, w), " or ");
    var either := if rule.whenAny == [] then [] else ["(" + Join(ConditionTexts(rule.whenAny, w), " or ") + ")"];
    assert FlatParts(either);
    JoinFlat(ConditionTexts(rule.when, w) + either, " and ");
  }

  lemma BulletFlat(a: Accepted, w: Wording)
    requires FlatRule(a.rule) && FlatWording(w)
    ensures Flat(Bullet(a, w))
  {
    WhenFlat(a.rule, w);
    CountsFlat(a, w);
    IntentFlat(a, w);
    SettingsFlat(a.rule.settings, w);
    JoinFlat(SettingTexts(a.rule.settings, w), ", ");
  }

  lemma BulletPlain(a: Accepted, w: Wording)
    ensures Plain(Text(Bullet(a, w)))
  {
    var s := Bullet(a, w);
    assert s[0] == '-' && s[|s| - 1] == ')';
    assert !Space(s[|s| - 1]);
  }

  lemma {:induction false} BulletsPlain(rules: seq<Accepted>, w: Wording)
    requires FlatWording(w) && forall a :: a in rules ==> FlatRule(a.rule)
    ensures forall l :: l in Bullets(rules, w) ==> Plain(l)
  {
    if rules != [] {
      assert rules[0] in rules;
      BulletFlat(rules[0], w);
      BulletPlain(rules[0], w);
      BulletsPlain(rules[1..], w);
    }
  }

  /** Rules whose names break no line are printed as one section that holds no heading. */
  lemma FlatBody(rules: seq<Accepted>, w: Wording, event: string)
    requires FlatWording(w) && forall a :: a in rules ==> FlatRule(a.rule)
    ensures Unbroken(Bullets(rules, w)) && NoEnds(Body(rules, w)) && AfterHeading(Body(rules, w), event).None?
  {
    BulletsPlain(rules, w);
    ClosingUnmarked(rules, w);
    UnmarkedHasNoHeading(Bullets(rules, w), event);
    UnmarkedHasNoHeading(Body(rules, w), event);
  }

  // ----- a name with a line break

  lemma {:induction false} LineEndsAt(s: string, rest: string)
    requires Flat(s) && rest != "" && !Flat(rest[..1])
    ensures LineEnd(s + rest) == |s|
  {
    if s == "" {
      assert s + rest == rest && rest[0] in rest[..1];
    } else {
      assert s[0] in s && (s + rest)[0] == s[0] && (s + rest)[1..] == s[1..] + rest;
      LineEndsAt(s[1..], rest);
    }
  }

  lemma BrokenLine(s: string, rest: string)
    requires Flat(s)
    ensures Lines(s + ("\n" + rest)) == [Text(s)] + Lines(rest)
  {
    var more := "\n" + rest;
    assert more[0] in more[..1];
    LineEndsAt(s, more);
    assert (s + more)[|s| + 1..] == rest && (s + more)[..|s|] == s;
  }

  lemma JoinBegins(parts: seq<string>, sep: string)
    requires parts != []
    ensures parts[0] <= Join(parts, sep)
  {
  }

  lemma BulletBegins(a: Accepted, w: Wording)
    requires a.rule.when != []
    ensures "- When " + a.rule.when[0].field <= Bullet(a, w)
  {
    WhenBegins(a.rule, w);
    Prefixes("- When ", a.rule.when[0].field, WhenText(a.rule, w), ThenText(a, w));
  }

  lemma Prefixes(start: string, s: string, more: string, rest: string)
    requires s <= more
    ensures start + s <= start + more + rest
  {
  }

  lemma WhenBegins(rule: Rule, w: Wording)
    requires rule.when != []
    ensures rule.when[0].field <= WhenText(rule, w)
  {
    var either := if rule.whenAny == [] then [] else ["(" + Join(ConditionTexts(rule.whenAny, w), " or ") + ")"];
    JoinBegins(ConditionTexts(rule.when, w) + either, " and ");
    assert rule.when[0].field <= ConditionText(rule.when[0], w);
  }

  lemma SplitText(s: string, x: string, y: string) returns (rest: string)
    requires Flat(x) && x + ("\n" + y) <= s
    ensures Lines(s) == [Text(x)] + Lines(y + rest)
  {
    var start := x + ("\n" + y);
    rest := s[|start|..];
    assert start == s[..|start|];
    assert s == x + ("\n" + (y + rest));
    BrokenLine(x, y + rest);
  }

  /** A field with a line break makes two lines of its bullet. */
  lemma SplitBullet(a: Accepted, w: Wording, x: string, y: string) returns (rest: string)
    requires a.rule.when != [] && Flat(x) && a.rule.when[0].field == x + ("\n" + y)
    ensures Lines(Bullet(a, w)) == [Text("- When " + x)] + Lines(y + rest)
  {
    BulletBegins(a, w);
    assert "- When " + x + ("\n" + y) == "- When " + a.rule.when[0].field;
    rest := SplitText(Bullet(a, w), "- When " + x, y);
  }

  lemma MarkedLine(y: string, rest: string)
    requires "## " <= y
    ensures EndsSection(Lines(y + rest)[0])
  {
    var s := y + rest;
    assert s == "## " + s[3..];
    LineGoesOn("## ", s[3..]);
  }

  lemma {:induction false} LineGoesOn(s: string, rest: string)
    requires Flat(s)
    ensures s <= (s + rest)[..LineEnd(s + rest)]
  {
    if s == "" {
      assert s + rest == rest;
    } else {
      assert s[0] in s && (s + rest)[0] == s[0] && (s + rest)[1..] == s[1..] + rest;
      LineGoesOn(s[1..], rest);
    }
  }

  /** When the first field printed breaks the line before a mark, no rule is read for the event, whatever the wording:
      the section is its first line. */
  lemma LineBreakLosesRules(rules: seq<Accepted>, w: Wording, x: string, y: string, parse: seq<Line> -> Reading)
    requires rules != [] && rules[0].rule.when != [] && Flat(x) && "## " <= y
    requires rules[0].rule.when[0].field == x + ("\n" + y)
    ensures SectionRules(Strip(UntilNext(Body(rules, w))), parse) == Read([])
  {
    SecondLineEnds(rules, w, x, y);
    CutAfterFirst(Body(rules, w));
    OneLineReadsNothing(Strip(UntilNext(Body(rules, w))), parse);
  }

  lemma SecondLineEnds(rules: seq<Accepted>, w: Wording, x: string, y: string)
    requires rules != [] && rules[0].rule.when != [] && Flat(x) && "## " <= y
    requires rules[0].rule.when[0].field == x + ("\n" + y)
    ensures |Body(rules, w)| > 1 && EndsSection(Body(rules, w)[1])
  {
    var rest := SplitBullet(rules[0], w, x, y);
    MarkedLine(y, rest);
    var lines := Lines(y + rest);
    var bullet := Lines(Bullet(rules[0], w));
    assert |bullet| > 1 && bullet[1] == lines[0];
    assert Body(rules, w)[1] == bullet[1];
  }

  lemma CutAfterFirst(lines: seq<Line>)
    requires |lines| > 1 && EndsSection(lines[1])
    ensures |Strip(UntilNext(lines))| <= 1
  {
    assert UntilNext(lines[1..]) == [];
    StripShortens(UntilNext(lines));
  }

  lemma OneLineReadsNothing(lines: seq<Line>, parse: seq<Line> -> Reading)
    requires |lines| <= 1
    ensures SectionRules(lines, parse) == Read([])
  {
  }

  /** A field can bring a heading of its own. */
  lemma LineBreakPrintsHeading(a: Accepted, w: Wording, x: string, other: string)
    requires a.rule.when != [] && Flat(x) && EventName(other)
    requires a.rule.when[0].field == x + ("\n" + ("## event: " + other + "\n"))
    ensures AfterHeading(Body([a], w), other).Some?
  {
    var more := SplitTwice(a, w, x, "## event: " + other);
    var first := "- When " + x;
    assert first[0] == '-';
    HeadingBelow(first, other, more, Closing([a], w));
    OneBullet(a, w);
  }

  lemma OneBullet(a: Accepted, w: Wording)
    ensures Body([a], w) == Lines(Bullet(a, w)) + Closing([a], w)
  {
    assert [a][1..] == [] && Bullets([], w) == [];
    var lines := Lines(Bullet(a, w));
    assert lines + [] == lines;
  }

  lemma SplitTwice(a: Accepted, w: Wording, x: string, second: string) returns (more: seq<Line>)
    requires a.rule.when != [] && Flat(x) && Flat(second)
    requires a.rule.when[0].field == x + ("\n" + (second + "\n"))
    ensures Lines(Bullet(a, w)) == [Text("- When " + x)] + ([Text(second)] + more)
  {
    var rest := SplitBullet(a, w, x, second + "\n");
    BrokenAfter(second, rest);
    more := Lines(rest);
  }

  lemma BrokenAfter(s: string, rest: string)
    requires Flat(s)
    ensures Lines(s + "\n" + rest) == [Text(s)] + Lines(rest)
  {
    Regrouped(s, "\n", rest);
    BrokenLine(s, rest);
  }

  lemma Regrouped(a: string, b: string, c: string)
    ensures a + b + c == a + (b + c)
  {
  }

  lemma HeadingBelow(first: string, other: string, more: seq<Line>, rest: seq<Line>)
    requires EventName(other) && first != "" && first[0] == '-'
    ensures AfterHeading([Text(first)] + ([Heading(other)] + more) + rest, other) == Some(more + rest)
  {
    HeadingFits(other, other, more + rest);
    var lines := [Text(first)] + ([Heading(other)] + more) + rest;
    assert lines[1..] == [Heading(other)] + (more + rest);
  }
}

/** One run of the learner from replies to rules (learn_skill and _refine in autonomy/learning_runner.py), and what that
    means for the agent that later reads the skill. */
module Learner {
  import opened Wrappers
  import opened Rules
  import opened Records
  import opened Statistics
  import opened Induction
  import opened Covering
  import opened Verification
  import opened RuleOrder
  import opened SkillText
  import opened SkillBody
  import opened SkillFile

  const MIN_PRECISION := 0.6

  /** Each rule's counts are exactly those of its conditions over the records, and they meet the limits. */
  ghost predicate AllSupported(rules: seq<Accepted>, records: seq<Record>, minSupport: nat) {
    forall a :: a in rules ==> Verification.CountsHold(a, ByEvent(records), minSupport, MIN_PRECISION)
  }

  ghost predicate KeptFrom(rules: seq<Accepted>, records: seq<Record>, minSupport: nat) {
    AllSupported(rules, records, minSupport) && Antichain(rules)
  }

  function Plain(rules: seq<Accepted>): seq<Candidate> {
    if rules == [] then [] else [Candidate(Some(rules[0].event), rules[0].rule, true)] + Plain(rules[1..])
  }

  function PlainRules(rules: seq<Accepted>): seq<EventRule> {
    if rules == [] then [] else [EventRule(rules[0].event, rules[0].rule)] + PlainRules(rules[1..])
  }

  function Proposals(rules: seq<EventRule>): seq<Candidate> {
    if rules == [] then [] else [Candidate(Some(rules[0].event), rules[0].rule, true)] + Proposals(rules[1..])
  }

  lemma RecordsAreHonest(records: seq<Record>)
    ensures forall e :: e in ByEvent(records) ==> Honest(ByEvent(records)[e])
  {
    forall e | e in ByEvent(records) ensures Honest(ByEvent(records)[e]) {
      ItemsAreHonest(records, e);
    }
  }

  /** The rule is precise over these records, or it is where a round over the pool starts and no threshold fits. */
  ghost predicate PreciseOrStart(rule: Rule, change: Change, items: seq<Item>, pool: seq<Item>, minSupport: nat) {
    && Proposes(rule, change)
    && (|| Precise(rule, change, items)
        || (StartsFrom(change, pool, minSupport, rule) && NoThreshold(rule, change, pool)))
  }

  /** The rule is the i-th that covering its change added. It is precise over all records of its event type, or it is
      where its own round starts, over the records that the rules before it leave, and no threshold fits. */
  ghost predicate AddedPrecisely(er: EventRule, change: Change, added: seq<Rule>, i: nat,
                                 events: map<string, seq<Item>>, rules: seq<EventRule>, minSupport: nat) {
    && BatchCompleted(Batch(er.event, change, added), events, rules, minSupport)
    && i < |added| && added[i] == er.rule
    && PreciseOrStart(er.rule, change, events[er.event],
                      Pool(events[er.event], change, RulesFor(rules, er.event, change) + added[..i]), minSupport)
  }

  /** An induced rule is precise over all records of its event type, unless no threshold makes it so. */
  lemma InducedArePrecise(er: EventRule, induced: seq<EventRule>, records: seq<Record>, rules: seq<EventRule>,
                          minSupport: nat)
    requires InducedFor(er, induced, ByEvent(records), rules, minSupport)
    ensures exists change, added, i :: AddedPrecisely(er, change, added, i, ByEvent(records), rules, minSupport)
  {
    var items := ByEvent(records)[er.event];
    RecordsAreHonest(records);
    var change, added :| BatchCompleted(Batch(er.event, change, added), ByEvent(records), rules, minSupport)
      && er in Tagged(er.event, added);
    var i :| 0 <= i < |added| && added[i] == er.rule;
    OneIsPrecise(er.rule, change, items, RulesFor(rules, er.event, change) + added[..i], minSupport);
    assert AddedPrecisely(er, change, added, i, ByEvent(records), rules, minSupport);
  }

  lemma OneIsPrecise(rule: Rule, change: Change, items: seq<Item>, covering: seq<Rule>, minSupport: nat)
    requires Honest(items) && Earned(rule, change, items, covering, minSupport)
    ensures PreciseOrStart(rule, change, items, Pool(items, change, covering), minSupport)
  {
    EarnedIsPrecise(rule, change, items, covering, minSupport);
  }

  /** The rules verified together with the second reply, when they are as many. */
  method Refine(accepted: seq<Accepted>, more: seq<Candidate>, records: seq<Record>, tools: seq<Tool>, minSupport: nat)
    returns (rules: seq<Accepted>)
    requires KeptFrom(accepted, records, minSupport)
    ensures KeptFrom(rules, records, minSupport) && |rules| >= |accepted|
  {
    rules := accepted;
    var refined, _ := VerifyRules(Plain(accepted) + more, records, tools, minSupport, MIN_PRECISION);
    if |refined| >= |accepted| {
      rules := refined;
    }
  }

  /** The rules to be printed: those verified from the first reply, replaced by the refinement when that keeps as many,
      and verified once more together with the rules induced for what they still miss. `refinement` is the second reply,
      None when there are no gaps to ask about or the reply cannot be read. No rules: the reply is rejected, or the
      induction raised beside rules that were kept. */
  method LearnRules(reply: seq<Candidate>, refinement: Option<seq<Candidate>>, records: seq<Record>,
                    tools: seq<Tool>, minSupport: nat)
    returns (rules: Option<seq<Accepted>>)
    requires minSupport > 0
    ensures rules.Some? ==> KeptFrom(rules.value, records, minSupport)
    ensures rules.None? ==>
              || AllSettled(SplitCandidates(reply), [], ByEvent(records), tools, minSupport, MIN_PRECISION)
              || (exists found :: KeptFrom(found, records, minSupport)
                                  && InductionRaises(ByEvent(records), PlainRules(found), minSupport))
  {
    var accepted, _ := VerifyRules(reply, records, tools, minSupport, MIN_PRECISION);
    if accepted == [] {
      return None;
    }
    if refinement.Some? {
      accepted := Refine(accepted, refinement.value, records, tools, minSupport);
    }
    var induced, _ := InduceMissing(PlainRules(accepted), ByEvent(records), minSupport);
    if induced.None? {
      assert KeptFrom(accepted, records, minSupport);
      return None;
    }
    if induced.value != [] {
      var all, _ := VerifyRules(Plain(accepted) + Proposals(induced.value), records, tools, minSupport, MIN_PRECISION);
      accepted := all;
    }
    rules := Some(accepted);
  }

  /** A rule the agent reads from the skill is one the records supported when it was learnt: after any number of
      lessons, each of rules their records support, every rule read for an event was counted and kept in one. */
  lemma EveryReadRuleIsSupported(service: string, lessons: seq<Lesson>, taught: seq<seq<Record>>, w: Wording,
                                 files: seq<File>, event: string, parse: seq<Line> -> Reading, minSupport: nat,
                                 rule: Rule)
    requires RenderedBy(service, lessons, w, files) && AllEventNames(lessons)
    requires AllStandAlong(service, lessons, w, files)
    requires |taught| == |lessons|
    requires forall i :: 0 <= i < |lessons| ==> AllSupported(lessons[i].rules, taught[i], minSupport)
    requires event in LastLearnt(lessons) && NoOpeners(Bullets(LastLearnt(lessons)[event], w)) && files != []
    requires var reading := SectionRules(Section(files[|files| - 1].text, event), parse);
             reading.Read? && rule in reading.rules
    ensures SupportedOnce(lessons, taught, minSupport, event, rule)
  {
    FileReadsBackExactly(service, lessons, w, files, event);
    ReadWithAny(files[|files| - 1], event, LastLearnt(lessons)[event], parse);
    var a := ReadRule(LastLearnt(lessons)[event], rule);
    var k := LearntFrom(lessons, event, a);
    assert Verification.CountsHold(a, ByEvent(taught[k]), minSupport, MIN_PRECISION);
  }

  lemma ReadRule(rules: seq<Accepted>, rule: Rule) returns (a: Accepted)
    requires Readback(rules).Read? && rule in Readback(rules).rules
    ensures a in rules && a.rule == rule
  {
    var i: nat :| i < |rules| && JustRules(rules)[i] == rule;
    a := rules[i];
  }

  ghost predicate SupportedOnce(lessons: seq<Lesson>, taught: seq<seq<Record>>, minSupport: nat, event: string,
                                rule: Rule)
    requires |taught| == |lessons|
  {
    exists k, a :: 0 <= k < |lessons| && a in lessons[k].rules && a.event == event && a.rule == rule
      && Verification.CountsHold(a, ByEvent(taught[k]), minSupport, MIN_PRECISION)
  }

  lemma {:induction false} LearntFrom(lessons: seq<Lesson>, event: string, a: Accepted) returns (k: nat)
    requires event in LastLearnt(lessons) && a in LastLearnt(lessons)[event]
    ensures k < |lessons| && a in lessons[k].rules && a.event == event
    decreases |lessons|
  {
    var n := |lessons| - 1;
    var last := lessons[n];
    if event in Learnt(last.rules) {
      SupportOrderIsStable(last.rules, 0);
      OfEventMembers(BySupport(last.rules), event);
      k := n;
    } else {
      k := LearntFrom(lessons[..n], event, a);
    }
  }
}

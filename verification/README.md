# Verification of the autonomy service

This project models the autonomy part of the repository in Dafny and proves what it is meant to guarantee. Three
components are covered, as one pipeline from an event to a learnt rule.

**Event queue, worker and proposals** (`autonomy/store.py`, `autonomy/controller.py`, the end of
`autonomy/event_agent.py`). `StoreTables.dfy` gives the five tables as one value and each SQLite transaction as a
function on it; `Store.dfy` is the class whose methods update the tables in place, each proved to do what its function
says. `Controller.dfy` is a transition system over those functions: one worker thread woken by a flag, the thread
inside `start()` or `stop()`, any number of HTTP threads, the event lock, and a crash between any two steps. A history
that the program does not keep records claims, finishes, completions, reads and calls. `QueueSafety.dfy`,
`QueueTimeline.dfy`, `WakeSafety.dfy`, `ProposalSafety.dfy` and `ApprovalSafety.dfy` prove invariants of every run.

**Rule learning and its journal** (`autonomy/learning.py`, `autonomy/learning_runner.py`). `Rules.dfy`, `Records.dfy`
and `FieldPaths.dfy` hold field flattening, rule evaluation and what a record teaches; `Statistics.dfy`,
`Fitting.dfy`, `Induction.dfy`, `Covering.dfy` and `Verification.dfy` the counting, the searches and the selection of
rules, as loops proved against what they search for; `RepeatedIds.dfy` records on which the selection keeps too much;
`Learner.dfy` puts them together. `SkillText.dfy` models SKILL.md as lines and how it is read, `RuleOrder.dfy`,
`SkillBody.dfy` and `SkillFile.dfy` how it is printed and exactly when reading gives that back, and `SkillLimits.dfy`
where that fails. `Journal.dfy`, `JournalFiles.dfy`, `JournalRecovery.dfy` and `JournalSafety.dfy` cover the journal:
what its files become, the object that rewrites them, stopping after any write, and interleavings.

**Catalogue and agent loop** (`autonomy/event_agent.py`, `autonomy/discovery.py`, `autonomy/service_capabilities.py`).
`Capabilities.dfy` and `CatalogObject.dfy` model the catalogue, its dependency closure and what fills it at run time;
`AgentReads.dfy` what the agent knows and how it loads skills and reads context, `Agent.dfy` how it decides, round by
round. The model's replies are arbitrary; services, schema checks and owners' validators are arbitrary functions of the
number of questions asked so far.

`ConfigMerge.dfy` proves that the configuration merge of `entrypoint.py` is a fixpoint on restart. `JsonValues.dfy`
and `Wrappers.dfy` hold shared datatypes.

## What the code does not guarantee

Each of these is a lemma of its own, beside the condition under which the property does hold; it is exact except for
repeated ids, where it is what the journal guarantees.

- An operator who sends a literal `{"from": field}` as an argument teaches the event-bound change and never gets the
  literal back (`Records.LiteralReferenceIsNotReplayed`, `Records.ReplayExactly`). A bound field whose name ends in
  `_at` silences its rule.
- Splitting a rule of several settings changes what it proposes exactly when it matches, some field it copies is
  missing, and some setting, literal or copied, can be resolved (`Rules.SplittingChangesExactly`).
- A field that is a number in one taught record and a text in another makes a round of the induction raise, unless its
  context condition or category is already precise (`Covering.MixedFieldRaises`, `Covering.FitMissing`).
- Where printed rules disagree on a setting, the one with the least support decides, because it is printed last
  (`RuleOrder.LeastSupportDecides`).
- Field, tool and argument names are printed as they are. One with a line break puts lines of its own into the
  section: a rule is lost (`SkillLimits.LineBreakLosesRule`) or another event's section hidden
  (`SkillLimits.LineBreakHidesOther`). The section reads back exactly when no such line ends it or opens a block
  (`SkillBody.BodyReadsBackExactly`); then three backticks inside a string of a rule still make its block unreadable.
- A section kept from an existing file reads back exactly when no line in it ends it and nothing printed before it is
  taken for it, unless that says the same (`SkillFile.KeptSectionExactly`); an indented mark (`SkillLimits.IndentedMarkIsLost`) or a heading
  without its space (`SkillLimits.QuotedHeadingTakesOver`) in a hand-edited file breaks that.
- Of two event names that differ only in case, only the section printed first is ever read
  (`SkillLimits.SecondSpellingIsHidden`, `SkillFile.OwnSectionIsReadIff`).
- Two records with one id defeat the comparison of matched ids (`RepeatedIds.RepeatedIdsAreKept`); only a rule that
  matches an id twice can (`Verification.OnlyRepeatsOverlap`, `Verification.KeptNeverContains`), and the journal never
  hands the learner such records (`JournalSafety.LearnerSeesDistinctIds`).
- A server that lists a name its actions depend on as an action before it lists it as a read leaves an action without
  a usable read; nothing else it lists breaks a valid catalogue (`Capabilities.ActionBeforeRead`,
  `Capabilities.DiscoverKeepsSoundExactly`).

## Model

| member | source | states |
|---|---|---|
| ConfigMerge.UnchangedIffHeld | entrypoint.py:35-43 | Merging a fragment leaves a configuration unchanged if and only if it already holds everything the fragment has, all the way down. |
| ConfigMerge.MergeHolds | entrypoint.py:35-43 | A merge brings in everything its fragment has, whatever the two shapes. |
| ConfigMerge.RestartIsFixpoint | entrypoint.py:145-149 | Merging both shipped fragments into a configuration that already had both merged returns it unchanged, also where they disagree. |
| StoreTables.WithoutKeepsKeys | autonomy/store.py:67-92 | Deleting an event's failed row keeps event ids unique and sequences increasing. |
| StoreTables.EnqueueKeepsKeys | autonomy/store.py:67-92 | Enqueueing, duplicate or not, keeps event ids unique and sequences increasing below the next one. |
| Store.ProposalStore.EnqueueEvent | autonomy/store.py:67-92 | The new tables are those of the enqueue transaction: a live or completed id is a duplicate, a failed row is replaced by a new last one, the id is reserved and its decision reset. |
| Store.ProposalStore.RecoverEvents | autonomy/store.py:94-105 | Rows left in processing wait again in their old place with their decisions reset; nothing else changes. |
| Store.ProposalStore.ClaimEvent | autonomy/store.py:107-122 | The first waiting row is taken, or nothing changes. |
| Store.ProposalStore.FinishEvent | autonomy/store.py:124-135 | The row is completed, or failed with its reservation given up and its decision marked. |
| Store.ProposalStore.RecordEvent | autonomy/store.py:163-172 | True exactly when the id was not reserved; afterwards it is. |
| StoreTables.ForgetUndoesRecord | autonomy/store.py:163-178 | Giving up a reservation that was just made restores the tables, and the id can be reserved again. |
| Store.ProposalStore.Create | autonomy/store.py:220-261 | A pending proposal with the same tool and arguments is returned as it is; otherwise the others are superseded if they are to be replaced, and a new pending one is added last. |
| Store.ProposalStore.SupersedeUnregistered | autonomy/store.py:296-312 | Pending proposals of policies that are gone are superseded, all others untouched. |
| Store.ProposalStore.Move | autonomy/store.py:314-349 | claim and reject change a pending proposal only, and report unknown, decided and changed apart. |
| Store.ProposalStore.Complete | autonomy/store.py:328-335 | The proposal becomes executed or failed; an unknown id changes nothing. |
| Store.ProposalStore.SupersedePending | autonomy/store.py:351-361 | Exactly the policy's pending proposals are superseded. |
| QueueSafety.OrderedIffShaped | autonomy/store.py:107-122 | A queue has the shape (completed or failed)*, at most one processing, queued* if and only if no row is ahead of one in a later state of its life. |
| QueueSafety.StepKeepsQueueInv | autonomy/controller.py:46-148 | Every step of every thread, and a crash, keeps the shape, the keys, the reservations and who owns which row. |
| QueueTimeline.QueueIsSequential | autonomy/controller.py:69-83 | In every run with crashes and restarts the queue keeps its shape, events finish in strictly increasing sequence, and an interrupted event is claimed again before any later one. |
| QueueTimeline.NoLossNoSecondCompletion | autonomy/controller.py:109-148 | In every run each accepted id has exactly one row, every row that has not failed holds its reservation, no id completes twice on either path, and a completed row has its decision. |
| WakeSafety.StepKeepsAwake | autonomy/controller.py:46-83 | Every step keeps: a waiting event has a worker that is not blocked, or a flag that is set or about to be. |
| WakeSafety.NoLostWakeUp | autonomy/controller.py:63-83 | In every run, while an event is queued and the worker waits on a clear flag, an enqueuer is between its commit and its set(), or stop() is about to set the flag. |
| WakeSafety.WorkerStepsBounded | autonomy/controller.py:56-61 | While stop() waits, the worker's remaining steps only shrink, whatever the other threads do. |
| WakeSafety.StopReturns | autonomy/controller.py:56-61 | After stop() set both flags the worker takes at most six more steps, can always take one unless another thread holds the lock, and the join returns. |
| ProposalSafety.StepKeepsProposals | autonomy/controller.py:120-140 | Every step keeps the proposal invariants and what each place in the receiving thread relies on. |
| ProposalSafety.PendingProposals | autonomy/store.py:220-261 | In every run, two pending proposals of a policy never share tool and arguments; a policy that replaces has at most one pending; such a policy has none while inactive, also after a crash between superseding, activating and creating. |
| ApprovalSafety.StepKeepsApprovals | autonomy/controller.py:150-170 | Every step keeps: called actions are of approved proposals, at most one call each, with reasons where the generic agent called. |
| ApprovalSafety.CallsAreJustified | autonomy/event_agent.py:492-507 | In every run no proposal's action is called twice; a called action has its own tool and arguments; and the generic agent calls only an unexpired proposal, listed by a registered skill, accepted by its owner on required reads all made after the claim. |
| ApprovalSafety.TurnedDownIsNeverCalled | autonomy/store.py:314-360 | A rejected or superseded proposal stays as it is in every continuation and its action is never called. |
| Capabilities.CascadeIsLeast | autonomy/event_agent.py:86-99 | The removed tools are the least set that holds the named ones and every tool that requires a removed read. |
| Capabilities.RemovedExactly | autonomy/event_agent.py:86-99 | A tool goes exactly when every closed set with the named tools holds it, a skill exactly when it lists a removed tool. |
| Capabilities.RemoveTwiceIsUnion | autonomy/event_agent.py:86-99 | Removing A then B is removing their union. |
| Capabilities.RemoveIsIdempotent | autonomy/event_agent.py:86-99 | Removing the same tools again changes nothing. |
| Capabilities.RemoveKeepsSound | autonomy/event_agent.py:86-111 | A catalogue that validate() accepts is still accepted after removal. |
| CatalogObject.CapabilityCatalog.RegisterTool | autonomy/event_agent.py:67-74 | Registers exactly when the name is new and an action has reads and a validator; otherwise nothing changes. |
| CatalogObject.CapabilityCatalog.RegisterSkill | autonomy/event_agent.py:76-81 | Registers exactly when the name is new, the file exists and all tools are known. |
| CatalogObject.CapabilityCatalog.RemoveTools | autonomy/event_agent.py:86-99 | The widening loop ends and leaves what the least closed set leaves; validity is kept. |
| CatalogObject.CapabilityCatalog.Validate | autonomy/event_agent.py:101-111 | Accepts exactly the catalogues whose required reads are registered reads and whose skills list known tools with their reads. |
| CatalogObject.CapabilityCatalog.RegisterLearnedSkills | autonomy/service_capabilities.py:110-130 | Drops every learned skill and registers those the current tools allow; the rest stays. |
| Capabilities.RefreshLearned | autonomy/service_capabilities.py:110-130 | A refresh keeps the catalogue valid, leaves tools and hand-written skills alone, and a second one changes nothing. |
| CatalogObject.ServicePrefix | autonomy/discovery.py:45-50 | Every server name gives a prefix the journal accepts as a service name. |
| CatalogObject.PrefixesSeparateNames | autonomy/discovery.py:45-50 | Tools of servers with different prefixes never share a catalogue name. |
| Capabilities.RegisterListedAdds | autonomy/discovery.py:120-159 | Registering a server's tools keeps what was there and adds, for each new name, the first usable tool listed under it, as the read or action it is. |
| Capabilities.DiscoverKeepsSoundExactly | autonomy/discovery.py:120-159 | A new server leaves a valid catalogue valid if and only if each name its actions depend on is listed as a read before it is listed as an action; otherwise an action requires an action. |
| Capabilities.ActionBeforeRead | autonomy/discovery.py:138-159 | One name listed as an action and then as a read breaks that condition; the other order meets it. |
| CatalogObject.PassKeepsSoundExactly | autonomy/discovery.py:120-159 | A pass over all servers keeps a valid catalogue valid if and only if every server it asks meets that condition when it is asked. |
| CatalogObject.PassAdds | autonomy/discovery.py:120-159 | A pass changes nothing registered, adds only enabled tools of servers it has now seen, each as its listing has it, and forgets no server. |
| CatalogObject.Discovery.RegisterServer | autonomy/discovery.py:138-159 | The loop registers what the server lists, and no registration can fail. |
| CatalogObject.Discovery.Discover | autonomy/discovery.py:120-159 | The loop over servers does what a pass does to catalogue, seen and failed servers; errors are this pass's failures of unseen servers. |
| Rules.SplittingPreservesSettings | autonomy/learning.py:569-579 | One setting per rule proposes the same settings, for any rules and overlapping tools, where the fields matching rules copy are present. |
| Rules.SplittingChangesExactly | autonomy/learning.py:569-579 | For one rule, splitting changes the settings if and only if it matches, some field it copies is missing, and some setting, literal or copied, can be resolved. |
| Rules.LastGiverDecides | autonomy/learning.py:413-423 | Of several matching rules that give one setting a value, the last decides; a rule with a missing field gives none. |
| Records.NeverBoth | autonomy/learning.py:511-538 | No record both teaches and refuses a change. |
| Records.EventFieldsArePayload | autonomy/learning.py:360-392 | Event fields are what the payload holds unless their name ends in `_at`; no context shadows them. |
| FieldPaths.MemberShows | autonomy/learning.py:360-378 | Below a member of an object the flattened fields are exactly what that member gives; with names without dots no other member shows through or hides it. |
| FieldPaths.ListShowsLength | autonomy/learning.py:366-377 | Every list shows its full length, whatever its items are called and however many are looked at. |
| Records.ReplayExactly | autonomy/learning.py:404-423 | Evaluated on the record that taught it, an event-bound argument gives the operator's value if and only if that was text and the field does not end in `_at`. |
| Records.LiteralReferenceIsNotReplayed | autonomy/learning.py:511-533 | A literal reference teaches the bound change and is not replayed. |
| Statistics.Stats | autonomy/learning.py:652-657 | One pass counts taught, rejected and matched records of a rule. |
| Statistics.SupportAndRejection | autonomy/learning.py:652-657 | Support and rejections of a change together never exceed the matches. |
| Statistics.PercentilesKeep | autonomy/learning.py:810-824 | For any taught values the low percentile keeps at least 85% of them above it, the high one at least 75% below. |
| Fitting.TighteningKeepsSupport | autonomy/learning.py:693-710 | A shared context condition loses no supporting record and never lowers precision. |
| Fitting.Tighten | autonomy/learning.py:693-710 | The most precise qualifying shared condition, or none when none qualifies; support stays and precision does not fall. |
| Fitting.FitOne | autonomy/learning.py:671-690 | The threshold becomes the acceptable observed value of most support and least distance, or stays when none is acceptable. |
| Fitting.FitThresholds | autonomy/learning.py:660-690 | Each numeric threshold in turn is fitted against the rule the ones before it left. |
| Fitting.FittedKeepsShape | autonomy/learning.py:660-690 | Fitting returns its input or a rule of the same fields and operators with precision at least the raised floor, refused less often than taught. |
| Fitting.Categorical | autonomy/learning.py:790-807 | The best-ranked field value that teaches enough records precisely without a refusal, or none when there is none. |
| Induction.BestThreshold | autonomy/learning.py:810-836 | Raises exactly on a field that is number and text; what it finds has precision 0.8, recall 0.75 and fewer refusals than support, and is the best first step or, where that is imprecise, the best second one; nothing means no first step recalls enough or both stay imprecise. |
| Induction.SecondStepNeverWorse | autonomy/learning.py:810-836 | A second greedy step always exists and never scores below the first. |
| Induction.FoundIsTaughtMoreThanRefused | autonomy/learning.py:810-836 | A rule with that recall of at least one taught record is refused less often than taught. |
| Induction.FirstThresholdKeepsRecall | autonomy/learning.py:818-828 | From an empty rule, on a field every taught record has as a number, no first threshold is discarded for recall. |
| Induction.PoolIsHonest | autonomy/learning.py:764-772 | Over all records a rule is refused as often as over the pool, and at least as precise. |
| Induction.ProgressShrinks | autonomy/learning.py:764-772 | A rule that matches a missed taught record strictly shrinks what is missed. |
| Covering.FitMissing | autonomy/learning.py:768-786 | One round raises exactly when its start is not good enough and a field of the records left is number and text; what it finds is the start with precision 0.8, or else the threshold rule with precision 0.8 and recall 0.75, or else the start because no threshold fits; nothing means no context condition, category or threshold fits. |
| Covering.StartsAgree | autonomy/learning.py:774-779 | Whichever of several equally good starts is taken, all or none of them are good enough to stay as they are. |
| Covering.EarnedIsPrecise | autonomy/learning.py:768-786 | An induced rule is refused over all records as often as over those left, and at least as precise: 0.8, unless it is a start for which no threshold fits. |
| Covering.CoverChange | autonomy/learning.py:764-786 | At most three rules, each found by its round for the records those before it leave; it stops only when three were added, too few records are missed, or a round finds nothing, and is abandoned only by a round that raises. |
| Covering.InduceMissing | autonomy/learning.py:748-787 | What is induced is one completed covering after the other: exactly one for each under-covered change of each event type, and nothing else; each covering is of at most three rules, each found by its own round. It raises only where covering an under-covered change reaches a round that raises. |
| Covering.InducedExactly | autonomy/learning.py:748-787 | So every induced rule was added by the covering of an under-covered change that is induced as a whole, and every under-covered change was covered. |
| Covering.RaisingIsNeverServed | autonomy/learning.py:757-777 | Where the first round of an under-covered change raises, no result serves that change. |
| Covering.MixedFieldRaises | autonomy/learning.py:764-822 | Two records that teach one change, with a field that is number in one and text in the other, are such a change: the first round raises. |
| Verification.Fit | autonomy/learning.py:622-624 | A supported but imprecise rule is tightened, then every rule is fitted. |
| Verification.RefitIsSafe | autonomy/learning.py:660-710 | Refitting keeps what is proposed, adds at most one condition, and gives a rule of the raised precision or one of equal support and no lower precision. |
| Verification.VerifyOne | autonomy/learning.py:597-640 | An accepted rule passed every check and its stored counts are those of its final conditions within the limits; a dropped one failed a check or its refitted form is unsupported. |
| Verification.AcceptRules | autonomy/learning.py:586-640 | The accepted rules are those of the split candidates in turn that pass and repeat no fingerprint; no two share event, change and matched records, and every split candidate is settled. |
| Verification.KeepWidest | autonomy/learning.py:641-649 | Kept are exactly the rules no accepted rule strictly contains; they form an antichain. |
| Verification.SomeKeptCovers | autonomy/learning.py:641-649 | Every accepted rule's records lie inside those of some kept rule of the same event and change. |
| Verification.VerifyRules | autonomy/learning.py:582-649 | Kept rules are sound, come from one proposed setting each, form an antichain and cover every accepted rule; no supported candidate goes unanswered. |
| Verification.OnlyRepeatsOverlap | autonomy/learning.py:641-649 | Where a kept rule's ids lie inside those of another of the same event and change, the two have the same ids and one of them matches an id twice. |
| Verification.KeptNeverContains | autonomy/learning.py:641-649 | With distinct record ids no kept rule's records equal or lie inside another's of the same event and change. |
| RepeatedIds.RepeatedIdsAreKept | autonomy/learning.py:582-649 | Of two records with one id a rule matches both and another the first: verifying the two rules accepts and keeps both, for one event and change and with one set of ids. |
| SkillText.HeadingFits | autonomy/learning.py:350-357 | A printed heading is matched as that of an event if and only if the names differ at most in case, and then what follows it is the section. |
| SkillText.StripIsStripped | autonomy/learning.py:350-357 | A section body that was read keeps its ends when it is read again. |
| RuleOrder.SupportOrderIsStable | autonomy/learning.py:854 | Printed rules are in descending support and rules of equal support keep their order; none is lost or added. |
| RuleOrder.EventInOrder | autonomy/learning.py:854-855 | Sorting all rules and taking one event's is sorting that event's. |
| SkillBody.BodyReadsBackExactly | autonomy/learning.py:395-401 | The section printed for rules reads back as exactly them, or as a JSON error when one of their strings has three backticks, if and only if no line of its bullets ends the section or opens a block. |
| SkillBody.BrokenReadsNoList | autonomy/learning.py:395-401 | Otherwise the printed list is never what is read: nothing is, or text that is no list. |
| SkillFile.PrintedReadExactly | autonomy/learning.py:350-357 | Exactly what is read for any event from any text followed by printed sections, whatever their bodies hold: the first of its headings decides, also one inside a body. |
| SkillFile.OwnSectionIsReadIff | autonomy/learning.py:350-357 | A section is read under its own name whatever it says if and only if nothing printed before it is a heading for its event up to case; otherwise what it says is never read. |
| SkillFile.KeptSectionExactly | autonomy/learning.py:872-877 | A section of any existing file, also one edited by hand, whose event is not relearnt reads back unchanged if and only if nothing printed before it is taken for it and no line in it ends it, or what is taken for it says the same. |
| SkillFile.RenderSaysExactly | autonomy/learning.py:848-904 | Rendering replaces the sections of relearnt events and leaves what the file says of the others, if and only if every section printed stands in that sense. |
| SkillFile.RunSaysExactly | autonomy/learning.py:848-904 | Over any number of renderings the file always says what was learnt last for each event if and only if every section of every rendering stands. |
| SkillFile.FileReadsBackExactly | autonomy/learning.py:848-904 | After any number of renderings whose sections stand, the file reads back, for each event, the rules of the last lesson that had any, in the order printed, if and only if none of their bullets opens a block. |
| SkillFile.PrintThenRun | autonomy/learning.py:848-904 | After such a run, settings proposed from the file are those of the verified rules in descending support, on every field map. |
| SkillLimits.FlatRunStands | autonomy/learning.py:848-904 | Where no field, tool or argument name breaks a line and no two event names differ only in case, every section of every rendering stands and no bullet opens a block. |
| SkillLimits.LineBreakLosesRule | autonomy/learning.py:843-904 | A field name with a line break before `## ` is printed as it is; the file lists the event and gives no rule for it, whatever the wording. |
| SkillLimits.LineBreakHidesOther | autonomy/learning.py:843-904 | A field name that brings a heading for another event hides that event's section, if it is printed first. |
| SkillLimits.IndentedMarkIsLost | autonomy/learning.py:350-357 | When a kept section's first line is an indented `## `, nothing is read for its event from the file rendered again. |
| SkillLimits.QuotedHeadingTakesOver | autonomy/learning.py:350-357 | A kept section that begins with `##event:name` and is printed first is read in place of that event's section, which is still there. |
| RuleOrder.LeastSupportDecides | autonomy/learning.py:413-423 | Where printed rules disagree on a setting, one of least support decides. |
| SkillLimits.SecondSpellingIsHidden | autonomy/learning.py:350-357 | Of two names in a file that differ only in case, what the second one's section says is never read; both events read the same lines. |
| Learner.LearnRules | autonomy/learning_runner.py:198-221 | The rules to be printed are supported by the records and form an antichain; no rules means no candidate was supported, or the induction raised beside kept rules. |
| Learner.InducedArePrecise | autonomy/learning_runner.py:211-219 | An induced rule was added by the covering of a change that was due. It is precise over all records of its event type, unless it is where its own round started, over the records the rules before it left, and no threshold fits. |
| Learner.EveryReadRuleIsSupported | autonomy/learning_runner.py:198-221 | After any number of lessons whose sections stand, every rule read from the skill was counted and kept over the records of one of them. |
| Journal.AppendKeepsUnique | autonomy/learning.py:227-240 | Appending is all or nothing, keeps ids unique and what was there, and adds each new id of a valid batch once. |
| Journal.FinalizeOneIs | autonomy/learning_runner.py:302-328 | An approved run archives exactly its own staged ids and is saved as learnt; a rejected one changes its status only; a waiting one changes nothing. |
| JournalFiles.CountsByService | autonomy/learning_runner.py:114-120 | One pass counts the operator responses of each service and event type. |
| JournalFiles.JournalStore.Append | autonomy/learning.py:227-240 | Writes the new records of the batch, or nothing when one of them is invalid. |
| JournalFiles.JournalStore.Archive | autonomy/learning.py:245-264 | Moves exactly the records with the ids to the end of the run's archive; with none, no file changes. |
| JournalFiles.JournalStore.FinalizeRun | autonomy/learning_runner.py:305-327 | One round has the effect of its writes, and saves exactly the staged runs that are decided. |
| JournalFiles.JournalStore.FinalizeRuns | autonomy/learning_runner.py:302-328 | The loop over runs has the effect of its writes in order. |
| JournalFiles.JournalStore.RunService | autonomy/learning_runner.py:247-270 | Refused exactly when the service has a staged run; a staged run holds the ids of all its records of ready event types, and otherwise nothing is saved. |
| JournalRecovery.WritesFinalize | autonomy/learning_runner.py:302-328 | Applying the writes of all runs is what finalize does. |
| JournalRecovery.RepeatAfterCrash | autonomy/learning_runner.py:302-328 | Stopped after any number of its writes, finalize run again reaches the same journal, the same statuses and archives of the same records. |
| JournalSafety.StepKeepsInv | autonomy/learning.py:227-264 | Every step of appender, learner and finalizer, and stopping either, keeps the journal invariants. |
| JournalSafety.JournalIsSafe | autonomy/learning.py:227-264 | In every run every accepted record waits or is archived, waiting ids are unique, archives hold only what their run was staged for, and no service has two staged runs. |
| JournalSafety.DecidedStaysDecided | autonomy/learning_runner.py:302-328 | A decided run never changes again; a run keeps its ids and service. |
| JournalSafety.LeavesOnlyForArchive | autonomy/learning.py:245-264 | A record leaves the journal only for a run being learnt, whose archive holds it by then. |
| JournalSafety.LearnerSeesDistinctIds | autonomy/learning_runner.py:254-258 | In every run the records handed to the learner have distinct ids. |
| AgentReads.Observe | autonomy/event_agent.py:135-148 | A call is made exactly when schema and kind allow it, at most one; the snapshot is recorded with its arguments when the result is usable and, for a tool that answers for one store, is about this restaurant; anything else leaves the records as they were. |
| AgentReads.SelectLearned | autonomy/event_agent.py:183-188 | Selected from the start are exactly the learned skills with a section for the event. |
| AgentReads.LoadSkills | autonomy/event_agent.py:220-223 | Skills are selected up to the first unknown one; it succeeds exactly when all are known. |
| AgentReads.LoadReads | autonomy/event_agent.py:218-237 | At most one call per request, none for a tool read before and none twice; on success every request names a permitted tool that was read, on failure some request ends that way. |
| AgentReads.ReadMissing | autonomy/event_agent.py:279-291 | Required context that was missing is read without arguments, or one of these reads ends the round. |
| AgentReads.Refresh | autonomy/event_agent.py:306-309 | On success every required observation comes from a call made since, with the recorded arguments, which stay; otherwise one of these calls ends that way. |
| Agent.LearnedAction | autonomy/event_agent.py:375-393 | The action has the learned settings of a permitted tool and is accepted, or held back only as stale; none means every such tool's settings were turned down. |
| Agent.WithLearned | autonomy/event_agent.py:292-303 | Learned settings are added only when schema and owner accept them together, and never replace an argument of the model. |
| Agent.Conclude | autonomy/event_agent.py:304-329 | Proposed exactly when the action is accepted; a refusal asks for another round; on stale evidence all required reads are taken again and the action validated on them, without being proposed at once, or one of these reads ends the round or the loop. |
| Agent.Decide | autonomy/event_agent.py:243-329 | A decision ends the loop only with a valid summary and every selected skill's context read. What it comes to is fixed step by step: the model's action or a learned one, missing context fetched, learned settings merged in, the verdict of the checks and what stale evidence does; where no learned settings play a part it is one function of the memory. |
| Agent.LearnedActionIsProposed | autonomy/event_agent.py:263-329 | Where the model proposes nothing, and the learned settings that match are accepted whenever they are tried, the decision proposes some tool's learned settings, all of them, with at most a reason besides. |
| Agent.LearnedSettingsAreApplied | autonomy/event_agent.py:292-303 | Where all context is read and the learned settings for the model's tool are accepted together with its own arguments, the decision proposes both, the model's arguments before learned ones of the same name, whatever it left out. |
| Agent.EvaluateEvent | autonomy/event_agent.py:178-343 | For any replies: only registered reads are called, with arguments their schema accepted; observations, recorded arguments and trace coincide, and what is observed of a store's tool is about this restaurant; a proposal is permitted and accepted on its recorded observations; the loop begins with nothing read and exactly the learned skills for the event; each round leads from its memory, by its reply, to the next one by loading and reading what the reply asks for or by deciding; and the loop ends with the first reply that settles it, in at most the allowed rounds. |
| Agent.ProposalMayExecute | autonomy/event_agent.py:492-500 | A proposal of the loop passes the first checks of execution while the catalogue is unchanged and it is recent. |
| Agent.ApprovalFindsArguments | autonomy/event_agent.py:500-505 | Execution finds the last recorded arguments for every required read, as long as the tool still requires the same reads. |
| Agent.ApprovalReadsOn | autonomy/event_agent.py:500-505 | So an approval of such a proposal never ends for want of recorded arguments. |

## Left out

- HTTP, SSE and MCP transports, subprocesses, TLS, YAML, file locks and SQLite: calls and replies are parameters, each
  transaction, `replace` and file append is atomic, so is `save_run`, which writes its file in place
  (`autonomy/learning.py:266-270`), and AUTOINCREMENT never reuses a value.
- JSON Schema checking and the owners' validators (`autonomy/service_capabilities.py:63-108`): arbitrary predicates of
  the arguments, the observations and the number of questions asked before.
- JSON printing and parsing: a printed rule list is one line that stands for the list; two JSON texts are equal
  exactly when the values are, with members in order. A block of a hand-edited section that is not one such list is
  parsed by an arbitrary function.
- Floating point: fields, precision and percentiles are exact numbers, without rounding, NaN or infinities.
- Candidate orders of `sorted()` in `_fit_thresholds`, `_tighten`, `_categorical`, `_best_threshold` and
  `induce_missing_rules`: any order is allowed, so ties may go either way.
- A file whose very last line is `##` without a line break, letters outside ASCII that fold into ASCII, event names
  that end in a line break, and names in a hand-edited frontmatter that the journal would refuse as event types.
- Event names that YAML would not read back as the same text (`true`, `1.5`): the list in the frontmatter is taken as
  it was written.
- Rules that are not objects of the expected shape: one flag on a candidate stands for all such checks, and evaluating
  them at run time is not modelled. A candidate whose `propose` is a non-empty text or list makes the source stop with an
  AttributeError (`autonomy/learning.py:603-604`); the model drops it like the others.
- Intents, summaries, prompts, `coverage_gaps`, `describe_rules`, the input guardrail, the operator UI and the size
  limit of a skill: presentation or heuristics.
- The tools a skill's frontmatter lists, and `validate_learned_skill`: the list is a parameter, and a rendered file in
  which a listed event reads as empty, which that check refuses, is a file like any other.
- Proposal expiry uses whole seconds, and a policy id is either always or never one that handles every event type.
- Two learners at once: `run_service` checks and saves in separate steps, so one staged run per service needs one
  learner at a time.
- Records in archives may share an id with a later record: `append` compares with unlearnt ones only.
- JournalRecovery.RepeatAfterCrash: archives are compared as sets, because a repeated copy does leave records in an
  archive twice; skill files and staged writes are the same in both runs.

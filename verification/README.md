# Verified model of Sinfonia's bridge and daemon

This project models the parts of Sinfonia whose correctness rests on more than one function, and
proves what they promise. It has no dependencies; `dafny verify dfyconfig.toml` checks it.

## What is modelled

**Merge coordinator** (`CheckGate`, `Storage`, `LandingProgram`, `LandingReactions`, `LandingSafety`,
`LandingCycles`, `Coordinator`, `Fairness`). `LandingProgram` is the coordinator as a program with
one effect per step: approval, green CI, red CI, boot sweep and every call inside a kick. Any number
of calls run interleaved on one queue against a GitHub that changes heads, checks and states as it
likes; each remote call and each store write may fail, a merge or update call may take effect
although its answer is lost, and a call may stop between any two effects. A logged answer is what
the tracker, GitHub or the table said at that moment. `LandingReactions` proves which effects each
answer leads to, `LandingSafety` what a merge and a deletion must have been preceded by;
`LandingCycles` keeps the account of update-branch cycles; `Coordinator` is the imperative form over
the table of `Storage`, whose log of effects is proved to be a run of that program that accounts for
the queue, with the effect of every entry point on the queue and on its stamps, and with the number
of failed effects; `Fairness` follows a row's rank over the calls that are made.

The module comment of the coordinator says that one pull request per repository is in flight at a
time. Advancing a row rewrites its update time, so a waiting head goes to the back of the queue and
the next kick takes another row: it holds within one kick, and that is what is proved.

**CI feedback loop** (`RetryCap`, `CheckGate`). One evaluation as an ordered list of tracker writes
that may be cut anywhere, and whole runs of evaluations.

**Failure digest and artifact names** (`Digest`, `Glob`). Texts are sequences of characters with
their UTF-8 lengths. The code comments say that any literal three backticks are broken up; the
replacement does not overlap, so runs of 5, 8, 11, ... backticks keep three in a row. The exact
condition is proved for a value, a scenario and a whole digest.

**Markdown for Jira** (`Markdown`), **shell quoting** (`ShellQuote`), **base64** (`Base64`). Each
against an independent description: what a reading of a text is, the word rules of a POSIX shell
(sections 2.2 and 2.3 of the IEEE Std 1003.1 Shell Command Language), the decoder of section 4 of
RFC 4648.

**Tool loop** (`ToolLoop`). A turn for any behaviour of clock, model and tools, and the encoding of
histories for Anthropic. A tool that breaks ends a turn in an error with its round half answered;
the history is then unpaired for good.

**Budget** (`Budget`, `BudgetFlights`). Costs are exact rationals, tokens saturate at 64 bits. The
second module takes flushes apart into their single acts, so that any number of them overlap. The
tracker can then go back; exactly when it is up to date is proved.

**Linear's field store** (`LinearFields`, `MarkerCodec`). The comments of an issue as a list of which
the first hundred are listed, with people adding, editing and deleting their own in between. The
JSON library is a parameter that reads back every map it writes; numbers are the bits of finite
64-bit floats, and `MarkerCodec` has a library that meets this.

**Retry queue** (`RetryQueue`). Claims, entries, runs, sleeping timers, fires under way and workers.
The comment on `schedule` says that it cancels an existing timer; the code does not, and a comment
in `fire_retry` speaks of checking that the entry is still its own; the code takes whatever entry
is there. A run that is found stalled or terminated is only forgotten, its worker goes on; when that
worker ends later, it can schedule an issue that already waits or is in flight. The model shows
exactly which steps break the order and which give an issue a second worker, that nothing is
stranded even then, a run in which a timer fires before the entry it takes out is due, and exactly
when two workers are at the same issue.

## Model

| member | source | states |
|---|---|---|
| `CheckGate.Summarize` | crates/sinfonia-bridge/src/github/client.rs:447-468 | over the runs themselves: a name is among the failed exactly when a run of it finished with failure, cancelled, timed_out or action_required in any case of letters, among the passed exactly when one finished otherwise, both in the order of the runs, and the suite is pending exactly when a run has not finished |
| `CheckGate.GreenRuns` | crates/sinfonia-bridge/src/github/client.rs:29-34 | the gate read off the runs: all have finished, every required name has a run that finished well and none that failed; with no required names no run failed and one finished well; and which runs are a gating failure |
| `CheckGate.NamesWhereMember` | crates/sinfonia-bridge/src/github/client.rs:447-468 | a name is in a collected list exactly when some run of that kind carries it |
| `CheckGate.VerdictMeaning` | crates/sinfonia-bridge/src/feedback/mod.rs:172-218 | green and required-failed exclude each other; with required names and nothing pending, green means every one of them is among the passed and not among the failed; a red verdict always has a failed check to categorize |
| `CheckGate.GreenIgnoresOthersAndIsAntitone` | crates/sinfonia-bridge/src/github/client.rs:73-97 | what other checks did does not matter to either predicate, and requiring fewer (but some) names keeps green |
| `CheckGate.FirstRequiredNameCanOpenTheGate` | crates/sinfonia-bridge/src/github/client.rs:73-83 | why the antitone law needs a nonempty list: naming a first required check can turn a summary green that was not |
| `CheckGate.Categorize` | crates/sinfonia-bridge/src/feedback/categorize.rs:32-64 | the leftmost category of the highest priority among those whose pattern matches a failed check, or the default |
| `CheckGate.OneHitIsEnough` | crates/sinfonia-bridge/src/feedback/categorize.rs:32-64 | a category matches as soon as its pattern takes one failed check, wherever that is in the list, and never without a pattern |
| `CheckGate.DefaultCategory` | crates/sinfonia-bridge/src/feedback/categorize.rs:66-76 | the first category named default, or, where there is none, the first of the lowest priority |
| `CheckGate.BestIsUnique` | crates/sinfonia-bridge/src/feedback/categorize.rs:32-76 | these two conditions name one category each, so the choice is determined |
| `Storage.Store.EnqueueLanding` | crates/sinfonia-bridge/src/storage.rs:210-229 | insert or ignore: an existing row keeps everything, a new one is queued with attempt 0 |
| `Storage.Store.GetLanding` | crates/sinfonia-bridge/src/storage.rs:231-265 | an error, or the row of that pull request if there is one |
| `Storage.Store.AdvanceLanding` | crates/sinfonia-bridge/src/storage.rs:271-297 | rewrites status, head, attempt and the update time of an existing row and touches no other |
| `Storage.Store.DequeueLanding` | crates/sinfonia-bridge/src/storage.rs:301-310 | removes that row only |
| `Storage.Store.ListLandings` | crates/sinfonia-bridge/src/storage.rs:314-353 | every row exactly once, ordered by update time, then pull request number |
| `Storage.OldestExists` | crates/sinfonia-bridge/src/storage.rs:314-353 | any nonempty set of rows has one that nothing precedes, so the ordered listing exists |
| `Storage.StatementsMean` | crates/sinfonia-bridge/src/storage.rs:210-310 | what an insertion, an update and a deletion change of a table, and that they touch no other row |
| `Storage.HeadIsOldest` | crates/sinfonia-bridge/src/storage.rs:314-353 | the head of a repository has waited longest, and is the lowest number among equal times |
| `Storage.FirstOfRepoIsHead` | crates/sinfonia-bridge/src/merge/mod.rs:258-265 | the first listed row of a repository is the oldest one it has |
| `LandingProgram.CallsFollowTheProgram` | crates/sinfonia-bridge/src/merge/mod.rs:100-516 | in every interleaving, the effects logged for one call are a run of the coordinator program |
| `LandingProgram.LogExplainsQueue` | crates/sinfonia-bridge/src/merge/mod.rs:100-516 | in every interleaving, the queue is what the logged effects made of it |
| `LandingProgram.StepThreads` | crates/sinfonia-bridge/src/merge/mod.rs:231-265 | one step moves one call and leaves the others and their program points alone |
| `LandingReactions.TurnsReact` | crates/sinfonia-bridge/src/merge/mod.rs:271-516 | which effects each answer about a picked row leads to, said of GitHub's answers alone: merged or closed, its deletion; behind with cycles left, an update-branch call at that head and what its outcome asks for; dirty, or behind without, the field, the ticket move, the three tolerated writes and the deletion; draft or unknown, the wait; otherwise the checks of that head, and if they are settled and green the mark, the merge call at that head and then the deletion or the step back; nothing else, nothing less, and no next pick before |
| `LandingReactions.AnswersDecide` | crates/sinfonia-bridge/src/merge/mod.rs:271-516 | ... for every call in every interleaving |
| `LandingReactions.EventsLead` | crates/sinfonia-bridge/src/merge/mod.rs:100-160 | what an approval, a green and a red event lead to before a kick: an approval with a ticket of an unmerged pull request to the insertion of its row, a green one of a queued row and a red one after giving the row up to a kick of that repository, and of no other, and everything else to nothing |
| `LandingSafety.EvidenceHolds` | crates/sinfonia-bridge/src/merge/mod.rs:271-516 | in every reachable state of every interleaving, each call's log ends with the evidence its program point needs |
| `LandingSafety.TailStep` | crates/sinfonia-bridge/src/merge/mod.rs:271-516 | each single effect keeps that evidence |
| `LandingSafety.WorkComesFromPick` | crates/sinfonia-bridge/src/merge/mod.rs:258-277 | a call only acts on the row it picked as head of the queue |
| `LandingSafety.WorkIsLastPick` | crates/sinfonia-bridge/src/merge/mod.rs:231-277 | in every interleaving, whatever a call works on, ticket and attempt included, is the row it took from the queue last |
| `LandingSafety.PicksAreHeads` | crates/sinfonia-bridge/src/merge/mod.rs:258-265 | ... and that row was the oldest of its repository at that moment |
| `LandingSafety.OnlyApproved` | crates/sinfonia-bridge/src/merge/mod.rs:100-126 | every row, and every row a call works on, was inserted by a call that began as an approval of that pull request, found a ticket for it and then read it as not merged |
| `LandingSafety.MergesAreSafe` | crates/sinfonia-bridge/src/merge/mod.rs:377-427 | whatever the interleaving and whatever GitHub does, each pull request the coordinator merges, also where the answer of the merge is lost, had been put into the queue by an approval that read it as not merged, is open, and is merged at exactly its current head, which the same call read as ready and for which it then read a settled green summary, with nothing but the mark in between |
| `LandingSafety.MergesAreGreenToTheFeedbackLoop` | crates/sinfonia-bridge/src/merge/mod.rs:377-404 | the summary a merge rests on is one the feedback loop calls green |
| `LandingSafety.MergedStaysMerged` | crates/sinfonia-bridge/src/github/client.rs:607-649 | nothing is merged twice: once merged by anyone, also by a merge call whose answer was lost, the coordinator's merge call cannot take effect |
| `LandingSafety.DeletionsAreJustified` | crates/sinfonia-bridge/src/merge/mod.rs:145-160 | each row the coordinator deletes was merged by that call, seen merged or closed, not green when settled, reported red, or parked: then the row is the one the call took last, when it was the head of the queue, the ticket moved is the ticket of that row, and the spent update budget is that of that row |
| `LandingSafety.NothingSilentlyLost` | crates/sinfonia-bridge/src/merge/mod.rs:277-311 | over any stretch of any run, a row that vanished was deleted at a point in that stretch with such a justification |
| `LandingSafety.OnlyDeletionRemoves` | crates/sinfonia-bridge/src/storage.rs:301-310 | no other effect takes a row away |
| `LandingSafety.FailuresKeepTheRow` | crates/sinfonia-bridge/src/merge/mod.rs:231-256 | a failed effect leaves the queue as it is, and the call stops, goes on to the next repository, or to the next row of the boot sweep |
| `LandingSafety.DisabledDoesNothing` | crates/sinfonia-bridge/src/merge/mod.rs:65-82 | switched off, no interleaving of calls has any effect |
| `LandingCycles.CyclesAreBounded` | crates/sinfonia-bridge/src/merge/mod.rs:318-372 | with calls serialized, in every reachable state the attempt of a row is the number of branch updates GitHub took since its insertion less those whose answer or record was lost, and less one while a record is under way; it is never above the configured maximum, across re-approvals, boot sweeps and head moves |
| `LandingCycles.SerialAccount` | crates/sinfonia-bridge/src/merge/mod.rs:318-372 | the account behind it holds along every serial run, also in the middle of a call |
| `LandingCycles.RowStep` | crates/sinfonia-bridge/src/merge/mod.rs:271-404 | what one effect may do to the attempt of a row |
| `LandingCycles.BeliefStep` | crates/sinfonia-bridge/src/merge/mod.rs:258-277 | without interference, what a call believes about its row stays true |
| `LandingCycles.OverlappingKicksOverspend` | crates/sinfonia-bridge/src/merge/mod.rs:318-372 | why calls must be serialized: for every maximum, a run in which two overlapping kicks get one update more accepted than it while nothing is lost |
| `LandingCycles.OverlappingKicksAreUnbounded` | crates/sinfonia-bridge/src/merge/mod.rs:318-372 | ... and then there is no bound at all: for every k, a run after which GitHub has accepted k updates of one queued pull request, nothing is lost, nobody is at work and the row says that no update was made |
| `Coordinator.Call.HeadOfQueue` | crates/sinfonia-bridge/src/merge/mod.rs:258-265 | an error, or the oldest row of the repository |
| `Coordinator.Call.Kick` | crates/sinfonia-bridge/src/merge/mod.rs:231-256 | terminates on the number of rows; the rows it removes are a prefix of the repository's order, at most the next one changes, other repositories are untouched, the log is a run of the program and the queue what its effects made of it; at most one effect fails, none where store, GitHub and tracker answer, and if none failed the repository's queue is empty afterwards or the row left waiting has a new stamp, later than the clock at the start where the clock ticks |
| `Coordinator.Call.KickOnce` | crates/sinfonia-bridge/src/merge/mod.rs:231-256 | the same as one step of a history of the queue, in time if no effect in its log failed and the clock ticks |
| `Coordinator.KickIsInTime` | crates/sinfonia-bridge/src/merge/mod.rs:297-309 | with a ticking clock a kick that leaves the queue of its repository empty or its waiting row newly stamped does so later than all rows |
| `Coordinator.Call.AdvanceOne` | crates/sinfonia-bridge/src/merge/mod.rs:271-312 | from reading its pull request on, the effects logged are those the answers call for, all of them and in order, up to the end: a ready and green pull request is marked and merged at the head that was read; the row alone is gone and the kick goes on, or no other row changed and the kick ends |
| `Coordinator.Call.AdvanceBehind` | crates/sinfonia-bridge/src/merge/mod.rs:318-372 | an update-branch cycle, or parking when the cycles are spent: the row alone is gone and the kick goes on, or no other row changed and the kick ends, with an attempt not beyond the maximum where it waits; every effect is the next one of the program |
| `Coordinator.Call.AdvanceReady` | crates/sinfonia-bridge/src/merge/mod.rs:377-427 | from reading the checks on: the row alone is gone and the kick goes on, or no other row changed and the kick ends; every effect, the merge included, is the next one of the program |
| `Coordinator.Call.MergeReady` | crates/sinfonia-bridge/src/merge/mod.rs:405-460 | from marking the row on: the row alone is gone and the kick goes on, or no other row changed and the kick ends; every effect is the next one of the program |
| `Coordinator.Call.Park` | crates/sinfonia-bridge/src/merge/mod.rs:467-516 | every effect is the next one of the program: the row goes after all of them, or an error keeps the whole queue as it was |
| `Coordinator.Call.SettleRow` | crates/sinfonia-bridge/src/storage.rs:271-297 | only the row at hand changes, to exactly the given status, head and attempt and the stamp of the clock; on an error nothing changes, one failed effect is logged, and that never happens where nothing fails |
| `Coordinator.Call.DropRow` | crates/sinfonia-bridge/src/storage.rs:301-310 | only the row at hand goes, or nothing on an error, which is logged as one failed effect |
| `Coordinator.Call.EnqueueOnApproval` | crates/sinfonia-bridge/src/merge/mod.rs:100-126 | nothing, or the insertion of a row for that pull request where there is none, with the ticket, head and stamp the insertion was given, and then one kick of its repository; in time if no effect in its log failed and the clock ticks; the log begins with this event, runs through the program to its end, accounts for the whole change of the queue, and holds at most one failure, none where store, GitHub and tracker answer |
| `Coordinator.Call.OnCiGreen` | crates/sinfonia-bridge/src/merge/mod.rs:130-141 | one kick of the repository if the pull request is queued, nothing otherwise; in time if no effect in its log failed and the clock ticks; the log is tied to event, program, queue and failures in the same way |
| `Coordinator.Call.OnCiRed` | crates/sinfonia-bridge/src/merge/mod.rs:145-160 | the row is given up, then its repository is kicked once; in time if no effect in its log failed and the clock ticks; an error before the kick leaves the queue as it was; the log is tied to event, program, queue and failures in the same way |
| `Coordinator.Call.SweepRows` | crates/sinfonia-bridge/src/merge/mod.rs:165-207 | against a GitHub that stands still, every row seen merged or closed goes, every row with an old head gets the new one and keeps its attempt, the others stay; unless a store statement failed |
| `Coordinator.Call.ReconcileOnBoot` | crates/sinfonia-bridge/src/merge/mod.rs:165-217 | the sweep, then one kick of each repository that had a row, each with the effect of a kick; switched off, nothing; all of it whenever no store statement in its log failed, the kicks in time if nothing failed and the clock ticks |
| `Coordinator.Call.KickRepos` | crates/sinfonia-bridge/src/merge/mod.rs:213-216 | one kick of each of these repositories, whatever fails in one of them; in time if nothing failed and the clock ticks |
| `Coordinator.SweepSettles` | crates/sinfonia-bridge/src/merge/mod.rs:165-207 | after the sweep every row has the head GitHub has and its old attempt, and a second sweep changes nothing |
| `Coordinator.DrainMore` | crates/sinfonia-bridge/src/merge/mod.rs:231-256 | removing the head keeps the removed rows a prefix and makes the queue shorter |
| `Fairness.RankAfterKick` | crates/sinfonia-bridge/src/merge/mod.rs:231-265 | exactly how far a kick moves each row of its repository towards the head |
| `Fairness.RankZeroIsHead` | crates/sinfonia-bridge/src/merge/mod.rs:258-265 | rank zero is being the head |
| `Fairness.RankFalls` | crates/sinfonia-bridge/src/merge/mod.rs:231-265 | each kick in time strictly lowers the rank of every row of its repository that it neither removes nor acts on, and no other step in time raises it |
| `Fairness.RankFallsAlong` | crates/sinfonia-bridge/src/merge/mod.rs:231-265 | ... over any history of kicks, insertions and red events |
| `Fairness.NoStarvation` | crates/sinfonia-bridge/src/merge/mod.rs:231-265 | in any such history each row is served, or is head, within as many kicks of its repository as its rank |
| `Fairness.HandleAll` | crates/sinfonia-bridge/src/merge/mod.rs:100-160 | the entry points themselves, called one after the other on any events with a ticking clock: one log per event, each a run of the program, together accounting for the queue; if no effect in them failed, as is sure where store, GitHub and tracker answer, every row in the queue at the start that was poked more often than its rank (its own green CI, or a red CI in its repository) has been served |
| `Fairness.KeepsUpNext` | crates/sinfonia-bridge/src/merge/mod.rs:130-160 | one more handled event keeps the kicks of a repository at least as many as the pokes of each row still unserved |
| `Fairness.SameSecondKeepsTheHead` | crates/sinfonia-bridge/src/storage.rs:280-286 | why the clock must advance: with equal times the head stays head |
| `RetryCap.CapHitExactly` | crates/sinfonia-bridge/src/feedback/attempts.rs:48-58 | the cap is hit exactly from the maximum on, except that the largest 32-bit maximum is never hit |
| `RetryCap.ReadAndDecide` | crates/sinfonia-bridge/src/feedback/attempts.rs:73-103 | decides on the counter and the per-ticket cap as stored |
| `RetryCap.FieldsRead` | crates/sinfonia-bridge/src/feedback/attempts.rs:73-103 | how the stored counter and cap are read: numbers are taken down to whole ones, a missing or negative counter is none, a missing, negative or zero cap is the configured one |
| `RetryCap.ApplyRedBelowCap` | crates/sinfonia-bridge/src/feedback/transition.rs:138-180 | log, category and counter are written in this order before the transition; a failure stops right there, and with a tracker that answers nothing fails |
| `RetryCap.EvaluateOnePr` | crates/sinfonia-bridge/src/feedback/mod.rs:152-342 | the three-way verdict, what it writes, where it may stop, and which category routes it; it stops early only where a call failed; at its end the ticket is where it was for a pending suite, in the review state if there is one for a green one, in the blocked state with its fields as they were for a cap hit, and in the target of the category with log, category and counter written for a red one |
| `RetryCap.EvaluationStep` | crates/sinfonia-bridge/src/feedback/mod.rs:152-342 | what one evaluation, complete or cut off at any point, does to counter and cap |
| `RetryCap.CompleteStep` | crates/sinfonia-bridge/src/feedback/mod.rs:152-342 | what a complete one does and answers |
| `RetryCap.RetriesAreExact` | crates/sinfonia-bridge/src/feedback/attempts.rs:48-103 | over any serial run without failures, k red evaluations give min(k, M - c0) continuations with consecutive numbers and cap hits from then on; greens reset nothing |
| `RetryCap.CrashesKeepTheCap` | crates/sinfonia-bridge/src/feedback/transition.rs:138-180 | over any serial run cut at any points, the counter never exceeds the cap, moves to any state other than the blocked and the review state number at most the counter's growth, and each of them is to the target of a red evaluation, right after that evaluation's log and category and an attempt number within the cap were written |
| `RetryCap.DoneFixMoves` | crates/sinfonia-bridge/src/feedback/transition.rs:150-180 | one evaluation moves a ticket to a state other than blocked and review at most once, to the target of its category and right after its context |
| `RetryCap.NamesThatCount` | crates/sinfonia-bridge/src/feedback/attempts.rs:73-103 | exactly which coincidences of the four field names break that count: the override kept in a text field, or in the counter's field where the cap leaves room for two retries; the counter may share a field with a text |
| `RetryCap.NamesThatSurviveCrashes` | crates/sinfonia-bridge/src/feedback/transition.rs:138-180 | for a cap that leaves room for two retries, the guarantee for runs that are cut off holds if and only if the override shares no field with what is written and the counter none with a text |
| `RetryCap.OverlappingRedsShareAnAttempt` | crates/sinfonia-bridge/src/feedback/mod.rs:152-342 | why evaluations must be serial: two overlapping reds move the ticket twice for one count |
| `Glob.GlobMatch` | crates/sinfonia-bridge/src/feedback/manifest.rs:155-181 | true exactly when the name matches the pattern as defined character by character, for every pattern and name |
| `Glob.MatchesIsAnchored` | crates/sinfonia-bridge/src/feedback/manifest.rs:155-181 | that meaning in terms of the literal parts, anchored at both ends |
| `Glob.LeftmostSuffices` | crates/sinfonia-bridge/src/feedback/manifest.rs:163-177 | taking the leftmost occurrence of a part loses no match |
| `Glob.ChainGrows` | crates/sinfonia-bridge/src/feedback/manifest.rs:163-177 | a chain of parts found in a tail is found in the whole |
| `Glob.Find` | crates/sinfonia-bridge/src/feedback/manifest.rs:163-177 | the leftmost occurrence, or none if there is none |
| `Digest.BuildFailureDigest` | crates/sinfonia-bridge/src/feedback/manifest.rs:284-334 | shows the scenarios of the budget's cut, in order, and counts all others in the marker |
| `Digest.CutIsUnique` | crates/sinfonia-bridge/src/feedback/manifest.rs:309-325 | the budget determines how many scenarios are shown |
| `Digest.NothingFitsLater` | crates/sinfonia-bridge/src/feedback/manifest.rs:309-325 | stopping at the first scenario that does not fit gives up none that would |
| `Digest.DigestFitsBudget` | crates/sinfonia-bridge/src/feedback/manifest.rs:309-334 | with two or more scenarios shown the digest is within the byte budget, newline and marker included, while the dropped count has at most 13 digits, and a byte over per further digit; with fewer shown its size is exactly that of its parts |
| `Digest.DecLength` | crates/sinfonia-bridge/src/feedback/manifest.rs:328-331 | a count has at most k digits exactly when it is below ten to the k |
| `Digest.DecDenotes` | crates/sinfonia-bridge/src/feedback/manifest.rs:328-331 | the digits of a count denote it, without leading zeros |
| `Digest.SanitizeLeavesFence` | crates/sinfonia-bridge/src/feedback/manifest.rs:373-383 | exactly when a sanitized value still holds three backticks in a row: when it has a maximal run of 5, 8, 11, ... backticks |
| `Digest.FiveBackticksSurvive` | crates/sinfonia-bridge/src/feedback/manifest.rs:373-383 | the smallest such value |
| `Digest.SanitizeHasNoControl` | crates/sinfonia-bridge/src/feedback/manifest.rs:373-383 | no control character is left |
| `Digest.ControlCharacters` | crates/sinfonia-bridge/src/feedback/manifest.rs:373-383 | which characters these are |
| `Digest.SanitizeKeepsPlain` | crates/sinfonia-bridge/src/feedback/manifest.rs:373-383 | a value without control characters and three backticks in a row stays as it is |
| `Digest.BlockFence` | crates/sinfonia-bridge/src/feedback/manifest.rs:337-371 | the same exact condition for one rendered scenario, over all the values it shows |
| `Digest.DigestFence` | crates/sinfonia-bridge/src/feedback/manifest.rs:284-371 | ... and for a whole digest |
| `Digest.BlockReads` | crates/sinfonia-bridge/src/feedback/manifest.rs:337-371 | how a scenario reads, label by label, with absent fields and artifacts left out |
| `Digest.GateMeaning` | crates/sinfonia-bridge/src/feedback/manifest.rs:104-148 | version 2 is ingested, larger 32-bit versions are read forward, everything else falls back; the truncating cast never decides; the first failures up to the configured number are kept, all of them if there are no more, with version, bundle and the true number |
| `Digest.NoFailureUncounted` | crates/sinfonia-bridge/src/feedback/manifest.rs:126-134 | scenarios shown plus the number in the marker make the number of failures in the file |
| `Markdown.ParseInlines` | crates/sinfonia-tracker/src/jira_adf.rs:174-255 | for every text, the nodes are its inline reading; written out again they give exactly the text; no plain or emphasis node is empty and no two plain nodes are neighbours |
| `Markdown.ReadingPrints` | crates/sinfonia-tracker/src/jira_adf.rs:174-255 | any inline reading, written out, is the text it reads |
| `Markdown.ReadingIsTidy` | crates/sinfonia-tracker/src/jira_adf.rs:174-255 | any inline reading is tidy |
| `Markdown.ReadingIsUnique` | crates/sinfonia-tracker/src/jira_adf.rs:174-255 | a text has one inline reading, so the parser is determined by it |
| `Markdown.SpanCovers` | crates/sinfonia-tracker/src/jira_adf.rs:180-250 | a span is written exactly as the stretch of text it covers |
| `Markdown.CodeIsRead` | crates/sinfonia-tracker/src/jira_adf.rs:180-195 | backticks around a text without one are code wherever they stand |
| `Markdown.LinkIsRead` | crates/sinfonia-tracker/src/jira_adf.rs:196-216 | a text and a target in their brackets are a link |
| `Markdown.StrongIsRead` | crates/sinfonia-tracker/src/jira_adf.rs:217-231 | two stars on each side of a text without stars make it bold |
| `Markdown.EmIsRead` | crates/sinfonia-tracker/src/jira_adf.rs:232-255 | one star on each side makes it emphasis exactly when no other star is next to it |
| `Markdown.OnlyMarksStart` | crates/sinfonia-tracker/src/jira_adf.rs:179-253 | nothing else starts a span |
| `Markdown.SplitBlocks` | crates/sinfonia-tracker/src/jira_adf.rs:79-117 | no line is lost, moved or doubled apart from blank lines outside fences; each block is a stretch of the document and of one kind; a text block ends at blank lines, fences and the ends of the document, and nowhere else |
| `Markdown.FencedBody` | crates/sinfonia-tracker/src/jira_adf.rs:119-137 | the lines between the fences, exactly for blocks that start with one |
| `ShellQuote.EscapeRoundTrip` | crates/sinfonia/src/agent/cli.rs:440-449 | a quoted text reads back as the single word it was if and only if it is nonempty and has no NUL; the empty text is no word, a NUL makes the line unreadable |
| `ShellQuote.LexQuoted` | crates/sinfonia/src/agent/cli.rs:445-447 | inside single quotes the rewritten text reads as the text |
| `ShellQuote.LexSafe` | crates/sinfonia/src/agent/cli.rs:441-444 | text of safe characters needs no quotes |
| `ShellQuote.LexThenBlank` | crates/sinfonia/src/agent/cli.rs:83-103 | what is appended behind a blank does not change how the base command reads |
| `ShellQuote.NoWordHasNul` | crates/sinfonia/src/agent/cli.rs:440-449 | no line with a NUL is a list of words |
| `ShellQuote.PushFlag` | crates/sinfonia/src/agent/cli.rs:83-103 | appending a flag and its quoted value adds exactly these words |
| `ShellQuote.BuildCommandLine` | crates/sinfonia/src/agent/cli.rs:83-103 | the words of the base command, then the model flag and value, then the session flag and value: --thread for Codex and --resume for Claude Code |
| `ShellQuote.BuildOpenCodeLine` | crates/sinfonia/src/agent/opencode.rs:138-151 | the same with --session, and without it exactly for no id and for ids that begin with pending- |
| `Base64.Encode` | crates/sinfonia-tracker/src/jira.rs:819-847 | the output decodes to the input, has four characters for every three bytes begun, and uses only the alphabet and trailing padding (section 4 of RFC 4648) |
| `Base64.EncodingIsUnique` | crates/sinfonia-tracker/src/jira.rs:819-847 | only one text decodes to given bytes, so the output is the encoding |
| `Base64.DecodeShape` | crates/sinfonia-tracker/src/jira.rs:819-847 | length and padding follow from the number of bytes |
| `Base64.AlphabetRanges` | crates/sinfonia-tracker/src/jira.rs:819-847 | the alphabet of the standard: where its ranges begin and end |
| `Base64.ShiftsAreDigits` | crates/sinfonia-tracker/src/jira.rs:824-841 | the shifts, ors and masks of the code on 32-bit words are the sums and remainders of the model |
| `ToolLoop.Session.RunProviderTurn` | crates/sinfonia/src/agent/turn.rs:57-171 | the history and outcome of a turn for any behaviour of clock, model and tools; paired before, it is paired after if and only if the turn did not end in an error |
| `ToolLoop.Session.RunTools` | crates/sinfonia/src/agent/turn.rs:127-149 | the results of the calls in order, up to a tool that breaks |
| `ToolLoop.TurnKeepsPairing` | crates/sinfonia/src/agent/turn.rs:57-171 | the same for the specification, and after an error no later message but a tool message mends the history |
| `ToolLoop.PairedUnlessError` | crates/sinfonia/src/agent/turn.rs:79-171 | the rounds of a turn are paired unless they end in an error |
| `ToolLoop.RoundsAreBounded` | crates/sinfonia/src/agent/turn.rs:75-171 | at most the allowed number of model replies; a completed turn reports the saturated sums of what they reported |
| `ToolLoop.RoundDecides` | crates/sinfonia/src/agent/turn.rs:101-161 | how a reply decides: without calls it completes the turn; a tool that breaks ends it in an error; once all ran, a finish call or a tool that says so completes it at once with the output of the last finish call; otherwise the next round decides |
| `ToolLoop.ResultsCarryOutputs` | crates/sinfonia/src/agent/turn.rs:127-149 | each tool message carries the id and name of its call and the output of its tool |
| `ToolLoop.CollapseToAnthropic` | crates/sinfonia/src/agent/anthropic.rs:174-231 | on any history no content but system messages is lost, reordered or given another role; a paired history is sent in its paired form |
| `ToolLoop.CollapseKeepsContent` | crates/sinfonia/src/agent/anthropic.rs:174-231 | the content law for any state of the loop |
| `ToolLoop.CollapseOfPaired` | crates/sinfonia/src/agent/anthropic.rs:174-231 | the results of k calls go out in the single user message right after the assistant message |
| `ToolLoop.ResultBlocksOf` | crates/sinfonia/src/agent/anthropic.rs:218-227 | these are k blocks with the ids of the calls in their order |
| `ToolLoop.BlocksShow` | crates/sinfonia/src/agent/anthropic.rs:188-227 | what is sent of each message: its text unless an assistant said nothing, its calls in order with id, name and input, or the result of a call |
| `Budget.BudgetManager.ApplySession` | crates/sinfonia-bridge/src/feedback/budget.rs:138-182 | counters, running totals and the outcome over everything reported of the ticket so far: a token cap hit exactly when one is set and the sum of tokens, held at 2^64 - 1, reaches it; a cost cap hit exactly when that is not so, cost caps apply, one is set and the sum of costs reaches it |
| `Budget.OutcomeOfRun` | crates/sinfonia-bridge/src/feedback/budget.rs:157-181 | the same of every run of sessions and flushes |
| `Budget.BudgetManager.FlushTicket` | crates/sinfonia-bridge/src/feedback/budget.rs:189-255 | pending counters are cleared before the writes; done exactly if something was pending and both writes were taken, and then the tracker shows the running totals |
| `Budget.RunningTotals` | crates/sinfonia-bridge/src/feedback/budget.rs:157-166 | over any run of sessions and flushes of any tickets, the running tokens are the exact sum up to 2^64 - 1 and the running cost is the exact sum |
| `Budget.NothingLostInFlushes` | crates/sinfonia-bridge/src/feedback/budget.rs:189-213 | flushed deltas and pending counters make up what was reported: cost always, tokens while the sum fits 64 bits |
| `Budget.DeltaIsExactIff` | crates/sinfonia-bridge/src/feedback/budget.rs:201-206 | in every run, the delta of a flush is what was pending if and only if that fits 64 bits, and short by 2^64 otherwise |
| `Budget.DeltaCanWrap` | crates/sinfonia-bridge/src/feedback/budget.rs:202-202 | that it can be otherwise: one session of 2^64 - 1 tokens each way |
| `Budget.SuccessfulFlushShowsAll` | crates/sinfonia-bridge/src/feedback/budget.rs:227-246 | a successful flush shows the full totals, whatever failed before |
| `Budget.FailedFlushWaitsForSession` | crates/sinfonia-bridge/src/feedback/budget.rs:189-213 | after a failed flush, further flushes change nothing until another session is reported |
| `Budget.SessionsCommuteWithWrites` | crates/sinfonia-bridge/src/feedback/budget.rs:189-246 | a session between the locked part of a flush and its writes is as good as one after them |
| `BudgetFlights.UpToDateIff` | crates/sinfonia-bridge/src/feedback/budget.rs:189-246 | for any number of flushes in flight, their writes in any order and any of them refused, with sessions in between: exactly when the tracker shows the running totals of a ticket |
| `BudgetFlights.LastWriteAfterLastSession` | crates/sinfonia-bridge/src/feedback/budget.rs:189-246 | put plainly: it does if for each field the last accepted write carries totals taken after the last reported session, and for sessions that used tokens only then |
| `BudgetFlights.TrackerShows` | crates/sinfonia-bridge/src/feedback/budget.rs:189-246 | each field shows the total at the moment from which its last accepted write carried one |
| `BudgetFlights.FlightsCarryTotals` | crates/sinfonia-bridge/src/feedback/budget.rs:193-213 | every flush in flight carries the exact totals of the moment it took them |
| `BudgetFlights.AccumulatorsIgnoreWrites` | crates/sinfonia-bridge/src/feedback/budget.rs:189-246 | the accumulators do not depend on the writes, so the sums hold in every interleaving |
| `BudgetFlights.WholeFlush` | crates/sinfonia-bridge/src/feedback/budget.rs:189-255 | a flush that nothing overlaps is its three acts one after the other |
| `BudgetFlights.CrossedFlushesRegress` | crates/sinfonia-bridge/src/feedback/budget.rs:189-246 | from any state: two flushes whose writes cross leave the tracker with what the first one took |
| `Budget.TotalsIgnoreOrder` | crates/sinfonia-bridge/src/feedback/budget.rs:157-166 | runs with the same sessions in any order end with the same running totals, wherever flushes are and whether they fail |
| `Budget.CapsAreSticky` | crates/sinfonia-bridge/src/feedback/budget.rs:168-181 | with costs that are not negative a cap once hit stays hit, and a token cap stays a token cap |
| `Budget.NegativeCostUndoesCap` | crates/sinfonia-bridge/src/feedback/budget.rs:168-181 | why costs must not be negative: where only a cost cap applies, the next session undoes a hit exactly when its cost is below the cap less the sum so far |
| `Budget.CostIsAdditive` | crates/sinfonia-bridge/src/feedback/cost.rs:137-155 | splitting a session changes no cost |
| `Budget.CostIsNonNegative` | crates/sinfonia-bridge/src/feedback/cost.rs:137-155 | rates that are not negative give costs that are not |
| `Budget.PriceOfAMillion` | crates/sinfonia-bridge/src/feedback/cost.rs:137-155 | which rate prices which tokens: a million of one kind costs its rate, and what is not in the table is free |
| `Budget.PrefixedModel` | crates/sinfonia-bridge/src/feedback/cost.rs:110-131 | a provider prefix in the model name changes nothing |
| `Budget.RoundingIsClose` | crates/sinfonia-bridge/src/feedback/cost.rs:178-188 | the written cost is a multiple of 0.0001 within half of that of the running cost |
| `Budget.TiesGoToEven` | crates/sinfonia-bridge/src/feedback/cost.rs:178-188 | half a unit is rounded to the even neighbour |
| `LinearFields.DecodeEncode` | crates/sinfonia-tracker/src/custom_fields.rs:156-191 | what was encoded is decoded again, also inside a code fence |
| `MarkerCodec.FaithfulIsMet` | crates/sinfonia-tracker/src/custom_fields.rs:156-191 | what is expected of the JSON library can be met: a library that writes and reads back every field map, numbers being finite 64-bit floats |
| `LinearFields.LinearIssue.LoadMarkerComment` | crates/sinfonia-tracker/src/linear.rs:199-233 | the first of the hundred listed comments that decodes |
| `LinearFields.ListedIsFirstHundred` | crates/sinfonia-tracker/src/linear.rs:199-233 | the listed comments are the first hundred, or all |
| `LinearFields.LinearIssue.ReadCustomField` | crates/sinfonia-tracker/src/linear.rs:430-435 | the value of the visible map, or null |
| `LinearFields.LinearIssue.WriteCustomField` | crates/sinfonia-tracker/src/linear.rs:437-451 | all or nothing: refused calls leave the comments, taken and lost ones make the whole write |
| `LinearFields.WriteKeepsUsers` | crates/sinfonia-tracker/src/linear.rs:437-451 | a write leaves every other comment alone and makes a marker exactly when it found none |
| `LinearFields.DuplicateIff` | crates/sinfonia-tracker/src/linear.rs:199-233 | exactly when a write makes a second marker: when the one there is is not among the hundred listed |
| `LinearFields.WriteUpdatesMap` | crates/sinfonia-tracker/src/linear.rs:437-451 | a write shows as a map update or removal, unless its new comment is not listed |
| `LinearFields.UpdatedGet` | crates/sinfonia-tracker/src/linear.rs:437-451 | reading after writing, for every key |
| `LinearFields.ReadersAgree` | crates/sinfonia-tracker/src/linear.rs:555-571 | a field read and the fields of the fetched issue agree |
| `LinearFields.PeopleKeepMap` | crates/sinfonia-tracker/src/linear.rs:199-233 | comments added, edited or deleted by people do not change the map while the marker is listed |
| `LinearFields.RunIsMap` | crates/sinfonia-tracker/src/linear.rs:437-451 | over any run of writes and of people's changes in which the marker stays listed, the comments behave as the map of the writes, with at most one marker |
| `LinearFields.OverlappingWritesLoseOne` | crates/sinfonia-tracker/src/linear.rs:437-451 | why writes must be serial: a write between another one's load and store is undone |
| `RetryQueue.BackoffBounds` | crates/sinfonia/src/orchestrator/retries.rs:10-14 | bounds, the exact doubling up to attempt 21, no growth after it, no overflow |
| `RetryQueue.BackoffGrows` | crates/sinfonia/src/orchestrator/retries.rs:10-14 | a later attempt never waits less |
| `RetryQueue.StepIsSound` | crates/sinfonia/src/orchestrator/retries.rs:17-104 | every step of timers, fires, workers, polls and reconciles keeps a timer at the due time of every entry and leaves no claim without a run, an entry or a fire |
| `RetryQueue.RunsAreSound` | crates/sinfonia/src/orchestrator/retries.rs:17-104 | so it holds after every run |
| `RetryQueue.NotStranded` | crates/sinfonia/src/orchestrator/retries.rs:35-45 | a claimed issue that neither runs nor is in flight has an entry whose own timer will take it out |
| `RetryQueue.TidyIff` | crates/sinfonia/src/orchestrator/retries.rs:17-104 | exactly which steps keep every issue in one place and timers just those of the entries: all but the end of a worker whose issue waits or is in flight |
| `RetryQueue.TidyRunIff` | crates/sinfonia/src/orchestrator/retries.rs:17-104 | a whole run is tidy throughout if and only if no such step is in it |
| `RetryQueue.RunsAreTidy` | crates/sinfonia/src/orchestrator/mod.rs:567-625 | without forgotten runs, no such step can happen |
| `RetryQueue.AttemptsAreCounted` | crates/sinfonia/src/orchestrator/retries.rs:35-104 | over whole runs without forgotten runs: the attempt number an issue carries, waiting, being retried or running, is the number of times it was scheduled again since its last fresh dispatch, so every end of a worker and every fire without a dispatch makes it one more and nothing makes it less |
| `RetryQueue.LeftoverStep` | crates/sinfonia/src/orchestrator/mod.rs:627-667 | only a stall or termination of its own run leaves a worker of an issue over |
| `RetryQueue.FiresInTime` | crates/sinfonia/src/orchestrator/retries.rs:35-45 | in a tidy queue a timer takes out only its own entry, not before its due time |
| `RetryQueue.FireEnds` | crates/sinfonia/src/orchestrator/retries.rs:45-104 | each entry taken out is run with the same attempt, released, or put back with one attempt more and its backoff |
| `RetryQueue.OthersKeepFire` | crates/sinfonia/src/orchestrator/retries.rs:35-104 | nobody else ends a fire |
| `RetryQueue.FromTheStart` | crates/sinfonia/src/orchestrator/retries.rs:17-104 | all of this for every run of the daemon from its start |
| `RetryQueue.LeftoverWorkerFiresEarly` | crates/sinfonia/src/orchestrator/mod.rs:640-667 | a run in which the timer of a stall takes out a later entry five seconds before it is due |
| `RetryQueue.LeftoversAreForgotten` | crates/sinfonia/src/orchestrator/mod.rs:627-667 | over any run without a stall or termination of an issue, whatever happens to others, the live workers of that issue are the one of its run, or none if it has none |
| `RetryQueue.AccountStep` | crates/sinfonia/src/orchestrator/mod.rs:319-401 | one step of the account of workers: each issue has one live worker if it runs, or if its run was stalled or terminated and no exit of its worker was heard since, and else none; a dispatch in the second case makes a second one, and nothing else does |
| `RetryQueue.SingleRunIff` | crates/sinfonia/src/orchestrator/mod.rs:319-401 | at every point of a run each issue has at most one live worker if and only if none is dispatched between a stall or termination of its run and the exit of the worker that run had started |
| `RetryQueue.StalledWorkerIsDoubled` | crates/sinfonia/src/orchestrator/mod.rs:640-667 | a run in which that happens: a stalled worker goes on while the next attempt is started |
| `RetryQueue.Orchestrator.Schedule` | crates/sinfonia/src/orchestrator/retries.rs:17-33 | claims, replaces the entry and adds a timer; no timer is taken away |
| `RetryQueue.Orchestrator.PopEntry` | crates/sinfonia/src/orchestrator/retries.rs:39-43 | a timer takes out whatever entry its issue has |
| `RetryQueue.Orchestrator.FireRetry` | crates/sinfonia/src/orchestrator/retries.rs:35-104 | the whole task of a timer, for every answer of the tracker: without an answer, or where the issue cannot be dispatched, its entry is back one attempt higher and due after the backoff of that; an inactive issue is let go; otherwise the same attempt runs |
| `RetryQueue.Orchestrator.DispatchOne` | crates/sinfonia/src/orchestrator/mod.rs:319-401 | skipped exactly if not eligible, running, or claimed without being a retry; without a slot refused; otherwise it runs with that attempt, claimed, without an entry and with one worker more |
| `RetryQueue.Orchestrator.OnWorkerExit` | crates/sinfonia/src/orchestrator/mod.rs:567-625 | removes the run and its worker and schedules attempt n + 1 for a run of attempt n, attempt 1 for a fresh one, a second later after a normal end and after the backoff of that attempt otherwise |
| `RetryQueue.Orchestrator.RetryStalled` | crates/sinfonia/src/orchestrator/mod.rs:645-667 | forgets a stalled run and schedules attempt n + 1 for a run of attempt n, attempt 1 for a fresh one, after the backoff of that attempt |
| `RetryQueue.Orchestrator.TerminateRunningIssue` | crates/sinfonia/src/orchestrator/mod.rs:714-731 | forgets a run with its claim and entry |

## Left out

- HTTP, GraphQL, SQLite, JSON, YAML, regular expressions, Liquid and the file system: remote calls are answers that may be anything consistent or an error, the store is a finite map with the statements' semantics, the JSON library is a pair of functions that round-trips, a category pattern is a predicate on names.
- Label changes and comment posts: after a red verdict, a cap hit or a parked landing their failure is tolerated and they change nothing that is modelled; after a green verdict a failed label call ends the evaluation in an error before the merge coordinator is kicked, which `RetryCap.EvaluateOnePr` has as a possible failure behind its transition. Which labels are set is not modelled.
- Check runs beyond the first page of a hundred are not read by the code and not modelled.
- Webhook routing, `evaluate_ci`'s loop over pull requests, the manifest download and zip extraction, configuration, telemetry, the dashboard, the workspace manager and hooks are not modelled: each is a chain of field-by-field branches or calls into other systems.
- The order in which the boot reconcile kicks repositories is arbitrary in the model; the code takes them sorted.
- Coordinator.Call.ReconcileOnBoot: the sweep is stated against a GitHub that stands still; that its steps follow the program, and so what is proved of every interleaving, does not depend on that.
- The wall clock of the queue may say anything. Where fairness needs more, it is said so: the clock ticks, that is, every reading is later than the one before; stamps of the code are whole seconds, and `Fairness.SameSecondKeepsTheHead` shows what two readings within one second do.
- Budget.RoundingIsClose: rounding of the written cost is modelled, its decimal text is not; the limited precision of `Decimal` and the cast of the token total to a 64-bit float (exact up to 2^53) are not.
- The debounce reconciler of the budget, which flushes tickets that have something pending and were idle for thirty seconds, is a plain filter and is not modelled; flushes may come at any point of a run.
- LinearFields.DecodeEncode: that the JSON library reads back what it wrote is assumed, for strings, null and finite 64-bit floats; numbers that are not finite, which it writes as null, do not occur; white space is that of ASCII.
- Markdown.SplitBlocks: works on the lines of a document; splitting a text into lines, the language of a fence, list items and the ADF constructors are not modelled; white space is that of ASCII.
- Markdown.ParseInlines: works on characters where the code works on bytes; all delimiters are single-byte characters, so the positions correspond.
- ShellQuote.EscapeRoundTrip: aliases, reserved words, assignments before a command name and history expansion do not occur in the word rules modelled; a base command with unquoted operators, expansions, patterns or comments has no list of words in the model, and then nothing is said about the line.
- ToolLoop.Session.RunProviderTurn: events sent to observers and the text of a failure are not modelled; a model reply that is no assistant message, on which the code panics, does not occur.
- Digest.BuildFailureDigest: sizes are unbounded numbers; the code adds machine words of at most the size of memory.
- RetryQueue.BackoffBounds: attempts are unbounded; the code counts in 32 bits and would overflow after 2^32 retries.
- RetryQueue.Orchestrator.FireRetry: the method runs a timer's task without interference; what others may do between its locks is covered by the single steps of the same module.
- RetryQueue.Orchestrator.DispatchOne: eligibility and free slots are answers that may be anything; the rest of the poll tick is left out.
- Wall-clock precision: timers may fire late by any amount.
- Worker totals, completed sets and identifiers of the orchestrator state are not modelled.

# Proofs about codex-relay-workflow

A model, in Dafny, of the parts of this repository whose guarantees are hardest to see by reading: the
executor registry and its canonical task form, the session guidance pairs, the bridge's mutation protocol,
write-once spool publication, the venv bootstrap, the strict JSON scanners and the context budget. Each part
is a model of the code as it is, with proofs about every input, every run or every reachable state.
`dafny verify dfyconfig.toml` checks the whole project.

| files | what they model |
|---|---|
| `Envelope`, `Validation`, `Freezing`, `FrozenTasks` | tasks, admissions, grants and results; the validators; that freezing a task is canonical and keeps what the task says |
| `Registry`, `RegistryRuns`, `RegistryAnswers` | the event-sourced registry; what holds of every ledger it can produce; what each answer means in terms of the ledger's records |
| `JsonScanners` | the duplicate-key stack machine and the surrogate-escape scanner |
| `Rollout` | transcript reads and what their records say about a turn |
| `Guidance`, `GuidanceRuns`, `GuidanceTheorems`, `GuidanceTexts`, `GuidanceCoverage`, `GuidanceLimits`, `GuidanceRecords`, `GuidanceAnswers`, `GuidancePairs` | hook processes over one session's files, interleaved at file operations, and what their answers hold |
| `Bridge`, `BridgeRuns`, `BridgeTheorems`, `BridgeCounts`, `BridgeReplay`, `BridgeEndings` | calls on one ledger, interleaved at transactions and frames |
| `BridgeTraces`, `BridgeActions` | the actions of create_worktree_thread and send_message_to_thread, step by step |
| `Spool`, `Bootstrap` | lock, temporary file and rename protocols, killed at any step |
| `ContextBudget` | UTF-16 arithmetic of the context a hook writes |
| `Common`, `Ordering`, `Text` | small shared datatypes, sorting by keys, string operations |

The form follows the code. Loops and in-place updates are methods proved against a function or a property
(`Registry.Registry`, `BridgeActions.Attempt`, the scanners, `ContextBudget`); protocols of several processes
are state machines whose steps are the atomic operations of the code, with a run as a sequence of states.

Some results are about places where the code does less than its words promise. They say exactly when it does what
they promise, and give runs or inputs where it does not:

- `readRollout` documents that its offset must be where a record starts, and checks it for every offset but 1,
  which it takes for the top of the file (`Rollout.ReadFromRefuses`, `Rollout.OffsetOneRereads`). No offset a
  read returns is affected (`Rollout.OffsetsCompose`).
- `WriteEnvelope` accepts envelope names of the form of its own temporary names, and a killed call leaves such
  a file behind. A name is absent or whole in every state of every run exactly when it is not of that form
  (`Spool.WholeExactly`, `Spool.TempNamesAreNot`).
- The guidance of a session goes through the context budget, and an answer is recorded as given whatever the budget
  left of it. An answer that is not refused keeps a section whole exactly when all sections fit, or the section is
  required or empty, or the optional units up to and with it are within the budget; a compact start whose sum breaks
  at a pointer keeps only a part of that pointer, and one whose required sections are too long says only the refusal,
  both of which a long command can bring about (`ContextBudget.LinesExactly`, `GuidanceTexts.KeptExactly`,
  `GuidanceCoverage.GuidanceIsCovered`, `GuidanceLimits.CutCompactLosesPointer`,
  `GuidanceLimits.RefusedCompactIsNotCovered`). The count of source files in the map pointer is no part of what a
  record compares, so coverage is up to that count.
- A resume of a session that was given the pointers says only the binding and the banner. The session still holds the
  pointers if, since the transcript's last compaction, a compact start of it was answered, silently or not, or any start
  said them, and exactly then where the pointers can be told from the other texts of the run's starts; a compact start
  whose answer is not written leaves the record as it was (`GuidanceRecords.HeadResumeExact`,
  `GuidanceRecords.FailedCompactLosesPointers`).
- A retry of an imported version-1 row keeps its legacy fingerprint beside version 2, and the same call then conflicts
  with its own receipt. An identical call replays exactly when the row is stored under its own fingerprint
  (`BridgeReplay.IdenticalCallReplays`, `BridgeReplay.LegacyRetryConflicts`).

Assumptions the models make: strings are sequences of Unicode scalar values; digests are injective; time is a
natural number; every clock window, lock refusal, host answer, disk failure and kill is a nondeterministic
choice. Guidance coverage assumes the order of the host that turn.go states: no compaction is recorded while a
session start hook runs.

## Model

| member | source | states |
|---|---|---|
| `RegistryRuns.ExecutorReplayCloses` | internal/executor/registry.go:122-200 | after any sequence of Admit, Collect, Current and Receipt calls from the empty ledger, with the executor's own validators, replay accepts the whole ledger |
| `RegistryRuns.ReplayCloses` | internal/executor/registry.go:202-213 | the same from any ledger replay accepts, for any validators that obey the laws of `Lawful`; ledgers only grow |
| `RegistryRuns.CallCloses` | internal/executor/registry.go:215-367 | one call leaves an accepted ledger and appends at most one record, the quarantine path included |
| `RegistryRuns.AdmitCloses` | internal/executor/registry.go:215-271 | what Admit appends, replay accepts |
| `RegistryRuns.CollectCloses` | internal/executor/registry.go:300-367 | what Collect appends, replay accepts |
| `RegistryRuns.FoldAppend` | internal/executor/registry.go:122-200 | folding one more record equals one step on the state folded before it, errors included |
| `RegistryRuns.ExecutorRulesLawful` | internal/executor/validation.go:339-388 | the executor's validators obey the laws replay needs: a frozen admission validates again, a digest names one identity, and a grant valid once is valid at time zero for the admission of the same identity |
| `RegistryRuns.AttemptsIncrease` | internal/executor/registry.go:92-109 | of two admitted records of one task the later has a larger attempt and generation, the same plan, node and repository, and another execution |
| `RegistryRuns.CurrentIsLatest` | internal/executor/registry.go:273-298 | an execution is current in the folded state exactly when its admitted record is the last of its task |
| `RegistryRuns.OnlyLatestServed` | internal/executor/registry.go:273-389 | Current serves exactly the latest attempt; Current, Collect and Receipt refuse every other execution as stale and leave the ledger alone |
| `RegistryRuns.SupersededForever` | internal/executor/registry.go:227-389 | after any further calls a superseded execution is still refused by Current, Collect and Receipt, and cannot be admitted again; none of these changes the ledger |
| `RegistryRuns.GrantsAdvance` | internal/executor/registry.go:111-120 | the grants recorded for one execution keep a non-decreasing epoch and expiry, with one owner per epoch |
| `RegistryRuns.ResultsOnce` | internal/executor/registry.go:156-194 | of two result records of one execution the later is quarantined, with another digest: one received result, each other digest at most once |
| `RegistryRuns.ReceiptImmutable` | internal/executor/registry.go:369-389 | after any further calls Receipt answers the same result and acknowledgement, or refuses because the execution was superseded |
| `RegistryRuns.RedeliveryIsIdempotent` | internal/executor/registry.go:300-367 | delivering the same bytes again, at any later time before the execution is superseded and whatever became of the artifacts, appends nothing and answers the same acknowledgement |
| `RegistryRuns.ConflictQuarantined` | internal/executor/registry.go:300-367 | a conflicting delivery is recorded at most once and leaves what Receipt answers unchanged |
| `RegistryRuns.CollectRecords` | internal/executor/registry.go:300-367 | a successful Collect leaves a final record with the delivered digest and the acknowledgement it answered |
| `Registry.FoldRecords` | internal/executor/registry.go:122-200 | the loop computes the recursive fold, stopping at the first refused record with its error class |
| `Registry.Registry.Admit` | internal/executor/registry.go:215-271 | answer, error and new ledger are those of `AdmitReply` on the old ledger, which `RegistryAnswers.AdmitExact`, `AdmitMeans` and `AdmitAppendsExactly` pin down |
| `Registry.Registry.Collect` | internal/executor/registry.go:300-367 | answer, error and new ledger are those of `CollectReply` on the old ledger; a quarantine appends and still answers an error; `RegistryAnswers.FirstIsReceived`, `LaterIsCompared` and `UnfitIsRefused` say which |
| `Registry.Registry.Current` | internal/executor/registry.go:273-289 | answers the admission and grant of a current execution and changes nothing |
| `Registry.Registry.Receipt` | internal/executor/registry.go:369-389 | answers the final record of a reference that is held, and changes nothing |
| `RegistryAnswers.AdmitExact` | internal/executor/registry.go:215-271 | Admit succeeds exactly when the admission and the grant are valid and the ledger allows them: a renewal of the latest attempt with its own task and a grant not older than the last, or an attempt later than the latest of its task on the same target; it then answers the reference of the admission, and otherwise leaves the ledger alone |
| `RegistryAnswers.AdmitMeans` | internal/executor/registry.go:215-289 | after a successful Admit, Current serves the execution with the grant just given and an admission of the reference Admit answered: the one just frozen when the execution is new, the one first admitted otherwise |
| `RegistryAnswers.AdmitAppendsExactly` | internal/executor/registry.go:227-268 | a successful Admit appends one admitted record when the execution is new, one renewal when the grant differs from the last recorded, and nothing when it is the same |
| `RegistryAnswers.AdmitRefusals` | internal/executor/registry.go:92-120 | why a valid admission is refused: another task under the execution, an execution superseded, an older grant; for a new execution an attempt that is not later, or another target |
| `RegistryAnswers.CurrentAnswers` | internal/executor/registry.go:273-289 | Current answers the admission of the latest attempt and the last grant recorded for it |
| `RegistryAnswers.ReceiptAnswers` | internal/executor/registry.go:369-389 | Receipt answers exactly for the reference of a latest attempt with a received record, and then that record's result and acknowledgement; the two refusals are told apart |
| `RegistryAnswers.FirstIsReceived` | internal/executor/registry.go:352-366 | the first fit delivery to an attempt is acknowledged as received and appended as one record, unless its artifacts are refused |
| `RegistryAnswers.LaterIsCompared` | internal/executor/registry.go:330-351 | a later fit delivery is answered the first acknowledgement on equal digests; otherwise it conflicts, and is recorded unless its digest was quarantined before |
| `RegistryAnswers.UnfitIsRefused` | internal/executor/registry.go:300-329 | a delivery to another execution, from another host, unreadable or invalid is refused and leaves the ledger alone |
| `RegistryAnswers.CollectThenReceipt` | internal/executor/registry.go:300-389 | after a Collect without an error, Receipt answers the delivered result and the acknowledgement Collect answered, which names the execution, its task and the delivered bytes |
| `RegistryAnswers.ExecutorCollectTells` | internal/executor/registry.go:300-389 | the same with the executor's validators after any calls from the empty ledger |
| `Freezing.FreezeIgnoresOrder` | internal/executor/validation.go:126-172 | every arrangement of a task's regions, checks and input artifacts freezes to the same admission and digest, or is refused with the same class |
| `Freezing.FreezeIsIdempotent` | internal/executor/validation.go:339-369 | freezing a frozen task changes nothing, and its admission validates |
| `Freezing.VerdictIgnoresOrder` | internal/executor/validation.go:187-337 | validateTask gives the same verdict on every arrangement of the lists |
| `Freezing.SeenExact` | internal/executor/validation.go:234-274 | the joined key of the map of regions seen finds a duplicate exactly when two regions agree in path, kind and key |
| `Freezing.FreezeKeepsIdentity` | internal/executor/validation.go:126-172 | freezing leaves the identity, executor and repository alone, and a frozen identity is valid |
| `Freezing.CleanStays` | internal/executor/validation.go:114-124 | a cleaned region path is safe, cleans to itself and does not end in a slash; what it names is in `FrozenTasks` |
| `Freezing.RegionStays` | internal/executor/validation.go:126-149 | a normalized region is its own normal form |
| `FrozenTasks.PlainIsClean` | internal/executor/validation.go:114-124 | a path whose every part names something is its own clean form |
| `FrozenTasks.EmptyPartIsDropped` | internal/executor/validation.go:114-124 | dropping an empty or "." part of a path does not change its clean form |
| `FrozenTasks.CleanDotExactly` | internal/executor/validation.go:114-124 | the clean form is "." exactly when no part names anything; with the two before, this determines the clean form of every path |
| `FrozenTasks.TrailingSlash` | internal/executor/validation.go:139-143 | the trailing slash trimmed from a tree changes neither whether its path is safe nor what it cleans to |
| `FrozenTasks.RegionKeeps` | internal/executor/validation.go:126-149 | a region has a normal form exactly when its path is safe; repository, kind and change are filled in where empty and stand where given, the path is the clean form of the one given, everything else is unchanged |
| `FrozenTasks.FreezeKeepsTask` | internal/executor/validation.go:126-172 | a frozen task is the one given, but for its regions in normal form and its regions, artifacts and checks in ascending order of their keys; its digest is of that task |
| `FrozenTasks.FreezeExact` | internal/executor/validation.go:126-337 | an unsafe region path is refused; any other task freezes exactly when it is valid with its regions in normal form, in any order, and is refused for the reason validation gives |
| `Validation.NormalizeEachRegion` | internal/executor/validation.go:126-149 | the loop gives every region in normal form in order, or refuses when one has none |
| `Validation.CheckEachRegion` | internal/executor/validation.go:234-274 | the loop with its map accepts exactly the lists whose regions are each in order and pairwise different |
| `Validation.CheckEachArtifact` | internal/executor/validation.go:552-562 | the same for artifacts and their paths |
| `Ordering.SortCanonical` | internal/executor/validation.go:150-172 | two arrangements of a list with distinct keys sort to the same list |
| `JsonScanners.DuplicateKeysFound` | internal/executor/validation.go:696-752 | on the tokens of any JSON value the machine accepts exactly when every object at every depth has distinct names, and ends with the empty stack |
| `JsonScanners.ValueTurns` | internal/executor/validation.go:696-752 | inside any document, the tokens of one value are refused exactly when an object in it repeats a name, and otherwise leave the stack as it was |
| `JsonScanners.MemberTurns` | internal/executor/validation.go:696-752 | the members of an object are refused exactly when a name repeats one seen before or a value is refused, and the names seen are those of the members |
| `JsonScanners.CheckDuplicateKeys` | internal/executor/validation.go:696-752 | the loop accepts exactly when the machine takes every token |
| `JsonScanners.SurrogatesChecked` | internal/executor/validation.go:651-694 | on every JSON text the scanner accepts exactly when each surrogate escape inside a string is in a high-low pair; escaped backslashes start no escape |
| `JsonScanners.StringScans` | internal/executor/validation.go:651-694 | the same for one string, whatever follows it |
| `JsonScanners.CheckJSONEscapes` | internal/executor/validation.go:651-694 | the loop over an index and a flag computes the recursive scan |
| `Rollout.OffsetsCompose` | internal/guidancerecord/turn.go:84-141 | after a tail read of a file that then only grew, a read from the returned offset fails or gives exactly the whole records after it: together the two reads are one read, with no record lost, split or repeated |
| `Rollout.TailReadsWholeRecords` | internal/guidancerecord/turn.go:84-141 | a tail read gives exactly the records between two record boundaries, the second the last in the file |
| `Rollout.TailStartsLeast` | internal/guidancerecord/turn.go:84-124 | a tail read begins at the first record that starts within the limit, and finds none exactly when no record does |
| `Rollout.TailReadExact` | internal/guidancerecord/turn.go:84-141 | a tail read gives all the records between the first and the last boundary within the limit, and fails exactly when one of them does not parse |
| `Rollout.ReadFromBoundary` | internal/guidancerecord/turn.go:84-141 | from a boundary a read gives exactly the records after it, and fails exactly when they are too many, unfinished or unreadable |
| `Rollout.ReadFromRefuses` | internal/guidancerecord/turn.go:81-124 | an offset where no record starts is refused, except 1, where the file is read from its top |
| `Rollout.OffsetOneRereads` | internal/guidancerecord/turn.go:81-124 | a file whose one record is read again from offset 1 |
| `Rollout.ReadRollout` | internal/guidancerecord/turn.go:84-141 | the window moved over the buffer computes the two reads |
| `Rollout.Window` | internal/guidancerecord/turn.go:84-124 | where the records of a read begin, for the tail and for an offset |
| `Rollout.RecordsJoin` | internal/guidancerecord/turn.go:124-141 | records read up to a boundary and from it are the records read across it |
| `Rollout.ResumeTurnExact` | internal/guidancerecord/turn.go:146-162 | resumeTurn names a turn exactly when its finished compaction is the last thing of note in the records |
| `Rollout.ResumeTurn` | internal/guidancerecord/turn.go:146-162 | the loop over the records computes that turn |
| `Rollout.CompactOfTurn` | internal/guidancerecord/turn.go:165-180 | the loop accepts exactly the records of which none tells against the turn |
| `Rollout.EvidenceJoins` | internal/guidancerecord/turn.go:146-180 | the resume's evidence and the compact's together show the turn's compaction as the last thing in the whole transcript |
| `Rollout.EvidenceExact` | internal/guidancerecord/turn.go:165-180 | compactOfTurn accepts what a transcript gained exactly when the turn's compaction is still the last one and nothing gained is an edge of a turn or a message of the user |
| `GuidanceRuns.RunKeeps` | internal/guidancerecord/guidancerecord.go:88-110 | the invariant of every interleaving of hook processes with crashes, refused locks and deleters without the lock |
| `GuidanceTheorems.TakenOnce` | internal/guidancerecord/guidancerecord.go:327-359 | no mark generation is taken twice |
| `GuidanceTheorems.TakeTakesItsMark` | internal/guidancerecord/guidancerecord.go:327-359 | a take names the mark that was there, and deletes it in the same operation |
| `GuidanceTheorems.DeletedStaysDeleted` | internal/guidancerecord/guidancerecord.go:187-259 | a deleted generation never reappears |
| `GuidanceTheorems.WholeMarkBesideRecord` | internal/guidancerecord/guidancerecord.go:88-110 | a mark of the whole text sits beside the record its own resume wrote |
| `GuidanceTheorems.TwoPromptsEndThePair` | internal/guidancerecord/guidancerecord.go:392-424 | while nobody swept prompt files without the lock, a pair is taken only if the prompts noted against it are of one turn at most, or are one prompt without a turn |
| `GuidanceTheorems.TurnlessPromptCounts` | internal/guidancerecord/guidancerecord.go:200-212 | a prompt without a turn counts every time |
| `GuidanceCoverage.GuidanceIsCovered` | internal/affordance/hook.go:181-279 | at every compact start whose answer was written, answers since the transcript's last compaction were asked to give its pointers, up to the count of files, and its binding; what they wrote holds each pointer that the running sum of the answer's budget lets through, and the binding unless it is refused |
| `GuidanceTexts.SilentCovers` | internal/affordance/hook.go:252-258 | a silent compact is covered by the whole answer of the resume whose mark it took, with the resume's count of files |
| `GuidanceTexts.PointersCover` | internal/affordance/hook.go:259-278 | a compact that says only the pointers is covered together with the part its resume gave |
| `GuidanceTexts.WholeCovers` | internal/affordance/hook.go:274-278 | a compact that says everything was asked for all its guidance by its own answer |
| `GuidanceAnswers.CompactAddsTheRest` | internal/affordance/hook.go:250-278 | over every run, a compact that took a mark adds exactly what the mark's resume did not give: nothing after a resume that gave everything, the pointers alone after one that gave the head this compact would give, everything otherwise; no step before its answer adds anything |
| `GuidanceAnswers.CompactWithoutMark` | internal/affordance/hook.go:250-278 | a compact that took no mark says everything |
| `GuidanceAnswers.ResumeSays` | internal/affordance/hook.go:263-278 | a resume says the binding and the banner alone exactly when it read a record of its own pointers and command, and everything otherwise |
| `GuidanceAnswers.TakesExactly` | internal/guidancerecord/guidancerecord.go:327-359 | a compact with the lock takes the mark exactly when there is one, its files can be read, at most one prompt is counted against it, the transcript shows the compact in its turn, and the record is of the compact's own pointers and command |
| `GuidanceAnswers.LeavesExactly` | internal/guidancerecord/guidancerecord.go:95-110 | a start with the lock replaces the mark by its own exactly when it has evidence of its turn and the writes succeed, writes its record before it, and leaves none otherwise |
| `GuidancePairs.PairsAreShared` | internal/affordance/hook.go:250-278 | for every resume in a turn whose compaction is finished, a run in which the compact of that turn takes its mark and says nothing, or the pointers alone after a resume of the head |
| `GuidanceTexts.AskedIsShown` | internal/affordance/hook.go:267-278 | each section an answer is asked for, the optional ones included, is in what it writes where the running sum lets it through |
| `GuidanceTexts.KeptExactly` | internal/affordance/hook.go:274-278 | some answer since the last compaction kept the line of every pointer whole exactly when the sums of such an answer let them all through |
| `GuidanceLimits.CoveredWhenLetThrough` | internal/affordance/hook.go:181-279 | where the answers asked for the guidance let it through, the texts since the last compaction hold the pointers and the binding of every answered compact |
| `GuidanceLimits.CoveredWhenAnswersFit` | internal/affordance/hook.go:181-279 | in particular while every answer fits the budget |
| `GuidanceLimits.CutCompactLosesPointer` | internal/affordance/hook.go:274-278 | for every compact start whose sum breaks at a pointer, a run that answers it and keeps only a proper part of the pointer; a character only that pointer has shows that no text holds it |
| `GuidanceLimits.RefusedCompactIsNotCovered` | internal/affordance/hook.go:274-278 | for every compact start whose sections are refused, a run that answers it with the refusal alone, and no text of which holds its binding |
| `GuidanceRecords.RecordsRun` | internal/affordance/hook.go:237-249 | in a session without an earlier record, every record, and every one about to be stored, is of pointers some answer was asked to give |
| `GuidanceRecords.AnsweredCompactGives` | internal/affordance/hook.go:250-278 | an answered compact start, a silent one included, leaves its session with the pointers until the next compaction of its transcript |
| `GuidanceRecords.SpokenGives` | internal/affordance/hook.go:274-278 | so does any answer that said the pointers |
| `GuidanceRecords.HeadResumeExact` | internal/affordance/hook.go:175-180 | when a resume says only the head, its session holds the pointers if an answered compact start or an answer that said them has no compaction after it, and exactly then where the pointers can be told from the other texts of the run's starts; some answer of the run did say them |
| `GuidanceRecords.OneStartIsSeparate` | internal/affordance/hook.go:227-236 | the pointers of a session with one start can be told from its head where they are more than its sections |
| `GuidanceRecords.FailedCompactLosesPointers` | internal/guidancerecord/guidancerecord.go:303-314 | runs where it does not: a compaction, a compact start whose answer is not written, and a resume that relies on the record left |
| `GuidanceCoverage.HostRunKeeps` | internal/guidancerecord/turn.go:11-24 | the invariant of every run of a host that keeps its order |
| `GuidanceCoverage.TurnShowsNoCompaction` | internal/guidancerecord/turn.go:165-180 | a transcript that passes compactOfTurn holds no compaction since the resume read it |
| `GuidanceCoverage.TakenInItsTurn` | internal/guidancerecord/turn.go:11-24 | a compact goes on to take a mark only when the last compaction of the transcript both name is the finished one of the mark's turn |
| `BridgeTheorems.OneEffectfulAttempt` | internal/bridge/bridge.go:135-203 | over every run of retries, processes, crashes and lost writes, at most one attempt per request id ever tracks or sends an effect |
| `BridgeTheorems.NotAttemptedDidNothing` | internal/bridge/bridge.go:163-203 | while an id holds a not_attempted receipt, no attempt on it has tracked or sent anything |
| `BridgeTheorems.SettledTellsEffects` | internal/bridge/bridge.go:163-225 | a settled receipt names exactly the effects its attempt tracked; everything sent is among them; not_attempted means none and outcome_unknown means some |
| `BridgeEndings.SettledByEnding` | internal/bridge/bridge.go:169-203 | over every run, a receipt settled by an attempt is accepted exactly when its action returned without an error, failed exactly on an error of the host, the arguments or git, not_attempted and outcome_unknown exactly on any other error without and with effects, and carries that error; a retired one was not attempted and names its error |
| `BridgeEndings.AnswerByEnding` | internal/bridge/bridge.go:169-246 | the receipt a call answers of its own attempt says the same of the way its action returned |
| `BridgeEndings.WelcomeCallSettles` | internal/bridge/bridge.go:135-246 | from every state, a call on an id that is free or was not attempted, whose transactions succeed, begins an attempt, settles it by its ending, answers what it stored and changes no other row |
| `BridgeTheorems.FinalForever` | internal/bridge/bridge.go:142-161 | a failed or outcome_unknown receipt never changes again, and no later call on its id does anything |
| `BridgeTheorems.AcceptedForever` | internal/bridge/bridge.go:224-245 | an accepted receipt stays accepted with the same effects, whatever its annotation does |
| `BridgeTheorems.AbandonedForever` | internal/bridge/ledger/ledger.go:241-321 | the receipt of an attempt that ended without settling it stays in progress for good and is never attempted again |
| `BridgeTheorems.PromptlessBeginsNothing` | internal/bridge/create.go:261-294 | a call that must bring a prompt and brings none begins no attempt, tracks nothing and authors no receipt |
| `BridgeTheorems.RetirementRewritesOnlyPromptless` | internal/bridge/create.go:314-347 | a retirement rewrites only a not_attempted create_thread row stored without a prompt on which nothing was done, to the retired receipt, keeping its other members |
| `BridgeTheorems.RetiredOnceForever` | internal/bridge/ledger/ledger.go:323-405 | a reservation is retired at most once and its retired receipt never changes |
| `BridgeTheorems.RewrittenOnlyByItsOwn` | internal/bridge/create.go:320-325 | a stored receipt is rewritten only by the attempt that wrote it, by an agreeing retry of a not_attempted one, or by a retirement; its fingerprint never changes |
| `BridgeTheorems.RepliesTellTheLedger` | internal/bridge/create.go:269-312 | a replay is the stored receipt, a settlement is what was stored, "prompt required" means no row, "retired" means the row is retired |
| `BridgeCounts.AttemptsAreCounted` | internal/bridge/ledger/ledger.go:291-316 | the attempt number is the number of attempts begun on the id, where it was not imported, and the prior attempts kept are at most five, all not attempted |
| `BridgeCounts.PriorsAreTheLastFive` | internal/bridge/ledger/ledger.go:291-316 | the prior attempts of a receipt are the last five receipts that attempts on its id replaced, with status and error and in order, and its attempt number counts them all, those of an imported row included |
| `BridgeReplay.OneRequestPerId` | internal/bridge/ledger/ledger.go:209-231 | all attempts ever begun on one request id are of one operation with the same prompt and arguments, the cwd up to its symbolic links |
| `BridgeReplay.IdenticalCallReplays` | internal/bridge/ledger/ledger.go:154-178 | a call identical to one that began an attempt is answered the stored receipt, or tries again where nothing was attempted, exactly when the row is stored under its own fingerprint; otherwise it conflicts |
| `BridgeReplay.OwnUnlessImported` | internal/bridge/ledger/ledger.go:241-290 | where the id was not imported, every call that began an attempt is of the row's own fingerprint |
| `BridgeReplay.LegacyRetryConflicts` | internal/bridge/ledger/ledger.go:291-316 | for every call with a legacy fingerprint, a run that retries an imported version-1 row and then conflicts with the receipt of its own attempt |
| `BridgeReplay.ReservationForetells` | internal/bridge/create.go:429-454 | CreateThreadReservation answers promptless exactly when a retirement of the same call would rewrite the row |
| `BridgeRuns.RunKeeps` | internal/bridge/bridge.go:135-246 | the invariant of every run: one marked attempt per id, and the row it works on is its own |
| `BridgeActions.Attempt.CreateWorktreeThread` | internal/bridge/worktree.go:82-252 | on every run, whatever the host and the file system answer, the effects follow the script of the creation and every saved receipt tells the truth; the answers it was given come in the order of its agenda, and it is accepted exactly when all of them were given and none stopped it, after doing all the script says, and otherwise failed, not_attempted or outcome_unknown exactly by the last answer, the only one that stops it |
| `BridgeActions.Attempt.WorktreeAction` | internal/bridge/worktree.go:82-240 | the action's events are a prefix of the script, the last perhaps answered otherwise; it succeeds exactly when every checkpoint, step, frame and check of its agenda was answered well, then with phase complete and no recovery demanded, and otherwise ends in the error of the last answer |
| `BridgeActions.Attempt.FinishCreation` | internal/bridge/worktree.go:221-240 | the prompt's turn and the last checkpoint: success exactly when both were answered well, the failed last checkpoint being an error |
| `BridgeTraces.EndingSettles` | internal/bridge/bridge.go:169-203 | the answers an action was given determine its status: accepted exactly when all were given and none stops it, otherwise by the last one and the effects |
| `BridgeActions.Attempt.SettleCreation` | internal/bridge/worktree.go:241-252 | the classification and the reconciled word of the prompt are true of what went out |
| `BridgeActions.Attempt.NameThread` | internal/bridge/thread_title.go:105-120 | a refused name does not end the creation, a lost answer does, and neither changes what the receipts tell; the thread is titled exactly when the call was answered |
| `BridgeActions.Attempt.Call` | internal/bridge/appserver/client.go:190-226 | a frame is tracked before it is written, leaves only if it was tracked, and is answered at most once and only if it left; a call that does not get so far leaves nothing |
| `BridgeActions.Attempt.Save` | internal/bridge/ledger/receipt.go:13-31 | a save that reports success was written, one that fails may have been, and what was written told the truth |
| `BridgeActions.Attempt.TryStep` | internal/bridge/worktree.go:118-138 | a worktree step's effect is tracked before it is tried, and it works at most once |
| `BridgeActions.Attempt.PrepareTree` | internal/bridge/worktree.go:88-138 | recovery is demanded before the first step; success means reserve, create and checkout were each tried and done once, in order |
| `BridgeActions.Attempt.InspectTree` | internal/bridge/worktree.go:142-156 | success means an inspection that matches; a mismatch ends the creation |
| `BridgeActions.Attempt.StartThread` | internal/bridge/worktree.go:157-193 | success means thread/start was answered, nothing was found against it and the thread is where it was asked for |
| `BridgeActions.Attempt.DispatchPrompt` | internal/bridge/worktree.go:221-238 | the prompt's word is outcome_unknown while the frame is out, accepted only after an answer, and what is left for the settlement determines the truth |
| `BridgeTraces.ThreadStartGuarded` | internal/bridge/worktree.go:118-170 | thread/start goes out only after exactly reserve, create, checkout, each tried and done, and a matching inspection |
| `BridgeTraces.TurnStartGuarded` | internal/bridge/worktree.go:170-229 | turn/start goes out only with a prompt, and after exactly that, an answered thread/start, no findings, the right placement and a second matching inspection |
| `BridgeTraces.PromptTableExact` | internal/bridge/worktree.go:221-252 | in a settled receipt the prompt is not_sent, rejected, accepted or outcome_unknown exactly when turn/start was never about to be written, was refused, was answered, or was about to be written with neither; so not_sent means it did not leave, rejected and accepted that it did |
| `BridgeTraces.ReconciledTrue` | internal/bridge/worktree.go:241-252 | reconcile turns the word written in advance into one that is exactly true of what went out |
| `BridgeTraces.KilledAnywhere` | internal/bridge/worktree.go:82-240 | what holds of a whole run's trace holds of every prefix, so of a run killed at any point |
| `BridgeActions.Attempt.SendMessageToThread` | internal/bridge/mutations.go:111-252 | the same for a send, whose delivery word is always set and true; a status that withholds the message fails it, and otherwise it is accepted exactly when every answer on its agenda went well, and settled by the one that did not |
| `BridgeActions.Attempt.SettleSend` | internal/bridge/bridge.go:163-223 | the classification and the delivery word are true of what went out |
| `BridgeActions.Attempt.JudgeResume` | internal/bridge/mutations.go:212-240 | success means no findings, the reported pair where it must be verified, and a moved anchor |
| `BridgeActions.Attempt.ComparePair` | internal/bridge/mutations.go:255-288 | the turn may start exactly when the host reported the pair the message asks for |
| `BridgeTraces.ResumeGuarded` | internal/bridge/mutations.go:124-198 | thread/resume goes out only to a thread whose status does not withhold the message, past the state guard |
| `BridgeTraces.SendTurnGuarded` | internal/bridge/mutations.go:198-241 | turn/start goes out only after an answered resume without findings, the reported pair equal to the requested one where it must be verified, and a moved anchor |
| `BridgeTraces.DeliveryTableExact` | internal/bridge/bridge.go:203-223 | the delivery word is not_delivered, rejected, turn_started or outcome_unknown exactly when turn/start was never about to be written, was refused, was answered, or was about to be written with neither; so not_delivered means it did not leave |
| `BridgeTraces.SendKilledAnywhere` | internal/bridge/mutations.go:111-251 | every prefix of a send's trace followed its script and told the truth |
| `Spool.WholeExactly` | internal/executor/spool.go:180-254 | a name is absent or holds the complete bytes of one accepted call in every state of every run exactly when it has not the form of a temporary name |
| `Spool.TempNamesAreNot` | internal/executor/spool.go:225-248 | for every name of that form, a run killed after creating the temporary file that breaks it |
| `Spool.EnvelopesNeverChange` | internal/executor/spool.go:213-253 | once present, the bytes of an envelope never change |
| `Spool.RewriteHasNoEffect` | internal/executor/spool.go:213-224 | over every run, a call that waits while its name is there never changes a file: a read that works answers success on equal bytes and a refusal on others, it is told nothing else, and the bytes stay |
| `Spool.WrittenStays` | internal/executor/spool.go:217-253 | a call that succeeded left its bytes under its name for good, whatever the name |
| `Spool.PublishesAlone` | internal/executor/spool.go:213-254 | from every state, a call on an absent name that gets the lock and whose operations succeed adds its envelope and changes nothing else |
| `Spool.BrokenWriteLeavesNothing` | internal/executor/spool.go:225-253 | a call whose write breaks and whose cleanup succeeds leaves the directory as it found it |
| `Spool.RunKeeps` | internal/executor/spool.go:199-253 | the invariant of every run: only the lock's holder changes the directory, and only its own temporary file and its absent name |
| `Bootstrap.ReadyIsComplete` | cmd/crw/repomap.go:292-300 | an interpreter with its marker file means that the bootstrap that wrote the marker saw pip succeed and no build has begun since |
| `Bootstrap.CleanupRemovesItsOwn` | cmd/crw/repomap.go:448-465 | only a cleanup removes a directory or an interpreter, and only one its own attempt made; a marker goes only as stale, and a thing that is no marker file is never removed |
| `Bootstrap.VerdictIsSound` | cmd/crw/repomap.go:401-420 | whoever is told the venv is ready, with or without the lock, saw the marker of a bootstrap whose pip succeeded |
| `Bootstrap.OrphansKeepTheLock` | cmd/crw/repomap.go:318-331 | while a child of a killed bootstrap runs, no other bootstrap is past the lock |
| `Bootstrap.BuildsAlone` | cmd/crw/repomap.go:408-450 | from every bare home, a bootstrap whose steps succeed leaves an interpreter and its own marker and says so |
| `Bootstrap.ReadyIsNotRebuilt` | cmd/crw/repomap.go:408-420 | a bootstrap that finds the venv ready leaves everything as it is |
| `Bootstrap.FailedPipLeavesNothing` | cmd/crw/repomap.go:448-465 | one whose pip fails and whose cleanup succeeds leaves the home bare again |
| `Bootstrap.RunKeeps` | cmd/crw/repomap.go:401-465 | the invariant of every run of bootstraps killed at any step and of deletions at any time |
| `ContextBudget.ContextOutputSections` | internal/harness/context.go:51-80 | the context is what `Emitted` says, all the sections, their lines cut to the budget and a marker, or the refusal, and has at most 32000 units without a second cut |
| `ContextBudget.RequiredKept` | internal/harness/context.go:51-80 | every required section is in the context whole, up to line endings and outer blanks, unless the context is the refusal |
| `ContextBudget.RequiredKeptExactly` | internal/harness/context.go:63-68 | the required sections all come out exactly when the sections fit or the required ones leave room for the marker, for up to a hundred sections whose required texts have no outer blanks or carriage returns |
| `ContextBudget.FittingKeeps` | internal/harness/context.go:60-62 | where the sections fit, every part of their text comes out |
| `ContextBudget.LineWholeExactly` | internal/harness/context.go:69-78 | the line of a section is whole exactly when the section is required or empty or the optional units up to and with it are within the budget |
| `ContextBudget.LinesExactly` | internal/harness/context.go:51-80 | each line of an answer that is not refused is the whole section exactly where the budget lets it through, and otherwise a proper part of it from its start |
| `ContextBudget.LetThroughComes` | internal/harness/context.go:51-80 | a section the budget lets through, optional or not, comes out whole up to line endings and outer blanks |
| `ContextBudget.CutLosesFirst` | internal/harness/context.go:69-79 | sections that do not fit and are not refused are first cut at the optional one where the running sum passes the budget, and every section before it comes out |
| `ContextBudget.CutIsMarked` | internal/harness/context.go:69-80 | sections that are cut end with the marker |
| `ContextBudget.JoinSplits` | internal/harness/context.go:51-62 | lines are joined by one blank line, in their order |
| `ContextBudget.OutputWithinBudget` | internal/harness/context.go:19-30 | ContextOutput stays within the budget; it leaves a context within it alone, and of another keeps exactly the longest prefix of whole characters within the budget less 64 units, without trailing blanks, followed by the marker |
| `ContextBudget.HeadIsPrefix` | internal/harness/context.go:32-38 | the head of a cut is the longest prefix of whole characters that fits, without trailing blanks |
| `ContextBudget.CutKeepsCharacters` | internal/harness/context.go:32-38 | a cut backed off by one unit where needed is the encoding of whole characters: no surrogate pair is split (section 2.1 of RFC 2781) |
| `ContextBudget.FittingIsLongest` | internal/harness/context.go:32-37 | the characters that fit are the longest such prefix |
| `ContextBudget.NormalisedInTwo` | internal/harness/context.go:19-21 | the model's one pass over line endings equals the two replacements |
| `ContextBudget.NoCut` | internal/harness/context.go:19-29 | a text within the budget is never cut |
| `ContextBudget.Measure` | internal/harness/context.go:51-59 | the loop gives the texts of the sections and the units of the required ones |
| `ContextBudget.DecodeEncode` | internal/harness/context.go:32-38 | decoding the UTF-16 form of a text gives the text back |
| `ContextBudget.CleanInside` | internal/harness/context.go:19-25 | a text survives normalising and trimming inside any other text, up to its own line endings and outer blanks |
| `ContextBudget.Spend` | internal/harness/context.go:69-78 | the loop that overwrites lines gives each section, in order, the longest prefix of whole characters the budget still allows, and required ones whole |
| `ContextBudget.SpentWithin` | internal/harness/context.go:69-78 | the lines of the optional sections together stay within the budget, and the required ones are whole |

## Left out

- SQLite, the App Server client, worktree commands, the settings contract and the execution policy: nondeterministic answers and errors; the ledger is a map with atomic transactions that may fail after writing.
- JSON encoding and decoding, SHA-256, validateStrings and validateShape: values are datatypes and digests injective, so an error of cloning a record through JSON does not occur.
- Error texts of the executor: only the class of an error is modelled, and where several checks of one class follow each other their order is not.
- `sort.Slice` in normalizeTask is an insertion sort; the two agree wherever the keys are distinct, and a task with equal keys is refused.
- The text of the pointers, the binding and the banner, and how a command comes to be long: they are parameters of the session.
- Wall clocks (the pair window, lock waits, poll intervals, acknowledgement bounds): nondeterministic expiry or refusal.
- `GuidanceTheorems.TwoPromptsEndThePair`: stated for runs in which no deleter without the lock swept prompt files, because such a deleter may remove a count the rule rests on.
- Several sessions and legs of guidance: the model has the files of one session and one leg, and directory listings succeed.
- The mutex of one bridge process: calls interleave freely in the model, which allows more runs than the code.
- The relay's own ledger and send sequence (internal/relay/adapter), which uses the same ledger package on another file.
- Unsubscribing from a thread after a mutation has returned: it is no effect of the attempt.
- The actions of create_thread, steer_thread and pause_goal step by step: the mutation protocol covers them as arbitrary actions; their own order of checks would add easier members of the same kind.
- Rows of an alias ledger that the canonical one already holds: an import leaves them or refuses as a whole, so it changes nothing.
- Links at the marker's path of the bootstrap, and anyone but a bootstrap creating the directory, the interpreter or the marker.
- Ownership, link count and mode checks of the spool, and artifact reading.
- internal/gui, internal/crwconfig, internal/gitprobe, internal/contracttest, the guard mode table, observation records, internal/executor/port.go and the dispatch and rendering of cmd/crw: short sequences of checks or fixed texts.

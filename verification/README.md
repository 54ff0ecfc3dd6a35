# Agentic variation: the run ledger and the unified-patch engine, verified

This project models two components of the agentic-variation plugin in Dafny 4.11 and proves
properties of the model. `dafny verify dfyconfig.toml` checks all of it.

**The run ledger** (`state_machine.py`, `storage.py`, `controller.py`, `phase2.py`, `evaluator.py`,
parts of `phase4.py` and `contracts.py`). A run is a state machine with step, cost and stagnation
budgets. It is stored with compare-and-swap on its revision and an append-only event log; candidates,
evaluations, advice and memory live in tables of their own, each written in its own transaction.
Controllers are programs over these atomic store operations that may stop between any two of them,
and `reconcile` repairs a run from what is stored.

**The unified-patch engine** (`phase4_patch.py`, `phase4_sandbox.py`, `phase4_runner.py`): a strict
one-hunk parser, an applier, a sandbox runner, and a host that recomputes what the runner did.

## How the model is built

| file | what it holds |
|---|---|
| `Values.dfy`, `Contracts.dfy` | configuration values, freezing and canonical form; the hash-frozen records |
| `StateMachine.dfy` | the transition function, and whole histories of it |
| `Ledger.dfy` | the ledger of one run and its atomic steps; the log replays to the state |
| `Store.dfy` | `RunStore`, a class over the tables of all runs, proved against the ledger of each run |
| `Actors.dfy` | step, supervise, reconcile, cancel, create and refresh as programs with a program counter |
| `Interleaving.dfy` | any number of these programs interleaved at their store calls, with crashes |
| `Exclusive.dfy`, `Supervision.dfy`, `StoredRecovery.dfy` | programs that follow one another and may each stop anywhere: crash recovery of step and of supervise |
| `Disciplined.dfy` | programs that overlap while no reconcile loads its run next to a live step |
| `Effects.dfy` | what each operation of the Phase 2 controller has recorded, logged and saved when it returns |
| `BestScore.dfy` | what the search finds |
| `Progress.dfy` | programs that nobody interferes with return normally, and a driven run comes to its end |
| `NamedHistory.dfy` | when the names of events tell the history of a run |
| `Counterexamples.dfy` | runs that show why the hypotheses are needed |
| `ProgramPoints.dfy`, `Controller.dfy` | `Phase2Controller`, a class over the store, proved against the programs |
| `Evaluator.dfy`, `MemoryContract.dfy` | the eligibility decision; continuation memory within its contract |
| `PatchText.dfy`, `Patch.dfy`, `PatchGrammar.dfy` | lines, numerals and text; the applier; the parser and its grammar |
| `Sandbox.dfy`, `Phase4.dfy` | runner, host and sizes; the Phase 4 operations interleaved |
| `Phase4Recovery.dfy` | the evidence of Phase 4 attempts in all interleavings; crash recovery of patch |
| `Phase4Outcome.dfy` | where a receipt comes from and what it leads to, in all interleavings; what a patch does from start to end |

Three settings are kept apart. In `Interleaving` any operations overlap in any way, and crash anywhere.
In `Discipline` they overlap and crash in any way too, except that no reconcile loads its run while a
step is live, that is, stands between launching its child and applying its verdict. A caller can see to
that by looking once, before it reconciles: a reconcile that a new step overtakes afterwards reads on, or
loses its compare-and-swap, and does no harm. In `CrashRecovery`, `SuperviseRecovery` and
`Phase4Recovery` operations follow one another, and any of them may stop between two store calls; such
runs are disciplined (`Discipline.DriveIsDisciplined`), as are all interleavings without a reconcile.
Recording an attempt compares no revision, and still everything recorded is applied exactly once in every
disciplined interleaving of a run with something to spend, which is also all that the search results
need. The guard cannot be dropped: every spec that phase2.py creates, with any budgets that leave
something to spend, has a disciplined interleaving in which a reconcile that loads in spite of the guard,
and keeps it from then on, leaves evidence unapplied (`Counterexamples.OverlapLeavesSurplus`). Crash
equivalence and progress are about one operation at a time and need the third setting.

A SHA-256 digest is a free constructor over the record it is taken of. Costs and scores are reals.
Text is a sequence of Unicode scalar values, and lines end at every boundary `str.splitlines` knows.

## What the model found

- `start_step` is answered with `budget_exhausted` exactly when `max_cost_usd` is 0; the controller
  does not look at the answer and launches the child all the same (`Interleaving.LaunchDespiteExhaustion`),
  and its evidence is then recorded and never applied (`Counterexamples.ZeroBudgetLeavesSurplus`).
- `evaluation_missing` can be committed by the code of both reconciles, of Phase 2 and of Phase 4, but
  never is (`Interleaving.NoEvaluationGoesMissing`, `Phase4Evidence.NoPatchGoesMissing`).
- Filtering the log by event name does not always recover the transitions: a failed supervision logs
  `supervisor_failed` twice. The names tell the history of an interleaving exactly as long as no failed
  supervision is noted (`NamedReplay.NamedHistoryTells`), and exactly the specs whose runs may stagnate
  within their budgets, phase2.py's own among them, have a run whose names tell a history that the state
  machine refuses (`FailedSupervision.NamesFailExactly`).
- The runner's limit of 65536 bytes never fires, while the host's limit of 16384 bytes refuses honest
  candidates that a patch made longer: a baseline of 16384 bytes and a patch that adds one line
  (`Sandbox.HostRefusesGrownCandidate`).
- The hunk header takes any Unicode decimal digit, not only ASCII ones, and a patch or source may hold
  line boundaries other than LF: they are normalised to LF on output (`PatchEngine.OutsideIsByteIdentical`).
- A run cancelled while paused keeps `paused_from`, which then tells cancelled runs that were paused from
  those that were not (`RunHistory.CancelKeepsPausedFrom`, `RunHistory.PausedFromTells`).

## Model

| member | source | states |
|---|---|---|
| CanonicalValues.FreezeMapping | contracts.py:50-58 | the loop freezes a mapping field by field in order, or fails at the first empty key anywhere in it, exactly as the recursive definition says |
| CanonicalValues.FreezeThenPrimitive | contracts.py:38-66 | freezing succeeds exactly on values without empty keys, and the primitive form of the frozen value is the canonical form of the raw one |
| CanonicalValues.CanonWellFormed | contracts.py:61-66 | the canonical form of any nested value binds no key twice and has its keys in ascending order at every level |
| CanonicalValues.CanonFixed | contracts.py:61-66 | canonical values are fixed points: the canonical form is idempotent |
| CanonicalValues.CanonDecidesSame | contracts.py:38-66 | two nested values have one canonical form exactly when they differ only in key order and in lists against tuples |
| CanonicalValues.AscendingExtensional | contracts.py:61-64 | dictionaries in ascending key order are equal when they answer every lookup alike |
| Contracts.SpecSurvivesStorage | storage.py:46-53 | a spec that was constructed, stored and loaded has the dictionary, the identity and the strictness of the one created, and loading again changes nothing |
| Contracts.IdentityDecidesSpec | contracts.py:72-85 | two constructed specs have one identity exactly when they agree up to the key order of their configurations |
| RunHistory.ConsistentStep | state_machine.py:101-184 | every accepted transition keeps the reachable-state invariant and uses up one of the transitions that remain, pauses and resumes apart |
| RunHistory.WholeRun | state_machine.py:64-184 | over any accepted history: steps and cost are the count and sum of attempt-closing events only, stagnation counts attempts since the last eligible result or applied advice and is at its limit exactly when supervision is due, succeeded has a best candidate, no_result has none, failed is unreachable |
| RunHistory.StatusTells | state_machine.py:64-184 | over any accepted history the status follows from the events: an attempt that uses up a budget ends the run, succeeded exactly if it was eligible; one that does not leaves it ready, or in need of supervision exactly if the stagnation limit is reached; a failed supervision or a completion ends it, succeeded exactly if some attempt was eligible |
| RunHistory.AcceptedExactly | state_machine.py:101-184 | for every history and input, exactly which inputs are accepted next: a cancel whenever the run has not ended, and every other event in just its statuses |
| RunHistory.LengthBound | state_machine.py:101-184 | the revision is at most 5 * max_steps - 1 plus the pauses and resumes |
| RunHistory.CostBelowBudgetBeforeEachAttempt | state_machine.py:81-98 | each attempt was closed while the cost before it was below the budget and a step was left |
| RunHistory.ExhaustedStart | state_machine.py:126-129 | the exhausted branch of start_step is taken exactly when max_cost_usd is 0 |
| RunHistory.StartsBound | state_machine.py:126-129 | at most max_steps starts are accepted: one per closed attempt, and one more while an attempt is in flight |
| RunHistory.TerminalIsFinal | state_machine.py:112-113 | a history goes through no terminal state before its end |
| RunHistory.CancelKeepsPausedFrom | state_machine.py:162-179 | after any history that ends paused, a cancel is accepted and changes only status and revision: paused_from stays, and is ready or supervision_required |
| RunHistory.PausedFromTells | state_machine.py:162-179 | a cancelled run has a paused_from exactly when it was paused when it was cancelled |
| RunHistory.PausedFromEither | state_machine.py:162-176 | every run can be paused from ready, and those whose stagnation limit is below max_steps and that have something to spend, and no others, from supervision_required |
| Evaluator.EvaluateDecides | evaluator.py:60-89 | eligible means every required predicate holds, no required score regresses and, under strict improvement, some score differs; each of the four reasons is given under exactly its condition |
| Evaluator.EvaluateRecords | evaluator.py:36-120 | a candidate is judged exactly if it is of this spec, the comparison is not pareto, there is evidence and nothing required is missing; the evaluation then holds the candidate's identity, the evaluator and the hash of the evidence, with the required scores and baseline scores as given |
| Evaluator.EligibilityIsTransitive | evaluator.py:60-81 | a result that beats an eligible result also beats that result's baseline |
| Evaluator.StrictIsIrreflexive | evaluator.py:77-81 | under strict improvement nothing is eligible against its own scores |
| LogReplay.ExecReplays | storage.py:232-310 | each store step keeps the log replaying to the state, and extends the replayed history exactly when it commits a transition |
| LogReplay.LogReplaysToState | storage.py:200-310 | whatever steps clients take, folding the transitions over the log gives the stored state, and every prefix gives the logged revision and state hash |
| LogReplay.RevisionsContiguous | storage.py:255-274 | logged revisions never skip: each entry repeats the revision before it or is one higher, and the last is the stored one |
| LogReplay.TransitionsAreFirstAtRevision | storage.py:255-310 | an entry was written by a transition exactly when it is the first at its revision |
| LogReplay.NamedHistoryFaithful | storage.py:295-310 | selecting transitions by name gives the true history exactly when no observation bears a transition's name |
| LogReplay.NamedHistoryFails | phase2.py:255-257 | when a supervision fails whose run could be told by names so far, the history selected by name is refused by the state machine from then on |
| NamedReplay.NamedHistoryTells | storage.py:295-310 | in every interleaving selecting transitions by name gives the true history exactly as long as no failed supervision is noted |
| FailedSupervision.NamesFailExactly | phase2.py:221-259 | some driven run has names that tell a history the state machine refuses, exactly when the stagnation limit is below max_steps and there is something to spend |
| LogReplay.IdentityGuardNeverFires | state_machine.py:110-111 | the identity guard never refuses a transition of a stored run |
| LogReplay.StoredRunIsConsistent | storage.py:232-275 | whatever is proved of whole histories holds of every stored run |
| Store.ConstructedLoads | storage.py:46-53 | the row written for a constructed spec loads, with the same identity, run and strictness |
| Store.OwnCandidateKey | storage.py:332-349 | although primary keys range over all runs, a candidate can only collide with a row of its own run |
| Store.AttemptIsLedgerStep | storage.py:332-349 | recording an attempt among the rows of all runs is the ledger's step on its run, conflicts included, and leaves every other run as it was |
| Store.AdviceIsLedgerStep | storage.py:439-444 | the same for an advice row |
| Store.SandboxAttemptIsLedgerStep | storage.py:376-399 | the same for the three rows of a sandbox attempt, whose records stay filed under their run |
| Store.AcceptedTransition | storage.py:255-274 | replacing a state row and appending an event row is the ledger's transition of that run and of no other |
| Store.RunStore.CreateRun | storage.py:200-221 | a new run id gets the created ledger with the spec as it loads again and the created identity; a known one is refused and nothing changes |
| Store.RunStore.LoadRun | storage.py:223-230 | the spec and state of the run, or an unknown-run error; stored specs always load |
| Store.RunStore.Transition | storage.py:232-275 | the compare-and-swap step on the run's ledger, with its errors, and no effect on other runs |
| Store.RunStore.Events | storage.py:277-293 | the events of the run, oldest first, however rows of runs are mixed; none for an unknown run |
| Store.RunStore.RecordObservation | storage.py:295-310 | appends one event under the current revision and state hash, for a known run only |
| Store.RunStore.RecordAttempt | storage.py:332-349 | both rows or neither: it succeeds exactly for a known run and two unused keys |
| Store.RunStore.RecordSandboxAttempt | storage.py:376-399 | all three rows or none: it succeeds exactly for a known run and three unused keys |
| Store.RunStore.SaveMemory | storage.py:401-430 | compare-and-swap on the memory revision, which rises by one |
| Store.RunStore.LoadMemory | storage.py:432-437 | the memory of the run, if any; none for an unknown run |
| Store.RunStore.RecordSupervisorAdvice | storage.py:439-444 | appends an advice row for a known run and an unused key |
| Store.RunStore.SupervisorAdvice | storage.py:446-452 | the advice of the run, oldest first; none for an unknown run |
| Store.RunStore.Lineage | storage.py:484-498 | the candidates and evaluations of the run, oldest first; none for an unknown run |
| Actors.NextShortens | phase2.py:118-304 | every operation ends: each store call leaves fewer to make |
| MemoryContract.RefreshNeverFails | phase2.py:266-302 | the memory record a refresh builds satisfies every bound of its contract, whatever the ledger holds |
| MemoryContract.NextMemoryTells | phase2.py:268-300 | item by item: the record lists the identities of the last five candidates and evaluations, oldest first, their hypotheses cut to 300 characters, and the last five failures including the new one; the rest is the state's, and the advice is the one given or else the last stored |
| MemoryContract.LastFiveOfWindow | phase2.py:281-299 | keeping the last five of a kept window is keeping the last five of all |
| RunInvariants.NextKeeps | phase2.py:118-304 | one step of any operation keeps the run's invariants, only extends the run, and leaves the operation with facts that survive the steps of others |
| Interleaving.Always | phase2.py:118-304 | the invariants hold in every interleaving of any operations with crashes |
| Interleaving.OneSupervisor | phase2.py:185-253 | in every interleaving a run commits at most one start_supervisor, launches at most one supervisor child and holds at most one advice row |
| Interleaving.NoEvaluationGoesMissing | phase2.py:149-178 | in every interleaving applied evaluations never exceed recorded ones, are fewer while evaluating, and no evaluation_missing is ever logged |
| Interleaving.EveryLogReplays | storage.py:255-310 | in every interleaving the log replays to a consistent state with exact counters |
| Interleaving.LaunchAndLengthBounds | controller.py:99-112 | in every interleaving at most max_steps variation children are launched and the revision is at most 3 * max_steps + 3 |
| Interleaving.LaunchDespiteExhaustion | controller.py:102-112 | an accepted start_step always launches its child, and the run is running then exactly when it may cost something |
| Interleaving.RecordingNeverConflicts | controller.py:207 | in every interleaving recording an attempt or an advice meets no duplicate key |
| Interleaving.MemoryIsExact | phase2.py:266-304 | in every interleaving the memory revision counts the saves, the memory is never ahead of the run, and its failure window is the last five of all failures saved |
| ExclusiveDriver.AloneNext | phase2.py:118-183 | without interference an operation's local state stays the stored one, and recorded evidence stays in step with applied evidence |
| CrashRecovery.ExactlyOnce | phase2.py:149-173 | driven exclusively, recorded minus applied is 0 outside running and evaluating and at most 1 inside, and the i-th applied event carries the verdict and candidate hash of the i-th recorded pair |
| Discipline.ExactlyOnceUnderDiscipline | phase2.py:149-173 | the same in every interleaving, with any overlap and any crashes, in which no reconcile loads its run while a step is live |
| Discipline.NoReconcileIsDisciplined | phase2.py:118-183 | every interleaving that spawns no reconcile is such an interleaving |
| Discipline.DriveIsDisciplined | phase2.py:101-264 | whatever the exclusive driver does is such an interleaving |
| CrashRecovery.RecoveryKeepsSettled | phase2.py:118-183 | recovery that stops anywhere keeps the state that the stored evidence determines |
| CrashRecovery.ReconcilingSettles | phase2.py:118-183 | any stopped reconciles and one complete one reach that state, and one more changes nothing |
| CrashRecovery.CrashEquivalence | phase2.py:118-183 | a step stopped at any store call, any stopped reconciles and one complete one leave the run as it was before the start, and after it end in the state of the uninterrupted step if its attempt was recorded and of a failed child otherwise, revision included |
| CrashRecovery.ReconcileIsIdempotent | phase2.py:147-148 | a reconcile of a settled run changes nothing at all |
| SuperviseRecovery.SuperviseCrashEquivalence | phase2.py:118-259 | a supervise stopped at any store call, any stopped reconciles and one complete one leave the run as it was if nothing was committed, end in the state of the uninterrupted supervise if advice is stored and in that of a failed supervisor otherwise |
| Completion.RefreshCompletes | phase2.py:266-304 | an undisturbed refresh never raises, whatever the run holds; it saves a record that tells of the run item by item, and changes nothing else |
| Effects.StepTells | controller.py:99-226 | a step that returns normally, on any ledger and with any child, found its run ready and closed one attempt: if the child failed, without rows and with that error remembered; else with one candidate that is the child's proposal, one evaluation that weighs the table's score against the last eligible one, and its verdict; state, log entries and memory are given field by field |
| Effects.SuperviseTells | phase2.py:185-259 | a supervise that returns normally settled the run if there was advice; else it started the supervisor, and either added one advice row with the child's directions and prohibited repeats in their own fields and the memory the run held as evidence, and made the run ready, or settled it with the child's error |
| Effects.ReconcileTells | phase2.py:118-183 | a reconcile that returns normally applied the last advice or the last recorded verdict, or closed what was in flight without one, or changed nothing; state, log entries and memory are given field by field |
| Effects.CancelTells | phase2.py:261-264 | a cancel that returns normally found its run neither ended nor with an attempt in flight, and changed its status and revision, log and memory only |
| Progress.StepProgresses | controller.py:99-226 | a step of a driven ready run that has something to spend never raises, whatever its child does, closes exactly one attempt and leaves nothing in flight |
| Progress.SuperviseProgresses | phase2.py:185-259 | a supervise of a driven run that needs it never raises, and the run has then ended or is ready again with its first advice |
| Progress.CancelExactly | controller.py:242-251 | after any interleaving an undisturbed cancel is accepted exactly when the run has not ended and has no attempt in flight; otherwise it changes nothing |
| Progress.DriverTerminates | phase2.py:101-259 | however an approved run was driven and wherever its operations stopped, one reconcile and max_steps + 1 operations, each a supervise where it is required and a step otherwise, bring it to a terminal status, whatever the children do |
| StoredRecovery.ReconcileSettlesStoredRun | phase2.py:118-183 | the same of the tables: a completed reconcile settles its run and touches no other |
| BestScore.BaselineIsMinimum | controller.py:189-200 | the baseline searched for is the minimum of the table's baseline and every recorded score: none is below it, and it is one of them |
| BestScore.EligibleScoresDecrease | controller.py:189-206 | along a lineage eligible scores strictly decrease, starting below the baseline |
| BestScore.AncestryIsEligible | controller.py:176-184 | following parent links from the last eligible candidate meets exactly the eligible candidates, latest first |
| BestScore.BestCandidateIsMinimal | phase2.py:62-99 | driven exclusively, whenever nothing recorded waits to be applied, best_candidate_hash names a recorded candidate whose score is the minimum of the baseline and all recorded scores, or there is none and nothing beat the baseline; its ancestry is the eligible candidates |
| BestScore.EligibleScoresOfRunDecrease | controller.py:176-217 | eligible scores of a driven run strictly decrease from the baseline |
| DisciplinedSearch.BestCandidateUnderDiscipline | phase2.py:62-99 | the same of best_candidate_hash in every interleaving in which no reconcile loads its run while a step is live |
| DisciplinedSearch.EligibleScoresUnderDiscipline | controller.py:176-217 | and the same of eligible scores |
| Counterexamples.OverlapLeavesSurplus | controller.py:207-210 | for every spec phase2.py creates, up to its budgets, that has something to spend, some disciplined interleaving meets a live step and a new reconcile; if the reconcile loads, which is the only action to break the guard, and makes its three other calls, and the step its next one, a recorded evaluation stays unapplied with nothing in flight |
| Counterexamples.OverlapMisattributes | phase2.py:149-173 | for every such spec with max_steps above 1, and a strategy that beats the baseline, some interleaving goes on from there, through a supervision where the stagnation limit is 1, to a reconcile that credits the candidate of the first attempt to the second |
| Counterexamples.ZeroBudgetLeavesSurplus | controller.py:102-112 | with a zero cost budget an exclusively driven step records evidence that is never applied |
| Counterexamples.AppliedOnceExactlyWithBudget | phase2.py:149-173 | of the specs phase2.py creates, up to their budgets, exactly those with something to spend have every recorded evaluation applied once and in time in all disciplined interleavings, and exactly those in all exclusively driven runs |
| Controller.SelectBaseline | controller.py:189-200 | the search loop finds the score of the latest eligible evaluation, or the table's baseline |
| Controller.AppendFailure | phase2.py:283-285 | the previous window stays in front, and exactly a failure with a text adds one signature, which is that text or its first 300 characters |
| Controller.AppendedFailures | phase2.py:283-285 | these facts determine the failure list that the next record is built from |
| Controller.Phase2Controller.RefreshMemory | phase2.py:266-304 | a refresh takes the ledger where the program's refresh takes it and raises exactly where that does; it leaves state, spec and evaluations alone, and the record it saves and returns tells of the run item by item |
| Controller.Phase2Controller.AttemptStep | controller.py:99-226 | one attempt makes the store calls of the program's step in its order and raises where it does; otherwise it reports the status it left, the error that its child determines, and, without one, the verdict of the one evaluation it recorded |
| Controller.Phase2Controller.Step | phase2.py:101-104 | an undisturbed step takes its run's ledger where the program ends and changes no other run; it returns normally exactly when the program does, and then reports the status it left, the error that its child determines, and, without one, the verdict of the one evaluation it recorded, and what it recorded, logged and saved is given field by field; it is refused when disabled or unknown |
| Controller.Phase2Controller.Supervise | phase2.py:185-259 | the same for supervise, whose error is determined by the stored advice and by what its child did, and whose advice row holds what the child gave |
| Controller.Phase2Controller.Reconcile | phase2.py:118-183 | the same for reconcile, whose action is determined by the status, the advice, and the numbers of recorded and applied evaluations it found |
| Controller.Phase2Controller.Cancel | phase2.py:261-264 | the same for cancel, which reports the run as cancelled |
| Controller.Phase2Controller.CreateRun | phase2.py:88-99 | a new run is created, approved and given its memory as the program says, never raises once its row is written, and is then ready at revision 1 with no rows and a first memory that tells of it; no other run changes, and a known run is refused |
| Controller.Phase2Controller.MemoryPacket | phase2.py:106-116 | the stored memory, marked stale exactly when the run has moved on since |
| PatchText.SplitThenRender | phase4_patch.py:46-48 | splitting a text that ends with LF and joining it again only replaces its other line boundaries by LF |
| PatchText.RenderThenSplit | phase4_patch.py:113-114 | joining lines without boundaries and splitting gives back the lines |
| PatchText.NormalIsIdentity | phase4_patch.py:46-48 | that replacement changes nothing exactly when LF is the only boundary |
| PatchText.DecimalRoundTrip | phase4_patch.py:64-67 | the decimal numeral of a number is a numeral and reads back as the number |
| PatchEngine.WalkBody | phase4_patch.py:98-109 | the loop with its moving index succeeds exactly when the old side stands at the start, and then has collected the prefix and the new side and counted both sides |
| PatchEngine.Apply | phase4_patch.py:88-114 | apply returns what its declarative specification says, every error case included |
| PatchEngine.AppliesExactlyWhenItFits | phase4_patch.py:88-114 | apply succeeds exactly when the source is canonical, the counts are those of the body, both starts agree and the old side is what stands there; the result is prefix, new side, suffix |
| PatchEngine.OutputIsCanonical | phase4_patch.py:113-114 | the output is a legal input again, and splits into exactly the computed lines |
| PatchEngine.UndoRestoresSource | phase4_patch.py:88-114 | the swapped patch applies to the output and returns the source in its LF form |
| PatchEngine.UndoIsExact | phase4_patch.py:88-114 | it returns the source itself exactly when LF is the source's only boundary |
| PatchEngine.RedoRestoresOutput | phase4_patch.py:88-114 | applied to what the swapped patch returned, the patch gives its output again |
| PatchEngine.OutsideTheHunk | phase4_patch.py:88-114 | output and source differ only in the hunk, up to line boundaries |
| PatchEngine.OutsideIsByteIdentical | phase4_patch.py:88-114 | text outside the hunk is repeated byte for byte exactly when every boundary there is LF |
| PatchGrammar.HeaderReads | phase4_patch.py:7 | the text of two ranges, with or without counts, in any decimal digits, reads as exactly those numbers |
| PatchGrammar.ChecksPass | phase4_patch.py:52-60 | the prohibited-operation and single-hunk checks are implied by the rest of the grammar |
| PatchGrammar.ParseAcceptsGrammar | phase4_patch.py:40-82 | parse accepts exactly the payloads that a small grammar derives, and returns the fields of the derivation |
| PatchGrammar.ParsedIsWellFormed | phase4_patch.py:69-82 | what apply relies on holds of every parsed patch |
| PatchGrammar.RenderedParses | phase4_patch.py:40-82 | rendering a header and a body and parsing them recovers the same fields |
| PatchGrammar.DecimalHeaderReads | phase4_patch.py:61-68 | a header written in decimal reads back as its four numbers |
| Sandbox.HashTree | phase4_runner.py:28-35 | the digest loop hashes names and contents in order |
| Sandbox.TreeHashDecides | phase4_sandbox.py:288-297 | two trees have one hash exactly when both their files agree |
| Sandbox.OutputSize | phase4_patch.py:98-114 | the output of a parsed patch is at most as long as its source and the patch text together, in UTF-8 bytes |
| Sandbox.RunnerOutputFits | phase4_runner.py:62-75 | within the input limits the base64 source is at most 32768 characters and the 65536-byte check never fires |
| Sandbox.HostAcceptsHonestEnvelope | phase4_sandbox.py:192-246 | the host accepts an honest envelope exactly when the candidate has at most 16384 bytes |
| Sandbox.HostRefusesGrownCandidate | phase4_sandbox.py:192-246 | a baseline of 16384 bytes and a parsed patch of at most 8192 bytes whose candidate the runner reports honestly and the host refuses, whatever the tests are and however they end |
| Sandbox.HostAcceptsExactly | phase4_sandbox.py:192-246 | which envelopes the host accepts, whoever printed them: exactly those whose policy, command, candidate, hashes and flags are the ones it recomputes |
| Sandbox.AcceptedResultIsDetermined | phase4_sandbox.py:192-246 | any accepted result has the exit code and the two log hashes of its envelope, each in its own field, and is fixed by patch and baseline in all else; it passes exactly with exit code 0 |
| Sandbox.HostRunAccepts | phase4_sandbox.py:106-155 | with the runner as it is, a run is accepted exactly when the files are within size, the hunk fits and the candidate is within size; the result then has the exit code of the test run and the hashes of its stdout and stderr |
| Phase4Protocol.PatchNextKeeps | phase4.py:147-299 | one step of any Phase 4 operation keeps artifact, receipt and run in agreement, and only the first to make the directory may write |
| Phase4Protocol.Always | phase4.py:147-351 | these invariants hold in every interleaving of patch, reconcile and cancel with crashes |
| Phase4Protocol.SucceededMeansVerified | phase4.py:194-285 | in every interleaving, whatever the sandbox prints: at most one receipt; a receipt implies an artifact that is the hashed patch applied to the baseline; succeeded implies that receipt, with passing tests, for the best candidate |
| Phase4Evidence.NoPatchGoesMissing | phase4.py:308-343 | in every interleaving of patch, reconcile and cancel with crashes applied evaluations never exceed recorded ones, are fewer while evaluating, and no evaluation_missing is ever logged |
| Phase4Recovery.PatchCrashEquivalence | phase4.py:147-343 | a patch stopped at any step, any stopped reconciles and one complete one leave the run as it was before the start, and after it end in the state of the uninterrupted patch if its receipt is stored and of an interrupted run otherwise, revision included, with or without something to spend |
| Phase4Recovery.ReconcilingSettles | phase4.py:308-343 | any stopped reconciles and one complete one reach the state that the stored evidence determines, and one more changes nothing, the artifact included |
| Phase4Outcome.ReceiptTells | phase4.py:194-268 | in every interleaving at most one attempt is recorded; its candidate is the patch of a child that reported there, its receipt carries exit code and log hashes of an envelope printed there, and both name the run, its spec and its baseline; in a run judged by its tests the evaluation is eligible exactly if the exit code is 0 |
| Phase4Outcome.VerdictTells | phase4.py:269-285 | in every interleaving of a run as phase4.py creates it, up to its cost budget: once the verdict of a receipt is applied, the run has succeeded with that candidate as its best if the exit code was 0, and has exhausted its budget without one if not |
| Phase4Patched.PatchTells | phase4.py:147-299 | an undisturbed patch, whatever child and sandbox do: a declared failure closes the attempt with that error, a raised one leaves it in flight, and a result is put in place, recorded with its receipt and decides the verdict by its exit code; state, rows, log entries and artifact are given field by field |
| Phase4Patched.NewRunIsPatched | phase4.py:147-285 | a new run whose child proposes a patch that the runner applies and the host accepts succeeds exactly if the tests pass, with a receipt that holds the exit code and the hashes of what the tests printed |
| Phase4Patched.PatchReconcileTells | phase4.py:308-343 | after any interleaving an undisturbed Phase 4 reconcile applies the recorded verdict that is not applied, or closes the attempt as interrupted, or leaves a run with nothing in flight as it was; state and log entries are given field by field, and rows and artifact stay |
| Phase4Patched.PatchCancelTells | phase4.py:345-351 | an undisturbed Phase 4 cancel only cancels a run that has neither ended nor an attempt in flight, and else changes nothing |

## Left out

- SQLite, WAL, migrations and triggers: each `with connection` block is one atomic step, including the two selects of `lineage` (storage.py:484-498), which SQLite could separate.
- SHA-256 and the JSON codec: digests are free constructors, told apart by the kind of record hashed, and loading JSON inverts dumping it on primitive values.
- Floating point, NaN, infinity and bool-against-int type checks: costs and scores are reals.
- Phase4Protocol.SucceededMeansVerified: the Phase 4 controller is modelled on values, as programs over the run and the artifact directory, so in-place update of its objects is not captured; the image, runner and policy comparison before the artifact is written is one input bit.
- Sandbox.HostRunAccepts: the runner and the host's run are functions of file contents; Docker, argv, mounts, time-outs and symlink checks are I/O, and the tests are taken not to change the files they test.
- CrashRecovery.ExactlyOnce: stated for max_cost_usd above 0, because with 0 it is false (`Counterexamples.AppliedOnceExactlyWithBudget` has both directions); the same goes for Discipline.ExactlyOnceUnderDiscipline.
- BestScore.BestCandidateIsMinimal: stated for max_cost_usd above 0; with 0 evidence is recorded that no candidate is credited for.
- Progress.DriverTerminates: stated for operations that follow one another; when operations overlap, a step that is refused by a compare-and-swap raises and the caller has to reconcile and try again.
- Effects.StepTells: reports of the controller leave out what repeats the rows of the run, such as identities, scores and directions; the rows are given instead.
- Phase4Patched.PatchTells: the report of patch is left out in the same way, and so is the tree hash that it takes of the target to see that the baseline is unchanged.
- Interleaving.LaunchAndLengthBounds: pauses and resumes belong to the state machine results only; no controller issues them.
- `record_candidate`, `record_evaluation`, `record_mutation_attempt` and the mutation receipts: same shape as the modelled writes.
- A Phase 1 step on its own: it is the Phase 2 step without the refresh.
- The child and its text: it fails to launch or reports, and its payload parses or does not; `api_calls` and the prompt texts are not part of this model.
- Lone surrogates in text, and base64 details: text is scalar values, and base64 decodes exactly or not at all.
- Field validators that are single checks, digest formats, and `TerminalReceipt`, which no code constructs.
- `phase3.py` and `phase3_workspace.py`: the recovery shape of Phase 4 with fixed templates.
- `runtime.py`, `tools.py`, `schemas.py`, `__init__.py`, `desktop/plugin.js`: registration, routing and user interface.
- `docs/PHASE5.md`: a specification without code.

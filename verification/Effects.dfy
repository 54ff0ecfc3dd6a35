/**
 * What an operation of the Phase 2 controller has done once it has returned normally, field by field:
 * the rows it recorded, the state it left, the entries it logged and the memory it saved. These facts
 * hold of any ledger an operation may begin with, whatever its child does.
 */
module Effects {
  import opened Wrappers
  import opened Contracts
  import opened StateMachine
  import opened RunHistory
  import opened Ledger
  import opened Actors
  import opened MemoryContract
  import opened ProgramPoints
  import Evaluator

  // ----- what is promised -----

  datatype Said = Said(event: EventName, payload: Payload)

  /** The log goes on with exactly these events. */
  ghost predicate Logged(log: seq<Entry>, log': seq<Entry>, said: seq<Said>) {
    && |log'| == |log| + |said| && log'[..|log|] == log
    && forall i :: 0 <= i < |said| ==> log'[|log| + i].event == said[i].event && log'[|log| + i].payload == said[i].payload
  }

  /** The memory at the end tells of the run as it is at the end; `previous` is the record it replaced. */
  ghost predicate Remembers(r': Run, previous: Option<Memory>, failure: Option<string>, advice: Option<Digest>) {
    && r'.memory.Some?
    && Tells(r'.memory.value, r'.spec, failure, advice, r'.state, previous, r'.candidates, r'.evaluations, r'.advice)
  }

  ghost predicate SameRows(r: Run, r': Run) {
    r'.spec == r.spec && r'.candidates == r.candidates && r'.evaluations == r.evaluations && r'.receipts == r.receipts
  }

  /** What closing an attempt makes of the state, in so many transitions; credit is that of an eligible attempt. */
  ghost predicate Closes(spec: RunSpec, s: RunState, s': RunState, transitions: nat, credit: Option<Digest>) {
    var spent := s.stepsUsed + 1 >= spec.maxSteps || s.costUsd >= spec.maxCostUsd;
    var idle := if credit.Some? then 0 else s.consecutiveNoProgress + 1;
    && (spent ==> if credit.Some? then s'.status.Succeeded? else s'.status.BudgetExhausted?)
    && (!spent ==> if idle >= spec.noProgressLimit then s'.status.SupervisionRequired? else s'.status.Ready?)
    && s' == s.(status := s'.status, revision := s.revision + transitions, stepsUsed := s.stepsUsed + 1, consecutiveNoProgress := idle,
                bestCandidateHash := if credit.Some? then credit else s.bestCandidateHash)
  }

  /** A supervision that failed, or that is not to be had, ends the run by what it has found. */
  ghost predicate Settles(s: RunState, s': RunState, transitions: nat) {
    && (if s.bestCandidateHash.Some? then s'.status.Succeeded? else s'.status.NoResult?)
    && s' == s.(status := s'.status, revision := s.revision + transitions)
  }

  ghost predicate Compared(e: Evaluation) {
    e.eligible && OPERATIONS in e.scores
  }

  /** The evaluation at i is the last of those that are eligible and have a score. */
  ghost predicate LastCompared(es: seq<Evaluation>, i: int) {
    0 <= i < |es| && Compared(es[i]) && forall j :: i < j < |es| ==> !Compared(es[j])
  }

  /** x is the score of the latest eligible evaluation that has one, or else the table's baseline. */
  ghost predicate IsBaseline(table: ScoreTable, es: seq<Evaluation>, x: real) {
    || (x == table[BASELINE] && forall i :: 0 <= i < |es| ==> !Compared(es[i]))
    || exists i :: LastCompared(es, i) && x == es[i].scores[OPERATIONS]
  }

  /** c is the candidate of the next attempt of a run in state s, as its child proposed it. */
  ghost predicate Proposed(spec: RunSpec, s: RunState, c: Candidate, v: Variation, resultHash: Digest) {
    && c.runId == spec.runId && c.ordinal == s.stepsUsed + 1 && c.runSpecHash == SpecIdentity(spec)
    && c.parent == s.bestCandidateHash && c.childResultHash == resultHash && c.hypothesis == v.rationale
    && c.artifact == Sha256(EvidenceText(StrategyArtifact(v.strategy, v.rationale)))
  }

  /** e is the verdict on c: the table's score of its strategy against the baseline found among the evaluations before. */
  ghost predicate Weighed(table: ScoreTable, spec: RunSpec, es: seq<Evaluation>, c: Candidate, e: Evaluation, v: Variation)
    requires v.strategy in table
  {
    && e.candidateHash == Sha256(CandidateText(c)) && e.runSpecHash == c.runSpecHash && e.evaluatorId == spec.evaluatorId
    && e.evidenceHash == c.artifact && e.correctnessPassed
    && (forall k <- spec.scoreKeys :: k == OPERATIONS)
    && (spec.scoreKeys != [] ==>
          && OPERATIONS in e.scores && OPERATIONS in e.baselineScores
          && e.scores[OPERATIONS] == table[v.strategy] && IsBaseline(table, es, e.baselineScores[OPERATIONS])
          && (e.eligible <==>
                var x, y := e.scores[OPERATIONS], e.baselineScores[OPERATIONS];
                (if spec.comparison.Minimize? then x <= y else x >= y) && (Strict(spec) ==> x != y)))
  }

  /** One more attempt is recorded, judged, closed with its verdict, and remembered. */
  ghost predicate Attempted(table: ScoreTable, r: Run, r': Run, v: Variation, resultHash: Digest, succeeded: bool)
    requires v.strategy in table
  {
    && |r'.candidates| == |r.candidates| + 1 && |r'.evaluations| == |r.evaluations| + 1
    && r'.candidates[..|r.candidates|] == r.candidates && r'.evaluations[..|r.evaluations|] == r.evaluations
    && var c, e := r'.candidates[|r.candidates|], r'.evaluations[|r.evaluations|];
       var credit := if e.eligible then Some(Sha256(CandidateText(c))) else None;
    && Proposed(r.spec, r.state, c, v, resultHash) && Weighed(table, r.spec, r.evaluations, c, e, v)
    && Closes(r.spec, r.state, r'.state, 3, credit)
    && Logged(r.log, r'.log, [Said(StartStep, Change(None, 0.0)), Said(ChildResult, ChildReport(succeeded, resultHash)),
                              Said(CandidateReady, Change(None, 0.0)),
                              Said(if e.eligible then EvaluationEligible else EvaluationIneligible, Change(credit, 0.0))])
    && Remembers(r', r.memory, None, None)
  }

  /** An attempt without a candidate is closed without credit, and its error remembered. */
  ghost predicate Failed(r: Run, r': Run, said: seq<Said>, error: string) {
    SameRows(r, r') && Closes(r.spec, r.state, r'.state, 2, None) && Logged(r.log, r'.log, said) && Remembers(r', r.memory, Some(error), None)
  }

  ghost predicate Stepped(table: ScoreTable, r: Run, r': Run, child: Child) {
    && r.state.status.Ready? && r'.advice == r.advice && r'.receipts == r.receipts && r'.spec == r.spec
    && match child
       case LaunchError =>
         Failed(r, r', [Said(StartStep, Change(None, 0.0)), Said(ChildFailed, Change(None, 0.0)),
                        Said(ChildLaunchError, Classification("CHILD_LAUNCH_ERROR"))], "CHILD_LAUNCH_ERROR")
       case Report(succeeded, hasSummary, variation, _, resultHash) =>
         var said := [Said(StartStep, Change(None, 0.0)), Said(ChildResult, ChildReport(succeeded, resultHash)),
                      Said(ChildFailed, Change(None, 0.0))];
         if !succeeded || !hasSummary then Failed(r, r', said, "CHILD_FAILED")
         else if variation.None? then Failed(r, r', said, "INVALID_CHILD_PAYLOAD")
         else if variation.value.strategy !in table then Failed(r, r', said, "STRATEGY_NOT_ALLOWED")
         else Attempted(table, r, r', variation.value, resultHash, succeeded)
  }

  /** The memory a supervisor is started with: the one the run holds, or else one that tells of the run. */
  ghost predicate Informs(r: Run, m: Memory) {
    if r.memory.Some? then m == r.memory.value
    else Tells(m, r.spec, None, None, r.state, None, r.candidates, r.evaluations, r.advice)
  }

  /** The supervisor's advice is recorded as it was given, with the memory as evidence, and applied. */
  ghost predicate Advised(r: Run, r': Run, m: Memory, given: Supervision, resultHash: Digest) {
    && |r'.advice| == |r.advice| + 1 && r'.advice[..|r.advice|] == r.advice
    && var a := r'.advice[|r.advice|];
    && a.runId == r.spec.runId && a.runSpecHash == SpecIdentity(r.spec) && a.stagnationEvidenceHash == Sha256(MemoryText(m))
    && a.directions == given.directions && a.prohibitedRepeats == given.prohibited
    && r'.state == r.state.(status := Ready, revision := r.state.revision + 2, consecutiveNoProgress := 0)
    && Logged(r.log, r'.log, [Said(StartSupervisor, Change(None, 0.0)), Said(SupervisorApplied, Change(None, 0.0)),
                              Said(SupervisorResult, AdviceReport(true, resultHash, Sha256(AdviceText(a))))])
    && Remembers(r', Some(m), None, Some(Sha256(AdviceText(a))))
  }

  ghost predicate Abandoned(r: Run, r': Run, m: Memory, error: string) {
    && r'.advice == r.advice && Settles(r.state, r'.state, 2)
    && Logged(r.log, r'.log, [Said(StartSupervisor, Change(None, 0.0)), Said(SupervisorFailed, Change(None, 0.0)),
                              Said(SupervisorFailed, Classification(error))])
    && Remembers(r', Some(m), Some(error), None)
  }

  ghost predicate SupervisedWith(r: Run, r': Run, m: Memory, child: Child) {
    match child
    case LaunchError => Abandoned(r, r', m, "SUPERVISOR_LAUNCH_ERROR")
    case Report(succeeded, _, _, supervision, resultHash) =>
      if !succeeded || supervision.None? then Abandoned(r, r', m, "INVALID_SUPERVISOR_PAYLOAD")
      else Advised(r, r', m, supervision.value, resultHash)
  }

  ghost predicate Supervised(r: Run, r': Run, child: Child) {
    && r.state.status.SupervisionRequired? && SameRows(r, r')
    && if r.advice != [] then
         && r'.advice == r.advice && Settles(r.state, r'.state, 1) && Logged(r.log, r'.log, [Said(Complete, Change(None, 0.0))])
         && Remembers(r', r.memory, Some("SUPERVISOR_BUDGET_EXHAUSTED"), None)
       else exists m :: Informs(r, m) && SupervisedWith(r, r', m, child)
  }

  /** The last pair on record is applied as the verdict of the attempt in flight. */
  ghost predicate Replayed(r: Run, r': Run)
    requires r.candidates != [] && r.evaluations != []
  {
    var c, e := r.candidates[|r.candidates| - 1], r.evaluations[|r.evaluations| - 1];
    var credit := if e.eligible then Some(Sha256(CandidateText(c))) else None;
    var verdict := Said(if e.eligible then EvaluationEligible else EvaluationIneligible, Change(credit, 0.0));
    && Closes(r.spec, r.state, r'.state, if r.state.status.Running? then 2 else 1, credit)
    && Logged(r.log, r'.log, if r.state.status.Running? then [Said(CandidateReady, Change(None, 0.0)), verdict] else [verdict])
    && Remembers(r', r.memory, None, None)
  }

  /** The last advice on record is applied. */
  ghost predicate AdviceUsed(r: Run, r': Run)
    requires r.advice != []
  {
    && r'.state == r.state.(status := Ready, revision := r.state.revision + 1, consecutiveNoProgress := 0)
    && Logged(r.log, r'.log, [Said(SupervisorApplied, Change(None, 0.0))])
    && Remembers(r', r.memory, None, Some(Sha256(AdviceText(r.advice[|r.advice| - 1]))))
  }

  ghost predicate AdviceMissed(r: Run, r': Run) {
    && Settles(r.state, r'.state, 1)
    && Logged(r.log, r'.log, [Said(SupervisorFailed, Change(None, 0.0)), Said(SupervisorMissing, Classification("SUPERVISOR_MISSING"))])
    && Remembers(r', r.memory, Some("SUPERVISOR_MISSING"), None)
  }

  /** The attempt in flight is closed without credit. */
  ghost predicate AttemptMissed(r: Run, r': Run) {
    var running := r.state.status.Running?;
    var failure := if running then "INTERRUPTED" else "EVALUATION_MISSING";
    && Closes(r.spec, r.state, r'.state, 1, None)
    && Logged(r.log, r'.log, [Said(if running then Interrupt else EvaluationMissing, Change(None, 0.0)),
                              Said(if running then Interrupted else EvaluationMissing, Classification(failure))])
    && Remembers(r', r.memory, Some(failure), None)
  }

  ghost predicate Reconciled(r: Run, r': Run) {
    && SameRows(r, r') && r'.advice == r.advice
    && if r.state.status.Supervising? then if r.advice != [] then AdviceUsed(r, r') else AdviceMissed(r, r')
       else if !InFlight(r.state) then r' == r
       else if |r.evaluations| > Applied(r.log) then r.candidates != [] && Replayed(r, r')
       else AttemptMissed(r, r')
  }

  ghost predicate WasCancelled(r: Run, r': Run) {
    && !InFlight(r.state) && !r.state.IsTerminal() && SameRows(r, r') && r'.advice == r.advice
    && r'.state == r.state.(status := Cancelled, revision := r.state.revision + 1)
    && Logged(r.log, r'.log, [Said(Cancel, Change(None, 0.0))]) && Remembers(r', r.memory, Some("CANCELLED"), None)
  }

  // ----- operations that return normally -----

  /** The call at pc was accepted, and the operation goes on from there. */
  lemma GoesOn(table: ScoreTable, r: Run, pc: Pc, child: Child) returns (r': Run, pc': Pc)
    requires !pc.Done? && Returns(table, r, pc, child)
    ensures Try(r, OpOf(pc)) == Ok(r') && pc' == Continue(table, r', pc, child) && (Raising(pc) ==> !pc'.Done?)
    ensures OpOf(pc).Read? ==> r' == r
    ensures Returns(table, r', pc', child) && Finish(table, r', pc', child) == Finish(table, r, pc, child)
  {
    hide OpOf, Continue, Finish, Try;
    r' := Try(r, OpOf(pc)).value;
    pc' := Continue(table, r', pc, child);
    EndingStep(table, child, Config(r, pc));
    ReadKeeps(r);
  }

  lemma ReadKeeps(r: Run)
    ensures Try(r, Read) == Ok(r)
  {
  }

  /** The reads of a refresh lead to its save. */
  lemma RefreshLooked(table: ScoreTable, r: Run, task: Task, child: Child)
    requires Returns(table, r, MemRun(task), child)
    ensures Returns(table, r, MemSave(task, Fresh(r, task)), child)
    ensures Finish(table, r, MemSave(task, Fresh(r, task)), child) == Finish(table, r, MemRun(task), child)
  {
    hide OpOf, Continue, Returns, Finish, Fresh, Try;
    RefreshContinuations(table, child, r, task);
    RefreshCalls(r, task, Fresh(r, task));
    var _, _ := GoesOn(table, r, MemRun(task), child);
    var _, _ := GoesOn(table, r, MemPrevious(task, r.state), child);
    var _, _ := GoesOn(table, r, MemLineage(task, r.state, r.memory), child);
    var _, _ := GoesOn(table, r, MemAdvice(task, r.state, r.memory, r.candidates, r.evaluations), child);
  }

  lemma Saved(r: Run, m: Memory, expected: nat, r': Run)
    requires Try(r, Save(m, expected)) == Ok(r')
    ensures r' == r.(memory := Some(m))
  {
  }

  /** A refresh saves a record that tells of the run, and goes on to whatever waits for it. */
  lemma RefreshGoesOn(table: ScoreTable, r: Run, task: Task, child: Child) returns (r': Run)
    requires Returns(table, r, MemRun(task), child)
    ensures r' == r.(memory := r'.memory) && Remembers(r', r.memory, task.failure, task.advice)
    ensures var pc' := AfterSave(task, r'.memory.value);
            Returns(table, r', pc', child) && Finish(table, r', pc', child) == Finish(table, r, MemRun(task), child)
  {
    hide OpOf, Continue, Returns, Finish, NextMemory, Tells, Try, AfterSave;
    var m := Fresh(r, task);
    RefreshLooked(table, r, task, child);
    RefreshCalls(r, task, m);
    var saved, _ := GoesOn(table, r, MemSave(task, m), child);
    Saved(r, m, m.memoryRevision - 1, saved);
    SaveContinues(table, saved, task, m, child);
    NextMemoryTells(r.spec, task, r.state, r.memory, r.candidates, r.evaluations, r.advice);
    r' := saved;
  }

  lemma RefreshCalls(r: Run, task: Task, m: Memory)
    ensures OpOf(MemRun(task)).Read? && OpOf(MemPrevious(task, r.state)).Read? && OpOf(MemLineage(task, r.state, r.memory)).Read?
    ensures OpOf(MemAdvice(task, r.state, r.memory, r.candidates, r.evaluations)).Read?
    ensures Fresh(r, task).memoryRevision > 0
    ensures m.memoryRevision > 0 ==> OpOf(MemSave(task, m)) == Save(m, m.memoryRevision - 1)
  {
    hide CandidateHashes, EvaluationHashes, Hypotheses, LastFive, Failures;
  }

  lemma SaveContinues(table: ScoreTable, r: Run, task: Task, m: Memory, child: Child)
    ensures Continue(table, r, MemSave(task, m), child) == AfterSave(task, m)
  {
  }

  /** A refresh that ends its operation. */
  lemma RefreshEnds(table: ScoreTable, r: Run, failure: Option<string>, advice: Option<Digest>, child: Child)
    requires Returns(table, r, MemRun(Task(failure, advice, None)), child)
    ensures var r' := Finish(table, r, MemRun(Task(failure, advice, None)), child);
            r' == r.(memory := r'.memory) && Remembers(r', r.memory, failure, advice)
  {
    hide Returns, Finish, Remembers;
    var saved := RefreshGoesOn(table, r, Task(failure, advice, None), child);
    FinishedDone(table, child, saved);
  }

  // ----- step -----

  /** A transition that was accepted. */
  lemma Committed(r: Run, event: EventName, expected: nat, candidate: Option<Digest>, r': Run)
    requires Try(r, Commit(event, expected, candidate, 0.0)) == Ok(r')
    ensures expected == r.state.revision && ApplyTransition(r.state, event, r.spec, candidate, 0.0) == Ok(r'.state)
    ensures r' == r.(state := r'.state, log := r.log + [EntryOf(event, r'.state, Change(candidate, 0.0))])
  {
  }

  lemma LoggedAll(log: seq<Entry>, a: Entry, b: Entry, c: Entry, d: Entry)
    ensures Logged(log, log + [a], [Said(a.event, a.payload)])
    ensures Logged(log, log + [a] + [b], [Said(a.event, a.payload), Said(b.event, b.payload)])
    ensures Logged(log, log + [a] + [b] + [c], [Said(a.event, a.payload), Said(b.event, b.payload), Said(c.event, c.payload)])
    ensures Logged(log, log + [a] + [b] + [c] + [d],
                   [Said(a.event, a.payload), Said(b.event, b.payload), Said(c.event, c.payload), Said(d.event, d.payload)])
  {
  }

  lemma Noted(r: Run, event: EventName, payload: Payload, r': Run)
    requires Try(r, Note(event, payload)) == Ok(r')
    ensures r' == r.(log := r.log + [EntryOf(event, r.state, payload)])
  {
  }

  lemma StartCalls(table: ScoreTable, r: Run, st: RunState, child: Child)
    ensures OpOf(StepLoad).Read? && Continue(table, r, StepLoad, child) == StepStart(r.state)
    ensures OpOf(StepStart(st)) == Commit(StartStep, st.revision, None, 0.0)
    ensures Continue(table, r, StepStart(st), child) == StepLaunch(r.state)
    ensures OpOf(StepLaunch(st)).Read?
    ensures Continue(table, r, StepLaunch(st), child) == if child.LaunchError? then StepLaunchError(st) else StepNoteResult(st, child)
  {
  }

  /** A step that returns has had its start accepted, and its child launched. */
  lemma StepLaunched(table: ScoreTable, r: Run, child: Child) returns (r': Run)
    requires Returns(table, r, StepLoad, child)
    ensures ApplyTransition(r.state, StartStep, r.spec, None, 0.0) == Ok(r'.state)
    ensures r' == r.(state := r'.state, log := r.log + [EntryOf(StartStep, r'.state, Change(None, 0.0))])
    ensures var pc' := if child.LaunchError? then StepLaunchError(r'.state) else StepNoteResult(r'.state, child);
            Returns(table, r', pc', child) && Finish(table, r', pc', child) == Finish(table, r, StepLoad, child)
  {
    hide OpOf, Continue, Returns, Finish, ApplyTransition, Try;
    var r0, _ := GoesOn(table, r, StepLoad, child);
    StartCalls(table, r, r.state, child);
    var r1, _ := GoesOn(table, r, StepStart(r.state), child);
    Committed(r, StartStep, r.state.revision, None, r1);
    StartCalls(table, r1, r.state, child);
    StartCalls(table, r1, r1.state, child);
    var r2, _ := GoesOn(table, r1, StepLaunch(r1.state), child);
    r' := r1;
  }

  lemma FailureCloses(spec: RunSpec, s: RunState, s1: RunState, s2: RunState)
    requires ApplyTransition(s, StartStep, spec, None, 0.0) == Ok(s1) && ApplyTransition(s1, ChildFailed, spec, None, 0.0) == Ok(s2)
    ensures s.status.Ready? && Closes(spec, s, s2, 2, None)
  {
  }

  lemma LaunchErrorCalls(table: ScoreTable, r: Run, st: RunState, child: Child)
    ensures OpOf(StepLaunchError(st)) == Commit(ChildFailed, st.revision, None, 0.0)
    ensures Continue(table, r, StepLaunchError(st), child) == StepNoteLaunchError
    ensures OpOf(StepNoteLaunchError) == Note(ChildLaunchError, Classification("CHILD_LAUNCH_ERROR"))
    ensures Continue(table, r, StepNoteLaunchError, child) == MemRun(Task(Some("CHILD_LAUNCH_ERROR"), None, None))
  {
  }

  lemma LaunchErrorSteps(table: ScoreTable, r: Run)
    requires Returns(table, r, StepLoad, LaunchError)
    ensures Stepped(table, r, Finish(table, r, StepLoad, LaunchError), LaunchError)
  {
    hide OpOf, Continue, Returns, Finish, ApplyTransition, Closes, Remembers, Try, Logged;
    var child := LaunchError;
    var r1 := StepLaunched(table, r, child);
    LaunchErrorCalls(table, r1, r1.state, child);
    var r2, _ := GoesOn(table, r1, StepLaunchError(r1.state), child);
    Committed(r1, ChildFailed, r1.state.revision, None, r2);
    LaunchErrorCalls(table, r2, r1.state, child);
    var r3, _ := GoesOn(table, r2, StepNoteLaunchError, child);
    Noted(r2, ChildLaunchError, Classification("CHILD_LAUNCH_ERROR"), r3);
    LaunchErrorCalls(table, r3, r1.state, child);
    FailureCloses(r.spec, r.state, r1.state, r2.state);
    var started, failed := EntryOf(StartStep, r1.state, Change(None, 0.0)), EntryOf(ChildFailed, r2.state, Change(None, 0.0));
    var noted := EntryOf(ChildLaunchError, r2.state, Classification("CHILD_LAUNCH_ERROR"));
    LoggedAll(r.log, started, failed, noted, noted);
    RefreshEnds(table, r3, Some("CHILD_LAUNCH_ERROR"), None, child);
  }

  /** The error of a child that reported, if it made one. */
  function ReportError(table: ScoreTable, child: Child): Option<string>
    requires child.Report?
  {
    if !child.succeeded || !child.hasSummary then Some("CHILD_FAILED")
    else if child.variation.None? then Some("INVALID_CHILD_PAYLOAD")
    else if child.variation.value.strategy !in table then Some("STRATEGY_NOT_ALLOWED")
    else None
  }

  lemma ReportCalls(table: ScoreTable, r: Run, st: RunState, child: Child, error: string)
    requires child.Report?
    ensures OpOf(StepNoteResult(st, child)) == Note(ChildResult, ChildReport(child.succeeded, child.resultHash))
    ensures Continue(table, r, StepNoteResult(st, child), child) ==
            if ReportError(table, child).Some? then StepChildFailed(st, ReportError(table, child).value)
            else StepLineage(st, child.variation.value, child.resultHash)
    ensures OpOf(StepChildFailed(st, error)) == Commit(ChildFailed, st.revision, None, 0.0)
    ensures Continue(table, r, StepChildFailed(st, error), child) == MemRun(Task(Some(error), None, None))
  {
  }

  /** What a child reported is noted before it is judged. */
  lemma ReportNoted(table: ScoreTable, r: Run, child: Child) returns (r1: Run, r2: Run)
    requires child.Report? && Returns(table, r, StepLoad, child)
    ensures ApplyTransition(r.state, StartStep, r.spec, None, 0.0) == Ok(r1.state)
    ensures r1 == r.(state := r1.state, log := r.log + [EntryOf(StartStep, r1.state, Change(None, 0.0))])
    ensures r2 == r1.(log := r1.log + [EntryOf(ChildResult, r1.state, ChildReport(child.succeeded, child.resultHash))])
    ensures var pc' := if ReportError(table, child).Some? then StepChildFailed(r1.state, ReportError(table, child).value)
                       else StepLineage(r1.state, child.variation.value, child.resultHash);
            Returns(table, r2, pc', child) && Finish(table, r2, pc', child) == Finish(table, r, StepLoad, child)
  {
    hide OpOf, Continue, Returns, Finish, ApplyTransition, Try;
    r1 := StepLaunched(table, r, child);
    ReportCalls(table, r1, r1.state, child, "");
    var noted, _ := GoesOn(table, r1, StepNoteResult(r1.state, child), child);
    Noted(r1, ChildResult, ChildReport(child.succeeded, child.resultHash), noted);
    ReportCalls(table, noted, r1.state, child, "");
    r2 := noted;
  }

  lemma FailedReportSteps(table: ScoreTable, r: Run, child: Child)
    requires child.Report? && ReportError(table, child).Some? && Returns(table, r, StepLoad, child)
    ensures Stepped(table, r, Finish(table, r, StepLoad, child), child)
  {
    hide OpOf, Continue, Returns, Finish, ApplyTransition, Closes, Remembers, Logged, Try;
    var error := ReportError(table, child).value;
    var r1, r2 := ReportNoted(table, r, child);
    ReportCalls(table, r2, r1.state, child, error);
    var r3, _ := GoesOn(table, r2, StepChildFailed(r1.state, error), child);
    Committed(r2, ChildFailed, r1.state.revision, None, r3);
    ReportCalls(table, r3, r1.state, child, error);
    FailureCloses(r.spec, r.state, r1.state, r3.state);
    LoggedAll(r.log, EntryOf(StartStep, r1.state, Change(None, 0.0)),
              EntryOf(ChildResult, r1.state, ChildReport(child.succeeded, child.resultHash)),
              EntryOf(ChildFailed, r3.state, Change(None, 0.0)), EntryOf(ChildFailed, r3.state, Change(None, 0.0)));
    RefreshEnds(table, r3, Some(error), None, child);
  }

  lemma {:induction false} BaselineFound(table: ScoreTable, es: seq<Evaluation>)
    ensures IsBaseline(table, es, BaselineScore(table, es))
  {
    if es != [] {
      var n := |es| - 1;
      if Compared(es[n]) {
        assert LastCompared(es, n);
      } else {
        BaselineFound(table, es[..n]);
        BaselineOfMore(table, es[..n], es[n], BaselineScore(table, es[..n]));
        assert es == es[..n] + [es[n]];
      }
    }
  }

  lemma BaselineOfMore(table: ScoreTable, es: seq<Evaluation>, e: Evaluation, x: real)
    requires IsBaseline(table, es, x) && !Compared(e)
    ensures IsBaseline(table, es + [e], x)
  {
    var es' := es + [e];
    if i :| LastCompared(es, i) && x == es[i].scores[OPERATIONS] {
      assert LastCompared(es', i);
    }
  }

  /** What a step records of its child's variation. */
  lemma CandidateWeighed(table: ScoreTable, spec: RunSpec, st: RunState, es: seq<Evaluation>, v: Variation, resultHash: Digest)
    requires v.strategy in table
    requires Evaluator.Evaluate(spec, NewCandidate(spec, st, v, resultHash), map[OPERATIONS := BaselineScore(table, es)],
                                NewOutcome(v, table[v.strategy])).Ok?
    ensures var c := NewCandidate(spec, st, v, resultHash);
            var e := Evaluator.Evaluate(spec, c, map[OPERATIONS := BaselineScore(table, es)], NewOutcome(v, table[v.strategy])).value;
            Proposed(spec, st, c, v, resultHash) && Weighed(table, spec, es, c, e, v)
  {
    hide Evaluator.Evaluate, BaselineScore, IsBaseline, SpecIdentity, Strict;
    var c, baseline, o := NewCandidate(spec, st, v, resultHash), map[OPERATIONS := BaselineScore(table, es)], NewOutcome(v, table[v.strategy]);
    var e := Evaluator.Evaluate(spec, c, baseline, o).value;
    BaselineFound(table, es);
    Evaluator.EvaluateDecides(spec, c, baseline, o);
    Evaluator.EvaluateRecords(spec, c, baseline, o);
    assert forall k <- spec.scoreKeys :: k == OPERATIONS;
    if spec.scoreKeys != [] {
      assert spec.scoreKeys[0] in spec.scoreKeys;
      assert OPERATIONS in spec.scoreKeys;
    }
  }

  lemma LineageCalls(table: ScoreTable, r: Run, st: RunState, v: Variation, resultHash: Digest, child: Child)
    requires v.strategy in table && !Continue(table, r, StepLineage(st, v, resultHash), child).Done?
    ensures OpOf(StepLineage(st, v, resultHash)).Read?
    ensures var c := NewCandidate(r.spec, st, v, resultHash);
            var e := Evaluator.Evaluate(r.spec, c, map[OPERATIONS := BaselineScore(table, r.evaluations)], NewOutcome(v, table[v.strategy]));
            e.Ok? && Continue(table, r, StepLineage(st, v, resultHash), child) == StepRecord(st, c, e.value)
  {
    hide NewCandidate, NewOutcome, Evaluator.Evaluate, BaselineScore;
  }

  lemma VerdictCalls(table: ScoreTable, r: Run, st: RunState, c: Candidate, e: Evaluation, child: Child)
    ensures OpOf(StepRecord(st, c, e)) == Attempt(c, e) && Continue(table, r, StepRecord(st, c, e), child) == StepReady(st, c, e)
    ensures OpOf(StepReady(st, c, e)) == Commit(CandidateReady, st.revision, None, 0.0)
    ensures Continue(table, r, StepReady(st, c, e), child) == StepApply(r.state, c, e)
    ensures OpOf(StepApply(st, c, e)) ==
            Commit(if e.eligible then EvaluationEligible else EvaluationIneligible, st.revision,
                   if e.eligible then Some(Sha256(CandidateText(c))) else None, 0.0)
    ensures Continue(table, r, StepApply(st, c, e), child) == MemRun(Task(None, None, None))
  {
  }

  lemma AttemptRecorded(r: Run, c: Candidate, e: Evaluation, r': Run)
    requires Try(r, Attempt(c, e)) == Ok(r')
    ensures r' == r.(candidates := r.candidates + [c], evaluations := r.evaluations + [e])
  {
  }

  lemma VerdictCloses(spec: RunSpec, s: RunState, s1: RunState, s2: RunState, s3: RunState, eligible: bool, credit: Option<Digest>)
    requires ApplyTransition(s, StartStep, spec, None, 0.0) == Ok(s1) && ApplyTransition(s1, CandidateReady, spec, None, 0.0) == Ok(s2)
    requires ApplyTransition(s2, if eligible then EvaluationEligible else EvaluationIneligible, spec, credit, 0.0) == Ok(s3)
    requires !eligible ==> credit == None
    ensures s.status.Ready? && Closes(spec, s, s3, 3, credit)
    ensures s1 == s.(status := Running, revision := s.revision + 1)
  {
  }

  /** A recorded candidate is announced. */
  lemma ReadyCommitted(table: ScoreTable, r: Run, st: RunState, c: Candidate, e: Evaluation, child: Child) returns (r': Run)
    requires Returns(table, r, StepReady(st, c, e), child)
    ensures ApplyTransition(r.state, CandidateReady, r.spec, None, 0.0) == Ok(r'.state)
    ensures r' == r.(state := r'.state, log := r.log + [EntryOf(CandidateReady, r'.state, Change(None, 0.0))])
    ensures Returns(table, r', StepApply(r'.state, c, e), child)
    ensures Finish(table, r', StepApply(r'.state, c, e), child) == Finish(table, r, StepReady(st, c, e), child)
  {
    hide OpOf, Continue, Returns, Finish, ApplyTransition, Try;
    VerdictCalls(table, r, st, c, e, child);
    var next, _ := GoesOn(table, r, StepReady(st, c, e), child);
    Committed(r, CandidateReady, st.revision, None, next);
    VerdictCalls(table, next, st, c, e, child);
    r' := next;
  }

  lemma VerdictCommitted(table: ScoreTable, r: Run, st: RunState, c: Candidate, e: Evaluation, child: Child) returns (r': Run)
    requires Returns(table, r, StepApply(st, c, e), child)
    ensures var credit := if e.eligible then Some(Sha256(CandidateText(c))) else None;
            var event := if e.eligible then EvaluationEligible else EvaluationIneligible;
            && ApplyTransition(r.state, event, r.spec, credit, 0.0) == Ok(r'.state)
            && r' == r.(state := r'.state, log := r.log + [EntryOf(event, r'.state, Change(credit, 0.0))])
    ensures Returns(table, r', MemRun(Task(None, None, None)), child)
    ensures Finish(table, r', MemRun(Task(None, None, None)), child) == Finish(table, r, StepApply(st, c, e), child)
  {
    hide OpOf, Continue, Returns, Finish, ApplyTransition, Try;
    VerdictCalls(table, r, st, c, e, child);
    var next, _ := GoesOn(table, r, StepApply(st, c, e), child);
    var credit := if e.eligible then Some(Sha256(CandidateText(c))) else None;
    Committed(r, if e.eligible then EvaluationEligible else EvaluationIneligible, st.revision, credit, next);
    VerdictCalls(table, next, st, c, e, child);
    r' := next;
  }

  /** From its record on, a step commits the verdict and ends. */
  lemma VerdictApplied(table: ScoreTable, r: Run, st: RunState, c: Candidate, e: Evaluation, child: Child) returns (s: RunState, r': Run)
    requires Returns(table, r, StepRecord(st, c, e), child)
    ensures r'.spec == r.spec && r'.advice == r.advice && r'.receipts == r.receipts && r'.memory == r.memory
    ensures r'.candidates == r.candidates + [c] && r'.evaluations == r.evaluations + [e]
    ensures var credit := if e.eligible then Some(Sha256(CandidateText(c))) else None;
            var event := if e.eligible then EvaluationEligible else EvaluationIneligible;
            && ApplyTransition(r.state, CandidateReady, r.spec, None, 0.0) == Ok(s)
            && ApplyTransition(s, event, r.spec, credit, 0.0) == Ok(r'.state)
            && r'.log == r.log + [EntryOf(CandidateReady, s, Change(None, 0.0))] + [EntryOf(event, r'.state, Change(credit, 0.0))]
    ensures Returns(table, r', MemRun(Task(None, None, None)), child)
    ensures Finish(table, r', MemRun(Task(None, None, None)), child) == Finish(table, r, StepRecord(st, c, e), child)
  {
    hide OpOf, Continue, Returns, Finish, ApplyTransition, Try;
    VerdictCalls(table, r, st, c, e, child);
    var r1, _ := GoesOn(table, r, StepRecord(st, c, e), child);
    AttemptRecorded(r, c, e, r1);
    VerdictCalls(table, r1, st, c, e, child);
    var r2 := ReadyCommitted(table, r1, st, c, e, child);
    var r3 := VerdictCommitted(table, r2, r2.state, c, e, child);
    s, r' := r2.state, r3;
  }

  /** Up to its record, a step has noted its child's report and judged the variation. */
  lemma VariationJudged(table: ScoreTable, r: Run, child: Child) returns (r1: Run, r2: Run, c: Candidate, e: Evaluation)
    requires child.Report? && ReportError(table, child).None? && Returns(table, r, StepLoad, child)
    ensures ApplyTransition(r.state, StartStep, r.spec, None, 0.0) == Ok(r1.state)
    ensures r1 == r.(state := r1.state, log := r.log + [EntryOf(StartStep, r1.state, Change(None, 0.0))])
    ensures r2 == r1.(log := r1.log + [EntryOf(ChildResult, r1.state, ChildReport(child.succeeded, child.resultHash))])
    ensures Proposed(r.spec, r1.state, c, child.variation.value, child.resultHash)
    ensures Weighed(table, r.spec, r.evaluations, c, e, child.variation.value)
    ensures Returns(table, r2, StepRecord(r1.state, c, e), child)
    ensures Finish(table, r2, StepRecord(r1.state, c, e), child) == Finish(table, r, StepLoad, child)
  {
    hide OpOf, Continue, Returns, Finish, ApplyTransition, Proposed, Weighed, NewCandidate, NewOutcome, BaselineScore, Evaluator.Evaluate;
    var v, h := child.variation.value, child.resultHash;
    r1, r2 := ReportNoted(table, r, child);
    var read, next := GoesOn(table, r2, StepLineage(r1.state, v, h), child);
    LineageCalls(table, read, r1.state, v, h, child);
    c, e := next.c, next.e;
    CandidateWeighed(table, r.spec, r1.state, r.evaluations, v, h);
  }

  lemma VariationSteps(table: ScoreTable, r: Run, child: Child)
    requires child.Report? && ReportError(table, child).None? && Returns(table, r, StepLoad, child)
    ensures Stepped(table, r, Finish(table, r, StepLoad, child), child)
  {
    hide OpOf, Continue, Returns, Finish, ApplyTransition, Closes, Remembers, Logged, Proposed, Weighed;
    var r1, r2, c, e := VariationJudged(table, r, child);
    var s, r4 := VerdictApplied(table, r2, r1.state, c, e, child);
    var credit := if e.eligible then Some(Sha256(CandidateText(c))) else None;
    VerdictCloses(r.spec, r.state, r1.state, s, r4.state, e.eligible, credit);
    ProposedFor(r.spec, r.state, r1.state, c, child.variation.value, child.resultHash);
    LoggedAll(r.log, EntryOf(StartStep, r1.state, Change(None, 0.0)),
              EntryOf(ChildResult, r1.state, ChildReport(child.succeeded, child.resultHash)),
              EntryOf(CandidateReady, s, Change(None, 0.0)),
              EntryOf(if e.eligible then EvaluationEligible else EvaluationIneligible, r4.state, Change(credit, 0.0)));
    RefreshEnds(table, r4, None, None, child);
  }

  lemma ProposedFor(spec: RunSpec, s: RunState, s': RunState, c: Candidate, v: Variation, resultHash: Digest)
    requires Proposed(spec, s', c, v, resultHash) && s'.stepsUsed == s.stepsUsed && s'.bestCandidateHash == s.bestCandidateHash
    ensures Proposed(spec, s, c, v, resultHash)
  {
  }

  /**
   * A step that returns normally found its run ready. It closed one attempt: without a candidate if the child
   * failed, and else with one candidate that is the child's proposal, one evaluation that weighs it against the
   * best score so far, and the verdict; and it left the run as budgets and verdict demand.
   */
  lemma StepTells(table: ScoreTable, r: Run, child: Child)
    requires Returns(table, r, StepLoad, child)
    ensures Stepped(table, r, Finish(table, r, StepLoad, child), child)
  {
    hide Returns, Finish, Stepped;
    if child.LaunchError? {
      LaunchErrorSteps(table, r);
    } else if ReportError(table, child).Some? {
      FailedReportSteps(table, r, child);
    } else {
      VariationSteps(table, r, child);
    }
  }

  // ----- supervise -----

  lemma AdviceCalls(table: ScoreTable, r: Run, st: RunState, child: Child)
    ensures OpOf(SupLoad).Read? && OpOf(SupAdvice(st)).Read? && OpOf(SupMemory(st)).Read?
    ensures Continue(table, r, SupLoad, child) == if r.state.status.SupervisionRequired? then SupAdvice(r.state) else Done
    ensures Continue(table, r, SupAdvice(st), child) == if r.advice != [] then SupComplete(st) else SupMemory(st)
    ensures Continue(table, r, SupMemory(st), child) ==
            if r.memory.Some? then SupStart(st, r.memory.value) else MemRun(Task(None, None, Some(st)))
  {
  }

  lemma CompleteCalls(table: ScoreTable, r: Run, st: RunState, child: Child)
    ensures OpOf(SupComplete(st)) == Commit(Complete, st.revision, None, 0.0)
    ensures Continue(table, r, SupComplete(st), child) == MemRun(Task(Some("SUPERVISOR_BUDGET_EXHAUSTED"), None, None))
  {
  }

  /** Complete, and a failed supervision, settle the run. */
  lemma EndSettles(spec: RunSpec, s: RunState, event: EventName, s': RunState)
    requires (event.Complete? || event.SupervisorFailed?) && ApplyTransition(s, event, spec, None, 0.0) == Ok(s')
    ensures Settles(s, s', 1)
  {
  }

  /** Where a supervise goes that looked for advice. */
  lemma AdviceLooked(table: ScoreTable, r: Run, child: Child)
    requires Returns(table, r, SupLoad, child)
    ensures r.state.status.SupervisionRequired?
    ensures var pc' := if r.advice != [] then SupComplete(r.state) else SupMemory(r.state);
            Returns(table, r, pc', child) && Finish(table, r, pc', child) == Finish(table, r, SupLoad, child)
  {
    hide OpOf, Continue, Returns, Finish;
    AdviceCalls(table, r, r.state, child);
    var _, _ := GoesOn(table, r, SupLoad, child);
    var _, _ := GoesOn(table, r, SupAdvice(r.state), child);
  }

  lemma SupervisionCompletes(table: ScoreTable, r: Run, child: Child)
    requires r.advice != [] && Returns(table, r, SupLoad, child)
    ensures Supervised(r, Finish(table, r, SupLoad, child), child)
  {
    hide OpOf, Continue, Returns, Finish, ApplyTransition, Settles, Remembers, Logged, Try;
    AdviceLooked(table, r, child);
    CompleteCalls(table, r, r.state, child);
    var r1, _ := GoesOn(table, r, SupComplete(r.state), child);
    Committed(r, Complete, r.state.revision, None, r1);
    CompleteCalls(table, r1, r.state, child);
    EndSettles(r.spec, r.state, Complete, r1.state);
    var entry := EntryOf(Complete, r1.state, Change(None, 0.0));
    LoggedAll(r.log, entry, entry, entry, entry);
    RefreshEnds(table, r1, Some("SUPERVISOR_BUDGET_EXHAUSTED"), None, child);
  }

  /** The memory of a supervise without advice, which is saved first if there is none. */
  lemma SupervisorInformed(table: ScoreTable, r: Run, child: Child) returns (m: Memory)
    requires r.advice == [] && Returns(table, r, SupLoad, child)
    ensures r.state.status.SupervisionRequired? && Informs(r, m)
    ensures var r0 := r.(memory := Some(m));
            && Returns(table, r0, SupStart(r.state, m), child)
            && Finish(table, r0, SupStart(r.state, m), child) == Finish(table, r, SupLoad, child)
  {
    hide OpOf, Continue, Returns, Finish, Tells;
    AdviceLooked(table, r, child);
    AdviceCalls(table, r, r.state, child);
    var _, _ := GoesOn(table, r, SupMemory(r.state), child);
    if r.memory.Some? {
      m := r.memory.value;
      assert r == r.(memory := Some(m));
    } else {
      var r0 := RefreshGoesOn(table, r, Task(None, None, Some(r.state)), child);
      m := r0.memory.value;
    }
  }

  lemma SupervisorCalls(table: ScoreTable, r: Run, st: RunState, m: Memory, child: Child)
    ensures OpOf(SupStart(st, m)) == Commit(StartSupervisor, st.revision, None, 0.0)
    ensures Continue(table, r, SupStart(st, m), child) == SupLaunch(r.state, m)
    ensures OpOf(SupLaunch(st, m)).Read?
    ensures Continue(table, r, SupLaunch(st, m), child) == AfterSupervisor(r.spec, st, m, child)
  {
  }

  lemma SupervisorLaunched(table: ScoreTable, r: Run, st: RunState, m: Memory, child: Child) returns (r': Run)
    requires Returns(table, r, SupStart(st, m), child)
    ensures ApplyTransition(r.state, StartSupervisor, r.spec, None, 0.0) == Ok(r'.state)
    ensures r' == r.(state := r'.state, log := r.log + [EntryOf(StartSupervisor, r'.state, Change(None, 0.0))])
    ensures var pc' := AfterSupervisor(r.spec, r'.state, m, child);
            Returns(table, r', pc', child) && Finish(table, r', pc', child) == Finish(table, r, SupStart(st, m), child)
  {
    hide OpOf, Continue, Returns, Finish, ApplyTransition, AfterSupervisor, Try;
    SupervisorCalls(table, r, st, m, child);
    var r1, _ := GoesOn(table, r, SupStart(st, m), child);
    Committed(r, StartSupervisor, st.revision, None, r1);
    SupervisorCalls(table, r1, st, m, child);
    SupervisorCalls(table, r1, r1.state, m, child);
    var _, _ := GoesOn(table, r1, SupLaunch(r1.state, m), child);
    r' := r1;
  }

  lemma SupervisorFailureCalls(table: ScoreTable, r: Run, st: RunState, error: string, child: Child)
    ensures OpOf(SupFail(st, error)) == Commit(SupervisorFailed, st.revision, None, 0.0)
    ensures Continue(table, r, SupFail(st, error), child) == SupNoteFail(error)
    ensures OpOf(SupNoteFail(error)) == Note(SupervisorFailed, Classification(error))
    ensures Continue(table, r, SupNoteFail(error), child) == MemRun(Task(Some(error), None, None))
  {
  }

  lemma SupervisionSettles(spec: RunSpec, s: RunState, s1: RunState, s2: RunState)
    requires ApplyTransition(s, StartSupervisor, spec, None, 0.0) == Ok(s1)
    requires ApplyTransition(s1, SupervisorFailed, spec, None, 0.0) == Ok(s2)
    ensures Settles(s, s2, 2)
  {
  }

  lemma SupervisionAbandoned(table: ScoreTable, r: Run, m: Memory, error: string, child: Child)
    requires r.memory == Some(m) && Returns(table, r, SupStart(r.state, m), child)
    requires forall st :: AfterSupervisor(r.spec, st, m, child) == SupFail(st, error)
    ensures var r' := Finish(table, r, SupStart(r.state, m), child); SameRows(r, r') && Abandoned(r, r', m, error)
  {
    hide OpOf, Continue, Returns, Finish, ApplyTransition, AfterSupervisor, Settles, Remembers, Try, Logged;
    var r1 := SupervisorLaunched(table, r, r.state, m, child);
    assert AfterSupervisor(r.spec, r1.state, m, child) == SupFail(r1.state, error);
    SupervisorFailureCalls(table, r1, r1.state, error, child);
    var r2, _ := GoesOn(table, r1, SupFail(r1.state, error), child);
    Committed(r1, SupervisorFailed, r1.state.revision, None, r2);
    SupervisorFailureCalls(table, r2, r1.state, error, child);
    var r3, _ := GoesOn(table, r2, SupNoteFail(error), child);
    Noted(r2, SupervisorFailed, Classification(error), r3);
    SupervisorFailureCalls(table, r3, r1.state, error, child);
    SupervisionSettles(r.spec, r.state, r1.state, r2.state);
    var started, failed, noted := EntryOf(StartSupervisor, r1.state, Change(None, 0.0)), EntryOf(SupervisorFailed, r2.state, Change(None, 0.0)), EntryOf(SupervisorFailed, r2.state, Classification(error));
    LoggedAll(r.log, started, failed, noted, noted);
    RefreshEnds(table, r3, Some(error), None, child);
  }

  lemma AdvisorCalls(table: ScoreTable, r: Run, st: RunState, a: Advice, resultHash: Digest, child: Child)
    ensures OpOf(SupRecord(st, a, resultHash)) == Advise(a)
    ensures Continue(table, r, SupRecord(st, a, resultHash), child) == SupApply(st, a, resultHash)
    ensures OpOf(SupApply(st, a, resultHash)) == Commit(SupervisorApplied, st.revision, None, 0.0)
    ensures Continue(table, r, SupApply(st, a, resultHash), child) == SupNoteResult(a, resultHash)
    ensures OpOf(SupNoteResult(a, resultHash)) == Note(SupervisorResult, AdviceReport(true, resultHash, Sha256(AdviceText(a))))
    ensures Continue(table, r, SupNoteResult(a, resultHash), child) == MemRun(Task(None, Some(Sha256(AdviceText(a))), None))
  {
  }

  lemma AdviceRecorded(r: Run, a: Advice, r': Run)
    requires Try(r, Advise(a)) == Ok(r')
    ensures r' == r.(advice := r.advice + [a])
  {
  }

  lemma AdviceRevives(spec: RunSpec, s: RunState, s1: RunState, s2: RunState)
    requires ApplyTransition(s, StartSupervisor, spec, None, 0.0) == Ok(s1)
    requires ApplyTransition(s1, SupervisorApplied, spec, None, 0.0) == Ok(s2)
    ensures s2 == s.(status := Ready, revision := s.revision + 2, consecutiveNoProgress := 0)
  {
  }

  lemma SupervisionAdvised(table: ScoreTable, r: Run, m: Memory, child: Child)
    requires child.Report? && child.succeeded && child.supervision.Some?
    requires r.memory == Some(m) && Returns(table, r, SupStart(r.state, m), child)
    ensures var r' := Finish(table, r, SupStart(r.state, m), child);
            SameRows(r, r') && Advised(r, r', m, child.supervision.value, child.resultHash)
  {
    hide OpOf, Continue, Returns, Finish, ApplyTransition, Remembers, Try, Logged;
    var a, h := NewAdvice(r.spec, m, child.supervision.value), child.resultHash;
    var r1 := SupervisorLaunched(table, r, r.state, m, child);
    AdvisorCalls(table, r1, r1.state, a, h, child);
    var r2, _ := GoesOn(table, r1, SupRecord(r1.state, a, h), child);
    AdviceRecorded(r1, a, r2);
    AdvisorCalls(table, r2, r1.state, a, h, child);
    var r3, _ := GoesOn(table, r2, SupApply(r1.state, a, h), child);
    Committed(r2, SupervisorApplied, r1.state.revision, None, r3);
    AdvisorCalls(table, r3, r1.state, a, h, child);
    var r4, _ := GoesOn(table, r3, SupNoteResult(a, h), child);
    Noted(r3, SupervisorResult, AdviceReport(true, h, Sha256(AdviceText(a))), r4);
    AdvisorCalls(table, r4, r1.state, a, h, child);
    AdviceRevives(r.spec, r.state, r1.state, r3.state);
    var started, applied := EntryOf(StartSupervisor, r1.state, Change(None, 0.0)), EntryOf(SupervisorApplied, r3.state, Change(None, 0.0));
    var noted := EntryOf(SupervisorResult, r3.state, AdviceReport(true, h, Sha256(AdviceText(a))));
    LoggedAll(r.log, started, applied, noted, noted);
    RefreshEnds(table, r4, None, Some(Sha256(AdviceText(a))), child);
  }

  /**
   * A supervise that returns normally found its run in need of supervision. With advice on record it settled the
   * run. Otherwise it started the one supervisor with the memory of the run: if the child gave advice, that advice
   * is the one row added, field by field, and the run is ready again; if not, the run is settled.
   */
  lemma SuperviseTells(table: ScoreTable, r: Run, child: Child)
    requires Returns(table, r, SupLoad, child)
    ensures Supervised(r, Finish(table, r, SupLoad, child), child)
  {
    hide Returns, Finish, Informs, Advised, Abandoned;
    if r.advice != [] {
      SupervisionCompletes(table, r, child);
    } else {
      var m := SupervisorInformed(table, r, child);
      var r0, r' := r.(memory := Some(m)), Finish(table, r, SupLoad, child);
      if child.LaunchError? {
        SupervisionAbandoned(table, r0, m, "SUPERVISOR_LAUNCH_ERROR", child);
      } else if !child.succeeded || child.supervision.None? {
        SupervisionAbandoned(table, r0, m, "INVALID_SUPERVISOR_PAYLOAD", child);
      } else {
        SupervisionAdvised(table, r0, m, child);
      }
      OnlyMemoryDiffers(r, m, r', child);
    }
  }

  lemma OnlyMemoryDiffers(r: Run, m: Memory, r': Run, child: Child)
    requires SameRows(r.(memory := Some(m)), r') && SupervisedWith(r.(memory := Some(m)), r', m, child)
    ensures SameRows(r, r') && SupervisedWith(r, r', m, child)
  {
    hide Remembers;
  }

  // ----- reconcile and cancel -----

  lemma RecoveryCalls(table: ScoreTable, r: Run, st: RunState, child: Child)
    ensures OpOf(RecLoad).Read? && OpOf(RecLineage(st)).Read?
    ensures Continue(table, r, RecLoad, child) == AfterRecLoad(r.state)
    ensures Continue(table, r, RecLineage(st), child) == RecEvents(st, r.candidates, r.evaluations)
  {
  }

  lemma RecoveryAdviceCalls(table: ScoreTable, r: Run, st: RunState, child: Child)
    ensures OpOf(RecAdvice(st)).Read?
    ensures Continue(table, r, RecAdvice(st), child) == if r.advice != [] then RecReplayAdvice(st, r.advice[|r.advice| - 1]) else RecFailSup(st)
  {
  }

  /** What a reconcile of a supervision finds. */
  lemma AdviceFound(table: ScoreTable, r: Run, child: Child) returns (pc': Pc)
    requires r.state.status.Supervising? && Returns(table, r, RecLoad, child)
    ensures pc' == if r.advice != [] then RecReplayAdvice(r.state, r.advice[|r.advice| - 1]) else RecFailSup(r.state)
    ensures Returns(table, r, pc', child) && Finish(table, r, pc', child) == Finish(table, r, RecLoad, child)
  {
    hide OpOf, Continue, Returns, Finish;
    RecoveryCalls(table, r, r.state, child);
    RecoveryAdviceCalls(table, r, r.state, child);
    var _, _ := GoesOn(table, r, RecLoad, child);
    var _, next := GoesOn(table, r, RecAdvice(r.state), child);
    pc' := next;
  }

  lemma ReplayAdviceCalls(table: ScoreTable, r: Run, st: RunState, a: Advice, child: Child)
    ensures OpOf(RecReplayAdvice(st, a)) == Commit(SupervisorApplied, st.revision, None, 0.0)
    ensures Continue(table, r, RecReplayAdvice(st, a), child) == MemRun(Task(None, Some(Sha256(AdviceText(a))), None))
  {
  }

  lemma AdviceApplies(spec: RunSpec, s: RunState, s': RunState)
    requires ApplyTransition(s, SupervisorApplied, spec, None, 0.0) == Ok(s')
    ensures s' == s.(status := Ready, revision := s.revision + 1, consecutiveNoProgress := 0)
  {
  }

  lemma AdviceReplays(table: ScoreTable, r: Run, child: Child)
    requires r.state.status.Supervising? && r.advice != [] && Returns(table, r, RecLoad, child)
    ensures var r' := Finish(table, r, RecLoad, child); SameRows(r, r') && r'.advice == r.advice && AdviceUsed(r, r')
  {
    hide OpOf, Continue, Returns, Finish, ApplyTransition, Remembers, Logged, Try;
    var a := r.advice[|r.advice| - 1];
    var _ := AdviceFound(table, r, child);
    ReplayAdviceCalls(table, r, r.state, a, child);
    var r1, _ := GoesOn(table, r, RecReplayAdvice(r.state, a), child);
    Committed(r, SupervisorApplied, r.state.revision, None, r1);
    ReplayAdviceCalls(table, r1, r.state, a, child);
    AdviceApplies(r.spec, r.state, r1.state);
    var entry := EntryOf(SupervisorApplied, r1.state, Change(None, 0.0));
    LoggedAll(r.log, entry, entry, entry, entry);
    RefreshEnds(table, r1, None, Some(Sha256(AdviceText(a))), child);
  }

  lemma MissingAdviceCalls(table: ScoreTable, r: Run, st: RunState, child: Child)
    ensures OpOf(RecFailSup(st)) == Commit(SupervisorFailed, st.revision, None, 0.0)
    ensures Continue(table, r, RecFailSup(st), child) == RecNoteMissingSup
    ensures OpOf(RecNoteMissingSup) == Note(SupervisorMissing, Classification("SUPERVISOR_MISSING"))
    ensures Continue(table, r, RecNoteMissingSup, child) == MemRun(Task(Some("SUPERVISOR_MISSING"), None, None))
  {
  }

  lemma AdviceMisses(table: ScoreTable, r: Run, child: Child)
    requires r.state.status.Supervising? && r.advice == [] && Returns(table, r, RecLoad, child)
    ensures var r' := Finish(table, r, RecLoad, child); SameRows(r, r') && r'.advice == r.advice && AdviceMissed(r, r')
  {
    hide OpOf, Continue, Returns, Finish, ApplyTransition, Settles, Remembers, Logged, Try;
    var _ := AdviceFound(table, r, child);
    MissingAdviceCalls(table, r, r.state, child);
    var r1, _ := GoesOn(table, r, RecFailSup(r.state), child);
    Committed(r, SupervisorFailed, r.state.revision, None, r1);
    MissingAdviceCalls(table, r1, r.state, child);
    var r2, _ := GoesOn(table, r1, RecNoteMissingSup, child);
    Noted(r1, SupervisorMissing, Classification("SUPERVISOR_MISSING"), r2);
    MissingAdviceCalls(table, r2, r.state, child);
    EndSettles(r.spec, r.state, SupervisorFailed, r1.state);
    var failed, noted := EntryOf(SupervisorFailed, r1.state, Change(None, 0.0)), EntryOf(SupervisorMissing, r1.state, Classification("SUPERVISOR_MISSING"));
    LoggedAll(r.log, failed, noted, noted, noted);
    RefreshEnds(table, r2, Some("SUPERVISOR_MISSING"), None, child);
  }

  lemma EvidenceCalls(table: ScoreTable, r: Run, st: RunState, child: Child)
    ensures OpOf(RecEvents(st, r.candidates, r.evaluations)).Read?
    ensures Continue(table, r, RecEvents(st, r.candidates, r.evaluations), child) ==
            if |r.evaluations| <= Applied(r.log) then RecMiss(st)
            else if r.candidates == [] then Done
            else Replaying(st, r.candidates[|r.candidates| - 1], r.evaluations[|r.evaluations| - 1])
  {
    hide Applied;
  }

  /** What a reconcile of an attempt in flight finds. */
  lemma EvidenceFound(table: ScoreTable, r: Run, child: Child) returns (pc': Pc)
    requires InFlight(r.state) && Returns(table, r, RecLoad, child)
    ensures if |r.evaluations| <= Applied(r.log) then pc' == RecMiss(r.state)
            else r.candidates != [] && pc' == Replaying(r.state, r.candidates[|r.candidates| - 1], r.evaluations[|r.evaluations| - 1])
    ensures Returns(table, r, pc', child) && Finish(table, r, pc', child) == Finish(table, r, RecLoad, child)
  {
    hide OpOf, Continue, Returns, Finish, Replaying;
    RecoveryCalls(table, r, r.state, child);
    EvidenceCalls(table, r, r.state, child);
    var _, _ := GoesOn(table, r, RecLoad, child);
    var _, _ := GoesOn(table, r, RecLineage(r.state), child);
    var _, next := GoesOn(table, r, RecEvents(r.state, r.candidates, r.evaluations), child);
    pc' := next;
  }

  lemma ReplayCalls(table: ScoreTable, r: Run, st: RunState, c: Candidate, e: Evaluation, child: Child)
    ensures OpOf(RecReady(st, c, e)) == Commit(CandidateReady, st.revision, None, 0.0)
    ensures Continue(table, r, RecReady(st, c, e), child) == RecApply(r.state, c, e)
    ensures OpOf(RecApply(st, c, e)) ==
            Commit(if e.eligible then EvaluationEligible else EvaluationIneligible, st.revision,
                   if e.eligible then Some(Sha256(CandidateText(c))) else None, 0.0)
    ensures Continue(table, r, RecApply(st, c, e), child) == MemRun(Task(None, None, None))
  {
  }

  lemma ReplayCloses(spec: RunSpec, s: RunState, s1: RunState, s2: RunState, eligible: bool, credit: Option<Digest>)
    requires s.status.Running? ==> ApplyTransition(s, CandidateReady, spec, None, 0.0) == Ok(s1)
    requires !s.status.Running? ==> s1 == s
    requires ApplyTransition(s1, if eligible then EvaluationEligible else EvaluationIneligible, spec, credit, 0.0) == Ok(s2)
    requires !eligible ==> credit == None
    ensures Closes(spec, s, s2, if s.status.Running? then 2 else 1, credit)
  {
  }

  /** A running attempt is announced first. */
  lemma ReadyReplays(table: ScoreTable, r: Run, c: Candidate, e: Evaluation, child: Child) returns (r': Run)
    requires Returns(table, r, Replaying(r.state, c, e), child)
    ensures if r.state.status.Running?
            then ApplyTransition(r.state, CandidateReady, r.spec, None, 0.0) == Ok(r'.state)
                 && r' == r.(state := r'.state, log := r.log + [EntryOf(CandidateReady, r'.state, Change(None, 0.0))])
            else r' == r
    ensures Returns(table, r', RecApply(r'.state, c, e), child)
    ensures Finish(table, r', RecApply(r'.state, c, e), child) == Finish(table, r, Replaying(r.state, c, e), child)
  {
    hide OpOf, Continue, Returns, Finish, ApplyTransition, Try;
    r' := r;
    if r.state.status.Running? {
      ReplayCalls(table, r, r.state, c, e, child);
      var next, _ := GoesOn(table, r, RecReady(r.state, c, e), child);
      Committed(r, CandidateReady, r.state.revision, None, next);
      ReplayCalls(table, next, r.state, c, e, child);
      r' := next;
    }
  }

  /** The verdict is committed, and remembered. */
  lemma ReplayEnds(table: ScoreTable, r: Run, c: Candidate, e: Evaluation, child: Child) returns (s: RunState)
    requires Returns(table, r, RecApply(r.state, c, e), child)
    ensures var r' := Finish(table, r, RecApply(r.state, c, e), child);
            var credit := if e.eligible then Some(Sha256(CandidateText(c))) else None;
            var event := if e.eligible then EvaluationEligible else EvaluationIneligible;
            && ApplyTransition(r.state, event, r.spec, credit, 0.0) == Ok(s)
            && r' == r.(state := s, log := r.log + [EntryOf(event, s, Change(credit, 0.0))], memory := r'.memory)
            && Remembers(r', r.memory, None, None)
  {
    hide OpOf, Continue, Returns, Finish, ApplyTransition, Remembers, Try;
    var credit := if e.eligible then Some(Sha256(CandidateText(c))) else None;
    ReplayCalls(table, r, r.state, c, e, child);
    var next, _ := GoesOn(table, r, RecApply(r.state, c, e), child);
    Committed(r, if e.eligible then EvaluationEligible else EvaluationIneligible, r.state.revision, credit, next);
    ReplayCalls(table, next, r.state, c, e, child);
    RefreshEnds(table, next, None, None, child);
    s := next.state;
  }

  lemma VerdictReplays(table: ScoreTable, r: Run, child: Child)
    requires InFlight(r.state) && |r.evaluations| > Applied(r.log) && Returns(table, r, RecLoad, child)
    ensures var r' := Finish(table, r, RecLoad, child); SameRows(r, r') && r'.advice == r.advice && r.candidates != [] && Replayed(r, r')
  {
    hide Returns, Finish, ApplyTransition, Closes, Remembers, Applied, Logged, Replaying;
    var _ := EvidenceFound(table, r, child);
    var c, e := r.candidates[|r.candidates| - 1], r.evaluations[|r.evaluations| - 1];
    var credit := if e.eligible then Some(Sha256(CandidateText(c))) else None;
    var r1 := ReadyReplays(table, r, c, e, child);
    var s := ReplayEnds(table, r1, c, e, child);
    ReplayCloses(r.spec, r.state, r1.state, s, e.eligible, credit);
    var ready, verdict := EntryOf(CandidateReady, r1.state, Change(None, 0.0)),
                          EntryOf(if e.eligible then EvaluationEligible else EvaluationIneligible, s, Change(credit, 0.0));
    LoggedAll(r.log, ready, verdict, verdict, verdict);
    LoggedAll(r.log, verdict, verdict, verdict, verdict);
  }

  lemma MissCalls(table: ScoreTable, r: Run, st: RunState, child: Child)
    ensures OpOf(RecMiss(st)) == Commit(if st.status.Running? then Interrupt else EvaluationMissing, st.revision, None, 0.0)
    ensures Continue(table, r, RecMiss(st), child) == RecNoteMiss(st.status.Running?)
    ensures OpOf(RecNoteMiss(true)) == Note(Interrupted, Classification("INTERRUPTED"))
    ensures OpOf(RecNoteMiss(false)) == Note(EvaluationMissing, Classification("EVALUATION_MISSING"))
    ensures Continue(table, r, RecNoteMiss(true), child) == MemRun(Task(Some("INTERRUPTED"), None, None))
    ensures Continue(table, r, RecNoteMiss(false), child) == MemRun(Task(Some("EVALUATION_MISSING"), None, None))
  {
  }

  lemma MissCloses(spec: RunSpec, s: RunState, event: EventName, s': RunState)
    requires (event.Interrupt? || event.EvaluationMissing?) && ApplyTransition(s, event, spec, None, 0.0) == Ok(s')
    ensures Closes(spec, s, s', 1, None)
  {
  }

  lemma AttemptMisses(table: ScoreTable, r: Run, child: Child)
    requires InFlight(r.state) && |r.evaluations| <= Applied(r.log) && Returns(table, r, RecLoad, child)
    ensures var r' := Finish(table, r, RecLoad, child); SameRows(r, r') && r'.advice == r.advice && AttemptMissed(r, r')
  {
    hide OpOf, Continue, Returns, Finish, ApplyTransition, Closes, Remembers, Applied, Logged, Try;
    var _ := EvidenceFound(table, r, child);
    var running := r.state.status.Running?;
    var event := if running then Interrupt else EvaluationMissing;
    MissCalls(table, r, r.state, child);
    var r1, _ := GoesOn(table, r, RecMiss(r.state), child);
    Committed(r, event, r.state.revision, None, r1);
    MissCalls(table, r1, r.state, child);
    var r2, _ := GoesOn(table, r1, RecNoteMiss(running), child);
    var failure := if running then "INTERRUPTED" else "EVALUATION_MISSING";
    Noted(r1, if running then Interrupted else EvaluationMissing, Classification(failure), r2);
    MissCalls(table, r2, r.state, child);
    MissCloses(r.spec, r.state, event, r1.state);
    var closed, noted := EntryOf(event, r1.state, Change(None, 0.0)), EntryOf(if running then Interrupted else EvaluationMissing, r1.state, Classification(failure));
    LoggedAll(r.log, closed, noted, noted, noted);
    RefreshEnds(table, r2, Some(failure), None, child);
  }

  lemma NothingToReconcile(table: ScoreTable, r: Run, child: Child)
    requires !r.state.status.Supervising? && !InFlight(r.state) && Returns(table, r, RecLoad, child)
    ensures Reconciled(r, Finish(table, r, RecLoad, child))
  {
    hide OpOf, Continue, Returns, Finish;
    RecoveryCalls(table, r, r.state, child);
    var _, _ := GoesOn(table, r, RecLoad, child);
    FinishedDone(table, child, r);
  }

  /**
   * A reconcile that returns normally: stored advice is applied, and missing advice settles the run; the last pair
   * on record, if one is not applied yet, is applied as the verdict of the attempt in flight, and otherwise the
   * attempt is closed as interrupted or missing; a run with nothing in flight is left as it was.
   */
  lemma ReconcileTells(table: ScoreTable, r: Run, child: Child)
    requires Returns(table, r, RecLoad, child)
    ensures Reconciled(r, Finish(table, r, RecLoad, child))
  {
    hide Returns, Finish, SameRows, AdviceUsed, AdviceMissed, Replayed, AttemptMissed, Applied;
    if r.state.status.Supervising? {
      if r.advice != [] {
        AdviceReplays(table, r, child);
      } else {
        AdviceMisses(table, r, child);
      }
    } else if !InFlight(r.state) {
      NothingToReconcile(table, r, child);
    } else if |r.evaluations| > Applied(r.log) {
      VerdictReplays(table, r, child);
    } else {
      AttemptMisses(table, r, child);
    }
  }

  lemma CancelCalls(table: ScoreTable, r: Run, st: RunState, child: Child)
    ensures OpOf(CanLoad).Read? && OpOf(CanCommit(st)) == Commit(Cancel, st.revision, None, 0.0)
    ensures Continue(table, r, CanLoad, child) == if InFlight(r.state) then Done else CanCommit(r.state)
    ensures Continue(table, r, CanCommit(st), child) == MemRun(Task(Some("CANCELLED"), None, None))
  {
  }

  lemma CancelMoves(spec: RunSpec, s: RunState, s': RunState)
    requires ApplyTransition(s, Cancel, spec, None, 0.0) == Ok(s')
    ensures !s.IsTerminal() && s' == s.(status := Cancelled, revision := s.revision + 1)
  {
  }

  /** A cancel that returns normally found its run neither ended nor in flight, and only cancelled it. */
  lemma CancelTells(table: ScoreTable, r: Run, child: Child)
    requires Returns(table, r, CanLoad, child)
    ensures WasCancelled(r, Finish(table, r, CanLoad, child))
  {
    hide OpOf, Continue, Returns, Finish, ApplyTransition, Remembers, Logged, Try;
    CancelCalls(table, r, r.state, child);
    var _, _ := GoesOn(table, r, CanLoad, child);
    var r1, _ := GoesOn(table, r, CanCommit(r.state), child);
    Committed(r, Cancel, r.state.revision, None, r1);
    CancelCalls(table, r1, r.state, child);
    CancelMoves(r.spec, r.state, r1.state);
    var entry := EntryOf(Cancel, r1.state, Change(None, 0.0));
    LoggedAll(r.log, entry, entry, entry, entry);
    RefreshEnds(table, r1, Some("CANCELLED"), None, child);
  }
}

/** Operations that nobody interferes with: which of them return normally, and what they then have done. */
module Completion {
  import opened Wrappers
  import opened Contracts
  import opened StateMachine
  import opened RunHistory
  import opened Ledger
  import opened Actors
  import opened MemoryContract
  import opened ProgramPoints

  /** From pc the operation returns normally, and leaves the run as `end`. */
  ghost predicate Completes(table: ScoreTable, r: Run, pc: Pc, child: Child, end: Run) {
    Returns(table, r, pc, child) && Finish(table, r, pc, child) == end
  }

  lemma Proceeds(table: ScoreTable, r: Run, pc: Pc, child: Child, r': Run, pc': Pc, end: Run)
    requires !pc.Done? && Try(r, OpOf(pc)) == Ok(r') && Continue(table, r', pc, child) == pc' && !(Raising(pc) && pc'.Done?)
    requires Completes(table, r', pc', child, end)
    ensures Completes(table, r, pc, child, end)
  {
    hide OpOf, Continue, Finish;
    StepperIsStepOf(table, child, Config(r, pc));
    OneStep(table, child, r, pc);
    FinishAfterStep(table, child, Config(r, pc));
  }

  lemma DoneCompletes(table: ScoreTable, r: Run, child: Child)
    ensures Completes(table, r, Done, child, r)
  {
    FinishedDone(table, child, r);
  }

  lemma RefreshOps(task: Task, st: RunState, previous: Option<Memory>, cs: seq<Candidate>, es: seq<Evaluation>, m: Memory)
    ensures OpOf(MemRun(task)).Read? && OpOf(MemPrevious(task, st)).Read? && OpOf(MemLineage(task, st, previous)).Read?
    ensures OpOf(MemAdvice(task, st, previous, cs, es)).Read?
    ensures m.memoryRevision > 0 ==> OpOf(MemSave(task, m)) == Save(m, m.memoryRevision - 1)
  {
  }

  /** What a refresh saves. */
  function Refreshed(r: Run, task: Task): Run {
    r.(memory := Some(Fresh(r, task)))
  }

  lemma SaveIsAccepted(r: Run, task: Task)
    ensures Fresh(r, task).memoryRevision == MemoryRevision(r) + 1 && Fresh(r, task).stateRevision == r.state.revision
    ensures Try(r, Save(Fresh(r, task), MemoryRevision(r))) == Ok(Refreshed(r, task))
  {
  }

  lemma SaveContinues(table: ScoreTable, r: Run, task: Task, m: Memory, child: Child)
    ensures Continue(table, r, MemSave(task, m), child) == AfterSave(task, m)
  {
  }

  /** A refresh saves its record, and goes on to what waits for it. */
  lemma SaveLeads(table: ScoreTable, r: Run, task: Task, child: Child, end: Run)
    requires Completes(table, Refreshed(r, task), AfterSave(task, Fresh(r, task)), child, end)
    ensures Completes(table, r, MemSave(task, Fresh(r, task)), child, end)
  {
    hide Completes, Continue, NextMemory;
    var m := Fresh(r, task);
    SaveContinues(table, Refreshed(r, task), task, m, child);
    RefreshOps(task, r.state, r.memory, r.candidates, r.evaluations, m);
    SaveIsAccepted(r, task);
    Proceeds(table, r, MemSave(task, m), child, Refreshed(r, task), AfterSave(task, m), end);
  }

  /** A refresh never raises, whatever the run holds, and saves the record that its reads determine. */
  lemma RefreshLeads(table: ScoreTable, r: Run, task: Task, child: Child, end: Run)
    requires r.memory.Some? ==> r.memory.value.Valid()
    requires task.failure.Some? ==> Solid(task.failure.value)
    requires Completes(table, Refreshed(r, task), AfterSave(task, Fresh(r, task)), child, end)
    ensures Completes(table, r, MemRun(task), child, end)
  {
    hide OpOf, Continue, Completes, Raises;
    var st, previous, cs, es, m := r.state, r.memory, r.candidates, r.evaluations, Fresh(r, task);
    RefreshNeverFails(r.spec, task, st, previous, cs, es, r.advice);
    RefreshContinuations(table, child, r, task);
    RefreshOps(task, st, previous, cs, es, m);
    SaveLeads(table, r, task, child, end);
    Proceeds(table, r, MemAdvice(task, st, previous, cs, es), child, r, MemSave(task, m), end);
    Proceeds(table, r, MemLineage(task, st, previous), child, r, MemAdvice(task, st, previous, cs, es), end);
    Proceeds(table, r, MemPrevious(task, st), child, r, MemLineage(task, st, previous), end);
    Proceeds(table, r, MemRun(task), child, r, MemPrevious(task, st), end);
  }

  lemma RefreshReturns(table: ScoreTable, r: Run, task: Task, child: Child)
    requires task.supervise.None? && (r.memory.Some? ==> r.memory.value.Valid())
    requires task.failure.Some? ==> Solid(task.failure.value)
    ensures Completes(table, r, MemRun(task), child, Refreshed(r, task))
  {
    hide Completes;
    DoneCompletes(table, Refreshed(r, task), child);
    RefreshLeads(table, r, task, child, Refreshed(r, task));
  }

  /** A refresh completes; it saves a record that tells of the run, and changes nothing else. */
  lemma RefreshCompletes(table: ScoreTable, r: Run, task: Task, child: Child)
    requires task.supervise.None? && (r.memory.Some? ==> r.memory.value.Valid())
    requires task.failure.Some? ==> Solid(task.failure.value)
    ensures Completes(table, r, MemRun(task), child, Refreshed(r, task))
    ensures var r' := Refreshed(r, task);
            && r'.memory.Some? && r' == r.(memory := r'.memory)
            && Tells(r'.memory.value, r.spec, task.failure, task.advice, r.state, r.memory, r.candidates, r.evaluations, r.advice)
  {
    hide Completes, NextMemory, Tells;
    RefreshReturns(table, r, task, child);
    NextMemoryTells(r.spec, task, r.state, r.memory, r.candidates, r.evaluations, r.advice);
  }

  lemma ApprovalIsAccepted(spec: RunSpec) returns (r: Run)
    ensures Try(Create(spec), Commit(Approve, 0, None, 0.0)) == Ok(r) && r.memory.None?
    ensures r.spec == spec && r.candidates == [] && r.evaluations == [] && r.advice == []
    ensures r.state == NewState(SpecIdentity(spec)).(status := Ready, revision := 1)
  {
    r := Exec(Create(spec), Commit(Approve, 0, None, 0.0));
  }

  lemma ApprovalContinues(table: ScoreTable, r: Run, child: Child)
    ensures OpOf(NewApprove) == Commit(Approve, 0, None, 0.0)
    ensures Continue(table, r, NewApprove, child) == MemRun(Task(None, None, None))
  {
  }

  /** create_run never raises once the run row is written: it approves the run and saves its first memory. */
  lemma CreationCompletes(table: ScoreTable, spec: RunSpec, child: Child)
    ensures var r := Finish(table, Create(spec), NewApprove, child);
            && Completes(table, Create(spec), NewApprove, child, r)
            && r.state == NewState(SpecIdentity(spec)).(status := Ready, revision := 1)
            && r.memory.Some? && Tells(r.memory.value, spec, None, None, r.state, None, [], [], [])
            && r.spec == spec && r.candidates == [] && r.evaluations == [] && r.advice == []
  {
    hide Finish, Returns, Fresh, Try, OpOf, Continue, Tells;
    var r := ApprovalIsAccepted(spec);
    var task := Task(None, None, None);
    SaveIsAccepted(r, task);
    ApprovalContinues(table, r, child);
    RefreshCompletes(table, r, task, child);
    Proceeds(table, Create(spec), NewApprove, child, r, MemRun(task), Refreshed(r, task));
  }
}

/** With something to spend, driven exclusively, a run created by phase2.py comes to its end. */
module Progress {
  import opened Wrappers
  import opened Contracts
  import opened StateMachine
  import opened RunHistory
  import opened Ledger
  import opened LogReplay
  import opened Actors
  import opened MemoryContract
  import opened RunInvariants
  import opened ExclusiveDriver
  import opened CrashRecovery
  import opened SuperviseRecovery
  import opened Iteration
  import opened Interleaving
  import opened Discipline
  import opened BestScore
  import opened ProgramPoints
  import opened Completion
  import Effects

  // ----- a step -----

  /** Program points of a started step, up to its refresh. */
  predicate Coursing(pc: Pc) {
    Live(pc) || pc.StepNoteLaunchError? || (pc.MemRun? && pc.task.supervise.None?)
  }

  /** No candidate bears the ordinal of the attempt in flight. */
  ghost predicate Unborne(r: Run, n: nat) {
    forall c <- r.candidates :: c.ordinal != n
  }

  /** A step that judges a variation knows its score. */
  predicate Known(table: ScoreTable, pc: Pc) {
    pc.StepLineage? ==> pc.variation.strategy in table
  }

  /** A step on its course: alone, and free to record what it has not recorded. */
  ghost predicate OnCourse(table: ScoreTable, r: Run, pc: Pc) {
    && Alone(r, pc) && Phase2Spec(r.spec) && Coursing(pc) && Known(table, pc)
    && (Unrecorded(pc) && Live(pc) ==> Unborne(r, r.state.stepsUsed + 1))
  }

  /** The attempts that will be closed once the one in flight is. */
  function Due(s: RunState): nat {
    s.stepsUsed + if InFlight(s) then 1 else 0
  }

  lemma CourseOp(r: Run, pc: Pc)
    requires RunInv(r) && ExPc(r, pc) && Live(pc) && OpOf(pc).Commit?
    ensures var op := OpOf(pc);
            && op.event in Allowed(r.state.status) && !op.event.Resume? && op.expected == r.state.revision && op.cost == 0.0
            && (op.event.EvaluationEligible? ==> op.candidate.Some?)
            && (Closing(op.event) || op.event.CandidateReady?)
  {
  }

  lemma CourseRecords(r: Run, pc: Pc)
    requires RunInv(r) && PcInv(r, pc) && ExPc(r, pc) && pc.StepRecord? && Unborne(r, r.state.stepsUsed + 1)
    ensures Try(r, OpOf(pc)).Ok?
  {
    FreshAttempt(r, pc.c, pc.e);
  }

  lemma OtherCourseOps(r: Run, pc: Pc)
    requires Coursing(pc) && !pc.StepRecord? && !OpOf(pc).Commit?
    ensures Try(r, OpOf(pc)).Ok?
  {
  }

  /** No call of a step on its course is refused. */
  lemma CourseAccepted(table: ScoreTable, r: Run, pc: Pc)
    requires OnCourse(table, r, pc)
    ensures Try(r, OpOf(pc)).Ok?
  {
    hide RunInv, PcInv, ExPc, ExInv, OpOf, Try, Coursing, Phase2Spec, Unborne;
    if OpOf(pc).Commit? {
      CommitsAreLive(pc);
      CourseOp(r, pc);
      CommitAccepted(r, OpOf(pc).event, OpOf(pc).candidate);
    } else if pc.StepRecord? {
      RecordsLive(pc);
      CourseRecords(r, pc);
    } else {
      OtherCourseOps(r, pc);
    }
  }

  lemma CommitsAreLive(pc: Pc)
    requires Coursing(pc) && OpOf(pc).Commit?
    ensures Live(pc)
  {
  }

  lemma RecordsLive(pc: Pc)
    requires pc.StepRecord?
    ensures Live(pc) && Unrecorded(pc)
  {
  }

  lemma DueKept(s: RunState, event: EventName, spec: RunSpec, candidate: Option<Digest>, s': RunState)
    requires ApplyTransition(s, event, spec, candidate, 0.0) == Ok(s') && InFlight(s) && (Closing(event) || event.CandidateReady?)
    ensures Due(s') == Due(s)
  {
  }

  lemma CourseDue(table: ScoreTable, r: Run, pc: Pc)
    requires OnCourse(table, r, pc) && Try(r, OpOf(pc)).Ok?
    ensures Due(Exec(r, OpOf(pc)).state) == Due(r.state) && Exec(r, OpOf(pc)).advice == r.advice
    ensures !pc.StepRecord? ==> Exec(r, OpOf(pc)).candidates == r.candidates
    ensures Unrecorded(pc) && Live(pc) && !OpOf(pc).Commit? ==> Exec(r, OpOf(pc)).state == r.state
  {
    hide PcInv, ExPc, ExInv, Phase2Spec, Unborne, RunInv, Coursing;
    CourseOps(pc);
    if OpOf(pc).Commit? {
      CommitsAreLive(pc);
      CourseOp(r, pc);
      CourseInFlight(r, pc);
      DueKept(r.state, OpOf(pc).event, r.spec, OpOf(pc).candidate, Exec(r, OpOf(pc)).state);
    }
  }

  lemma CourseOps(pc: Pc)
    requires Coursing(pc)
    ensures var op := OpOf(pc); op.Commit? || op.Note? || op.Read? || (op.Attempt? && pc.StepRecord?)
    ensures pc.StepRecord? ==> OpOf(pc).Attempt?
  {
  }

  lemma CourseInFlight(r: Run, pc: Pc)
    requires ExPc(r, pc) && Live(pc)
    ensures InFlight(r.state)
  {
  }

  lemma CourseContinues(table: ScoreTable, r: Run, pc: Pc, child: Child)
    requires Phase2Spec(r.spec) && Coursing(pc) && Known(table, pc) && !pc.MemRun?
    ensures var pc' := Continue(table, r, pc, child);
            && Coursing(pc') && Known(table, pc') && !pc'.Done?
            && (Unrecorded(pc') && Live(pc') ==> Unrecorded(pc) && Live(pc) && !pc.StepRecord? && !OpOf(pc).Commit?)
  {
    assert Continue(table, r, pc, child) == ContinueStep(table, r, pc, child);
    if pc.StepLineage? {
      JudgedByEvaluator(table, r, pc.st, pc.variation, pc.resultHash);
    }
  }

  /** A call of a step on its course is accepted, and the step stays on its course. */
  lemma CourseStep(table: ScoreTable, r: Run, pc: Pc, child: Child)
    requires OnCourse(table, r, pc) && !pc.MemRun?
    ensures var r' := Exec(r, OpOf(pc));
            && Try(r, OpOf(pc)) == Ok(r') && OnCourse(table, r', Continue(table, r', pc, child))
            && Due(r'.state) == Due(r.state) && r'.advice == r.advice && !pc.Done? && !Continue(table, r', pc, child).Done?
  {
    hide RunInv, PcInv, ExPc, ExInv, OpOf, Continue, Coursing, Known, Phase2Spec, Unrecorded, Live;
    CourseAccepted(table, r, pc);
    CourseDue(table, r, pc);
    ExecKeepsSpec(r, OpOf(pc));
    CourseIsNotDone(pc);
    AloneNext(table, r, pc, child);
    CourseContinues(table, Exec(r, OpOf(pc)), pc, child);
  }

  lemma CourseIsNotDone(pc: Pc)
    requires Coursing(pc)
    ensures !pc.Done?
  {
  }

  lemma ExecKeepsSpec(r: Run, op: Op)
    ensures Exec(r, op).spec == r.spec
  {
  }

  /** At its refresh a step has nothing in flight any more, and it completes. */
  lemma CourseEnds(table: ScoreTable, r: Run, pc: Pc, child: Child)
    requires Alone(r, pc) && pc.MemRun? && pc.task.supervise.None?
    ensures Completes(table, r, pc, child, Refreshed(r, pc.task)) && !Active(r.state)
  {
    RefreshReturns(table, r, pc.task, child);
  }

  /** A step on its course completes, and closes exactly the attempt in flight. */
  lemma {:induction false} CourseCompletes(table: ScoreTable, r: Run, pc: Pc, child: Child) returns (end: Run)
    requires OnCourse(table, r, pc)
    ensures Completes(table, r, pc, child, end)
    ensures !Active(end.state) && end.state.stepsUsed == Due(r.state) && end.advice == r.advice
    decreases StepsLeft(pc)
  {
    hide RunInv, PcInv, ExPc, ExInv, OpOf, Continue, Phase2Spec, Unborne, Completes;
    if pc.MemRun? {
      end := Refreshed(r, pc.task);
      CourseEnds(table, r, pc, child);
    } else {
      var r' := Exec(r, OpOf(pc));
      CourseStep(table, r, pc, child);
      ContinueShortens(table, r', pc, child);
      end := CourseCompletes(table, r', Continue(table, r', pc, child), child);
      Proceeds(table, r, pc, child, r', Continue(table, r', pc, child), end);
    }
  }

  lemma StartProceeds(table: ScoreTable, r: Run, child: Child, end: Run)
    requires RunInv(r) && r.state.status.Ready?
    requires var r' := Exec(r, Commit(StartStep, r.state.revision, None, 0.0)); Completes(table, r', StepLaunch(r'.state), child, end)
    ensures Completes(table, r, StepLoad, child, end)
  {
    var r' := Exec(r, Commit(StartStep, r.state.revision, None, 0.0));
    CommitAccepted(r, StartStep, None);
    StartContinuations(table, r, r', child);
    hide Completes, Continue, RunInv;
    Proceeds(table, r, StepStart(r.state), child, r', StepLaunch(r'.state), end);
    Proceeds(table, r, StepLoad, child, r, StepStart(r.state), end);
  }

  lemma StartContinuations(table: ScoreTable, r: Run, r': Run, child: Child)
    ensures Continue(table, r, StepLoad, child) == StepStart(r.state)
    ensures Continue(table, r', StepStart(r.state), child) == StepLaunch(r'.state)
    ensures OpOf(StepStart(r.state)) == Commit(StartStep, r.state.revision, None, 0.0)
  {
  }

  /** A step of a run at rest completes, whatever its child does: one more attempt is closed. */
  lemma StepCompletes(table: ScoreTable, r: Run, child: Child) returns (end: Run)
    requires AtRest(r) && r.state.status.Ready? && Phase2Spec(r.spec) && Unborne(r, r.state.stepsUsed + 1)
    ensures Completes(table, r, StepLoad, child, end)
    ensures !Active(end.state) && end.state.stepsUsed == r.state.stepsUsed + 1 && end.advice == r.advice
  {
    hide RunInv, PcInv, ExPc, ExInv, Completes, Phase2Spec, RunFor, Finish;
    var r' := Exec(r, Commit(StartStep, r.state.revision, None, 0.0));
    StepStarts(table, r, child, 2);
    StartKeeps(r);
    end := CourseCompletes(table, r', StepLaunch(r'.state), child);
    StartProceeds(table, r, child, end);
  }

  lemma StartKeeps(r: Run)
    ensures var r' := Exec(r, Commit(StartStep, r.state.revision, None, 0.0));
            && r'.spec == r.spec && r'.candidates == r.candidates && r'.advice == r.advice
            && r'.state.stepsUsed == r.state.stepsUsed
  {
  }

  // ----- a supervise -----

  /** What a supervise knows at each program point of its course. */
  ghost predicate Advising(r: Run, pc: Pc) {
    match pc
    case SupAdvice(_) => r.state.status.SupervisionRequired?
    case SupComplete(_) => r.state.status.SupervisionRequired? && r.advice != []
    case SupMemory(_) => r.state.status.SupervisionRequired? && r.advice == []
    case SupStart(_, _) => r.state.status.SupervisionRequired? && r.advice == []
    case SupLaunch(_, _) => r.advice == []
    case SupFail(_, _) => true
    case SupNoteFail(_) => r.state.IsTerminal()
    case SupRecord(_, _, _) => r.advice == []
    case SupApply(_, _, _) => r.advice != []
    case SupNoteResult(_, _) => r.state.status.Ready? && r.advice != []
    case MemRun(t) => t.supervise.None? && Supervised(r)
    case _ => false
  }

  /** The run has ended, or is ready again with advice. */
  predicate Supervised(r: Run) {
    r.state.IsTerminal() || (r.state.status.Ready? && r.advice != [])
  }

  lemma AdvisingCommit(r: Run, pc: Pc)
    requires ExPc(r, pc) && Advising(r, pc) && OpOf(pc).Commit?
    ensures var op := OpOf(pc);
            && op.event in Allowed(r.state.status) && op.expected == r.state.revision && op.cost == 0.0 && op.candidate == None
            && (op.event.Complete? || op.event.StartSupervisor? || op.event.SupervisorFailed? || op.event.SupervisorApplied?)
  {
  }

  lemma OtherAdvisingOps(r: Run, pc: Pc)
    requires Advising(r, pc) && !OpOf(pc).Commit?
    ensures Try(r, OpOf(pc)).Ok? && Exec(r, OpOf(pc)).state == r.state
    ensures OpOf(pc).Advise? ==> pc.SupRecord? && Exec(r, OpOf(pc)).advice != []
    ensures !OpOf(pc).Advise? ==> !pc.SupRecord? && Exec(r, OpOf(pc)).advice == r.advice
  {
  }

  /** Where such a commit leaves the run. */
  lemma AdvisingState(s: RunState, event: EventName, spec: RunSpec, s': RunState)
    requires ApplyTransition(s, event, spec, None, 0.0) == Ok(s')
    requires event.Complete? || event.StartSupervisor? || event.SupervisorFailed? || event.SupervisorApplied?
    ensures s'.stepsUsed == s.stepsUsed
    ensures event.Complete? || event.SupervisorFailed? ==> s'.IsTerminal()
    ensures event.SupervisorApplied? ==> s'.status.Ready?
    ensures event.StartSupervisor? ==> s'.status.Supervising?
  {
  }

  lemma AdvisingContinues(table: ScoreTable, r: Run, pc: Pc, r': Run, child: Child)
    requires Advising(r, pc) && !pc.MemRun? && !(pc.SupMemory? && r.memory.None?)
    requires !OpOf(pc).Commit? ==> r'.state == r.state && r'.memory == r.memory
    requires if pc.SupRecord? then r'.advice != [] else r'.advice == r.advice
    requires OpOf(pc).Commit? ==>
               var event := OpOf(pc).event;
               && (event.Complete? || event.SupervisorFailed? ==> r'.state.IsTerminal())
               && (event.SupervisorApplied? ==> r'.state.status.Ready?)
    ensures Advising(r', Continue(table, r', pc, child))
  {
    assert Continue(table, r', pc, child) == ContinueSupervise(r', pc, child);
  }

  lemma AdvisingKeepsMemory(r: Run, pc: Pc)
    requires Advising(r, pc)
    ensures Exec(r, OpOf(pc)).memory == r.memory
    ensures OpOf(pc).Commit? ==> !pc.SupRecord? && Exec(r, OpOf(pc)).advice == r.advice
    ensures !pc.Done? && !Raising(pc)
  {
  }

  /** A call of a supervise on its course is accepted, and the supervise stays on its course. */
  lemma AdvisingStep(table: ScoreTable, r: Run, pc: Pc, child: Child)
    requires Alone(r, pc) && Advising(r, pc) && !pc.MemRun? && !(pc.SupMemory? && r.memory.None?)
    ensures var r' := Exec(r, OpOf(pc));
            var pc' := Continue(table, r', pc, child);
            && Try(r, OpOf(pc)) == Ok(r') && Alone(r', pc') && Advising(r', pc') && r'.state.stepsUsed == r.state.stepsUsed
            && !pc.Done? && !Raising(pc)
  {
    hide RunInv, PcInv, ExPc, ExInv, OpOf, Continue, Advising;
    var op := OpOf(pc);
    if op.Commit? {
      AdvisingCommit(r, pc);
      CommitAccepted(r, op.event, None);
      AdvisingState(r.state, op.event, r.spec, Exec(r, op).state);
    } else {
      OtherAdvisingOps(r, pc);
    }
    AdvisingKeepsMemory(r, pc);
    AdvisingContinues(table, r, pc, Exec(r, op), child);
    AloneNext(table, r, pc, child);
  }

  /** Without a stored memory a supervise first refreshes one. */
  lemma MemoryFirst(table: ScoreTable, r: Run, pc: Pc, child: Child, end: Run)
    requires pc.SupMemory? && r.memory.None?
    requires var task := Task(None, None, Some(pc.st)); Completes(table, Refreshed(r, task), SupStart(pc.st, Fresh(r, task)), child, end)
    ensures Completes(table, r, pc, child, end)
  {
    var task := Task(None, None, Some(pc.st));
    assert OpOf(pc).Read? && Continue(table, r, pc, child) == MemRun(task);
    hide Completes, Fresh;
    RefreshLeads(table, r, task, child, end);
    Proceeds(table, r, pc, child, r, MemRun(task), end);
  }

  lemma RefreshedInformed(r: Run, task: Task)
    requires RunInv(r) && r.memory.None? && task.failure.None?
    ensures RunInv(Refreshed(r, task)) && Ext(r, Refreshed(r, task)) && Fresh(r, task).Valid()
  {
    var m := Fresh(r, task);
    RefreshNeverFails(r.spec, task, r.state, r.memory, r.candidates, r.evaluations, r.advice);
    SavesFirst(r, task);
    hide NextMemory, RunInv, Ext;
    SavePermitted(r, m);
    OpKeepsRunInv(r, Save(m, 0));
    ReplaysOfRunInv(r);
    ExecExtends(r, Save(m, 0));
  }

  lemma RefreshedAtRest(r: Run, task: Task)
    requires AtRest(r) && r.memory.None? && task.failure.None?
    ensures AtRest(Refreshed(r, task)) && Ext(r, Refreshed(r, task)) && Fresh(r, task).Valid()
  {
    hide NextMemory, RunInv, ExInv, Ext, Fresh;
    RefreshedInformed(r, task);
    SavesFirst(r, task);
    TableOpKeeps(r, Save(Fresh(r, task), 0), Refreshed(r, task));
  }

  lemma ReplaysOfRunInv(r: Run)
    requires RunInv(r)
    ensures Replays(r)
  {
  }

  lemma SavesFirst(r: Run, task: Task)
    requires r.memory.None?
    ensures Try(r, Save(Fresh(r, task), 0)) == Ok(Refreshed(r, task))
    ensures Fresh(r, task).stateRevision == r.state.revision
  {
  }

  lemma SavePermitted(r: Run, m: Memory)
    requires m.Valid() && m.stateRevision == r.state.revision
    ensures Permit(r, Save(m, 0))
  {
  }

  lemma RefreshedAlone(r: Run, pc: Pc, task: Task)
    requires Alone(r, pc) && pc.SupMemory? && r.memory.None? && r.advice == [] && task == Task(None, None, Some(pc.st))
    requires r.state.status.SupervisionRequired?
    ensures Alone(Refreshed(r, task), SupStart(pc.st, Fresh(r, task))) && Advising(Refreshed(r, task), SupStart(pc.st, Fresh(r, task)))
  {
    hide NextMemory, RunInv, ExInv, Ext, Fresh;
    RefreshedAtRest(r, task);
    PcStable(r, Refreshed(r, task), pc);
    SameKnowledge(Refreshed(r, task), pc, Fresh(r, task));
  }

  lemma SameKnowledge(r: Run, pc: Pc, m: Memory)
    requires pc.SupMemory? && PcInv(r, pc)
    ensures PcInv(r, SupStart(pc.st, m))
  {
  }

  /** A supervise on its course completes: the run has ended or is ready again with advice. */
  lemma {:induction false} AdvisingCompletes(table: ScoreTable, r: Run, pc: Pc, child: Child) returns (end: Run)
    requires Alone(r, pc) && Advising(r, pc)
    ensures Completes(table, r, pc, child, end)
    ensures Supervised(end) && end.state.stepsUsed == r.state.stepsUsed
    decreases StepsLeft(pc)
  {
    hide RunInv, PcInv, ExPc, ExInv, OpOf, Continue, Completes, Fresh;
    if pc.MemRun? {
      end := Refreshed(r, pc.task);
      CourseEnds(table, r, pc, child);
    } else if pc.SupMemory? && r.memory.None? {
      var task := Task(None, None, Some(pc.st));
      RefreshedAlone(r, pc, task);
      end := AdvisingCompletes(table, Refreshed(r, task), SupStart(pc.st, Fresh(r, task)), child);
      MemoryFirst(table, r, pc, child, end);
    } else {
      var r' := Exec(r, OpOf(pc));
      AdvisingStep(table, r, pc, child);
      ContinueShortens(table, r', pc, child);
      end := AdvisingCompletes(table, r', Continue(table, r', pc, child), child);
      Proceeds(table, r, pc, child, r', Continue(table, r', pc, child), end);
    }
  }

  /** A supervise of a run at rest that needs it completes, whatever its child does. */
  lemma SuperviseCompletes(table: ScoreTable, r: Run, child: Child) returns (end: Run)
    requires AtRest(r) && r.state.status.SupervisionRequired?
    ensures Completes(table, r, SupLoad, child, end)
    ensures end.state.stepsUsed == r.state.stepsUsed
    ensures end.state.IsTerminal() || (end.state.status.Ready? && r.advice == [] && end.advice != [])
  {
    hide RunInv, ExInv, Completes;
    LoadsForAdvice(table, r, child);
    if r.advice != [] {
      end := CompletedInstead(table, r, child);
    } else {
      end := AdvisingCompletes(table, r, SupAdvice(r.state), child);
    }
    Proceeds(table, r, SupLoad, child, r, SupAdvice(r.state), end);
  }

  lemma LoadsForAdvice(table: ScoreTable, r: Run, child: Child)
    requires AtRest(r) && r.state.status.SupervisionRequired?
    ensures OpOf(SupLoad).Read? && Continue(table, r, SupLoad, child) == SupAdvice(r.state)
    ensures Alone(r, SupAdvice(r.state)) && Advising(r, SupAdvice(r.state))
  {
  }

  lemma CompletionCommits(r: Run) returns (r': Run)
    requires RunInv(r) && r.state.status.SupervisionRequired?
    ensures Try(r, Commit(Complete, r.state.revision, None, 0.0)) == Ok(r') && r'.memory == r.memory
    ensures r'.state.IsTerminal() && r'.state.stepsUsed == r.state.stepsUsed
  {
    CommitAccepted(r, Complete, None);
    r' := Exec(r, Commit(Complete, r.state.revision, None, 0.0));
    AdvisingState(r.state, Complete, r.spec, r'.state);
  }

  lemma ReadsReturn(r: Run)
    ensures Try(r, Read) == Ok(r)
  {
  }

  /** Where there is advice already the run is completed. */
  lemma CompletedInstead(table: ScoreTable, r: Run, child: Child) returns (end: Run)
    requires AtRest(r) && r.state.status.SupervisionRequired? && r.advice != []
    ensures Completes(table, r, SupAdvice(r.state), child, end) && end.state.IsTerminal() && end.state.stepsUsed == r.state.stepsUsed
  {
    hide RunInv, ExInv, Completes, Fresh, OpOf, Continue, Try;
    var r' := CompletionCommits(r);
    var task := Task(Some("SUPERVISOR_BUDGET_EXHAUSTED"), None, None);
    end := Refreshed(r', task);
    InsteadContinues(table, r, r.state, r', child);
    ReadsReturn(r);
    MemoryIsValid(r);
    RefreshReturns(table, r', task, child);
    Proceeds(table, r, SupComplete(r.state), child, r', MemRun(task), end);
    Proceeds(table, r, SupAdvice(r.state), child, r, SupComplete(r.state), end);
  }

  lemma MemoryIsValid(r: Run)
    requires RunInv(r)
    ensures r.memory.Some? ==> r.memory.value.Valid()
  {
  }

  lemma InsteadContinues(table: ScoreTable, r: Run, st: RunState, r': Run, child: Child)
    requires r.advice != []
    ensures OpOf(SupAdvice(st)).Read? && Continue(table, r, SupAdvice(st), child) == SupComplete(st)
    ensures OpOf(SupComplete(st)) == Commit(Complete, st.revision, None, 0.0)
    ensures Continue(table, r', SupComplete(st), child) == Refresh("SUPERVISOR_BUDGET_EXHAUSTED")
  {
  }

  // ----- whole runs -----

  /** In a ready run the ordinal of the next attempt is free, however the run came about. */
  lemma OrdinalIsFree(table: ScoreTable, spec: RunSpec, created: nat, ops: seq<Operation>)
    requires spec.WithinBounds() && Drive(table, spec, created, ops).state.status.Ready?
    ensures var r := Drive(table, spec, created, ops); Unborne(r, r.state.stepsUsed + 1)
  {
    hide Drive, Disciplined;
    DriveIsDisciplined(table, spec, created, ops);
    var actions :| Disciplined(table, spec, actions) && Behave(table, spec, actions).run == Drive(table, spec, created, ops);
    Always(table, spec, actions);
    FreeInSys(Behave(table, spec, actions));
  }

  lemma FreeInSys(s: Sys)
    requires SysInv(s) && s.run.state.status.Ready?
    ensures Unborne(s.run, s.run.state.stepsUsed + 1)
  {
    var n := s.run.state.stepsUsed + 1;
    assert Bearing(s.run.candidates, n) + Holders(RecordOrdinal(n), s.actors) <= if n <= TopOrdinal(s.run.state) then 1 else 0;
    NotBorne(s.run.candidates, n);
  }

  /** A step of a ready run returns normally, and closes exactly one attempt. */
  lemma StepProgresses(table: ScoreTable, spec: RunSpec, created: nat, ops: seq<Operation>, child: Child)
    requires spec.WithinBounds() && spec.maxCostUsd > 0.0 && Phase2Spec(spec)
    requires Drive(table, spec, created, ops).state.status.Ready?
    ensures var r := Drive(table, spec, created, ops);
            var end := Finish(table, r, StepLoad, child);
            && Returns(table, r, StepLoad, child)
            && end.state.stepsUsed == r.state.stepsUsed + 1 && !Active(end.state) && end.advice == r.advice
  {
    hide Drive, Finish, Returns, RunInv, ExInv, Phase2Spec;
    DriveAtRest(table, spec, created, ops);
    DriveKeepsSpec(table, spec, created, ops);
    OrdinalIsFree(table, spec, created, ops);
    var end := StepCompletes(table, Drive(table, spec, created, ops), child);
  }

  /** A supervise of a run that needs it returns normally; the run has ended, or is ready again with its first advice. */
  lemma SuperviseProgresses(table: ScoreTable, spec: RunSpec, created: nat, ops: seq<Operation>, child: Child)
    requires spec.WithinBounds() && Drive(table, spec, created, ops).state.status.SupervisionRequired?
    ensures var r := Drive(table, spec, created, ops);
            var end := Finish(table, r, SupLoad, child);
            && Returns(table, r, SupLoad, child) && end.state.stepsUsed == r.state.stepsUsed
            && (end.state.IsTerminal() || (end.state.status.Ready? && r.advice == [] && end.advice != []))
  {
    hide Drive, Finish, Returns, RunInv, ExInv;
    var r := Drive(table, spec, created, ops);
    DriveInformed(table, spec, created, ops);
    DriveKeepsSpec(table, spec, created, ops);
    SupervisionHasBudget(r);
    DriveAtRest(table, spec, created, ops);
    var end := SuperviseCompletes(table, r, child);
  }

  /** What a driver does next: it supervises where that is required, and steps otherwise. */
  function NextOperation(s: RunState, child: Child): Operation {
    var entry := if s.status.SupervisionRequired? then SupLoad else StepLoad;
    Operation(entry, child, StepsLeft(entry))
  }

  /** A driver that makes one operation after the other, each to its end. */
  function Pursue(table: ScoreTable, r: Run, children: seq<Child>): Run {
    if children == [] then r
    else
      var r' := Pursue(table, r, children[..|children| - 1]);
      Perform(table, r', NextOperation(r'.state, children[|children| - 1]))
  }

  /** A bound on the operations that are left: the attempts, and one supervision. */
  function OperationsLeft(r: Run): int {
    if r.state.IsTerminal() then 0 else r.spec.maxSteps - r.state.stepsUsed + if r.advice == [] then 1 else 0
  }

  predicate Idle(s: RunState) {
    s.status.Ready? || s.status.SupervisionRequired? || s.IsTerminal()
  }

  ghost function ApprovedAt(): Config -> bool {
    (x: Config) => !x.run.state.status.Created?
  }

  lemma ApprovedStays(table: ScoreTable, r: Run, pc: Pc, child: Child, n: nat)
    requires !r.state.status.Created?
    ensures !RunFor(table, r, pc, child, n).run.state.status.Created?
  {
    forall x: Config | ApprovedAt()(x) ensures ApprovedAt()(Stepper(table, child)(x)) {
      NeverCreatedAgain(x.run, OpOf(x.pc));
    }
    assert ApprovedAt()(Config(r, pc));
    IterateKeeps(Stepper(table, child), ApprovedAt(), Config(r, pc), n);
    assert ApprovedAt()(RunFor(table, r, pc, child, n));
  }

  lemma NeverCreatedAgain(r: Run, op: Op)
    requires !r.state.status.Created?
    ensures !Exec(r, op).state.status.Created?
  {
  }

  lemma {:induction false} PerformAllApproved(table: ScoreTable, r: Run, ops: seq<Operation>)
    requires !r.state.status.Created?
    ensures !PerformAll(table, r, ops).state.status.Created?
  {
    if ops != [] {
      var op := ops[|ops| - 1];
      PerformAllApproved(table, r, ops[..|ops| - 1]);
      if IsEntry(op.entry) {
        ApprovedStays(table, PerformAll(table, r, ops[..|ops| - 1]), op.entry, op.child, op.steps);
      }
    }
  }

  /** A run that create_run approved stays approved. */
  lemma DriveIsApproved(table: ScoreTable, spec: RunSpec, created: nat, ops: seq<Operation>)
    requires spec.WithinBounds() && created >= 1
    ensures !Drive(table, spec, created, ops).state.status.Created?
  {
    hide Next, PerformAll;
    var r := ApprovalIsAccepted(spec);
    var step, x, y := Stepper(table, LaunchError), Config(Create(spec), NewApprove), Config(r, MemRun(Task(None, None, None)));
    ApprovalSteps(table, spec, r);
    assert Iterate(step, x, created) == Iterate(step, y, created - 1);
    ApprovedStays(table, r, y.pc, LaunchError, created - 1);
    PerformAllApproved(table, RunFor(table, Create(spec), NewApprove, LaunchError, created).run, ops);
  }

  lemma ApprovalSteps(table: ScoreTable, spec: RunSpec, r: Run)
    requires Try(Create(spec), Commit(Approve, 0, None, 0.0)) == Ok(r)
    ensures Stepper(table, LaunchError)(Config(Create(spec), NewApprove)) == Config(r, MemRun(Task(None, None, None)))
  {
  }

  lemma AtRestIsIdle(r: Run)
    requires AtRest(r) && !Active(r.state) && !r.state.status.Created?
    ensures Idle(r.state)
  {
  }

  lemma StepsRemain(r: Run)
    requires RunInv(r) && !r.state.IsTerminal()
    ensures r.state.stepsUsed < r.spec.maxSteps
  {
    StoredRunIsConsistent(r);
  }

  lemma PerformAllAppend(table: ScoreTable, r: Run, ops: seq<Operation>, op: Operation)
    ensures PerformAll(table, r, ops + [op]) == Perform(table, PerformAll(table, r, ops), op)
  {
    assert (ops + [op])[..|ops|] == ops;
  }

  lemma DriveAppend(table: ScoreTable, spec: RunSpec, created: nat, ops: seq<Operation>, op: Operation)
    ensures Drive(table, spec, created, ops + [op]) == Perform(table, Drive(table, spec, created, ops), op)
  {
    PerformAllAppend(table, RunFor(table, Create(spec), NewApprove, LaunchError, created).run, ops, op);
  }

  lemma PerformIsFinish(table: ScoreTable, r: Run, pc: Pc, child: Child)
    requires IsEntry(pc)
    ensures Perform(table, r, Operation(pc, child, StepsLeft(pc))) == Finish(table, r, pc, child)
  {
  }

  lemma EndedPursuit(table: ScoreTable, r: Run, child: Child)
    ensures r.state.IsTerminal() ==> Perform(table, r, NextOperation(r.state, child)).state == r.state
  {
    if r.state.IsTerminal() {
      EndedStays(table, r, StepLoad, child, StepsLeft(StepLoad));
    }
  }

  /** Each operation of the driver brings an idle run nearer to its end. */
  lemma OperationAdvances(table: ScoreTable, spec: RunSpec, created: nat, ops: seq<Operation>, child: Child)
    requires spec.WithinBounds() && spec.maxCostUsd > 0.0 && Phase2Spec(spec) && created >= 1
    requires Idle(Drive(table, spec, created, ops).state)
    ensures var r := Drive(table, spec, created, ops);
            var r' := Perform(table, r, NextOperation(r.state, child));
            Idle(r'.state) && (r'.state.IsTerminal() || 0 < OperationsLeft(r') < OperationsLeft(r))
  {
    hide Drive, Finish, Returns, RunInv, ExInv, Phase2Spec, Perform;
    var r := Drive(table, spec, created, ops);
    var op := NextOperation(r.state, child);
    PerformIsFinish(table, r, op.entry, child);
    DriveAppend(table, spec, created, ops, op);
    DriveAtRest(table, spec, created, ops);
    DriveAtRest(table, spec, created, ops + [op]);
    DriveKeepsSpec(table, spec, created, ops);
    DriveKeepsSpec(table, spec, created, ops + [op]);
    DriveIsApproved(table, spec, created, ops + [op]);
    var r' := Perform(table, r, op);
    if !r'.state.IsTerminal() { StepsRemain(r'); }
    if r.state.status.Ready? {
      StepProgresses(table, spec, created, ops, child);
      AtRestIsIdle(r');
    } else if r.state.status.SupervisionRequired? {
      SuperviseProgresses(table, spec, created, ops, child);
    } else {
      EndedPursuit(table, r, child);
    }
  }

  lemma {:induction false} PursuitAdvances(table: ScoreTable, spec: RunSpec, created: nat, ops: seq<Operation>, children: seq<Child>)
    returns (driven: seq<Operation>)
    requires spec.WithinBounds() && spec.maxCostUsd > 0.0 && Phase2Spec(spec) && created >= 1
    requires Idle(Drive(table, spec, created, ops).state)
    ensures var r := Drive(table, spec, created, ops);
            var r' := Pursue(table, r, children);
            && r' == Drive(table, spec, created, driven) && Idle(r'.state)
            && (r'.state.IsTerminal() || 0 < OperationsLeft(r') <= OperationsLeft(r) - |children|)
  {
    hide Drive, Perform, Phase2Spec, NextOperation;
    if children == [] {
      driven := ops;
      DriveAtRest(table, spec, created, ops);
      if !Drive(table, spec, created, ops).state.IsTerminal() { StepsRemain(Drive(table, spec, created, ops)); }
    } else {
      var before, child := children[..|children| - 1], children[|children| - 1];
      driven := PursuitAdvances(table, spec, created, ops, before);
      var r := Drive(table, spec, created, driven);
      OperationAdvances(table, spec, created, driven, child);
      DriveAppend(table, spec, created, driven, NextOperation(r.state, child));
      EndedPursuit(table, r, child);
      driven := driven + [NextOperation(r.state, child)];
    }
  }

  /**
   * Every run comes to its end. However an approved run was driven and wherever its operations stopped,
   * one reconcile and then max_steps + 1 operations, each a supervise where one is required and a step
   * otherwise, bring it to a terminal status, whatever the children do.
   */
  lemma DriverTerminates(table: ScoreTable, spec: RunSpec, created: nat, ops: seq<Operation>, last: Child, children: seq<Child>)
    requires spec.WithinBounds() && spec.maxCostUsd > 0.0 && Phase2Spec(spec) && created >= 1
    requires |children| >= spec.maxSteps + 1
    ensures var recovered := Finish(table, Drive(table, spec, created, ops), RecLoad, last);
            Pursue(table, recovered, children).state.IsTerminal()
  {
    hide Drive, Finish, Phase2Spec, Perform, Pursue, RunInv, ExInv;
    var r, op := Drive(table, spec, created, ops), Operation(RecLoad, last, StepsLeft(RecLoad));
    PerformIsFinish(table, r, RecLoad, last);
    DriveAppend(table, spec, created, ops, op);
    DriveAtRest(table, spec, created, ops);
    DriveAtRest(table, spec, created, ops + [op]);
    DriveIsApproved(table, spec, created, ops + [op]);
    DriveKeepsSpec(table, spec, created, ops + [op]);
    RecoveryFinishes(table, r, RecLoad, last);
    AtRestIsIdle(Drive(table, spec, created, ops + [op]));
    var driven := PursuitAdvances(table, spec, created, ops + [op], children);
  }

  // ----- cancel -----

  lemma CancelCommits(r: Run) returns (r': Run)
    requires RunInv(r) && !r.state.IsTerminal()
    ensures Try(r, Commit(Cancel, r.state.revision, None, 0.0)) == Ok(r') && r'.memory == r.memory
  {
    CommitAccepted(r, Cancel, None);
    r' := Exec(r, Commit(Cancel, r.state.revision, None, 0.0));
  }

  lemma CancelReturns(table: ScoreTable, r: Run, child: Child)
    requires RunInv(r) && !InFlight(r.state) && !r.state.IsTerminal()
    ensures Returns(table, r, CanLoad, child)
  {
    hide RunInv, Returns, Finish, OpOf, Continue, Try, Fresh;
    var task := Task(Some("CANCELLED"), None, None);
    var r' := CancelCommits(r);
    Effects.CancelCalls(table, r, r.state, child);
    Effects.CancelCalls(table, r', r.state, child);
    ReadsReturn(r);
    MemoryIsValid(r);
    RefreshReturns(table, r', task, child);
    Proceeds(table, r, CanCommit(r.state), child, r', MemRun(task), Refreshed(r', task));
    Proceeds(table, r, CanLoad, child, r, CanCommit(r.state), Refreshed(r', task));
  }

  /** Refused at its load or at its commit, a cancel changes nothing. */
  lemma CancelRefused(table: ScoreTable, r: Run, child: Child)
    requires InFlight(r.state) || r.state.IsTerminal()
    ensures !Returns(table, r, CanLoad, child) && Finish(table, r, CanLoad, child) == r
  {
    hide OpOf, Continue, Finish, Returns;
    if Returns(table, r, CanLoad, child) { Effects.CancelTells(table, r, child); }
    Effects.CancelCalls(table, r, r.state, child);
    StepperIsStepOf(table, child, Config(r, CanLoad));
    OneStep(table, child, r, CanLoad);
    FinishAfterStep(table, child, Config(r, CanLoad));
    if r.state.IsTerminal() {
      EndedRefusesCancel(r);
      StepperIsStepOf(table, child, Config(r, CanCommit(r.state)));
      OneStep(table, child, r, CanCommit(r.state));
      FinishAfterStep(table, child, Config(r, CanCommit(r.state)));
    }
    FinishedDone(table, child, r);
  }

  lemma EndedRefusesCancel(r: Run)
    requires r.state.IsTerminal()
    ensures Try(r, Commit(Cancel, r.state.revision, None, 0.0)).Err? && !InFlight(r.state)
  {
  }

  /**
   * Whatever happened to a run, an undisturbed cancel is accepted exactly when the run has not ended and has no
   * attempt in flight; then the run is cancelled, and otherwise left as it was.
   */
  lemma CancelExactly(table: ScoreTable, spec: RunSpec, actions: seq<Action>, child: Child)
    requires spec.WithinBounds()
    ensures var r := Behave(table, spec, actions).run;
            var r' := Finish(table, r, CanLoad, child);
            && (Returns(table, r, CanLoad, child) <==> !InFlight(r.state) && !r.state.IsTerminal())
            && (if Returns(table, r, CanLoad, child) then Effects.WasCancelled(r, r') else r' == r)
  {
    hide Behave, Returns, Finish, RunInv, ClaimInv, OrdinalInv, WindowInv, Effects.WasCancelled;
    Always(table, spec, actions);
    var r := Behave(table, spec, actions).run;
    if InFlight(r.state) || r.state.IsTerminal() {
      CancelRefused(table, r, child);
    } else {
      CancelReturns(table, r, child);
      Effects.CancelTells(table, r, child);
    }
  }
}

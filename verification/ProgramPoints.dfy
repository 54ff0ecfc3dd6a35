/**
 * The programs of Actors, one store call at a time, as facts about sets of
 * configurations that they do not leave. The controller's methods are proved with
 * these facts alone.
 */
module ProgramPoints {
  import opened Wrappers
  import opened Contracts
  import opened StateMachine
  import opened RunHistory
  import opened Ledger
  import opened Actors
  import Evaluator

  // ----- whether an operation raises -----

  /** A read after which an operation may raise: a judgement, a memory or a status it cannot go on with. */
  predicate Raising(pc: Pc) {
    pc.StepLineage? || pc.MemAdvice? || pc.SupLoad? || pc.RecEvents? || pc.CanLoad?
  }

  /** The store refuses the call at the program point, or what it returned makes the operation raise. */
  predicate Raises(table: ScoreTable, child: Child, x: Config) {
    !x.pc.Done? &&
    match Try(x.run, OpOf(x.pc))
    case Err(_) => true
    case Ok(r') => Raising(x.pc) && Continue(table, r', x.pc, child).Done?
  }

  /** An operation that nobody interferes with returns normally. */
  predicate Returns(table: ScoreTable, r: Run, pc: Pc, child: Child)
    decreases StepsLeft(pc)
  {
    pc.Done? ||
    (!Raises(table, child, Config(r, pc)) &&
     var r' := Try(r, OpOf(pc)).value;
     ContinueShortens(table, r', pc, child);
     Returns(table, r', Continue(table, r', pc, child), child))
  }

  datatype CallAt = CallAt(pc: Pc, op: Op)

  /**
   * Where a program may be (goal), where it may be when the store call of its program point has just
   * succeeded (landed) or when it has raised (raised), and which call each program point makes.
   */
  datatype Program = Program(goal: iset<Config>, landed: iset<Config>, raised: iset<Config>, calls: iset<CallAt>)

  function StepOf(table: ScoreTable, child: Child, x: Config): Config {
    var (r', pc') := Next(table, x.run, x.pc, child);
    Config(r', pc')
  }

  ghost predicate Tracks(table: ScoreTable, child: Child, p: Program) {
    && (forall x {:trigger StepOf(table, child, x)} :: x in p.goal ==>
          if Raises(table, child, x) then StepOf(table, child, x) in p.raised else StepOf(table, child, x) in p.goal)
    && (forall r, pc {:trigger Continue(table, r, pc, child)} ::
          Config(r, pc) in p.landed <==> Config(r, Continue(table, r, pc, child)) in p.goal)
    && (forall pc, op {:trigger OpOf(pc), CallAt(pc, op)} :: CallAt(pc, op) in p.calls <==> OpOf(pc) == op && !Raising(pc) && !pc.Done?)
  }

  /** The configurations from which the program ends as it would from x. */
  ghost function EndingAs(table: ScoreTable, child: Child, x: Config): iset<Config> {
    iset y: Config |
      && Finish(table, y.run, y.pc, child) == Finish(table, x.run, x.pc, child)
      && Returns(table, y.run, y.pc, child) == Returns(table, x.run, x.pc, child)
  }

  ghost function ProgramFrom(table: ScoreTable, child: Child, x: Config): Program {
    Program(EndingAs(table, child, x),
            iset y: Config | Config(y.run, Continue(table, y.run, y.pc, child)) in EndingAs(table, child, x),
            iset y: Config | y.pc.Done? && y.run == Finish(table, x.run, x.pc, child) && !Returns(table, x.run, x.pc, child),
            iset c: CallAt | OpOf(c.pc) == c.op && !Raising(c.pc) && !c.pc.Done?)
  }

  lemma StepperIsStepOf(table: ScoreTable, child: Child, x: Config)
    ensures Stepper(table, child)(x) == StepOf(table, child, x)
  {
  }

  lemma EndingStep(table: ScoreTable, child: Child, y: Config)
    ensures var z := StepOf(table, child, y); Finish(table, z.run, z.pc, child) == Finish(table, y.run, y.pc, child)
  {
    StepperIsStepOf(table, child, y);
    if y.pc.Done? {
      DoneStays(table, y.run, child);
    } else {
      FinishAfterStep(table, child, y);
    }
  }

  /** Success is decided at the end of the operation. */
  lemma SucceedingStep(table: ScoreTable, child: Child, y: Config)
    ensures var z := StepOf(table, child, y);
            if Raises(table, child, y) then z.pc.Done? && !Returns(table, y.run, y.pc, child)
            else Returns(table, z.run, z.pc, child) == Returns(table, y.run, y.pc, child)
  {
    hide Continue, OpOf;
    OneStep(table, child, y.run, y.pc);
    if y.pc.Done? {
      DoneStays(table, y.run, child);
    }
  }

  lemma FinishedDone(table: ScoreTable, child: Child, r: Run)
    ensures Finish(table, r, Done, child) == r && Returns(table, r, Done, child)
  {
  }

  lemma GoalIsClosed(table: ScoreTable, child: Child, x: Config, y: Config)
    requires y in EndingAs(table, child, x)
    ensures var p := ProgramFrom(table, child, x);
            if Raises(table, child, y) then StepOf(table, child, y) in p.raised else StepOf(table, child, y) in p.goal
  {
    hide StepOf, Raises, Finish, Returns;
    EndingStep(table, child, y);
    SucceedingStep(table, child, y);
    FinishedDone(table, child, StepOf(table, child, y).run);
  }

  lemma EndOfGoal(table: ScoreTable, child: Child, x: Config, r: Run)
    requires Config(r, Done) in EndingAs(table, child, x)
    ensures r == Finish(table, x.run, x.pc, child) && Returns(table, x.run, x.pc, child)
  {
    FinishedDone(table, child, r);
  }

  lemma StartsInGoal(table: ScoreTable, child: Child, x: Config)
    ensures x in EndingAs(table, child, x)
  {
  }

  /** The program from pc: where it ends is what finishing from pc makes of the run, and it raises as that does. */
  lemma TracksFrom(table: ScoreTable, child: Child, r: Run, pc: Pc) returns (p: Program)
    ensures Tracks(table, child, p) && Config(r, pc) in p.goal
    ensures forall r' {:trigger Config(r', Done)} :: Config(r', Done) in p.goal ==>
              r' == Finish(table, r, pc, child) && Returns(table, r, pc, child)
    ensures forall r' {:trigger Config(r', Done)} :: Config(r', Done) in p.raised ==>
              r' == Finish(table, r, pc, child) && !Returns(table, r, pc, child)
  {
    hide StepOf, Raises, Finish, Returns, Continue, OpOf;
    var x := Config(r, pc);
    p := ProgramFrom(table, child, x);
    StartsInGoal(table, child, x);
    forall y | y in p.goal
      ensures if Raises(table, child, y) then StepOf(table, child, y) in p.raised else StepOf(table, child, y) in p.goal
    {
      GoalIsClosed(table, child, x, y);
    }
    forall r' | Config(r', Done) in p.goal ensures r' == Finish(table, r, pc, child) && Returns(table, r, pc, child) {
      EndOfGoal(table, child, x, r');
    }
  }

  lemma OneStep(table: ScoreTable, child: Child, r: Run, pc: Pc)
    ensures StepOf(table, child, Config(r, pc)) ==
            Config(Exec(r, OpOf(pc)), if Try(r, OpOf(pc)).Ok? then Continue(table, Exec(r, OpOf(pc)), pc, child) else Done)
  {
  }

  /** A call that succeeds lands; one that fails makes the operation raise. */
  lemma CallLands(table: ScoreTable, child: Child, p: Program, r: Run, pc: Pc, op: Op)
    requires Tracks(table, child, p) && Config(r, pc) in p.goal && CallAt(pc, op) in p.calls
    ensures Try(r, op).Ok? ==> Config(Exec(r, op), pc) in p.landed
    ensures Try(r, op).Err? ==> Config(Exec(r, op), Done) in p.raised
  {
    hide StepOf, Continue, OpOf;
    assert OpOf(pc) == op;
    OneStep(table, child, r, pc);
    assert if Raises(table, child, Config(r, pc)) then StepOf(table, child, Config(r, pc)) in p.raised
           else StepOf(table, child, Config(r, pc)) in p.goal;
  }

  /** Reads and launches do not touch the run. */
  lemma ReadGoesOn(table: ScoreTable, child: Child, p: Program, r: Run, pc: Pc)
    requires Tracks(table, child, p) && Config(r, pc) in p.goal && OpOf(pc).Read? && !pc.Done?
    ensures var pc' := Continue(table, r, pc, child);
            if Raising(pc) && pc'.Done? then Config(r, pc') in p.raised else Config(r, pc') in p.goal
  {
    hide StepOf, Continue, OpOf;
    OneStep(table, child, r, pc);
    assert if Raises(table, child, Config(r, pc)) then StepOf(table, child, Config(r, pc)) in p.raised
           else StepOf(table, child, Config(r, pc)) in p.goal;
  }

  // ----- step -----

  lemma StepLoadReads(table: ScoreTable, child: Child, p: Program, r: Run)
    requires Tracks(table, child, p) && Config(r, StepLoad) in p.goal
    ensures Config(r, StepStart(r.state)) in p.goal
  {
    ReadGoesOn(table, child, p, r, StepLoad);
  }

  lemma StepStartLands(table: ScoreTable, child: Child, p: Program, st: RunState)
    requires Tracks(table, child, p)
    ensures CallAt(StepStart(st), Commit(StartStep, st.revision, None, 0.0)) in p.calls
    ensures forall r :: Config(r, StepStart(st)) in p.landed ==> Config(r, StepLaunch(r.state)) in p.goal
  {
    assert OpOf(StepStart(st)) == Commit(StartStep, st.revision, None, 0.0);
    forall r | Config(r, StepStart(st)) in p.landed ensures Config(r, StepLaunch(r.state)) in p.goal {
      assert Continue(table, r, StepStart(st), child) == StepLaunch(r.state);
    }
  }

  lemma StepLaunches(table: ScoreTable, child: Child, p: Program, r: Run, st: RunState)
    requires Tracks(table, child, p) && Config(r, StepLaunch(st)) in p.goal
    ensures Config(r, if child.LaunchError? then StepLaunchError(st) else StepNoteResult(st, child)) in p.goal
  {
    ReadGoesOn(table, child, p, r, StepLaunch(st));
  }

  lemma StepLaunchErrorLands(table: ScoreTable, child: Child, p: Program, st: RunState)
    requires Tracks(table, child, p)
    ensures CallAt(StepLaunchError(st), Commit(ChildFailed, st.revision, None, 0.0)) in p.calls
    ensures forall r :: Config(r, StepLaunchError(st)) in p.landed ==> Config(r, StepNoteLaunchError) in p.goal
  {
    assert OpOf(StepLaunchError(st)) == Commit(ChildFailed, st.revision, None, 0.0);
    forall r | Config(r, StepLaunchError(st)) in p.landed ensures Config(r, StepNoteLaunchError) in p.goal {
      assert Continue(table, r, StepLaunchError(st), child) == StepNoteLaunchError;
    }
  }

  lemma StepNoteLaunchErrorLands(table: ScoreTable, child: Child, p: Program)
    requires Tracks(table, child, p)
    ensures CallAt(StepNoteLaunchError, Note(ChildLaunchError, Classification("CHILD_LAUNCH_ERROR"))) in p.calls
    ensures forall r :: Config(r, StepNoteLaunchError) in p.landed ==> Config(r, Refresh("CHILD_LAUNCH_ERROR")) in p.goal
  {
    assert OpOf(StepNoteLaunchError) == Note(ChildLaunchError, Classification("CHILD_LAUNCH_ERROR"));
    forall r | Config(r, StepNoteLaunchError) in p.landed ensures Config(r, Refresh("CHILD_LAUNCH_ERROR")) in p.goal {
      assert Continue(table, r, StepNoteLaunchError, child) == Refresh("CHILD_LAUNCH_ERROR");
    }
  }

  /** How a step proceeds from what its child reported. */
  function AfterReport(table: ScoreTable, st: RunState, child: Child): Pc
    requires child.Report?
  {
    if !child.succeeded || !child.hasSummary then StepChildFailed(st, "CHILD_FAILED")
    else if child.variation.None? then StepChildFailed(st, "INVALID_CHILD_PAYLOAD")
    else if child.variation.value.strategy !in table then StepChildFailed(st, "STRATEGY_NOT_ALLOWED")
    else StepLineage(st, child.variation.value, child.resultHash)
  }

  lemma StepNoteResultLands(table: ScoreTable, child: Child, p: Program, st: RunState)
    requires Tracks(table, child, p) && child.Report?
    ensures CallAt(StepNoteResult(st, child), Note(ChildResult, ChildReport(child.succeeded, child.resultHash))) in p.calls
    ensures forall r :: Config(r, StepNoteResult(st, child)) in p.landed ==> Config(r, AfterReport(table, st, child)) in p.goal
  {
    assert OpOf(StepNoteResult(st, child)) == Note(ChildResult, ChildReport(child.succeeded, child.resultHash));
    forall r | Config(r, StepNoteResult(st, child)) in p.landed ensures Config(r, AfterReport(table, st, child)) in p.goal {
      assert Continue(table, r, StepNoteResult(st, child), child) == AfterReport(table, st, child);
    }
  }

  lemma StepChildFailedLands(table: ScoreTable, child: Child, p: Program, st: RunState, error: string)
    requires Tracks(table, child, p)
    ensures CallAt(StepChildFailed(st, error), Commit(ChildFailed, st.revision, None, 0.0)) in p.calls
    ensures forall r :: Config(r, StepChildFailed(st, error)) in p.landed ==> Config(r, Refresh(error)) in p.goal
  {
    assert OpOf(StepChildFailed(st, error)) == Commit(ChildFailed, st.revision, None, 0.0);
    forall r | Config(r, StepChildFailed(st, error)) in p.landed ensures Config(r, Refresh(error)) in p.goal {
      assert Continue(table, r, StepChildFailed(st, error), child) == Refresh(error);
    }
  }

  function AfterLineage(table: ScoreTable, r: Run, st: RunState, v: Variation, h: Digest): Pc
    requires v.strategy in table
  {
    var c := NewCandidate(r.spec, st, v, h);
    var e := Evaluator.Evaluate(r.spec, c, map[OPERATIONS := BaselineScore(table, r.evaluations)], NewOutcome(v, table[v.strategy]));
    if e.Ok? then StepRecord(st, c, e.value) else Done
  }

  lemma StepLineageReads(table: ScoreTable, child: Child, p: Program, r: Run, st: RunState, v: Variation, h: Digest)
    requires Tracks(table, child, p) && Config(r, StepLineage(st, v, h)) in p.goal && v.strategy in table
    ensures var pc := AfterLineage(table, r, st, v, h); if pc.Done? then Config(r, pc) in p.raised else Config(r, pc) in p.goal
  {
    ReadGoesOn(table, child, p, r, StepLineage(st, v, h));
  }

  lemma StepRecordLands(table: ScoreTable, child: Child, p: Program, st: RunState, c: Candidate, e: Evaluation)
    requires Tracks(table, child, p)
    ensures CallAt(StepRecord(st, c, e), Attempt(c, e)) in p.calls
    ensures forall r :: Config(r, StepRecord(st, c, e)) in p.landed ==> Config(r, StepReady(st, c, e)) in p.goal
  {
    assert OpOf(StepRecord(st, c, e)) == Attempt(c, e);
    forall r | Config(r, StepRecord(st, c, e)) in p.landed ensures Config(r, StepReady(st, c, e)) in p.goal {
      assert Continue(table, r, StepRecord(st, c, e), child) == StepReady(st, c, e);
    }
  }

  lemma StepReadyLands(table: ScoreTable, child: Child, p: Program, st: RunState, c: Candidate, e: Evaluation)
    requires Tracks(table, child, p)
    ensures CallAt(StepReady(st, c, e), Commit(CandidateReady, st.revision, None, 0.0)) in p.calls
    ensures forall r :: Config(r, StepReady(st, c, e)) in p.landed ==> Config(r, StepApply(r.state, c, e)) in p.goal
  {
    assert OpOf(StepReady(st, c, e)) == Commit(CandidateReady, st.revision, None, 0.0);
    forall r | Config(r, StepReady(st, c, e)) in p.landed ensures Config(r, StepApply(r.state, c, e)) in p.goal {
      assert Continue(table, r, StepReady(st, c, e), child) == StepApply(r.state, c, e);
    }
  }

  lemma StepApplyLands(table: ScoreTable, child: Child, p: Program, st: RunState, c: Candidate, e: Evaluation)
    requires Tracks(table, child, p)
    ensures CallAt(StepApply(st, c, e), Commit(EvaluationEvent(e), st.revision, Credit(c, e), 0.0)) in p.calls
    ensures forall r :: Config(r, StepApply(st, c, e)) in p.landed ==> Config(r, MemRun(Task(None, None, None))) in p.goal
  {
    assert OpOf(StepApply(st, c, e)) == Commit(EvaluationEvent(e), st.revision, Credit(c, e), 0.0);
    forall r | Config(r, StepApply(st, c, e)) in p.landed ensures Config(r, MemRun(Task(None, None, None))) in p.goal {
      assert Continue(table, r, StepApply(st, c, e), child) == MemRun(Task(None, None, None));
    }
  }

  // ----- memory refresh -----

  function Fresh(r: Run, task: Task): Memory {
    NextMemory(r.spec, task, r.state, r.memory, r.candidates, r.evaluations, r.advice)
  }

  lemma RefreshContinuations(table: ScoreTable, child: Child, r: Run, task: Task)
    ensures Continue(table, r, MemRun(task), child) == MemPrevious(task, r.state)
    ensures Continue(table, r, MemPrevious(task, r.state), child) == MemLineage(task, r.state, r.memory)
    ensures Continue(table, r, MemLineage(task, r.state, r.memory), child) ==
            MemAdvice(task, r.state, r.memory, r.candidates, r.evaluations)
    ensures Continue(table, r, MemAdvice(task, r.state, r.memory, r.candidates, r.evaluations), child) ==
            if Fresh(r, task).Valid() then MemSave(task, Fresh(r, task)) else Done
  {
    hide ContinueStep, ContinueSupervise, ContinueOther, NextMemory;
  }

  /** The four reads of a refresh. */
  lemma RefreshReads(table: ScoreTable, child: Child, p: Program, r: Run, task: Task)
    requires Tracks(table, child, p) && Config(r, MemRun(task)) in p.goal
    ensures Fresh(r, task).memoryRevision > 0
    ensures if Fresh(r, task).Valid() then Config(r, MemSave(task, Fresh(r, task))) in p.goal else Config(r, Done) in p.raised
  {
    hide Continue, Tracks;
    RefreshContinuations(table, child, r, task);
    ReadGoesOn(table, child, p, r, MemRun(task));
    ReadGoesOn(table, child, p, r, MemPrevious(task, r.state));
    ReadGoesOn(table, child, p, r, MemLineage(task, r.state, r.memory));
    ReadGoesOn(table, child, p, r, MemAdvice(task, r.state, r.memory, r.candidates, r.evaluations));
  }

  function AfterSave(task: Task, m: Memory): Pc {
    if task.supervise.Some? then SupStart(task.supervise.value, m) else Done
  }

  lemma MemSaveLands(table: ScoreTable, child: Child, p: Program, task: Task, m: Memory, expected: nat)
    requires Tracks(table, child, p) && m.memoryRevision == expected + 1
    ensures CallAt(MemSave(task, m), Save(m, expected)) in p.calls
    ensures forall r :: Config(r, MemSave(task, m)) in p.landed ==> Config(r, AfterSave(task, m)) in p.goal
  {
    assert OpOf(MemSave(task, m)) == Save(m, expected);
    forall r | Config(r, MemSave(task, m)) in p.landed ensures Config(r, AfterSave(task, m)) in p.goal {
      assert Continue(table, r, MemSave(task, m), child) == AfterSave(task, m);
    }
  }

  // ----- supervise -----

  lemma SupLoadReads(table: ScoreTable, child: Child, p: Program, r: Run)
    requires Tracks(table, child, p) && Config(r, SupLoad) in p.goal
    ensures if r.state.status.SupervisionRequired? then Config(r, SupAdvice(r.state)) in p.goal else Config(r, Done) in p.raised
  {
    ReadGoesOn(table, child, p, r, SupLoad);
  }

  lemma SupAdviceReads(table: ScoreTable, child: Child, p: Program, r: Run, st: RunState)
    requires Tracks(table, child, p) && Config(r, SupAdvice(st)) in p.goal
    ensures Config(r, if r.advice != [] then SupComplete(st) else SupMemory(st)) in p.goal
  {
    ReadGoesOn(table, child, p, r, SupAdvice(st));
  }

  lemma SupCompleteLands(table: ScoreTable, child: Child, p: Program, st: RunState)
    requires Tracks(table, child, p)
    ensures CallAt(SupComplete(st), Commit(Complete, st.revision, None, 0.0)) in p.calls
    ensures forall r :: Config(r, SupComplete(st)) in p.landed ==> Config(r, Refresh("SUPERVISOR_BUDGET_EXHAUSTED")) in p.goal
  {
    assert OpOf(SupComplete(st)) == Commit(Complete, st.revision, None, 0.0);
    forall r | Config(r, SupComplete(st)) in p.landed ensures Config(r, Refresh("SUPERVISOR_BUDGET_EXHAUSTED")) in p.goal {
      assert Continue(table, r, SupComplete(st), child) == Refresh("SUPERVISOR_BUDGET_EXHAUSTED");
    }
  }

  lemma SupMemoryReads(table: ScoreTable, child: Child, p: Program, r: Run, st: RunState)
    requires Tracks(table, child, p) && Config(r, SupMemory(st)) in p.goal
    ensures Config(r, if r.memory.Some? then SupStart(st, r.memory.value) else MemRun(Task(None, None, Some(st)))) in p.goal
  {
    ReadGoesOn(table, child, p, r, SupMemory(st));
  }

  lemma SupStartLands(table: ScoreTable, child: Child, p: Program, st: RunState, m: Memory)
    requires Tracks(table, child, p)
    ensures CallAt(SupStart(st, m), Commit(StartSupervisor, st.revision, None, 0.0)) in p.calls
    ensures forall r :: Config(r, SupStart(st, m)) in p.landed ==> Config(r, SupLaunch(r.state, m)) in p.goal
  {
    assert OpOf(SupStart(st, m)) == Commit(StartSupervisor, st.revision, None, 0.0);
    forall r | Config(r, SupStart(st, m)) in p.landed ensures Config(r, SupLaunch(r.state, m)) in p.goal {
      assert Continue(table, r, SupStart(st, m), child) == SupLaunch(r.state, m);
    }
  }

  function NewAdvice(spec: RunSpec, m: Memory, s: Supervision): Advice {
    Advice(spec.runId, SpecIdentity(spec), m.Identity(), s.directions, s.prohibited)
  }

  /** How a supervise proceeds from what its child did. */
  function AfterSupervisor(spec: RunSpec, st: RunState, m: Memory, child: Child): Pc {
    if child.LaunchError? then SupFail(st, "SUPERVISOR_LAUNCH_ERROR")
    else if !child.succeeded || child.supervision.None? then SupFail(st, "INVALID_SUPERVISOR_PAYLOAD")
    else SupRecord(st, NewAdvice(spec, m, child.supervision.value), child.resultHash)
  }

  lemma SupLaunches(table: ScoreTable, child: Child, p: Program, r: Run, st: RunState, m: Memory)
    requires Tracks(table, child, p) && Config(r, SupLaunch(st, m)) in p.goal
    ensures Config(r, AfterSupervisor(r.spec, st, m, child)) in p.goal
  {
    ReadGoesOn(table, child, p, r, SupLaunch(st, m));
  }

  lemma SupFailLands(table: ScoreTable, child: Child, p: Program, st: RunState, error: string)
    requires Tracks(table, child, p)
    ensures CallAt(SupFail(st, error), Commit(SupervisorFailed, st.revision, None, 0.0)) in p.calls
    ensures forall r :: Config(r, SupFail(st, error)) in p.landed ==> Config(r, SupNoteFail(error)) in p.goal
  {
    assert OpOf(SupFail(st, error)) == Commit(SupervisorFailed, st.revision, None, 0.0);
    forall r | Config(r, SupFail(st, error)) in p.landed ensures Config(r, SupNoteFail(error)) in p.goal {
      assert Continue(table, r, SupFail(st, error), child) == SupNoteFail(error);
    }
  }

  lemma SupNoteFailLands(table: ScoreTable, child: Child, p: Program, error: string)
    requires Tracks(table, child, p)
    ensures CallAt(SupNoteFail(error), Note(SupervisorFailed, Classification(error))) in p.calls
    ensures forall r :: Config(r, SupNoteFail(error)) in p.landed ==> Config(r, Refresh(error)) in p.goal
  {
    assert OpOf(SupNoteFail(error)) == Note(SupervisorFailed, Classification(error));
    forall r | Config(r, SupNoteFail(error)) in p.landed ensures Config(r, Refresh(error)) in p.goal {
      assert Continue(table, r, SupNoteFail(error), child) == Refresh(error);
    }
  }

  lemma SupRecordLands(table: ScoreTable, child: Child, p: Program, st: RunState, a: Advice, h: Digest)
    requires Tracks(table, child, p)
    ensures CallAt(SupRecord(st, a, h), Advise(a)) in p.calls
    ensures forall r :: Config(r, SupRecord(st, a, h)) in p.landed ==> Config(r, SupApply(st, a, h)) in p.goal
  {
    assert OpOf(SupRecord(st, a, h)) == Advise(a);
    forall r | Config(r, SupRecord(st, a, h)) in p.landed ensures Config(r, SupApply(st, a, h)) in p.goal {
      assert Continue(table, r, SupRecord(st, a, h), child) == SupApply(st, a, h);
    }
  }

  lemma SupApplyLands(table: ScoreTable, child: Child, p: Program, st: RunState, a: Advice, h: Digest)
    requires Tracks(table, child, p)
    ensures CallAt(SupApply(st, a, h), Commit(SupervisorApplied, st.revision, None, 0.0)) in p.calls
    ensures forall r :: Config(r, SupApply(st, a, h)) in p.landed ==> Config(r, SupNoteResult(a, h)) in p.goal
  {
    assert OpOf(SupApply(st, a, h)) == Commit(SupervisorApplied, st.revision, None, 0.0);
    forall r | Config(r, SupApply(st, a, h)) in p.landed ensures Config(r, SupNoteResult(a, h)) in p.goal {
      assert Continue(table, r, SupApply(st, a, h), child) == SupNoteResult(a, h);
    }
  }

  lemma SupNoteResultLands(table: ScoreTable, child: Child, p: Program, a: Advice, h: Digest)
    requires Tracks(table, child, p)
    ensures CallAt(SupNoteResult(a, h), Note(SupervisorResult, AdviceReport(true, h, a.Identity()))) in p.calls
    ensures forall r :: Config(r, SupNoteResult(a, h)) in p.landed ==> Config(r, MemRun(Task(None, Some(a.Identity()), None))) in p.goal
  {
    assert OpOf(SupNoteResult(a, h)) == Note(SupervisorResult, AdviceReport(true, h, a.Identity()));
    forall r | Config(r, SupNoteResult(a, h)) in p.landed ensures Config(r, MemRun(Task(None, Some(a.Identity()), None))) in p.goal {
      assert Continue(table, r, SupNoteResult(a, h), child) == MemRun(Task(None, Some(a.Identity()), None));
    }
  }

  // ----- reconcile, cancel and create -----

  function AfterRecLoad(st: RunState): Pc {
    if st.status.Supervising? then RecAdvice(st)
    else if st.status.Running? || st.status.Evaluating? then RecLineage(st)
    else Done
  }

  lemma RecLoadReads(table: ScoreTable, child: Child, p: Program, r: Run)
    requires Tracks(table, child, p) && Config(r, RecLoad) in p.goal
    ensures Config(r, AfterRecLoad(r.state)) in p.goal
  {
    ReadGoesOn(table, child, p, r, RecLoad);
  }

  lemma RecAdviceReads(table: ScoreTable, child: Child, p: Program, r: Run, st: RunState)
    requires Tracks(table, child, p) && Config(r, RecAdvice(st)) in p.goal
    ensures Config(r, if r.advice != [] then RecReplayAdvice(st, r.advice[|r.advice| - 1]) else RecFailSup(st)) in p.goal
  {
    ReadGoesOn(table, child, p, r, RecAdvice(st));
  }

  lemma RecReplayAdviceLands(table: ScoreTable, child: Child, p: Program, st: RunState, a: Advice)
    requires Tracks(table, child, p)
    ensures CallAt(RecReplayAdvice(st, a), Commit(SupervisorApplied, st.revision, None, 0.0)) in p.calls
    ensures forall r :: Config(r, RecReplayAdvice(st, a)) in p.landed ==> Config(r, MemRun(Task(None, Some(a.Identity()), None))) in p.goal
  {
    assert OpOf(RecReplayAdvice(st, a)) == Commit(SupervisorApplied, st.revision, None, 0.0);
    forall r | Config(r, RecReplayAdvice(st, a)) in p.landed ensures Config(r, MemRun(Task(None, Some(a.Identity()), None))) in p.goal {
      assert Continue(table, r, RecReplayAdvice(st, a), child) == MemRun(Task(None, Some(a.Identity()), None));
    }
  }

  lemma RecFailSupLands(table: ScoreTable, child: Child, p: Program, st: RunState)
    requires Tracks(table, child, p)
    ensures CallAt(RecFailSup(st), Commit(SupervisorFailed, st.revision, None, 0.0)) in p.calls
    ensures forall r :: Config(r, RecFailSup(st)) in p.landed ==> Config(r, RecNoteMissingSup) in p.goal
  {
    assert OpOf(RecFailSup(st)) == Commit(SupervisorFailed, st.revision, None, 0.0);
    forall r | Config(r, RecFailSup(st)) in p.landed ensures Config(r, RecNoteMissingSup) in p.goal {
      assert Continue(table, r, RecFailSup(st), child) == RecNoteMissingSup;
    }
  }

  lemma RecNoteMissingSupLands(table: ScoreTable, child: Child, p: Program)
    requires Tracks(table, child, p)
    ensures CallAt(RecNoteMissingSup, Note(SupervisorMissing, Classification("SUPERVISOR_MISSING"))) in p.calls
    ensures forall r :: Config(r, RecNoteMissingSup) in p.landed ==> Config(r, Refresh("SUPERVISOR_MISSING")) in p.goal
  {
    assert OpOf(RecNoteMissingSup) == Note(SupervisorMissing, Classification("SUPERVISOR_MISSING"));
    forall r | Config(r, RecNoteMissingSup) in p.landed ensures Config(r, Refresh("SUPERVISOR_MISSING")) in p.goal {
      assert Continue(table, r, RecNoteMissingSup, child) == Refresh("SUPERVISOR_MISSING");
    }
  }

  function Replaying(st: RunState, c: Candidate, e: Evaluation): Pc {
    if st.status.Running? then RecReady(st, c, e) else RecApply(st, c, e)
  }

  /** The reads of the lineage and of the events. */
  lemma RecEvidenceReads(table: ScoreTable, child: Child, p: Program, r: Run, st: RunState,
                         cs: seq<Candidate>, es: seq<Evaluation>, applied: nat)
    requires Tracks(table, child, p) && Config(r, RecLineage(st)) in p.goal
    requires cs == r.candidates && es == r.evaluations && applied == Applied(r.log)
    ensures |es| <= applied ==> Config(r, RecMiss(st)) in p.goal
    ensures |es| > applied && |cs| == 0 ==> Config(r, Done) in p.raised
    ensures |es| > applied && |cs| > 0 ==> Config(r, Replaying(st, cs[|cs| - 1], es[|es| - 1])) in p.goal
  {
    ReadGoesOn(table, child, p, r, RecLineage(st));
    ReadGoesOn(table, child, p, r, RecEvents(st, cs, es));
  }

  lemma RecReadyLands(table: ScoreTable, child: Child, p: Program, st: RunState, c: Candidate, e: Evaluation)
    requires Tracks(table, child, p)
    ensures CallAt(RecReady(st, c, e), Commit(CandidateReady, st.revision, None, 0.0)) in p.calls
    ensures forall r :: Config(r, RecReady(st, c, e)) in p.landed ==> Config(r, RecApply(r.state, c, e)) in p.goal
  {
    assert OpOf(RecReady(st, c, e)) == Commit(CandidateReady, st.revision, None, 0.0);
    forall r | Config(r, RecReady(st, c, e)) in p.landed ensures Config(r, RecApply(r.state, c, e)) in p.goal {
      assert Continue(table, r, RecReady(st, c, e), child) == RecApply(r.state, c, e);
    }
  }

  lemma RecApplyLands(table: ScoreTable, child: Child, p: Program, st: RunState, c: Candidate, e: Evaluation)
    requires Tracks(table, child, p)
    ensures CallAt(RecApply(st, c, e), Commit(EvaluationEvent(e), st.revision, Credit(c, e), 0.0)) in p.calls
    ensures forall r :: Config(r, RecApply(st, c, e)) in p.landed ==> Config(r, MemRun(Task(None, None, None))) in p.goal
  {
    assert OpOf(RecApply(st, c, e)) == Commit(EvaluationEvent(e), st.revision, Credit(c, e), 0.0);
    forall r | Config(r, RecApply(st, c, e)) in p.landed ensures Config(r, MemRun(Task(None, None, None))) in p.goal {
      assert Continue(table, r, RecApply(st, c, e), child) == MemRun(Task(None, None, None));
    }
  }

  lemma RecMissLands(table: ScoreTable, child: Child, p: Program, st: RunState, event: EventName)
    requires Tracks(table, child, p) && event == if st.status.Running? then Interrupt else EvaluationMissing
    ensures CallAt(RecMiss(st), Commit(event, st.revision, None, 0.0)) in p.calls
    ensures forall r :: Config(r, RecMiss(st)) in p.landed ==> Config(r, RecNoteMiss(st.status.Running?)) in p.goal
  {
    assert OpOf(RecMiss(st)) == Commit(event, st.revision, None, 0.0);
    forall r | Config(r, RecMiss(st)) in p.landed ensures Config(r, RecNoteMiss(st.status.Running?)) in p.goal {
      assert Continue(table, r, RecMiss(st), child) == RecNoteMiss(st.status.Running?);
    }
  }

  lemma RecNoteMissLands(table: ScoreTable, child: Child, p: Program, interrupted: bool, event: EventName, text: string)
    requires Tracks(table, child, p) && event == if interrupted then Interrupted else EvaluationMissing
    requires text == if interrupted then "INTERRUPTED" else "EVALUATION_MISSING"
    ensures CallAt(RecNoteMiss(interrupted), Note(event, Classification(text))) in p.calls
    ensures forall r :: Config(r, RecNoteMiss(interrupted)) in p.landed ==> Config(r, Refresh(text)) in p.goal
  {
    assert OpOf(RecNoteMiss(interrupted)) == Note(event, Classification(text));
    forall r | Config(r, RecNoteMiss(interrupted)) in p.landed ensures Config(r, Refresh(text)) in p.goal {
      assert Continue(table, r, RecNoteMiss(interrupted), child) == Refresh(text);
    }
  }

  lemma CanLoadReads(table: ScoreTable, child: Child, p: Program, r: Run)
    requires Tracks(table, child, p) && Config(r, CanLoad) in p.goal
    ensures if InFlight(r.state) then Config(r, Done) in p.raised else Config(r, CanCommit(r.state)) in p.goal
  {
    ReadGoesOn(table, child, p, r, CanLoad);
  }

  lemma CanCommitLands(table: ScoreTable, child: Child, p: Program, st: RunState)
    requires Tracks(table, child, p)
    ensures CallAt(CanCommit(st), Commit(Cancel, st.revision, None, 0.0)) in p.calls
    ensures forall r :: Config(r, CanCommit(st)) in p.landed ==> Config(r, Refresh("CANCELLED")) in p.goal
  {
    assert OpOf(CanCommit(st)) == Commit(Cancel, st.revision, None, 0.0);
    forall r | Config(r, CanCommit(st)) in p.landed ensures Config(r, Refresh("CANCELLED")) in p.goal {
      assert Continue(table, r, CanCommit(st), child) == Refresh("CANCELLED");
    }
  }

  lemma NewApproveLands(table: ScoreTable, child: Child, p: Program)
    requires Tracks(table, child, p)
    ensures CallAt(NewApprove, Commit(Approve, 0, None, 0.0)) in p.calls
    ensures forall r :: Config(r, NewApprove) in p.landed ==> Config(r, MemRun(Task(None, None, None))) in p.goal
  {
    assert OpOf(NewApprove) == Commit(Approve, 0, None, 0.0);
    forall r | Config(r, NewApprove) in p.landed ensures Config(r, MemRun(Task(None, None, None))) in p.goal {
      assert Continue(table, r, NewApprove, child) == MemRun(Task(None, None, None));
    }
  }
}

/**
 * The operations of controller.py and phase2.py as programs over the ledger's
 * atomic steps: a program counter names the next store call and carries the
 * operation's local variables. A crashed operation is one that takes no more steps.
 */
module Actors {
  import opened Wrappers
  import opened Contracts
  import opened StateMachine
  import opened Ledger
  import opened Iteration
  import Evaluator

  const BASELINE := "baseline"
  const OPERATIONS := "operations"
  const STRATEGY_ALLOWED := "strategy_allowed"
  const OUTPUT_MATCHES := "output_matches"

  /** The fixed score table; it always has a baseline row. */
  type ScoreTable = t: map<string, real> | BASELINE in t witness map[BASELINE := 10.0]

  datatype Variation = Variation(strategy: string, rationale: Rationale)

  datatype Supervision = Supervision(directions: seq<string>, prohibited: seq<string>)

  /** What a child may do: fail to launch, or report; its text parses to a payload or to nothing. */
  datatype Child =
    | LaunchError
    | Report(succeeded: bool, hasSummary: bool, variation: Option<Variation>, supervision: Option<Supervision>, resultHash: Digest)

  /** A memory refresh: its arguments, and the supervise call waiting for it, if any. */
  datatype Task = Task(failure: Option<string>, advice: Option<Digest>, supervise: Option<RunState>)

  datatype Pc =
    | Done
    // the rest of create_run, once the run row is written
    | NewApprove
    // step
    | StepLoad
    | StepStart(st: RunState)
    | StepLaunch(st: RunState)
    | StepLaunchError(st: RunState)
    | StepNoteLaunchError
    | StepNoteResult(st: RunState, child: Child)
    | StepChildFailed(st: RunState, error: string)
    | StepLineage(st: RunState, variation: Variation, resultHash: Digest)
    | StepRecord(st: RunState, c: Candidate, e: Evaluation)
    | StepReady(st: RunState, c: Candidate, e: Evaluation)
    | StepApply(st: RunState, c: Candidate, e: Evaluation)
    // memory refresh
    | MemRun(task: Task)
    | MemPrevious(task: Task, st: RunState)
    | MemLineage(task: Task, st: RunState, previous: Option<Memory>)
    | MemAdvice(task: Task, st: RunState, previous: Option<Memory>, cs: seq<Candidate>, es: seq<Evaluation>)
    | MemSave(task: Task, m: Memory)
    // supervise
    | SupLoad
    | SupAdvice(st: RunState)
    | SupComplete(st: RunState)
    | SupMemory(st: RunState)
    | SupStart(st: RunState, m: Memory)
    | SupLaunch(st: RunState, m: Memory)
    | SupFail(st: RunState, error: string)
    | SupNoteFail(error: string)
    | SupRecord(st: RunState, a: Advice, resultHash: Digest)
    | SupApply(st: RunState, a: Advice, resultHash: Digest)
    | SupNoteResult(a: Advice, resultHash: Digest)
    // reconcile
    | RecLoad
    | RecAdvice(st: RunState)
    | RecReplayAdvice(st: RunState, a: Advice)
    | RecFailSup(st: RunState)
    | RecNoteMissingSup
    | RecLineage(st: RunState)
    | RecEvents(st: RunState, cs: seq<Candidate>, es: seq<Evaluation>)
    | RecReady(st: RunState, c: Candidate, e: Evaluation)
    | RecApply(st: RunState, c: Candidate, e: Evaluation)
    | RecMiss(st: RunState)
    | RecNoteMiss(interrupted: bool)
    // cancel
    | CanLoad
    | CanCommit(st: RunState)

  predicate IsEntry(pc: Pc) {
    pc.StepLoad? || pc.SupLoad? || pc.RecLoad? || pc.CanLoad?
  }

  function Refresh(failure: string): Pc {
    MemRun(Task(Some(failure), None, None))
  }

  function EvaluationEvent(e: Evaluation): EventName {
    if e.eligible then EvaluationEligible else EvaluationIneligible
  }

  function Credit(c: Candidate, e: Evaluation): Option<Digest> {
    if e.eligible then Some(c.Identity()) else None
  }

  /** The store call at pc; launches and reads leave the run as it is. */
  function OpOf(pc: Pc): Op {
    match pc
    case NewApprove => Commit(Approve, 0, None, 0.0)
    case StepStart(st) => Commit(StartStep, st.revision, None, 0.0)
    case StepLaunchError(st) => Commit(ChildFailed, st.revision, None, 0.0)
    case StepNoteLaunchError => Note(ChildLaunchError, Classification("CHILD_LAUNCH_ERROR"))
    case StepNoteResult(_, child) =>
      if child.Report? then Note(ChildResult, ChildReport(child.succeeded, child.resultHash)) else Read
    case StepChildFailed(st, _) => Commit(ChildFailed, st.revision, None, 0.0)
    case StepRecord(_, c, e) => Attempt(c, e)
    case StepReady(st, _, _) => Commit(CandidateReady, st.revision, None, 0.0)
    case StepApply(st, c, e) => Commit(EvaluationEvent(e), st.revision, Credit(c, e), 0.0)
    case MemSave(_, m) => if m.memoryRevision > 0 then Save(m, m.memoryRevision - 1) else Read
    case SupComplete(st) => Commit(Complete, st.revision, None, 0.0)
    case SupStart(st, _) => Commit(StartSupervisor, st.revision, None, 0.0)
    case SupFail(st, _) => Commit(SupervisorFailed, st.revision, None, 0.0)
    case SupNoteFail(error) => Note(SupervisorFailed, Classification(error))
    case SupRecord(_, a, _) => Advise(a)
    case SupApply(st, _, _) => Commit(SupervisorApplied, st.revision, None, 0.0)
    case SupNoteResult(a, h) => Note(SupervisorResult, AdviceReport(true, h, a.Identity()))
    case RecReplayAdvice(st, _) => Commit(SupervisorApplied, st.revision, None, 0.0)
    case RecFailSup(st) => Commit(SupervisorFailed, st.revision, None, 0.0)
    case RecNoteMissingSup => Note(SupervisorMissing, Classification("SUPERVISOR_MISSING"))
    case RecReady(st, _, _) => Commit(CandidateReady, st.revision, None, 0.0)
    case RecApply(st, c, e) => Commit(EvaluationEvent(e), st.revision, Credit(c, e), 0.0)
    case RecMiss(st) => Commit(if st.status.Running? then Interrupt else EvaluationMissing, st.revision, None, 0.0)
    case RecNoteMiss(interrupted) =>
      if interrupted then Note(Interrupted, Classification("INTERRUPTED"))
      else Note(EvaluationMissing, Classification("EVALUATION_MISSING"))
    case CanCommit(st) => Commit(Cancel, st.revision, None, 0.0)
    case _ => Read
  }

  /** The operations score of the latest eligible evaluation, or the table's baseline. */
  function BaselineScore(table: ScoreTable, es: seq<Evaluation>): real {
    if es == [] then table[BASELINE]
    else
      var last := es[|es| - 1];
      if last.eligible && OPERATIONS in last.scores then last.scores[OPERATIONS]
      else BaselineScore(table, es[..|es| - 1])
  }

  function NewCandidate(spec: RunSpec, st: RunState, v: Variation, resultHash: Digest): Candidate {
    Candidate(spec.runId, st.stepsUsed + 1, SpecIdentity(spec), st.bestCandidateHash,
              Sha256(EvidenceText(StrategyArtifact(v.strategy, v.rationale))), resultHash, v.rationale)
  }

  function NewOutcome(v: Variation, score: real): Evaluator.Outcome {
    Evaluator.Outcome(map[STRATEGY_ALLOWED := true, OUTPUT_MATCHES := true], map[OPERATIONS := score],
                      StrategyArtifact(v.strategy, v.rationale))
  }

  /** The number of applied evaluations as reconcile counts them: by event name. */
  function Applied(log: seq<Entry>): nat {
    if log == [] then 0
    else Applied(log[..|log| - 1]) + if IsEvaluationEvent(log[|log| - 1].event) then 1 else 0
  }

  predicate IsEvaluationEvent(e: EventName) {
    e.EvaluationEligible? || e.EvaluationIneligible?
  }

  function LastFive<T>(s: seq<T>): seq<T> {
    if |s| <= 5 then s else s[|s| - 5..]
  }

  function Truncate(s: string): string {
    if |s| <= 300 then s else s[..300]
  }

  function Failures(previous: Option<Memory>, failure: Option<string>): seq<string> {
    var before := if previous.Some? then previous.value.recentFailureSignatures else [];
    if failure.Some? && failure.value != "" then before + [Truncate(failure.value)] else before
  }

  function CandidateHashes(cs: seq<Candidate>): seq<Digest> {
    if cs == [] then [] else CandidateHashes(cs[..|cs| - 1]) + [cs[|cs| - 1].Identity()]
  }

  function EvaluationHashes(es: seq<Evaluation>): seq<Digest> {
    if es == [] then [] else EvaluationHashes(es[..|es| - 1]) + [es[|es| - 1].Identity()]
  }

  function Hypotheses(cs: seq<Candidate>): seq<string> {
    if cs == [] then [] else Hypotheses(cs[..|cs| - 1]) + [Truncate(cs[|cs| - 1].hypothesis)]
  }

  function NextMemory(spec: RunSpec, task: Task, st: RunState, previous: Option<Memory>,
                      cs: seq<Candidate>, es: seq<Evaluation>, advice: seq<Advice>): Memory
  {
    var effective := if task.advice.None? && advice != [] then Some(advice[|advice| - 1].Identity()) else task.advice;
    Memory(SpecIdentity(spec),
           (if previous.Some? then previous.value.memoryRevision else 0) + 1,
           st.status, st.revision, st.bestCandidateHash,
           CandidateHashes(LastFive(cs)), EvaluationHashes(LastFive(es)),
           LastFive(Failures(previous, task.failure)), Hypotheses(LastFive(cs)), effective)
  }

  predicate InStep(pc: Pc) {
    pc.StepLoad? || pc.StepStart? || pc.StepLaunch? || pc.StepLaunchError? || pc.StepNoteLaunchError? ||
    pc.StepNoteResult? || pc.StepChildFailed? || pc.StepLineage? || pc.StepRecord? || pc.StepReady? || pc.StepApply?
  }

  predicate InRefresh(pc: Pc) {
    pc.MemRun? || pc.MemPrevious? || pc.MemLineage? || pc.MemAdvice? || pc.MemSave?
  }

  predicate InSupervise(pc: Pc) {
    pc.SupLoad? || pc.SupAdvice? || pc.SupComplete? || pc.SupMemory? || pc.SupStart? || pc.SupLaunch? ||
    pc.SupFail? || pc.SupNoteFail? || pc.SupRecord? || pc.SupApply? || pc.SupNoteResult?
  }

  /** Where an operation stands after the call at pc succeeded; r is the run as that call left it. */
  function Continue(table: ScoreTable, r: Run, pc: Pc, child: Child): Pc {
    if InStep(pc) then ContinueStep(table, r, pc, child)
    else if InRefresh(pc) then ContinueRefresh(r, pc)
    else if InSupervise(pc) then ContinueSupervise(r, pc, child)
    else ContinueOther(r, pc)
  }

  function ContinueStep(table: ScoreTable, r: Run, pc: Pc, child: Child): Pc
    requires InStep(pc)
  {
    match pc
    case StepLoad => StepStart(r.state)
    case StepStart(_) => StepLaunch(r.state)
    case StepLaunch(st) => if child.LaunchError? then StepLaunchError(st) else StepNoteResult(st, child)
    case StepLaunchError(_) => StepNoteLaunchError
    case StepNoteLaunchError => Refresh("CHILD_LAUNCH_ERROR")
    case StepNoteResult(st, c) =>
      if c.LaunchError? || !c.succeeded || !c.hasSummary then StepChildFailed(st, "CHILD_FAILED")
      else if c.variation.None? then StepChildFailed(st, "INVALID_CHILD_PAYLOAD")
      else if c.variation.value.strategy !in table then StepChildFailed(st, "STRATEGY_NOT_ALLOWED")
      else StepLineage(st, c.variation.value, c.resultHash)
    case StepChildFailed(_, error) => Refresh(error)
    case StepLineage(st, v, h) =>
      if v.strategy !in table then Done
      else
        var c := NewCandidate(r.spec, st, v, h);
        var e := Evaluator.Evaluate(r.spec, c, map[OPERATIONS := BaselineScore(table, r.evaluations)], NewOutcome(v, table[v.strategy]));
        if e.Ok? then StepRecord(st, c, e.value) else Done
    case StepRecord(st, c, e) => StepReady(st, c, e)
    case StepReady(_, c, e) => StepApply(r.state, c, e)
    case StepApply(_, _, _) => MemRun(Task(None, None, None))
  }

  function ContinueRefresh(r: Run, pc: Pc): Pc
    requires InRefresh(pc)
  {
    match pc
    case MemRun(t) => MemPrevious(t, r.state)
    case MemPrevious(t, st) => MemLineage(t, st, r.memory)
    case MemLineage(t, st, previous) => MemAdvice(t, st, previous, r.candidates, r.evaluations)
    case MemAdvice(t, st, previous, cs, es) =>
      var m := NextMemory(r.spec, t, st, previous, cs, es, r.advice);
      if m.Valid() then MemSave(t, m) else Done
    case MemSave(t, m) => if t.supervise.Some? then SupStart(t.supervise.value, m) else Done
  }

  function ContinueSupervise(r: Run, pc: Pc, child: Child): Pc
    requires InSupervise(pc)
  {
    match pc
    case SupLoad => if r.state.status.SupervisionRequired? then SupAdvice(r.state) else Done
    case SupAdvice(st) => if r.advice != [] then SupComplete(st) else SupMemory(st)
    case SupComplete(_) => Refresh("SUPERVISOR_BUDGET_EXHAUSTED")
    case SupMemory(st) => if r.memory.Some? then SupStart(st, r.memory.value) else MemRun(Task(None, None, Some(st)))
    case SupStart(_, m) => SupLaunch(r.state, m)
    case SupLaunch(st, m) =>
      if child.LaunchError? then SupFail(st, "SUPERVISOR_LAUNCH_ERROR")
      else if !child.succeeded || child.supervision.None? then SupFail(st, "INVALID_SUPERVISOR_PAYLOAD")
      else
        var s := child.supervision.value;
        SupRecord(st, Advice(r.spec.runId, SpecIdentity(r.spec), m.Identity(), s.directions, s.prohibited), child.resultHash)
    case SupFail(_, error) => SupNoteFail(error)
    case SupNoteFail(error) => Refresh(error)
    case SupRecord(st, a, h) => SupApply(st, a, h)
    case SupApply(_, a, h) => SupNoteResult(a, h)
    case SupNoteResult(a, _) => MemRun(Task(None, Some(a.Identity()), None))
  }

  /** Creation, reconcile and cancel. */
  function ContinueOther(r: Run, pc: Pc): Pc {
    match pc
    case NewApprove => MemRun(Task(None, None, None))
    case RecLoad =>
      if r.state.status.Supervising? then RecAdvice(r.state)
      else if r.state.status.Running? || r.state.status.Evaluating? then RecLineage(r.state)
      else Done
    case RecAdvice(st) => if r.advice != [] then RecReplayAdvice(st, r.advice[|r.advice| - 1]) else RecFailSup(st)
    case RecReplayAdvice(_, a) => MemRun(Task(None, Some(a.Identity()), None))
    case RecFailSup(_) => RecNoteMissingSup
    case RecNoteMissingSup => Refresh("SUPERVISOR_MISSING")
    case RecLineage(st) => RecEvents(st, r.candidates, r.evaluations)
    case RecEvents(st, cs, es) =>
      if |es| <= Applied(r.log) then RecMiss(st)
      else if cs == [] || es == [] then Done
      else if st.status.Running? then RecReady(st, cs[|cs| - 1], es[|es| - 1])
      else RecApply(st, cs[|cs| - 1], es[|es| - 1])
    case RecReady(_, c, e) => RecApply(r.state, c, e)
    case RecApply(_, _, _) => MemRun(Task(None, None, None))
    case RecMiss(st) => RecNoteMiss(st.status.Running?)
    case RecNoteMiss(interrupted) => Refresh(if interrupted then "INTERRUPTED" else "EVALUATION_MISSING")
    case CanLoad =>
      if r.state.status.Running? || r.state.status.Evaluating? then Done else CanCommit(r.state)
    case CanCommit(_) => Refresh("CANCELLED")
    case _ => Done
  }

  /** One step of an operation: the call at pc, atomically; a failing call raises and ends the operation. */
  function Next(table: ScoreTable, r: Run, pc: Pc, child: Child): (Run, Pc) {
    match Try(r, OpOf(pc))
    case Err(_) => (r, Done)
    case Ok(r') => (r', Continue(table, r', pc, child))
  }

  /** A bound on the steps left, by which every operation ends. */
  function StepsLeft(pc: Pc): nat {
    match pc
    case Done => 0
    case NewApprove => 6
    case MemRun(t) => 5 + SuperviseLeft(t)
    case MemPrevious(t, _) => 4 + SuperviseLeft(t)
    case MemLineage(t, _, _) => 3 + SuperviseLeft(t)
    case MemAdvice(t, _, _, _, _) => 2 + SuperviseLeft(t)
    case MemSave(t, _) => 1 + SuperviseLeft(t)
    case StepApply(_, _, _) => 6
    case StepReady(_, _, _) => 7
    case StepRecord(_, _, _) => 8
    case StepLineage(_, _, _) => 9
    case StepChildFailed(_, _) => 6
    case StepNoteResult(_, _) => 10
    case StepNoteLaunchError => 6
    case StepLaunchError(_) => 7
    case StepLaunch(_) => 11
    case StepStart(_) => 12
    case StepLoad => 13
    case SupNoteFail(_) => 6
    case SupFail(_, _) => 7
    case SupNoteResult(_, _) => 6
    case SupApply(_, _, _) => 7
    case SupRecord(_, _, _) => 8
    case SupLaunch(_, _) => 9
    case SupStart(_, _) => 10
    case SupMemory(_) => 16
    case SupComplete(_) => 6
    case SupAdvice(_) => 17
    case SupLoad => 18
    case RecNoteMiss(_) => 6
    case RecMiss(_) => 7
    case RecApply(_, _, _) => 6
    case RecReady(_, _, _) => 7
    case RecEvents(_, _, _) => 8
    case RecLineage(_) => 9
    case RecNoteMissingSup => 6
    case RecFailSup(_) => 7
    case RecReplayAdvice(_, _) => 6
    case RecAdvice(_) => 8
    case RecLoad => 10
    case CanCommit(_) => 6
    case CanLoad => 7
  }

  function SuperviseLeft(t: Task): nat {
    if t.supervise.Some? then 10 else 0
  }

  lemma NextShortens(table: ScoreTable, r: Run, pc: Pc, child: Child)
    requires !pc.Done?
    ensures StepsLeft(Next(table, r, pc, child).1) < StepsLeft(pc)
  {
    ContinueShortens(table, Exec(r, OpOf(pc)), pc, child);
  }

  lemma ContinueShortens(table: ScoreTable, r: Run, pc: Pc, child: Child)
    requires !pc.Done?
    ensures StepsLeft(Continue(table, r, pc, child)) < StepsLeft(pc)
  {
    if InStep(pc) {
      StepShortens(table, r, pc, child);
    } else if InRefresh(pc) {
      RefreshShortens(r, pc);
    } else if InSupervise(pc) {
      SuperviseShortens(r, pc, child);
    } else {
      OtherShortens(r, pc);
    }
  }

  lemma StepShortens(table: ScoreTable, r: Run, pc: Pc, child: Child)
    requires InStep(pc)
    ensures StepsLeft(ContinueStep(table, r, pc, child)) < StepsLeft(pc)
  {
  }

  lemma RefreshShortens(r: Run, pc: Pc)
    requires InRefresh(pc)
    ensures StepsLeft(ContinueRefresh(r, pc)) < StepsLeft(pc)
  {
  }

  lemma SuperviseShortens(r: Run, pc: Pc, child: Child)
    requires InSupervise(pc)
    ensures StepsLeft(ContinueSupervise(r, pc, child)) < StepsLeft(pc)
  {
  }

  lemma OtherShortens(r: Run, pc: Pc)
    requires !pc.Done? && !InStep(pc) && !InRefresh(pc) && !InSupervise(pc)
    ensures StepsLeft(ContinueOther(r, pc)) < StepsLeft(pc)
  {
  }

  /** An operation at a program point, and the run it works on. */
  datatype Config = Config(run: Run, pc: Pc)

  function Stepper(table: ScoreTable, child: Child): Config -> Config {
    (x: Config) => var (r', pc') := Next(table, x.run, x.pc, child); Config(r', pc')
  }

  function Rank(): Config -> nat {
    (x: Config) => StepsLeft(x.pc)
  }

  /** Run an operation for at most n steps, as when it crashes after the n-th. */
  function RunFor(table: ScoreTable, r: Run, pc: Pc, child: Child, n: nat): Config {
    Iterate(Stepper(table, child), Config(r, pc), n)
  }

  /** Run an operation to its end without interruption. */
  function Finish(table: ScoreTable, r: Run, pc: Pc, child: Child): Run {
    RunFor(table, r, pc, child, StepsLeft(pc)).run
  }

  lemma StepperRanked(table: ScoreTable, child: Child)
    ensures Ranked(Stepper(table, child), Rank())
  {
    forall x: Config
      ensures if Rank()(x) == 0 then Stepper(table, child)(x) == x
              else Rank()(Stepper(table, child)(x)) < Rank()(x)
    {
      RankZeroIsDone(x.pc);
      if x.pc.Done? {
        assert Next(table, x.run, Done, child) == (x.run, Done);
      } else {
        NextShortens(table, x.run, x.pc, child);
      }
    }
  }

  lemma RankZeroIsDone(pc: Pc)
    ensures StepsLeft(pc) == 0 <==> pc.Done?
  {
  }

  lemma DoneStays(table: ScoreTable, r: Run, child: Child)
    ensures Next(table, r, Done, child) == (r, Done)
  {
  }

  /** Finishing after one step is finishing. */
  lemma FinishAfterStep(table: ScoreTable, child: Child, x: Config)
    requires !x.pc.Done?
    ensures var y := Stepper(table, child)(x); Finish(table, y.run, y.pc, child) == Finish(table, x.run, x.pc, child)
  {
    StepperRanked(table, child);
    RankZeroIsDone(x.pc);
    var step, y := Stepper(table, child), Stepper(table, child)(x);
    assert Rank()(y) < Rank()(x) by { NextShortens(table, x.run, x.pc, child); }
    IterateRests(step, Rank(), y, StepsLeft(x.pc) - 1);
    assert Iterate(step, x, StepsLeft(x.pc)) == Iterate(step, y, StepsLeft(x.pc) - 1);
    assert Config(x.run, x.pc) == x && Config(y.run, y.pc) == y;
  }
}

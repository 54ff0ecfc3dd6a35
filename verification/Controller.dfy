/**
 * Phase2Controller of phase2.py, over Phase1Controller of controller.py, as methods
 * on the store. An operation that nobody else interferes with takes the ledger of its
 * run where the program of Actors takes it, to the end, and no other run changes.
 * The ghost parameters name the tables the operation began with and the program it follows.
 */
module Controller {
  import opened Wrappers
  import opened Contracts
  import opened StateMachine
  import opened RunHistory
  import opened Ledger
  import opened Actors
  import opened Store
  import opened ProgramPoints
  import opened Completion
  import opened MemoryContract
  import Effects
  import Evaluator

  datatype ControllerError =
    | PhaseDisabled | Raised(error: StoreError) | InFlightCancel | NotSupervisionRequired | NoMemory
    | NotJudged(reason: Evaluator.EvaluationError) | NoRows | InvalidMemory

  datatype StepReport = StepReport(status: Status, eligible: bool, error: Option<string>)

  datatype SuperviseReport = SuperviseReport(status: Status, error: Option<string>)

  datatype Action = Noop | SupervisorReplayed | AdviceMissing | EvaluationReplayed | WasInterrupted | EvaluationLost

  datatype ReconcileReport = ReconcileReport(status: Status, action: Action)

  datatype MemoryReport = MemoryReport(memory: Memory, stale: bool, currentRevision: nat, currentStatus: Status)

  /** The error a step reports: what its child did wrong. */
  function StepError(table: ScoreTable, child: Child): Option<string> {
    match child
    case LaunchError => Some("CHILD_LAUNCH_ERROR")
    case Report(succeeded, hasSummary, variation, _, _) =>
      if !succeeded || !hasSummary then Some("CHILD_FAILED")
      else if variation.None? then Some("INVALID_CHILD_PAYLOAD")
      else if variation.value.strategy !in table then Some("STRATEGY_NOT_ALLOWED")
      else None
  }

  /** A step without error recorded one more evaluation and reports its verdict; one with an error recorded nothing. */
  ghost predicate Reported(es: seq<Evaluation>, es': seq<Evaluation>, report: StepReport, error: Option<string>) {
    && report.error == error
    && if error.Some? then es' == es && !report.eligible
       else es' != [] && es'[..|es'| - 1] == es && report.eligible == es'[|es'| - 1].eligible
  }

  lemma VerdictReported(es: seq<Evaluation>, e: Evaluation, report: StepReport)
    requires report.error == None && report.eligible == e.eligible
    ensures Reported(es, es + [e], report, None)
  {
    assert (es + [e])[..|es|] == es;
  }

  /** The error a supervise reports. */
  function SuperviseError(advice: seq<Advice>, child: Child): Option<string> {
    if advice != [] then Some("SUPERVISOR_BUDGET_EXHAUSTED")
    else match child
      case LaunchError => Some("SUPERVISOR_LAUNCH_ERROR")
      case Report(succeeded, _, _, supervision, _) =>
        if !succeeded || supervision.None? then Some("INVALID_SUPERVISOR_PAYLOAD") else None
  }

  /** What a reconcile makes of the evidence it finds. */
  function ActionFor(r: Run): Action {
    if r.state.status.Supervising? then if r.advice != [] then SupervisorReplayed else AdviceMissing
    else if !InFlight(r.state) then Noop
    else if |r.evaluations| > Applied(r.log) then EvaluationReplayed
    else if r.state.status.Running? then WasInterrupted
    else EvaluationLost
  }

  /** m is the record of a refresh of r. */
  ghost predicate TellsOf(m: Memory, r: Run, failure: Option<string>, advice: Option<Digest>) {
    Tells(m, r.spec, failure, advice, r.state, r.memory, r.candidates, r.evaluations, r.advice)
  }

  /** A new run: approved and ready, with its first memory, and nothing else. */
  ghost predicate StartedWell(r: Run, report: Result<RunState, ControllerError>) {
    && report == Ok(r.state) && r.state == NewState(SpecIdentity(r.spec)).(status := Ready, revision := 1)
    && r.memory.Some? && Tells(r.memory.value, r.spec, None, None, r.state, None, [], [], [])
    && r.candidates == [] && r.evaluations == [] && r.advice == []
  }

  lemma NewRunStartsWell(table: ScoreTable, r: Run, child: Child, report: Result<RunState, ControllerError>)
    requires r == Create(r.spec)
    requires report.Ok? <==> Returns(table, r, NewApprove, child)
    requires report.Ok? ==> report.value == Finish(table, r, NewApprove, child).state
    ensures StartedWell(Finish(table, r, NewApprove, child), report)
  {
    hide Finish, Returns;
    CreationCompletes(table, r.spec, child);
  }

  ghost predicate Sound(t: Tables) {
    t.Valid() && t.Owned()
  }

  /** Since t0 only run id changed, and its operation, at pc, is one of those in `where`. */
  ghost predicate Stands(t0: Tables, t: Tables, id: string, pc: Pc, where: iset<Config>) {
    && t0.Valid() && id in t0.runs && Sound(t) && id in t.runs
    && Only(t0, t, id, t.View(id))
    && Config(t.View(id), pc) in where
  }

  /** The operation is over; it returned normally, or else it raised. */
  ghost predicate IsOver(t0: Tables, t: Tables, id: string, p: Program, ok: bool) {
    Stands(t0, t, id, Done, if ok then p.goal else p.raised)
  }

  /**
   * The ledger of run id went where the program takes it from pc, no other ledger changed, and the
   * operation returned normally exactly when the program does.
   */
  ghost predicate RanToEnd(table: ScoreTable, t0: Tables, t: Tables, id: string, pc: Pc, child: Child, ok: bool)
    requires t0.Valid() && id in t0.runs
  {
    && Sound(t) && Only(t0, t, id, Finish(table, t0.View(id), pc, child))
    && (ok <==> Returns(table, t0.View(id), pc, child))
  }

  lemma StandsSound(t0: Tables, t: Tables, id: string, pc: Pc, where: iset<Config>)
    requires Stands(t0, t, id, pc, where)
    ensures Sound(t) && id in t.runs && Config(t.View(id), pc) in where
  {
  }

  lemma StandsAt(t0: Tables, t: Tables, id: string, pc: Pc, pc': Pc, where: iset<Config>)
    requires Stands(t0, t, id, pc, where) && t.Valid() && id in t.runs && Config(t.View(id), pc') in where
    ensures Stands(t0, t, id, pc', where)
  {
  }

  lemma EndReached(table: ScoreTable, t0: Tables, t: Tables, id: string, pc: Pc, child: Child, p: Program, ok: bool)
    requires t0.Valid() && id in t0.runs && IsOver(t0, t, id, p, ok)
    requires t.View(id) == Finish(table, t0.View(id), pc, child) && (ok <==> Returns(table, t0.View(id), pc, child))
    ensures RanToEnd(table, t0, t, id, pc, child, ok)
  {
    hide Finish, Returns, Sound;
  }

  /** A store call made at pc. */
  lemma Call(table: ScoreTable, child: Child, p: Program, t0: Tables, t: Tables, t': Tables, id: string, pc: Pc, op: Op, ok: bool)
    requires Tracks(table, child, p) && Stands(t0, t, id, pc, p.goal) && CallAt(pc, op) in p.calls
    requires t'.Owned() && Took(t, t', id, op) && (ok <==> Try(t.View(id), op).Ok?)
    ensures Sound(t') && id in t'.runs && t'.View(id) == Exec(t.View(id), op)
    ensures if ok then Stands(t0, t', id, pc, p.landed) else Stands(t0, t', id, Done, p.raised)
  {
    CallLands(table, child, p, t.View(id), pc, op);
    OnlyTwice(t0, t, t', id, t.View(id), Exec(t.View(id), op));
  }

  /** A reconcile goes on with the last advice of its run, or misses it. */
  lemma AdviceRead(table: ScoreTable, child: Child, p: Program, t0: Tables, t: Tables, id: string, state: RunState, advice: seq<Advice>)
    requires Tracks(table, child, p) && Stands(t0, t, id, RecAdvice(state), p.goal) && advice == t.View(id).advice
    ensures Stands(t0, t, id, if advice != [] then RecReplayAdvice(state, advice[|advice| - 1]) else RecFailSup(state), p.goal)
  {
    hide Tracks, Only;
    RecAdviceReads(table, child, p, t.View(id), state);
  }

  /** What a call other than one that records an attempt leaves as it was. */
  ghost predicate Calm(r: Run, r': Run) {
    r'.spec == r.spec && r'.evaluations == r.evaluations
  }

  lemma ExecIsCalm(r: Run, op: Op)
    requires !op.Attempt? && !op.SandboxAttempt?
    ensures Calm(r, Exec(r, op))
  {
  }

  lemma AttemptAppends(r: Run, c: Candidate, e: Evaluation)
    ensures Try(r, Attempt(c, e)).Ok? ==> Exec(r, Attempt(c, e)).evaluations == r.evaluations + [e]
  {
  }

  lemma NoteSucceeds(r: Run, event: EventName, payload: Payload)
    ensures Try(r, Note(event, payload)).Ok? && Exec(r, Note(event, payload)).state == r.state
  {
  }

  lemma SaveKeepsState(r: Run, m: Memory, expected: nat)
    ensures Exec(r, Save(m, expected)).state == r.state
    ensures Try(r, Save(m, expected)).Ok? ==> Exec(r, Save(m, expected)).memory == Some(m)
    ensures Try(r, Save(m, expected)).Ok? <==> MemoryRevision(r) == expected == m.memoryRevision - 1
  {
  }

  lemma FreshIs(spec: RunSpec, task: Task, st: RunState, previous: Option<Memory>,
                cs: seq<Candidate>, es: seq<Evaluation>, advice: seq<Advice>, m: Memory)
    requires m.runSpecHash == SpecIdentity(spec)
    requires m.memoryRevision == (if previous.None? then 0 else previous.value.memoryRevision) + 1
    requires m.runStatus == st.status && m.stateRevision == st.revision && m.bestCandidateHash == st.bestCandidateHash
    requires m.recentCandidateHashes == CandidateHashes(LastFive(cs)) && m.recentEvaluationHashes == EvaluationHashes(LastFive(es))
    requires m.recentFailureSignatures == LastFive(Failures(previous, task.failure))
    requires m.triedHypotheses == Hypotheses(LastFive(cs))
    requires m.supervisorAdviceHash ==
             if task.advice.None? && advice != [] then Some(advice[|advice| - 1].Identity()) else task.advice
    ensures m == NextMemory(spec, task, st, previous, cs, es, advice)
  {
  }

  /** The search for a baseline: the latest eligible evaluation with an operations score. */
  method SelectBaseline(table: ScoreTable, es: seq<Evaluation>) returns (score: real)
    ensures score == BaselineScore(table, es)
  {
    score := table[BASELINE];
    var i := |es|;
    assert es[..i] == es;
    while i > 0
      invariant 0 <= i <= |es|
      invariant score == table[BASELINE]
      invariant BaselineScore(table, es) == BaselineScore(table, es[..i])
    {
      i := i - 1;
      assert es[..i + 1][..i] == es[..i];
      if es[i].eligible && OPERATIONS in es[i].scores {
        score := es[i].scores[OPERATIONS];
        break;
      }
    }
    assert i == 0 ==> es[..i] == [];
  }

  /** The failures on record before a refresh. */
  function Window(previous: Option<Memory>): seq<string> {
    if previous.Some? then previous.value.recentFailureSignatures else []
  }

  predicate Failed(failure: Option<string>) {
    failure.Some? && failure.value != ""
  }

  /** The old window stays in front; a failure adds one signature, its text cut to 300 characters, and nothing else does. */
  method AppendFailure(previous: Option<Memory>, failure: Option<string>) returns (failures: seq<string>)
    ensures Window(previous) <= failures
    ensures |failures| == |Window(previous)| + if Failed(failure) then 1 else 0
    ensures Failed(failure) ==>
              var signature := failures[|failures| - 1];
              signature <= failure.value && (|signature| == 300 || (|signature| < 300 && signature == failure.value))
  {
    failures := if previous.Some? then previous.value.recentFailureSignatures else [];
    if failure.Some? && failure.value != "" {
      failures := failures + [Truncate(failure.value)];
    }
  }

  /** That determines the failures of the next record. */
  lemma AppendedFailures(previous: Option<Memory>, failure: Option<string>, failures: seq<string>)
    requires Window(previous) <= failures
    requires |failures| == |Window(previous)| + if Failed(failure) then 1 else 0
    requires Failed(failure) ==>
               var signature := failures[|failures| - 1];
               signature <= failure.value && (|signature| == 300 || (|signature| < 300 && signature == failure.value))
    ensures failures == Failures(previous, failure)
  {
    if Failed(failure) {
      var n := |failures| - 1;
      assert failures == failures[..n] + [failures[n]] && failures[..n] == Window(previous);
      assert failures[n] == failure.value[..|failures[n]|];
      assert |failure.value| <= 300 ==> failures[n] == failure.value;
    } else {
      assert failures == Window(previous);
    }
  }

  class Phase2Controller {
    const store: RunStore
    const table: ScoreTable
    const enabled: bool

    constructor (store: RunStore, table: ScoreTable, enabled: bool)
      ensures this.store == store && this.table == table && this.enabled == enabled
    {
      this.store, this.table, this.enabled := store, table, enabled;
    }

    // ----- store calls at a program point -----

    method Commit(id: string, event: EventName, expected: nat, candidate: Option<Digest>,
                  ghost t0: Tables, ghost pc: Pc, ghost child: Child, ghost p: Program)
      returns (r: Result<RunState, ControllerError>)
      requires Tracks(table, child, p) && Stands(t0, store.Contents(), id, pc, p.goal)
      requires CallAt(pc, Op.Commit(event, expected, candidate, 0.0)) in p.calls
      modifies store
      ensures Sound(store.Contents()) && id in store.runs
      ensures if r.Ok? then Stands(t0, store.Contents(), id, pc, p.landed) else Stands(t0, store.Contents(), id, Done, p.raised)
      ensures r.Ok? ==> r.value == store.Contents().View(id).state
      ensures Calm(old(store.Contents()).View(id), store.Contents().View(id))
    {
      hide Calm, Tracks, Only, ApplyTransition;
      ghost var t := store.Contents();
      var updated := store.Transition(id, event, expected, candidate, 0.0);
      Call(table, child, p, t0, t, store.Contents(), id, pc, Op.Commit(event, expected, candidate, 0.0), updated.Ok?);
      ExecIsCalm(t.View(id), Op.Commit(event, expected, candidate, 0.0));
      return if updated.Ok? then Ok(updated.value) else Err(Raised(updated.error));
    }

    method Observe(id: string, event: EventName, payload: Payload,
                   ghost t0: Tables, ghost pc: Pc, ghost child: Child, ghost p: Program)
      requires Tracks(table, child, p) && Stands(t0, store.Contents(), id, pc, p.goal)
      requires CallAt(pc, Note(event, payload)) in p.calls
      modifies store
      ensures Sound(store.Contents()) && id in store.runs
      ensures Stands(t0, store.Contents(), id, pc, p.landed)
      ensures store.Contents().View(id).state == old(store.Contents()).View(id).state
      ensures Calm(old(store.Contents()).View(id), store.Contents().View(id))
    {
      ghost var t := store.Contents();
      var noted := store.RecordObservation(id, event, payload);
      NoteSucceeds(t.View(id), event, payload);
      Call(table, child, p, t0, t, store.Contents(), id, pc, Note(event, payload), true);
      ExecIsCalm(t.View(id), Note(event, payload));
    }

    method Record(id: string, c: Candidate, e: Evaluation,
                  ghost t0: Tables, ghost pc: Pc, ghost child: Child, ghost p: Program)
      returns (r: Result<(), ControllerError>)
      requires Tracks(table, child, p) && Stands(t0, store.Contents(), id, pc, p.goal)
      requires CallAt(pc, Attempt(c, e)) in p.calls && c.runId == id && e.candidateHash == c.Identity()
      modifies store
      ensures Sound(store.Contents()) && id in store.runs
      ensures r.Ok? ==> store.Contents().View(id).evaluations == old(store.Contents()).View(id).evaluations + [e]
      ensures if r.Ok? then Stands(t0, store.Contents(), id, pc, p.landed) else Stands(t0, store.Contents(), id, Done, p.raised)
    {
      ghost var t := store.Contents();
      var recorded := store.RecordAttempt(id, c, e);
      AttemptIsLedgerStep(t, id, c, e);
      Call(table, child, p, t0, t, store.Contents(), id, pc, Attempt(c, e), recorded.Ok?);
      AttemptAppends(t.View(id), c, e);
      return if recorded.Ok? then Ok(()) else Err(Raised(recorded.error));
    }

    method Advise(id: string, a: Advice,
                  ghost t0: Tables, ghost pc: Pc, ghost child: Child, ghost p: Program)
      returns (r: Result<(), ControllerError>)
      requires Tracks(table, child, p) && Stands(t0, store.Contents(), id, pc, p.goal)
      requires CallAt(pc, Op.Advise(a)) in p.calls && a.runId == id
      modifies store
      ensures Sound(store.Contents()) && id in store.runs
      ensures if r.Ok? then Stands(t0, store.Contents(), id, pc, p.landed) else Stands(t0, store.Contents(), id, Done, p.raised)
    {
      ghost var t := store.Contents();
      var recorded := store.RecordSupervisorAdvice(id, a);
      AdviceIsLedgerStep(t, id, a);
      Call(table, child, p, t0, t, store.Contents(), id, pc, Op.Advise(a), recorded.Ok?);
      return if recorded.Ok? then Ok(()) else Err(Raised(recorded.error));
    }

    method SaveRecord(id: string, m: Memory, expected: nat,
                      ghost t0: Tables, ghost pc: Pc, ghost child: Child, ghost p: Program)
      returns (r: Result<(), ControllerError>)
      requires Tracks(table, child, p) && Stands(t0, store.Contents(), id, pc, p.goal)
      requires CallAt(pc, Save(m, expected)) in p.calls
      modifies store
      ensures Sound(store.Contents()) && id in store.runs
      ensures if r.Ok? then Stands(t0, store.Contents(), id, pc, p.landed) else Stands(t0, store.Contents(), id, Done, p.raised)
      ensures store.Contents().View(id).state == old(store.Contents()).View(id).state
      ensures r.Ok? ==> store.Contents().View(id).memory == Some(m)
      ensures Calm(old(store.Contents()).View(id), store.Contents().View(id))
    {
      ghost var t := store.Contents();
      var saved := store.SaveMemory(id, m, expected);
      SaveKeepsState(t.View(id), m, expected);
      Call(table, child, p, t0, t, store.Contents(), id, pc, Save(m, expected), saved.Ok?);
      ExecIsCalm(t.View(id), Save(m, expected));
      return if saved.Ok? then Ok(()) else Err(Raised(saved.error));
    }

    // ----- memory -----

    method RefreshMemory(id: string, failure: Option<string>, advice: Option<Digest>, ghost supervise: Option<RunState>,
                         ghost t0: Tables, ghost child: Child, ghost p: Program)
      returns (r: Result<Memory, ControllerError>)
      requires Tracks(table, child, p) && Stands(t0, store.Contents(), id, MemRun(Task(failure, advice, supervise)), p.goal)
      modifies store
      ensures Sound(store.Contents()) && id in store.runs
      ensures if r.Ok? then Stands(t0, store.Contents(), id, AfterSave(Task(failure, advice, supervise), r.value), p.goal)
              else Stands(t0, store.Contents(), id, Done, p.raised)
      ensures r.Ok? ==> store.Contents().View(id).memory == Some(r.value) && TellsOf(r.value, old(store.Contents()).View(id), failure, advice)
      ensures store.Contents().View(id).state == old(store.Contents()).View(id).state
      ensures Calm(old(store.Contents()).View(id), store.Contents().View(id))
    {
      ghost var task := Task(failure, advice, supervise);
      r := NewMemory(id, failure, advice, supervise, t0, child, p);
      if r.Ok? {
        var expected := r.value.memoryRevision - 1;
        MemSaveLands(table, child, p, task, r.value, expected);
        var saved := SaveRecord(id, r.value, expected, t0, MemSave(task, r.value), child, p);
        if saved.Err? {
          return Err(saved.error);
        }
      }
    }

    /** A refresh that ends its operation. */
    method RefreshLast(id: string, failure: Option<string>, advice: Option<Digest>,
                       ghost t0: Tables, ghost child: Child, ghost p: Program)
      returns (r: Result<Memory, ControllerError>)
      requires Tracks(table, child, p) && Stands(t0, store.Contents(), id, MemRun(Task(failure, advice, None)), p.goal)
      modifies store
      ensures Sound(store.Contents()) && id in store.runs && IsOver(t0, store.Contents(), id, p, r.Ok?)
      ensures store.Contents().View(id).state == old(store.Contents()).View(id).state
      ensures Calm(old(store.Contents()).View(id), store.Contents().View(id))
    {
      hide Tracks, Stands, Calm, Sound;
      r := RefreshMemory(id, failure, advice, None, t0, child, p);
    }

    /** The record that a refresh is going to save. */
    method NewMemory(id: string, failure: Option<string>, advice: Option<Digest>, ghost supervise: Option<RunState>,
                     ghost t0: Tables, ghost child: Child, ghost p: Program)
      returns (r: Result<Memory, ControllerError>)
      requires Tracks(table, child, p) && Stands(t0, store.Contents(), id, MemRun(Task(failure, advice, supervise)), p.goal)
      ensures r.Ok? ==> r.value.memoryRevision > 0
      ensures if r.Ok? then Stands(t0, store.Contents(), id, MemSave(Task(failure, advice, supervise), r.value), p.goal)
              else Stands(t0, store.Contents(), id, Done, p.raised)
      ensures r.Ok? ==> TellsOf(r.value, store.Contents().View(id), failure, advice)
    {
      hide Tracks, Only, NextMemory, Failures, Tells;
      var loaded := store.LoadRun(id);
      var (spec, state) := loaded.value;
      var previous := store.LoadMemory(id);
      var cs, es := store.Lineage(id);
      var failures := AppendFailure(previous, failure);
      AppendedFailures(previous, failure, failures);
      var stored := store.SupervisorAdvice(id);
      var effective := if advice.None? && stored != [] then Some(stored[|stored| - 1].Identity()) else advice;
      var current := if previous.None? then 0 else previous.value.memoryRevision;
      var memory := Memory(SpecIdentity(spec), current + 1, state.status, state.revision, state.bestCandidateHash,
                           CandidateHashes(LastFive(cs)), EvaluationHashes(LastFive(es)),
                           LastFive(failures), Hypotheses(LastFive(cs)), effective);
      FreshIs(spec, Task(failure, advice, supervise), state, previous, cs, es, stored, memory);
      NextMemoryTells(spec, Task(failure, advice, supervise), state, previous, cs, es, stored);
      RefreshReads(table, child, p, store.Contents().View(id), Task(failure, advice, supervise));
      return if memory.Valid() then Ok(memory) else Err(InvalidMemory);
    }

    // ----- step -----

    /** Phase1Controller.step: one attempt, up to the refresh that Phase 2 appends to it. */
    method AttemptStep(id: string, child: Child, ghost t0: Tables, ghost p: Program)
      returns (r: Result<StepReport, ControllerError>)
      requires Tracks(table, child, p) && Stands(t0, store.Contents(), id, StepLoad, p.goal)
      modifies store
      ensures Sound(store.Contents()) && id in store.runs
      ensures if r.Ok? then Stands(t0, store.Contents(), id, MemRun(Task(r.value.error, None, None)), p.goal)
              else Stands(t0, store.Contents(), id, Done, p.raised)
      ensures r.Ok? ==> r.value.status == store.Contents().View(id).state.status
      ensures r.Ok? ==>
                Reported(old(store.Contents()).View(id).evaluations, store.Contents().View(id).evaluations, r.value, StepError(table, child))
    {
      hide Tracks, Only;
      var loaded := store.LoadRun(id);
      var (spec, state) := loaded.value;
      StepLoadReads(table, child, p, store.Contents().View(id));
      StepStartLands(table, child, p, state);
      var started := Commit(id, StartStep, state.revision, None, t0, StepStart(state), child, p);
      if started.Err? {
        return Err(started.error);
      }
      state := started.value;
      StepLaunches(table, child, p, store.Contents().View(id), state);
      if child.LaunchError? {
        r := FailLaunch(id, state, t0, child, p);
      } else {
        r := JudgeChild(id, spec, state, child, t0, p);
      }
    }

    method FailLaunch(id: string, state: RunState, ghost t0: Tables, ghost child: Child, ghost p: Program)
      returns (r: Result<StepReport, ControllerError>)
      requires Tracks(table, child, p) && Stands(t0, store.Contents(), id, StepLaunchError(state), p.goal)
      modifies store
      ensures Sound(store.Contents()) && id in store.runs
      ensures if r.Ok? then Stands(t0, store.Contents(), id, MemRun(Task(r.value.error, None, None)), p.goal)
              else Stands(t0, store.Contents(), id, Done, p.raised)
      ensures r.Ok? ==> r.value.status == store.Contents().View(id).state.status
      ensures r.Ok? ==>
                Reported(old(store.Contents()).View(id).evaluations, store.Contents().View(id).evaluations, r.value, Some("CHILD_LAUNCH_ERROR"))
    {
      hide Tracks, Only, Sound;
      StepLaunchErrorLands(table, child, p, state);
      var failed := Commit(id, ChildFailed, state.revision, None, t0, StepLaunchError(state), child, p);
      if failed.Err? {
        return Err(failed.error);
      }
      StepNoteLaunchErrorLands(table, child, p);
      Observe(id, ChildLaunchError, Classification("CHILD_LAUNCH_ERROR"), t0, StepNoteLaunchError, child, p);
      return Ok(StepReport(failed.value.status, false, Some("CHILD_LAUNCH_ERROR")));
    }

    method FailChild(id: string, state: RunState, error: string, ghost t0: Tables, ghost child: Child, ghost p: Program)
      returns (r: Result<StepReport, ControllerError>)
      requires Tracks(table, child, p) && Stands(t0, store.Contents(), id, StepChildFailed(state, error), p.goal)
      modifies store
      ensures Sound(store.Contents()) && id in store.runs
      ensures if r.Ok? then Stands(t0, store.Contents(), id, MemRun(Task(r.value.error, None, None)), p.goal)
              else Stands(t0, store.Contents(), id, Done, p.raised)
      ensures r.Ok? ==> r.value.status == store.Contents().View(id).state.status
      ensures r.Ok? ==>
                Reported(old(store.Contents()).View(id).evaluations, store.Contents().View(id).evaluations, r.value, Some(error))
    {
      hide Tracks, Only, Sound;
      StepChildFailedLands(table, child, p, state, error);
      var failed := Commit(id, ChildFailed, state.revision, None, t0, StepChildFailed(state, error), child, p);
      if failed.Err? {
        return Err(failed.error);
      }
      return Ok(StepReport(failed.value.status, false, Some(error)));
    }

    /** What the child reported is noted, and then judged. */
    method JudgeChild(id: string, spec: RunSpec, state: RunState, child: Child, ghost t0: Tables, ghost p: Program)
      returns (r: Result<StepReport, ControllerError>)
      requires Tracks(table, child, p) && child.Report? && Stands(t0, store.Contents(), id, StepNoteResult(state, child), p.goal)
      requires spec == store.Contents().View(id).spec
      modifies store
      ensures Sound(store.Contents()) && id in store.runs
      ensures if r.Ok? then Stands(t0, store.Contents(), id, MemRun(Task(r.value.error, None, None)), p.goal)
              else Stands(t0, store.Contents(), id, Done, p.raised)
      ensures r.Ok? ==> r.value.status == store.Contents().View(id).state.status
      ensures r.Ok? ==>
                Reported(old(store.Contents()).View(id).evaluations, store.Contents().View(id).evaluations, r.value, StepError(table, child))
    {
      hide Tracks, Only, Sound, Reported;
      StepNoteResultLands(table, child, p, state);
      Observe(id, ChildResult, ChildReport(child.succeeded, child.resultHash), t0, StepNoteResult(state, child), child, p);
      if !child.succeeded || !child.hasSummary {
        r := FailChild(id, state, "CHILD_FAILED", t0, child, p);
      } else if child.variation.None? {
        r := FailChild(id, state, "INVALID_CHILD_PAYLOAD", t0, child, p);
      } else if child.variation.value.strategy !in table {
        r := FailChild(id, state, "STRATEGY_NOT_ALLOWED", t0, child, p);
      } else {
        r := JudgeVariation(id, spec, state, child.variation.value, child.resultHash, t0, child, p);
      }
    }

    /** Judge the candidate against the baseline found in the lineage, record both and apply the verdict. */
    method JudgeVariation(id: string, spec: RunSpec, state: RunState, variation: Variation, resultHash: Digest,
                          ghost t0: Tables, ghost child: Child, ghost p: Program)
      returns (r: Result<StepReport, ControllerError>)
      requires Tracks(table, child, p) && Stands(t0, store.Contents(), id, StepLineage(state, variation, resultHash), p.goal)
      requires spec == store.Contents().View(id).spec && variation.strategy in table
      modifies store
      ensures Sound(store.Contents()) && id in store.runs
      ensures if r.Ok? then Stands(t0, store.Contents(), id, MemRun(Task(r.value.error, None, None)), p.goal)
              else Stands(t0, store.Contents(), id, Done, p.raised)
      ensures r.Ok? ==> r.value.status == store.Contents().View(id).state.status
      ensures r.Ok? ==>
                Reported(old(store.Contents()).View(id).evaluations, store.Contents().View(id).evaluations, r.value, None)
    {
      hide Tracks, Only, Reported;
      var candidate := NewCandidate(spec, state, variation, resultHash);
      var outcome := NewOutcome(variation, table[variation.strategy]);
      var _, prior := store.Lineage(id);
      var baseline := SelectBaseline(table, prior);
      var evaluation := Evaluator.Evaluate(spec, candidate, map[OPERATIONS := baseline], outcome);
      StepLineageReads(table, child, p, store.Contents().View(id), state, variation, resultHash);
      if evaluation.Err? {
        return Err(NotJudged(evaluation.error));
      }
      Evaluator.EvaluateDecides(spec, candidate, map[OPERATIONS := baseline], outcome);
      r := RecordAndApply(id, state, candidate, evaluation.value, t0, child, p);
    }

    /** record_attempt, and then the verdict. */
    method RecordAndApply(id: string, state: RunState, candidate: Candidate, e: Evaluation,
                          ghost t0: Tables, ghost child: Child, ghost p: Program)
      returns (r: Result<StepReport, ControllerError>)
      requires Tracks(table, child, p) && Stands(t0, store.Contents(), id, StepRecord(state, candidate, e), p.goal)
      requires candidate.runId == id && e.candidateHash == candidate.Identity()
      modifies store
      ensures Sound(store.Contents()) && id in store.runs
      ensures if r.Ok? then Stands(t0, store.Contents(), id, MemRun(Task(r.value.error, None, None)), p.goal)
              else Stands(t0, store.Contents(), id, Done, p.raised)
      ensures r.Ok? ==> r.value.status == store.Contents().View(id).state.status
      ensures r.Ok? ==>
                Reported(old(store.Contents()).View(id).evaluations, store.Contents().View(id).evaluations, r.value, None)
    {
      hide Tracks, Only, Reported;
      StepRecordLands(table, child, p, state, candidate, e);
      var recorded := Record(id, candidate, e, t0, StepRecord(state, candidate, e), child, p);
      if recorded.Err? {
        return Err(recorded.error);
      }
      r := ApplyVerdict(id, state, candidate, e, t0, child, p);
      if r.Ok? {
        VerdictReported(old(store.Contents()).View(id).evaluations, e, r.value);
      }
    }

    /** candidate_ready, and then the evaluation. */
    method ApplyVerdict(id: string, state: RunState, candidate: Candidate, e: Evaluation,
                        ghost t0: Tables, ghost child: Child, ghost p: Program)
      returns (r: Result<StepReport, ControllerError>)
      requires Tracks(table, child, p) && Stands(t0, store.Contents(), id, StepReady(state, candidate, e), p.goal)
      modifies store
      ensures Sound(store.Contents()) && id in store.runs
      ensures if r.Ok? then Stands(t0, store.Contents(), id, MemRun(Task(r.value.error, None, None)), p.goal)
              else Stands(t0, store.Contents(), id, Done, p.raised)
      ensures r.Ok? ==> r.value.status == store.Contents().View(id).state.status
      ensures r.Ok? ==> r.value.error == None && r.value.eligible == e.eligible
      ensures Calm(old(store.Contents()).View(id), store.Contents().View(id))
    {
      hide Tracks, Only, Sound;
      StepReadyLands(table, child, p, state, candidate, e);
      var ready := Commit(id, CandidateReady, state.revision, None, t0, StepReady(state, candidate, e), child, p);
      if ready.Err? {
        return Err(ready.error);
      }
      StepApplyLands(table, child, p, ready.value, candidate, e);
      var applied := Commit(id, EvaluationEvent(e), ready.value.revision, Credit(candidate, e),
                            t0, StepApply(ready.value, candidate, e), child, p);
      if applied.Err? {
        return Err(applied.error);
      }
      return Ok(StepReport(applied.value.status, e.eligible, None));
    }

    method AttemptAndRefresh(id: string, child: Child, ghost t0: Tables, ghost p: Program)
      returns (r: Result<StepReport, ControllerError>)
      requires Tracks(table, child, p) && Stands(t0, store.Contents(), id, StepLoad, p.goal)
      modifies store
      ensures Sound(store.Contents()) && id in store.runs && IsOver(t0, store.Contents(), id, p, r.Ok?)
      ensures r.Ok? ==> r.value.status == store.Contents().View(id).state.status
      ensures r.Ok? ==>
                Reported(old(store.Contents()).View(id).evaluations, store.Contents().View(id).evaluations, r.value, StepError(table, child))
    {
      r := AttemptStep(id, child, t0, p);
      if r.Ok? {
        var memory := RefreshLast(id, r.value.error, None, t0, child, p);
        if memory.Err? {
          return Err(memory.error);
        }
      }
    }

    /** Phase2Controller.step. */
    method Step(id: string, child: Child) returns (r: Result<StepReport, ControllerError>)
      requires Sound(store.Contents())
      modifies store
      ensures !enabled ==> r == Err(PhaseDisabled) && store.Contents() == old(store.Contents())
      ensures enabled && id !in old(store.runs) ==> r == Err(Raised(UnknownRun)) && store.Contents() == old(store.Contents())
      ensures enabled && id in old(store.runs) ==>
                && RanToEnd(table, old(store.Contents()), store.Contents(), id, StepLoad, child, r.Ok?)
                && (r.Ok? ==>
                      && r.value.status == store.Contents().View(id).state.status
                      && Reported(old(store.Contents()).View(id).evaluations, store.Contents().View(id).evaluations,
                                  r.value, StepError(table, child))
                      && Effects.Stepped(table, old(store.Contents()).View(id), store.Contents().View(id), child))
    {
      if !enabled {
        return Err(PhaseDisabled);
      }
      if id !in store.runs {
        return Err(Raised(UnknownRun));
      }
      ghost var t := store.Contents();
      ghost var p := TracksFrom(table, child, t.View(id), StepLoad);
      r := AttemptAndRefresh(id, child, t, p);
      EndReached(table, t, store.Contents(), id, StepLoad, child, p, r.Ok?);
      if r.Ok? { Effects.StepTells(table, t.View(id), child); }
    }

    // ----- supervise -----

    /** A second supervision is refused: the run is completed. */
    method CompleteInstead(id: string, state: RunState, ghost t0: Tables, ghost child: Child, ghost p: Program)
      returns (r: Result<SuperviseReport, ControllerError>)
      requires Tracks(table, child, p) && Stands(t0, store.Contents(), id, SupComplete(state), p.goal)
      modifies store
      ensures Sound(store.Contents()) && id in store.runs && IsOver(t0, store.Contents(), id, p, r.Ok?)
      ensures r.Ok? ==> r.value.status == store.Contents().View(id).state.status
      ensures r.Ok? ==> r.value.error == Some("SUPERVISOR_BUDGET_EXHAUSTED")
    {
      hide Tracks, Only, Sound;
      SupCompleteLands(table, child, p, state);
      var completed := Commit(id, Complete, state.revision, None, t0, SupComplete(state), child, p);
      if completed.Err? {
        return Err(completed.error);
      }
      var memory := RefreshLast(id, Some("SUPERVISOR_BUDGET_EXHAUSTED"), None, t0, child, p);
      if memory.Err? {
        return Err(memory.error);
      }
      return Ok(SuperviseReport(completed.value.status, Some("SUPERVISOR_BUDGET_EXHAUSTED")));
    }

    method FailSupervision(id: string, state: RunState, error: string, ghost t0: Tables, ghost child: Child, ghost p: Program)
      returns (r: Result<SuperviseReport, ControllerError>)
      requires Tracks(table, child, p) && Stands(t0, store.Contents(), id, SupFail(state, error), p.goal)
      modifies store
      ensures Sound(store.Contents()) && id in store.runs && IsOver(t0, store.Contents(), id, p, r.Ok?)
      ensures r.Ok? ==> r.value.status == store.Contents().View(id).state.status
      ensures r.Ok? ==> r.value.error == Some(error)
    {
      hide Tracks, Only, Sound;
      SupFailLands(table, child, p, state, error);
      var failed := Commit(id, SupervisorFailed, state.revision, None, t0, SupFail(state, error), child, p);
      if failed.Err? {
        return Err(failed.error);
      }
      SupNoteFailLands(table, child, p, error);
      Observe(id, SupervisorFailed, Classification(error), t0, SupNoteFail(error), child, p);
      var memory := RefreshLast(id, Some(error), None, t0, child, p);
      if memory.Err? {
        return Err(memory.error);
      }
      return Ok(SuperviseReport(failed.value.status, Some(error)));
    }

    /** The advice is recorded before it is applied. */
    method ApplyAdvice(id: string, state: RunState, a: Advice, resultHash: Digest, ghost t0: Tables, ghost child: Child, ghost p: Program)
      returns (r: Result<SuperviseReport, ControllerError>)
      requires Tracks(table, child, p) && Stands(t0, store.Contents(), id, SupRecord(state, a, resultHash), p.goal)
      requires a.runId == id
      modifies store
      ensures Sound(store.Contents()) && id in store.runs && IsOver(t0, store.Contents(), id, p, r.Ok?)
      ensures r.Ok? ==> r.value.status == store.Contents().View(id).state.status
      ensures r.Ok? ==> r.value.error == None
    {
      hide Tracks, Only, Sound;
      SupRecordLands(table, child, p, state, a, resultHash);
      var recorded := Advise(id, a, t0, SupRecord(state, a, resultHash), child, p);
      if recorded.Err? {
        return Err(recorded.error);
      }
      SupApplyLands(table, child, p, state, a, resultHash);
      var applied := Commit(id, SupervisorApplied, state.revision, None, t0, SupApply(state, a, resultHash), child, p);
      if applied.Err? {
        return Err(applied.error);
      }
      SupNoteResultLands(table, child, p, a, resultHash);
      Observe(id, SupervisorResult, AdviceReport(true, resultHash, a.Identity()), t0, SupNoteResult(a, resultHash), child, p);
      var memory := RefreshLast(id, None, Some(a.Identity()), t0, child, p);
      if memory.Err? {
        return Err(memory.error);
      }
      return Ok(SuperviseReport(applied.value.status, None));
    }

    method RunSupervisor(id: string, spec: RunSpec, state: RunState, memory: Memory, child: Child, ghost t0: Tables, ghost p: Program)
      returns (r: Result<SuperviseReport, ControllerError>)
      requires Tracks(table, child, p) && Stands(t0, store.Contents(), id, SupStart(state, memory), p.goal)
      requires spec == store.Contents().View(id).spec && spec.runId == id
      modifies store
      ensures Sound(store.Contents()) && id in store.runs && IsOver(t0, store.Contents(), id, p, r.Ok?)
      ensures r.Ok? ==> r.value.status == store.Contents().View(id).state.status
      ensures r.Ok? ==> r.value.error == SuperviseError([], child)
    {
      hide Tracks, Only;
      SupStartLands(table, child, p, state, memory);
      var started := Commit(id, StartSupervisor, state.revision, None, t0, SupStart(state, memory), child, p);
      if started.Err? {
        return Err(started.error);
      }
      SupLaunches(table, child, p, store.Contents().View(id), started.value, memory);
      if child.LaunchError? {
        r := FailSupervision(id, started.value, "SUPERVISOR_LAUNCH_ERROR", t0, child, p);
      } else if !child.succeeded || child.supervision.None? {
        r := FailSupervision(id, started.value, "INVALID_SUPERVISOR_PAYLOAD", t0, child, p);
      } else {
        r := ApplyAdvice(id, started.value, NewAdvice(spec, memory, child.supervision.value), child.resultHash, t0, child, p);
      }
    }

    /** The stored memory, or else a refreshed one. */
    method MemoryForSupervisor(id: string, state: RunState, ghost t0: Tables, ghost child: Child, ghost p: Program)
      returns (r: Result<Memory, ControllerError>)
      requires Tracks(table, child, p) && Stands(t0, store.Contents(), id, SupMemory(state), p.goal)
      modifies store
      ensures Sound(store.Contents()) && id in store.runs
      ensures if r.Ok? then Stands(t0, store.Contents(), id, SupStart(state, r.value), p.goal)
              else Stands(t0, store.Contents(), id, Done, p.raised)
      ensures Calm(old(store.Contents()).View(id), store.Contents().View(id))
    {
      var stored := store.LoadMemory(id);
      SupMemoryReads(table, child, p, store.Contents().View(id), state);
      if stored.Some? {
        return Ok(stored.value);
      }
      r := RefreshMemory(id, None, None, Some(state), t0, child, p);
    }

    method SuperviseRun(id: string, child: Child, ghost t0: Tables, ghost p: Program)
      returns (r: Result<SuperviseReport, ControllerError>)
      requires Tracks(table, child, p) && Stands(t0, store.Contents(), id, SupLoad, p.goal)
      modifies store
      ensures Sound(store.Contents()) && id in store.runs && IsOver(t0, store.Contents(), id, p, r.Ok?)
      ensures r.Ok? ==> r.value.status == store.Contents().View(id).state.status
      ensures r.Ok? ==> r.value.error == SuperviseError(old(store.Contents()).View(id).advice, child)
    {
      hide Tracks, Only;
      var loaded := store.LoadRun(id);
      var (spec, state) := loaded.value;
      SupLoadReads(table, child, p, store.Contents().View(id));
      if !state.status.SupervisionRequired? {
        return Err(NotSupervisionRequired);
      }
      var advice := store.SupervisorAdvice(id);
      SupAdviceReads(table, child, p, store.Contents().View(id), state);
      if advice != [] {
        r := CompleteInstead(id, state, t0, child, p);
        return;
      }
      var memory := MemoryForSupervisor(id, state, t0, child, p);
      if memory.Err? {
        return Err(memory.error);
      }
      r := RunSupervisor(id, spec, state, memory.value, child, t0, p);
    }

    /** Phase2Controller.supervise. */
    method Supervise(id: string, child: Child) returns (r: Result<SuperviseReport, ControllerError>)
      requires Sound(store.Contents())
      modifies store
      ensures !enabled ==> r == Err(PhaseDisabled) && store.Contents() == old(store.Contents())
      ensures enabled && id !in old(store.runs) ==> r == Err(Raised(UnknownRun)) && store.Contents() == old(store.Contents())
      ensures enabled && id in old(store.runs) ==>
                && RanToEnd(table, old(store.Contents()), store.Contents(), id, SupLoad, child, r.Ok?)
                && (r.Ok? ==>
                      && r.value == SuperviseReport(store.Contents().View(id).state.status,
                                                    SuperviseError(old(store.Contents()).View(id).advice, child))
                      && Effects.Supervised(old(store.Contents()).View(id), store.Contents().View(id), child))
    {
      if !enabled {
        return Err(PhaseDisabled);
      }
      if id !in store.runs {
        return Err(Raised(UnknownRun));
      }
      ghost var t := store.Contents();
      ghost var p := TracksFrom(table, child, t.View(id), SupLoad);
      r := SuperviseRun(id, child, t, p);
      EndReached(table, t, store.Contents(), id, SupLoad, child, p, r.Ok?);
      if r.Ok? { Effects.SuperviseTells(table, t.View(id), child); }
    }

    // ----- reconcile -----

    method ReplayAdvice(id: string, state: RunState, a: Advice, ghost t0: Tables, ghost child: Child, ghost p: Program)
      returns (r: Result<ReconcileReport, ControllerError>)
      requires Tracks(table, child, p) && Stands(t0, store.Contents(), id, RecReplayAdvice(state, a), p.goal)
      modifies store
      ensures Sound(store.Contents()) && id in store.runs && IsOver(t0, store.Contents(), id, p, r.Ok?)
      ensures r.Ok? ==> r.value.status == store.Contents().View(id).state.status
      ensures r.Ok? ==> r.value.action.SupervisorReplayed?
    {
      hide Tracks, Only, Sound;
      RecReplayAdviceLands(table, child, p, state, a);
      var applied := Commit(id, SupervisorApplied, state.revision, None, t0, RecReplayAdvice(state, a), child, p);
      if applied.Err? {
        return Err(applied.error);
      }
      var memory := RefreshLast(id, None, Some(a.Identity()), t0, child, p);
      if memory.Err? {
        return Err(memory.error);
      }
      return Ok(ReconcileReport(applied.value.status, SupervisorReplayed));
    }

    method FailMissingAdvice(id: string, state: RunState, ghost t0: Tables, ghost child: Child, ghost p: Program)
      returns (r: Result<ReconcileReport, ControllerError>)
      requires Tracks(table, child, p) && Stands(t0, store.Contents(), id, RecFailSup(state), p.goal)
      modifies store
      ensures Sound(store.Contents()) && id in store.runs && IsOver(t0, store.Contents(), id, p, r.Ok?)
      ensures r.Ok? ==> r.value.status == store.Contents().View(id).state.status
      ensures r.Ok? ==> r.value.action.AdviceMissing?
    {
      hide Tracks, Only, Sound;
      RecFailSupLands(table, child, p, state);
      var failed := Commit(id, SupervisorFailed, state.revision, None, t0, RecFailSup(state), child, p);
      if failed.Err? {
        return Err(failed.error);
      }
      RecNoteMissingSupLands(table, child, p);
      Observe(id, SupervisorMissing, Classification("SUPERVISOR_MISSING"), t0, RecNoteMissingSup, child, p);
      var memory := RefreshLast(id, Some("SUPERVISOR_MISSING"), None, t0, child, p);
      if memory.Err? {
        return Err(memory.error);
      }
      return Ok(ReconcileReport(failed.value.status, AdviceMissing));
    }

    method ApplyRecorded(id: string, state: RunState, c: Candidate, e: Evaluation, ghost t0: Tables, ghost child: Child, ghost p: Program)
      returns (r: Result<ReconcileReport, ControllerError>)
      requires Tracks(table, child, p) && Stands(t0, store.Contents(), id, RecApply(state, c, e), p.goal)
      modifies store
      ensures Sound(store.Contents()) && id in store.runs && IsOver(t0, store.Contents(), id, p, r.Ok?)
      ensures r.Ok? ==> r.value.status == store.Contents().View(id).state.status
      ensures r.Ok? ==> r.value.action.EvaluationReplayed?
    {
      hide Tracks, Only, Sound;
      RecApplyLands(table, child, p, state, c, e);
      var applied := Commit(id, EvaluationEvent(e), state.revision, Credit(c, e), t0, RecApply(state, c, e), child, p);
      if applied.Err? {
        return Err(applied.error);
      }
      var memory := RefreshLast(id, None, None, t0, child, p);
      if memory.Err? {
        return Err(memory.error);
      }
      return Ok(ReconcileReport(applied.value.status, EvaluationReplayed));
    }

    method ReadyAndApply(id: string, state: RunState, c: Candidate, e: Evaluation, ghost t0: Tables, ghost child: Child, ghost p: Program)
      returns (r: Result<ReconcileReport, ControllerError>)
      requires Tracks(table, child, p) && Stands(t0, store.Contents(), id, RecReady(state, c, e), p.goal)
      modifies store
      ensures Sound(store.Contents()) && id in store.runs && IsOver(t0, store.Contents(), id, p, r.Ok?)
      ensures r.Ok? ==> r.value.status == store.Contents().View(id).state.status
      ensures r.Ok? ==> r.value.action.EvaluationReplayed?
    {
      hide Tracks, Only, Sound;
      RecReadyLands(table, child, p, state, c, e);
      var ready := Commit(id, CandidateReady, state.revision, None, t0, RecReady(state, c, e), child, p);
      if ready.Err? {
        return Err(ready.error);
      }
      r := ApplyRecorded(id, ready.value, c, e, t0, child, p);
    }

    method CloseAttempt(id: string, state: RunState, ghost t0: Tables, ghost child: Child, ghost p: Program)
      returns (r: Result<ReconcileReport, ControllerError>)
      requires Tracks(table, child, p) && Stands(t0, store.Contents(), id, RecMiss(state), p.goal)
      modifies store
      ensures Sound(store.Contents()) && id in store.runs && IsOver(t0, store.Contents(), id, p, r.Ok?)
      ensures r.Ok? ==> r.value.status == store.Contents().View(id).state.status
      ensures r.Ok? ==> r.value.action == if state.status.Running? then WasInterrupted else EvaluationLost
    {
      hide Tracks, Only, Sound;
      var interrupted := state.status.Running?;
      var event := if interrupted then Interrupt else EvaluationMissing;
      RecMissLands(table, child, p, state, event);
      var closed := Commit(id, event, state.revision, None, t0, RecMiss(state), child, p);
      if closed.Err? {
        return Err(closed.error);
      }
      var observation := if interrupted then Interrupted else EvaluationMissing;
      var failure := if interrupted then "INTERRUPTED" else "EVALUATION_MISSING";
      RecNoteMissLands(table, child, p, interrupted, observation, failure);
      Observe(id, observation, Classification(failure), t0, RecNoteMiss(interrupted), child, p);
      var memory := RefreshLast(id, Some(failure), None, t0, child, p);
      if memory.Err? {
        return Err(memory.error);
      }
      return Ok(ReconcileReport(closed.value.status, if interrupted then WasInterrupted else EvaluationLost));
    }

    method ReplayEvaluation(id: string, state: RunState, c: Candidate, e: Evaluation,
                            ghost t0: Tables, ghost child: Child, ghost p: Program)
      returns (r: Result<ReconcileReport, ControllerError>)
      requires Tracks(table, child, p) && Stands(t0, store.Contents(), id, Replaying(state, c, e), p.goal)
      modifies store
      ensures Sound(store.Contents()) && id in store.runs && IsOver(t0, store.Contents(), id, p, r.Ok?)
      ensures r.Ok? ==> r.value.status == store.Contents().View(id).state.status
      ensures r.Ok? ==> r.value.action.EvaluationReplayed?
    {
      if state.status.Running? {
        r := ReadyAndApply(id, state, c, e, t0, child, p);
      } else {
        r := ApplyRecorded(id, state, c, e, t0, child, p);
      }
    }

    /** Replay the recorded evaluation, or close the attempt as lost. */
    method ReconcileAttempt(id: string, state: RunState, ghost t0: Tables, ghost child: Child, ghost p: Program)
      returns (r: Result<ReconcileReport, ControllerError>)
      requires Tracks(table, child, p) && Stands(t0, store.Contents(), id, RecLineage(state), p.goal)
      modifies store
      ensures Sound(store.Contents()) && id in store.runs && IsOver(t0, store.Contents(), id, p, r.Ok?)
      ensures r.Ok? ==> r.value.status == store.Contents().View(id).state.status
      ensures r.Ok? ==>
                r.value.action == if |old(store.Contents()).View(id).evaluations| > Applied(old(store.Contents()).View(id).log)
                                  then EvaluationReplayed else if state.status.Running? then WasInterrupted else EvaluationLost
    {
      hide Tracks, Only;
      var cs, es := store.Lineage(id);
      var log := store.Events(id);
      var applied := Applied(log);
      RecEvidenceReads(table, child, p, store.Contents().View(id), state, cs, es, applied);
      if |es| <= applied {
        r := CloseAttempt(id, state, t0, child, p);
      } else if |cs| == 0 {
        return Err(NoRows);
      } else {
        r := ReplayEvaluation(id, state, cs[|cs| - 1], es[|es| - 1], t0, child, p);
      }
    }

    method ReconcileSupervision(id: string, state: RunState, ghost t0: Tables, ghost child: Child, ghost p: Program)
      returns (r: Result<ReconcileReport, ControllerError>)
      requires Tracks(table, child, p) && Stands(t0, store.Contents(), id, RecAdvice(state), p.goal)
      modifies store
      ensures Sound(store.Contents()) && id in store.runs && IsOver(t0, store.Contents(), id, p, r.Ok?)
      ensures r.Ok? ==> r.value.status == store.Contents().View(id).state.status
      ensures r.Ok? ==>
                r.value.action == if old(store.Contents()).View(id).advice != [] then SupervisorReplayed else AdviceMissing
    {
      hide Tracks, Only, IsOver, Stands, Sound;
      StandsSound(t0, store.Contents(), id, RecAdvice(state), p.goal);
      var advice := store.SupervisorAdvice(id);
      AdviceRead(table, child, p, t0, store.Contents(), id, state, advice);
      if advice != [] {
        r := ReplayAdvice(id, state, advice[|advice| - 1], t0, child, p);
      } else {
        r := FailMissingAdvice(id, state, t0, child, p);
      }
    }

    method ReconcileRun(id: string, ghost t0: Tables, ghost child: Child, ghost p: Program)
      returns (r: Result<ReconcileReport, ControllerError>)
      requires Tracks(table, child, p) && Stands(t0, store.Contents(), id, RecLoad, p.goal)
      modifies store
      ensures Sound(store.Contents()) && id in store.runs && IsOver(t0, store.Contents(), id, p, r.Ok?)
      ensures r.Ok? ==> r.value.status == store.Contents().View(id).state.status
      ensures r.Ok? ==> r.value.action == ActionFor(old(store.Contents()).View(id))
    {
      var loaded := store.LoadRun(id);
      var (_, state) := loaded.value;
      RecLoadReads(table, child, p, store.Contents().View(id));
      if state.status.Supervising? {
        r := ReconcileSupervision(id, state, t0, child, p);
      } else if state.status.Running? || state.status.Evaluating? {
        r := ReconcileAttempt(id, state, t0, child, p);
      } else {
        return Ok(ReconcileReport(state.status, Noop));
      }
    }

    /** Phase2Controller.reconcile. */
    method Reconcile(id: string, ghost child: Child) returns (r: Result<ReconcileReport, ControllerError>)
      requires Sound(store.Contents())
      modifies store
      ensures !enabled ==> r == Err(PhaseDisabled) && store.Contents() == old(store.Contents())
      ensures enabled && id !in old(store.runs) ==> r == Err(Raised(UnknownRun)) && store.Contents() == old(store.Contents())
      ensures enabled && id in old(store.runs) ==>
                && RanToEnd(table, old(store.Contents()), store.Contents(), id, RecLoad, child, r.Ok?)
                && (r.Ok? ==>
                      && r.value == ReconcileReport(store.Contents().View(id).state.status, ActionFor(old(store.Contents()).View(id)))
                      && Effects.Reconciled(old(store.Contents()).View(id), store.Contents().View(id)))
    {
      if !enabled {
        return Err(PhaseDisabled);
      }
      if id !in store.runs {
        return Err(Raised(UnknownRun));
      }
      ghost var t := store.Contents();
      ghost var p := TracksFrom(table, child, t.View(id), RecLoad);
      r := ReconcileRun(id, t, child, p);
      EndReached(table, t, store.Contents(), id, RecLoad, child, p, r.Ok?);
      if r.Ok? { Effects.ReconcileTells(table, t.View(id), child); }
    }

    // ----- cancel, create, memory -----

    method CancelRun(id: string, ghost t0: Tables, ghost child: Child, ghost p: Program)
      returns (r: Result<SuperviseReport, ControllerError>)
      requires Tracks(table, child, p) && Stands(t0, store.Contents(), id, CanLoad, p.goal)
      modifies store
      ensures Sound(store.Contents()) && id in store.runs && IsOver(t0, store.Contents(), id, p, r.Ok?)
      ensures r.Ok? ==> r.value == SuperviseReport(store.Contents().View(id).state.status, None)
    {
      var loaded := store.LoadRun(id);
      var (_, state) := loaded.value;
      CanLoadReads(table, child, p, store.Contents().View(id));
      if state.status.Running? || state.status.Evaluating? {
        return Err(InFlightCancel);
      }
      CanCommitLands(table, child, p, state);
      var cancelled := Commit(id, EventName.Cancel, state.revision, None, t0, CanCommit(state), child, p);
      if cancelled.Err? {
        return Err(cancelled.error);
      }
      var memory := RefreshLast(id, Some("CANCELLED"), None, t0, child, p);
      if memory.Err? {
        return Err(memory.error);
      }
      return Ok(SuperviseReport(cancelled.value.status, None));
    }

    /** Phase2Controller.cancel. */
    method Cancel(id: string, ghost child: Child) returns (r: Result<SuperviseReport, ControllerError>)
      requires Sound(store.Contents())
      modifies store
      ensures !enabled ==> r == Err(PhaseDisabled) && store.Contents() == old(store.Contents())
      ensures enabled && id !in old(store.runs) ==> r == Err(Raised(UnknownRun)) && store.Contents() == old(store.Contents())
      ensures enabled && id in old(store.runs) ==>
                && RanToEnd(table, old(store.Contents()), store.Contents(), id, CanLoad, child, r.Ok?)
                && (r.Ok? ==> r.value == SuperviseReport(Cancelled, None)
                              && Effects.WasCancelled(old(store.Contents()).View(id), store.Contents().View(id)))
    {
      if !enabled {
        return Err(PhaseDisabled);
      }
      if id !in store.runs {
        return Err(Raised(UnknownRun));
      }
      ghost var t := store.Contents();
      ghost var p := TracksFrom(table, child, t.View(id), CanLoad);
      r := CancelRun(id, t, child, p);
      EndReached(table, t, store.Contents(), id, CanLoad, child, p, r.Ok?);
      if r.Ok? { Effects.CancelTells(table, t.View(id), child); }
    }

    /** The packet of Phase2Controller.memory: the stored record, and whether the run has moved on since. */
    method MemoryPacket(id: string) returns (r: Result<MemoryReport, ControllerError>)
      requires Sound(store.Contents())
      ensures id !in store.runs ==> r == Err(Raised(UnknownRun))
      ensures id in store.runs ==>
                var run := store.Contents().View(id);
                && (r.Ok? <==> run.memory.Some?)
                && (r.Ok? ==> r.value == MemoryReport(run.memory.value, run.memory.value.stateRevision != run.state.revision,
                                                      run.state.revision, run.state.status))
    {
      var loaded := store.LoadRun(id);
      if loaded.Err? {
        return Err(Raised(loaded.error));
      }
      var (_, state) := loaded.value;
      var memory := store.LoadMemory(id);
      if memory.None? {
        return Err(NoMemory);
      }
      return Ok(MemoryReport(memory.value, memory.value.stateRevision != state.revision, state.revision, state.status));
    }

    /** Phase2Controller.create_run, once it has put its spec together. */
    method CreateRun(spec: RunSpec, ghost child: Child) returns (r: Result<RunState, ControllerError>)
      requires Sound(store.Contents()) && Constructed(spec)
      modifies store
      ensures !enabled ==> r == Err(PhaseDisabled) && store.Contents() == old(store.Contents())
      ensures enabled && spec.runId in old(store.runs) ==> r == Err(Raised(DuplicateRun)) && store.Contents() == old(store.Contents())
      ensures enabled && spec.runId !in old(store.runs) ==>
                && Sound(store.Contents()) && spec.runId in store.runs && SpecFromJson(ToDict(spec)).Ok?
                && store.Contents().View(spec.runId) ==
                   Finish(table, Create(SpecFromJson(ToDict(spec)).value), NewApprove, child)
                && (forall other <- old(store.runs) ::
                      other in store.runs && store.Contents().View(other) == old(store.Contents()).View(other))
                && StartedWell(store.Contents().View(spec.runId), r)
    {
      if !enabled {
        return Err(PhaseDisabled);
      }
      ghost var t := store.Contents();
      var created := store.CreateRun(spec);
      if created.Err? {
        return Err(Raised(created.error));
      }
      ghost var t' := store.Contents();
      r := Approve(spec.runId, created.value, child);
      NewRunKept(t, t', store.Contents(), spec, Finish(table, t'.View(spec.runId), NewApprove, child));
      NewRunStartsWell(table, t'.View(spec.runId), child, r);
    }

    method Approve(id: string, state: RunState, ghost child: Child) returns (r: Result<RunState, ControllerError>)
      requires Sound(store.Contents()) && id in store.runs && state.revision == 0
      modifies store
      ensures RanToEnd(table, old(store.Contents()), store.Contents(), id, NewApprove, child, r.Ok?)
      ensures r.Ok? ==> r.value == store.Contents().View(id).state
    {
      ghost var t := store.Contents();
      ghost var p := TracksFrom(table, child, t.View(id), NewApprove);
      r := ApproveAndRefresh(id, state, t, child, p);
      EndReached(table, t, store.Contents(), id, NewApprove, child, p, r.Ok?);
    }

    method ApproveAndRefresh(id: string, state: RunState, ghost t0: Tables, ghost child: Child, ghost p: Program)
      returns (r: Result<RunState, ControllerError>)
      requires Tracks(table, child, p) && Stands(t0, store.Contents(), id, NewApprove, p.goal) && state.revision == 0
      modifies store
      ensures Sound(store.Contents()) && id in store.runs && IsOver(t0, store.Contents(), id, p, r.Ok?)
      ensures r.Ok? ==> r.value == store.Contents().View(id).state
    {
      hide Tracks, Only, Sound;
      NewApproveLands(table, child, p);
      var approved := Commit(id, EventName.Approve, state.revision, None, t0, NewApprove, child, p);
      if approved.Err? {
        return Err(approved.error);
      }
      var memory := RefreshLast(id, None, None, t0, child, p);
      if memory.Err? {
        return Err(memory.error);
      }
      return Ok(approved.value);
    }
  }

  lemma NewRunKept(t: Tables, t': Tables, t'': Tables, spec: RunSpec, run: Run)
    requires t.Valid() && spec.runId !in t.runs && CreatedIn(t, t', spec) && Only(t', t'', spec.runId, run)
    ensures t''.View(spec.runId) == run && spec.runId in t''.runs
    ensures forall other <- t.runs :: other in t''.runs && t''.View(other) == t.View(other)
  {
  }
}

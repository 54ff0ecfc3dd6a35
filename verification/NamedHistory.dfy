/**
 * Selecting the transitions of a log by the name of their event: when that finds the history
 * of the run, and a run of which it finds no history at all.
 */
module NamedReplay {
  import opened Wrappers
  import opened Contracts
  import opened StateMachine
  import opened RunHistory
  import opened Ledger
  import opened LogReplay
  import opened Actors
  import opened RunInvariants
  import opened Interleaving

  /** The note on a failed supervision, as against the transition of the same name. */
  predicate FailureNote(e: Entry) {
    e.event.SupervisorFailed? && e.payload.Classification?
  }

  ghost predicate EntryShape(log: seq<Entry>, i: nat)
    requires 0 < i < |log|
  {
    if log[i].payload.Change? then log[i].revision > log[i - 1].revision
    else log[i].revision == log[i - 1].revision && (FailureNote(log[i]) || !TransitionName(log[i].event))
  }

  /** Transitions raise the revision, and only the note on a failed supervision bears a transition's name. */
  ghost predicate LogShape(log: seq<Entry>) {
    && log != [] && log[0].payload.Creation?
    && forall i :: 0 < i < |log| ==> EntryShape(log, i)
  }

  lemma ObservationName(e: EventName)
    requires e.ChildLaunchError? || e.ChildResult? || e.Interrupted? || e.SupervisorMissing? || e.SupervisorResult?
    ensures !TransitionName(e)
  {
    forall status: Status ensures e !in Allowed(status) {
    }
  }

  /** What controllers note. */
  lemma NotesOf(r: Run, pc: Pc)
    requires PcInv(r, pc) && OpOf(pc).Note?
    ensures var op := OpOf(pc);
            && !op.payload.Change?
            && ((op.event.SupervisorFailed? && op.payload.Classification? && pc.SupNoteFail?) || !TransitionName(op.event))
  {
    var e := OpOf(pc).event;
    if !pc.SupNoteFail? {
      ObservationName(e);
    }
  }

  lemma ShapeAppend(log: seq<Entry>, e: Entry)
    requires LogShape(log) && EntryShape(log + [e], |log|)
    ensures LogShape(log + [e])
  {
    forall i | 0 < i < |log + [e]| ensures EntryShape(log + [e], i) {
      if i < |log| { assert EntryShape(log, i); }
    }
  }

  lemma CommitKeepsShape(r: Run, op: Op)
    requires Replays(r) && LogShape(r.log) && op.Commit?
    ensures LogShape(Exec(r, op).log)
  {
    if Try(r, op).Ok? {
      RevisionsContiguousAtEnd(r);
      TransitionAdvances(r.state, op.event, r.spec, op.candidate, op.cost);
      var s := ApplyTransition(r.state, op.event, r.spec, op.candidate, op.cost).value;
      ShapeAppend(r.log, EntryOf(op.event, s, Change(op.candidate, op.cost)));
    }
  }

  lemma NoteKeepsShape(r: Run, event: EventName, payload: Payload)
    requires Replays(r) && LogShape(r.log) && !payload.Change?
    requires (event.SupervisorFailed? && payload.Classification?) || !TransitionName(event)
    ensures LogShape(Observe(r, event, payload).log)
  {
    RevisionsContiguousAtEnd(r);
    ShapeAppend(r.log, EntryOf(event, r.state, payload));
  }

  lemma CallKeepsShape(r: Run, pc: Pc)
    requires Replays(r) && PcInv(r, pc) && LogShape(r.log)
    ensures LogShape(Exec(r, OpOf(pc)).log)
  {
    hide OpOf, PcInv, Replays, LogShape, TransitionName;
    var op := OpOf(pc);
    match op
    case Commit(_, _, _, _) => CommitKeepsShape(r, op);
    case Note(event, payload) =>
      NotesOf(r, pc);
      NoteKeepsShape(r, event, payload);
    case _ =>
  }

  lemma {:induction false} ShapeAlways(table: ScoreTable, spec: RunSpec, actions: seq<Action>)
    requires spec.WithinBounds()
    ensures LogShape(Behave(table, spec, actions).run.log)
  {
    if actions != [] {
      var before, a := actions[..|actions| - 1], actions[|actions| - 1];
      ShapeAlways(table, spec, before);
      Always(table, spec, before);
      StepKeepsShape(table, Behave(table, spec, before), a);
    }
  }

  lemma StepKeepsShape(table: ScoreTable, s: Sys, a: Action)
    requires SysInv(s) && LogShape(s.run.log)
    ensures LogShape(Step(table, s, a).run.log)
  {
    hide LogShape, RunInv, PcInv, OpOf, Continue, ClaimInv, OrdinalInv, WindowInv;
    if a.Move? && a.i < |s.actors| {
      ReplaysOf(s.run);
      CallKeepsShape(s.run, s.actors[a.i]);
    }
  }

  lemma ReplaysOf(r: Run)
    requires RunInv(r)
    ensures Replays(r)
  {
  }

  lemma NotesBearTransitionName(e: Entry)
    requires FailureNote(e)
    ensures TransitionName(e.event) && !e.payload.Change?
  {
    assert SupervisorFailed in Allowed(Supervising) && e.event == SupervisorFailed;
  }

  /** With such a log, the names find the history exactly when no failed supervision is noted. */
  lemma ShapeTells(r: Run)
    requires Replays(r) && LogShape(r.log)
    ensures NamedHistory(r.log) == History(r.log) <==> forall e <- r.log :: !FailureNote(e)
  {
    hide TransitionName, NamedHistory, History, Replays, FailureNote;
    NamedHistoryFaithful(r);
    forall i | 0 < i < |r.log| ensures EntryShape(r.log, i) && r.log[i] in r.log {
    }
    if e :| e in r.log && FailureNote(e) {
      NotesBearTransitionName(e);
      var i :| 0 <= i < |r.log| && r.log[i] == e;
      CreationIsNoNote(r.log[0]);
      assert i > 0 && EntryShape(r.log, i);
    }
  }

  lemma CreationIsNoNote(e: Entry)
    requires e.payload.Creation?
    ensures !FailureNote(e)
  {
  }

  /**
   * In every interleaving the transitions can be told by the names of their events exactly as long as no
   * failed supervision has been noted.
   */
  lemma NamedHistoryTells(table: ScoreTable, spec: RunSpec, actions: seq<Action>)
    requires spec.WithinBounds()
    ensures var r := Behave(table, spec, actions).run;
            NamedHistory(r.log) == History(r.log) <==> forall e <- r.log :: !FailureNote(e)
  {
    Always(table, spec, actions);
    ShapeAlways(table, spec, actions);
    ShapeTells(Behave(table, spec, actions).run);
  }
}

/** A run whose supervision fails: the names of its events tell no history. */
module FailedSupervision {
  import opened Wrappers
  import opened Contracts
  import opened StateMachine
  import opened RunHistory
  import opened Ledger
  import opened LogReplay
  import opened Actors
  import opened RunInvariants
  import opened Interleaving
  import opened ExclusiveDriver
  import opened CrashRecovery
  import opened Discipline
  import opened ProgramPoints
  import opened Completion
  import opened Progress
  import opened NamedReplay

  // ----- only a supervision is noted as failed -----

  /** Whoever notes a failure, or has noted it, knows of a supervision. */
  ghost predicate NoteInv(s: Sys) {
    && ((exists e <- s.run.log :: FailureNote(e)) ==> Supervisions(s.run) >= 1)
    && (forall pc <- s.actors :: pc.SupNoteFail? ==> Supervisions(s.run) >= 1)
  }

  lemma SupervisionsOnlyGrow(r: Run, op: Op)
    requires Replays(r)
    ensures Supervisions(r) <= Supervisions(Exec(r, op))
  {
    ExecReplays(r, op);
    if op.Commit? && Try(r, op).Ok? {
      CountAppend(History(r.log), Input(op.event, op.candidate, op.cost), Supervises);
    }
  }

  /** A failure is noted by who committed it. */
  lemma FailureIsCommitted(table: ScoreTable, r: Run, pc: Pc, child: Child)
    requires RunInv(r) && Try(r, OpOf(pc)).Ok? && Continue(table, Exec(r, OpOf(pc)), pc, child).SupNoteFail?
    ensures Supervisions(r) >= 1
  {
    OnlyFailNotes(table, Exec(r, OpOf(pc)), pc, child);
    FailsWhileSupervising(r, pc.st.revision);
  }

  lemma OnlyFailNotes(table: ScoreTable, r: Run, pc: Pc, child: Child)
    requires Continue(table, r, pc, child).SupNoteFail?
    ensures pc.SupFail? && OpOf(pc) == Commit(SupervisorFailed, pc.st.revision, None, 0.0)
  {
    hide NextMemory, ApplyTransition, Try, Evaluator.Evaluate, BaselineScore;
    if InSupervise(pc) {
      assert Continue(table, r, pc, child) == ContinueSupervise(r, pc, child);
    }
  }

  lemma FailsWhileSupervising(r: Run, revision: nat)
    requires RunInv(r) && Try(r, Commit(SupervisorFailed, revision, None, 0.0)).Ok?
    ensures Supervisions(r) >= 1
  {
    FailsFromSupervising(r.state, r.spec);
  }

  lemma FailsFromSupervising(s: RunState, spec: RunSpec)
    requires ApplyTransition(s, SupervisorFailed, spec, None, 0.0).Ok?
    ensures s.status.Supervising?
  {
  }

  lemma NotesGrow(r: Run, pc: Pc)
    requires PcInv(r, pc)
    ensures (exists e <- Exec(r, OpOf(pc)).log :: FailureNote(e)) ==> (exists e <- r.log :: FailureNote(e)) || pc.SupNoteFail?
  {
    hide OpOf, PcInv;
    var op := OpOf(pc);
    if op.Note? {
      NotesOf(r, pc);
      if !pc.SupNoteFail? { FailureIsNamed(op.event); }
    }
  }

  lemma FailureIsNamed(e: EventName)
    ensures e.SupervisorFailed? ==> TransitionName(e)
  {
    assert SupervisorFailed in Allowed(Supervising);
  }

  lemma MoveKeepsNotes(table: ScoreTable, s: Sys, i: nat, child: Child)
    requires SysInv(s) && NoteInv(s) && i < |s.actors|
    ensures NoteInv(Step(table, s, Move(i, child)))
  {
    hide PcInv, RunInv, OpOf, Continue, Supervisions, FailureNote, ClaimInv, OrdinalInv, WindowInv, Saves;
    var pc := s.actors[i];
    assert pc in s.actors && PcInv(s.run, pc);
    ReplaysOf(s.run);
    SupervisionsOnlyGrow(s.run, OpOf(pc));
    NotesGrow(s.run, pc);
    if Try(s.run, OpOf(pc)).Ok? && Continue(table, Exec(s.run, OpOf(pc)), pc, child).SupNoteFail? {
      FailureIsCommitted(table, s.run, pc, child);
    }
  }

  lemma StepKeepsNotes(table: ScoreTable, s: Sys, a: Action)
    requires SysInv(s) && NoteInv(s)
    ensures NoteInv(Step(table, s, a))
  {
    hide SysInv, Next, FailureNote, Supervisions;
    match a
    case Spawn(pc) =>
    case Crash(i) =>
    case Move(i, child) => if i < |s.actors| { MoveKeepsNotes(table, s, i, child); }
  }

  lemma {:induction false} NotesAlways(table: ScoreTable, spec: RunSpec, actions: seq<Action>)
    requires spec.WithinBounds()
    ensures NoteInv(Behave(table, spec, actions))
  {
    if actions != [] {
      var before := actions[..|actions| - 1];
      NotesAlways(table, spec, before);
      Always(table, spec, before);
      StepKeepsNotes(table, Behave(table, spec, before), actions[|actions| - 1]);
    }
  }

  /** What holds of interleavings holds of what a driver does. */
  lemma DriveIsShaped(table: ScoreTable, spec: RunSpec, created: nat, ops: seq<Operation>)
    requires spec.WithinBounds()
    ensures var r := Drive(table, spec, created, ops);
            && RunInv(r) && LogShape(r.log) && r.spec == spec
            && ((exists e <- r.log :: FailureNote(e)) ==> Supervisions(r) >= 1)
  {
    hide Drive, Disciplined, LogShape, SysInv;
    DriveIsDisciplined(table, spec, created, ops);
    var actions :| Disciplined(table, spec, actions) && Behave(table, spec, actions).run == Drive(table, spec, created, ops);
    ShapeAlways(table, spec, actions);
    NotesAlways(table, spec, actions);
    DriveInformed(table, spec, created, ops);
    DriveKeepsSpec(table, spec, created, ops);
  }

  // ----- only a run that may stagnate is supervised -----

  predicate MayStagnate(spec: RunSpec) {
    spec.noProgressLimit < spec.maxSteps && spec.maxCostUsd > 0.0
  }

  lemma {:induction false} SupervisedMayStagnate(spec: RunSpec, h: seq<Input>)
    requires spec.WithinBounds() && Replay(spec, h).Ok? && Count(h, Supervises) >= 1
    ensures MayStagnate(spec)
  {
    var g, x := h[..|h| - 1], h[|h| - 1];
    if x.event.StartSupervisor? {
      WholeRun(spec, g);
      StagnationWithinAttempts(g);
      StartsFromRequired(Replay(spec, g).value, spec, x);
    } else {
      SupervisedMayStagnate(spec, g);
    }
  }

  lemma StartsFromRequired(s: RunState, spec: RunSpec, x: Input)
    requires x.event.StartSupervisor? && ApplyTransition(s, x.event, spec, x.candidate, x.cost).Ok?
    ensures s.status.SupervisionRequired?
  {
  }

  // ----- a driven run whose supervision fails -----

  /** The run after a step whose child could not be launched. */
  function LaunchFailed(r: Run): Run {
    var r1 := Exec(r, Commit(StartStep, r.state.revision, None, 0.0));
    var r2 := Exec(r1, Commit(ChildFailed, r1.state.revision, None, 0.0));
    Refreshed(Observe(r2, ChildLaunchError, Classification("CHILD_LAUNCH_ERROR")), Task(Some("CHILD_LAUNCH_ERROR"), None, None))
  }

  lemma LaunchFailedOps(table: ScoreTable, r: Run, st: RunState)
    ensures OpOf(StepLaunch(st)).Read? && Continue(table, r, StepLaunch(st), LaunchError) == StepLaunchError(st)
    ensures OpOf(StepLaunchError(st)) == Commit(ChildFailed, st.revision, None, 0.0)
    ensures Continue(table, r, StepLaunchError(st), LaunchError) == StepNoteLaunchError
    ensures OpOf(StepNoteLaunchError) == Note(ChildLaunchError, Classification("CHILD_LAUNCH_ERROR"))
    ensures Continue(table, r, StepNoteLaunchError, LaunchError) == Refresh("CHILD_LAUNCH_ERROR")
  {
  }

  lemma LaunchFailedCommits(r: Run)
    requires RunInv(r) && r.state.status.Ready? && r.spec.maxCostUsd > 0.0
    ensures var r1 := Exec(r, Commit(StartStep, r.state.revision, None, 0.0));
            var op := Commit(ChildFailed, r1.state.revision, None, 0.0);
            && Try(r1, op) == Ok(Exec(r1, op)) && Exec(r1, op).memory == r.memory
            && LaunchFailed(r).state == NextAfterAttempt(r1.state, r.spec, false, None, 0.0) && LaunchFailed(r).advice == r.advice
            && r1.state == StateMachine.Move(r.state, Running)
  {
    hide RunInv, ApplyTransition, NextAfterAttempt;
    ReplaysOf(r);
    BoundsOf(r);
    StoredRunIsConsistent(r);
    StartThenFails(r.spec, r.state);
  }

  lemma BoundsOf(r: Run)
    requires RunInv(r)
    ensures r.spec.WithinBounds()
  {
  }

  lemma StartThenFails(spec: RunSpec, s: RunState)
    requires Consistent(spec, s) && s.runSpecHash == SpecIdentity(spec) && s.status.Ready? && spec.maxCostUsd > 0.0
    ensures var s1 := StateMachine.Move(s, Running);
            && ApplyTransition(s, StartStep, spec, None, 0.0) == Ok(s1)
            && ApplyTransition(s1, ChildFailed, spec, None, 0.0) == Ok(NextAfterAttempt(s1, spec, false, None, 0.0))
  {
  }

  lemma LaunchErrorStep(table: ScoreTable, r: Run)
    requires RunInv(r) && r.state.status.Ready? && r.spec.maxCostUsd > 0.0
    ensures Finish(table, r, StepLoad, LaunchError) == LaunchFailed(r)
  {
    hide Completes, OpOf, Continue, RunInv, Fresh;
    var r1 := Exec(r, Commit(StartStep, r.state.revision, None, 0.0));
    var r2 := Exec(r1, Commit(ChildFailed, r1.state.revision, None, 0.0));
    var r3 := Observe(r2, ChildLaunchError, Classification("CHILD_LAUNCH_ERROR"));
    var task, end := Task(Some("CHILD_LAUNCH_ERROR"), None, None), LaunchFailed(r);
    LaunchFailedCommits(r);
    MemoryIsValid(r);
    LaunchFailedOps(table, r1, r1.state);
    LaunchFailedOps(table, r2, r1.state);
    LaunchFailedOps(table, r3, r1.state);
    RefreshReturns(table, r3, task, LaunchError);
    Proceeds(table, r2, StepNoteLaunchError, LaunchError, r3, MemRun(task), end);
    Proceeds(table, r1, StepLaunchError(r1.state), LaunchError, r2, StepNoteLaunchError, end);
    Proceeds(table, r1, StepLaunch(r1.state), LaunchError, r1, StepLaunchError(r1.state), end);
    StartProceeds(table, r, LaunchError, end);
    CompletesAt(table, r, StepLoad, end);
  }

  lemma CompletesAt(table: ScoreTable, r: Run, pc: Pc, end: Run)
    requires Completes(table, r, pc, LaunchError, end)
    ensures Finish(table, r, pc, LaunchError) == end
  {
  }

  /** n attempts came to nothing. */
  ghost predicate Stalled(r: Run, n: nat) {
    && r.state.stepsUsed == n && r.state.consecutiveNoProgress == n && r.state.costUsd == 0.0 && r.advice == []
    && r.state.status == if n == r.spec.noProgressLimit then SupervisionRequired else Ready
  }

  lemma StalledOnce(table: ScoreTable, r: Run, n: nat)
    requires RunInv(r) && Stalled(r, n) && MayStagnate(r.spec) && n < r.spec.noProgressLimit
    ensures Stalled(Finish(table, r, StepLoad, LaunchError), n + 1)
  {
    hide RunInv, Finish, Fresh, Exec;
    LaunchErrorStep(table, r);
    LaunchFailedCommits(r);
    SpecOfLaunchFailed(r);
  }

  lemma SpecOfLaunchFailed(r: Run)
    ensures LaunchFailed(r).spec == r.spec
  {
  }

  lemma CreationStalls(table: ScoreTable, spec: RunSpec)
    requires spec.WithinBounds()
    ensures Stalled(Drive(table, spec, 6, []), 0)
  {
    CreationCompletes(table, spec, LaunchError);
    assert StepsLeft(NewApprove) == 6;
    assert PerformAll(table, Finish(table, Create(spec), NewApprove, LaunchError), []) == Finish(table, Create(spec), NewApprove, LaunchError);
  }

  /** n steps whose children could not be launched. */
  lemma {:induction false} Stalls(table: ScoreTable, spec: RunSpec, n: nat) returns (ops: seq<Operation>)
    requires spec.WithinBounds() && MayStagnate(spec) && n <= spec.noProgressLimit
    ensures Stalled(Drive(table, spec, 6, ops), n)
  {
    hide Drive, Finish, Perform, Stalled;
    if n == 0 {
      ops := [];
      CreationStalls(table, spec);
    } else {
      var before := Stalls(table, spec, n - 1);
      var op := Operation(StepLoad, LaunchError, StepsLeft(StepLoad));
      DriveInformed(table, spec, 6, before);
      DriveKeepsSpec(table, spec, 6, before);
      StalledOnce(table, Drive(table, spec, 6, before), n - 1);
      PerformIsFinish(table, Drive(table, spec, 6, before), StepLoad, LaunchError);
      DriveAppend(table, spec, 6, before, op);
      ops := before + [op];
    }
  }

  /** The run after a supervision whose child could not be launched; r has its memory. */
  function SupervisionFailed(r: Run): Run {
    var r1 := Exec(r, Commit(StartSupervisor, r.state.revision, None, 0.0));
    var r2 := Exec(r1, Commit(SupervisorFailed, r1.state.revision, None, 0.0));
    Exec(r2, Note(SupervisorFailed, Classification("SUPERVISOR_LAUNCH_ERROR")))
  }

  lemma FailureCommits(r: Run)
    requires RunInv(r) && r.state.status.SupervisionRequired?
    ensures var r1 := Exec(r, Commit(StartSupervisor, r.state.revision, None, 0.0));
            var op := Commit(SupervisorFailed, r1.state.revision, None, 0.0);
            && Try(r, Commit(StartSupervisor, r.state.revision, None, 0.0)) == Ok(r1) && r1.state.status.Supervising?
            && r1.log == r.log + [EntryOf(StartSupervisor, r1.state, Change(None, 0.0))] && r1.spec == r.spec
            && Try(r1, op) == Ok(Exec(r1, op)) && SupervisionFailed(r).memory == r.memory
  {
    CommitAccepted(r, StartSupervisor, None);
  }

  lemma FailureOps(table: ScoreTable, r: Run, st: RunState, m: Memory)
    ensures OpOf(SupStart(st, m)) == Commit(StartSupervisor, st.revision, None, 0.0)
    ensures Continue(table, r, SupStart(st, m), LaunchError) == SupLaunch(r.state, m)
    ensures OpOf(SupLaunch(st, m)).Read? && Continue(table, r, SupLaunch(st, m), LaunchError) == SupFail(st, "SUPERVISOR_LAUNCH_ERROR")
    ensures OpOf(SupFail(st, "SUPERVISOR_LAUNCH_ERROR")) == Commit(SupervisorFailed, st.revision, None, 0.0)
    ensures Continue(table, r, SupFail(st, "SUPERVISOR_LAUNCH_ERROR"), LaunchError) == SupNoteFail("SUPERVISOR_LAUNCH_ERROR")
    ensures OpOf(SupNoteFail("SUPERVISOR_LAUNCH_ERROR")) == Note(SupervisorFailed, Classification("SUPERVISOR_LAUNCH_ERROR"))
    ensures Continue(table, r, SupNoteFail("SUPERVISOR_LAUNCH_ERROR"), LaunchError) == Refresh("SUPERVISOR_LAUNCH_ERROR")
  {
    hide NextMemory, ContinueStep, ContinueRefresh, ContinueOther;
  }

  lemma NoteReturns(r: Run, event: EventName, payload: Payload)
    ensures Try(r, Note(event, payload)) == Ok(Exec(r, Note(event, payload)))
  {
  }

  /** From its start a supervision whose child cannot be launched ends like this. */
  lemma FailsFromStart(table: ScoreTable, r: Run, m: Memory) returns (end: Run)
    requires RunInv(r) && r.state.status.SupervisionRequired?
    ensures Completes(table, r, SupStart(r.state, m), LaunchError, end) && end.log == SupervisionFailed(r).log
  {
    hide Completes, OpOf, Continue, RunInv, Fresh;
    var text := "SUPERVISOR_LAUNCH_ERROR";
    var r1 := Exec(r, Commit(StartSupervisor, r.state.revision, None, 0.0));
    var r2 := Exec(r1, Commit(SupervisorFailed, r1.state.revision, None, 0.0));
    var r3, task := SupervisionFailed(r), Task(Some(text), None, None);
    end := Refreshed(r3, task);
    FailureCommits(r);
    MemoryIsValid(r);
    NoteReturns(r2, SupervisorFailed, Classification(text));
    FailureOps(table, r1, r.state, m);
    FailureOps(table, r1, r1.state, m);
    FailureOps(table, r2, r1.state, m);
    FailureOps(table, r3, r1.state, m);
    RefreshReturns(table, r3, task, LaunchError);
    Proceeds(table, r2, SupNoteFail(text), LaunchError, r3, MemRun(task), end);
    Proceeds(table, r1, SupFail(r1.state, text), LaunchError, r2, SupNoteFail(text), end);
    Proceeds(table, r1, SupLaunch(r1.state, m), LaunchError, r1, SupFail(r1.state, text), end);
    Proceeds(table, r, SupStart(r.state, m), LaunchError, r1, SupLaunch(r1.state, m), end);
  }

  lemma SupervisionReads(table: ScoreTable, r: Run)
    requires r.advice == [] && r.state.status.SupervisionRequired?
    ensures OpOf(SupLoad).Read? && Continue(table, r, SupLoad, LaunchError) == SupAdvice(r.state)
    ensures OpOf(SupAdvice(r.state)).Read? && Continue(table, r, SupAdvice(r.state), LaunchError) == SupMemory(r.state)
    ensures OpOf(SupMemory(r.state)).Read?
    ensures r.memory.Some? ==> Continue(table, r, SupMemory(r.state), LaunchError) == SupStart(r.state, r.memory.value)
  {
  }

  /** A supervise whose child cannot be launched. */
  lemma FailsWholly(table: ScoreTable, r: Run) returns (end: Run, started: Run)
    requires AtRest(r) && r.state.status.SupervisionRequired? && r.advice == []
    ensures Completes(table, r, SupLoad, LaunchError, end) && end.log == SupervisionFailed(started).log && AtRest(started)
    ensures started.state == r.state && started.log == r.log && started.spec == r.spec
  {
    hide Completes, OpOf, Continue, RunInv, ExInv, Fresh, SupervisionFailed;
    SupervisionReads(table, r);
    ReadsReturn(r);
    if r.memory.Some? {
      started := r;
      end := FailsFromStart(table, r, r.memory.value);
      Proceeds(table, r, SupMemory(r.state), LaunchError, r, SupStart(r.state, r.memory.value), end);
    } else {
      var task := Task(None, None, Some(r.state));
      started := Refreshed(r, task);
      RefreshedAtRest(r, task);
      end := FailsFromStart(table, started, Fresh(r, task));
      MemoryFirst(table, r, SupMemory(r.state), LaunchError, end);
    }
    Proceeds(table, r, SupAdvice(r.state), LaunchError, r, SupMemory(r.state), end);
    Proceeds(table, r, SupLoad, LaunchError, r, SupAdvice(r.state), end);
  }

  lemma ChangeIsNoNote(log: seq<Entry>, e: Entry)
    requires (forall x <- log :: !FailureNote(x)) && e.payload.Change?
    ensures forall x <- log + [e] :: !FailureNote(x)
  {
  }

  /** The log of such a supervise tells no history by its names. */
  lemma NamesFail(r: Run)
    requires RunInv(r) && r.state.status.SupervisionRequired? && LogShape(r.log) && forall e <- r.log :: !FailureNote(e)
    ensures Replay(r.spec, NamedHistory(SupervisionFailed(r).log)) == Err(TerminalRun)
  {
    hide NamedHistory, LogShape, FailureNote, Replays;
    var start := Commit(StartSupervisor, r.state.revision, None, 0.0);
    var r1 := Exec(r, start);
    FailureCommits(r);
    ReplaysOf(r);
    ExecReplays(r, start);
    CommitKeepsShape(r, start);
    ChangeIsNoNote(r.log, EntryOf(StartSupervisor, r1.state, Change(None, 0.0)));
    ShapeTells(r1);
    NamedHistoryFails(r1, "SUPERVISOR_LAUNCH_ERROR");
  }

  lemma NoSupervisionYet(r: Run)
    requires RunInv(r) && r.state.status.SupervisionRequired? && r.advice == []
    ensures Supervisions(r) == 0
  {
  }

  lemma StalledFails(table: ScoreTable, spec: RunSpec, ops: seq<Operation>)
    requires spec.WithinBounds() && MayStagnate(spec) && Stalled(Drive(table, spec, 6, ops), spec.noProgressLimit)
    ensures var op := Operation(SupLoad, LaunchError, StepsLeft(SupLoad));
            Replay(spec, NamedHistory(Drive(table, spec, 6, ops + [op]).log)) == Err(TerminalRun)
  {
    hide Drive, Finish, Perform, NamedHistory, RunInv, ExInv, LogShape, FailureNote, SupervisionFailed, Returns;
    var r, op := Drive(table, spec, 6, ops), Operation(SupLoad, LaunchError, StepsLeft(SupLoad));
    DriveAtRest(table, spec, 6, ops);
    DriveIsShaped(table, spec, 6, ops);
    NoSupervisionYet(r);
    var end, started := FailsWholly(table, r);
    NamesFail(started);
    PerformIsFinish(table, r, SupLoad, LaunchError);
    DriveAppend(table, spec, 6, ops, op);
  }

  /** The history that the names tell of some driven run is refused. */
  ghost predicate NamesMayFail(table: ScoreTable, spec: RunSpec) {
    exists created, ops :: Replay(spec, NamedHistory(Drive(table, spec, created, ops).log)) == Err(TerminalRun)
  }

  /**
   * The names of events tell a history that no run could have exactly for those specs whose runs may
   * stagnate before their budgets end them: let the children of the steps and then of the supervisor fail
   * to launch.
   */
  lemma NamesFailExactly(table: ScoreTable, spec: RunSpec)
    requires spec.WithinBounds()
    ensures NamesMayFail(table, spec) <==> MayStagnate(spec)
  {
    if MayStagnate(spec) {
      var ops := Stalls(table, spec, spec.noProgressLimit);
      StalledIs(table, spec, ops);
      StalledFails(table, spec, ops);
    }
    if NamesMayFail(table, spec) {
      var created, ops :| Replay(spec, NamedHistory(Drive(table, spec, created, ops).log)) == Err(TerminalRun);
      FailingNamesStagnate(table, spec, created, ops);
    }
  }

  lemma StalledIs(table: ScoreTable, spec: RunSpec, ops: seq<Operation>)
    ensures Drive(table, spec, 6, ops).spec == spec
  {
    DriveKeepsSpec(table, spec, 6, ops);
  }

  lemma FailingNamesStagnate(table: ScoreTable, spec: RunSpec, created: nat, ops: seq<Operation>)
    requires spec.WithinBounds() && Replay(spec, NamedHistory(Drive(table, spec, created, ops).log)).Err?
    ensures MayStagnate(spec)
  {
    hide Drive, NamedHistory, LogShape, FailureNote;
    var r := Drive(table, spec, created, ops);
    DriveIsShaped(table, spec, created, ops);
    ShapeTells(r);
    SupervisedMayStagnate(spec, History(r.log));
  }
}

/** What every atomic step of a controller keeps of a run, whoever else is at work on it. */
module RunInvariants {
  import opened Wrappers
  import opened Contracts
  import opened StateMachine
  import opened RunHistory
  import opened Ledger
  import opened LogReplay
  import opened Actors
  import opened MemoryContract
  import Evaluator

  predicate Supervises(e: EventName) { e.StartSupervisor? }

  ghost function Supervisions(r: Run): nat {
    Count(History(r.log), Supervises)
  }

  ghost function Starts(r: Run): nat {
    Count(History(r.log), Starting)
  }

  /** Holds of a run at every moment of every interleaving. */
  ghost predicate RunInv(r: Run) {
    && r.spec.WithinBounds() && Replays(r)
    && EvidenceInv(r) && SupervisionInv(r) && MemoryInv(r) && LengthInv(r)
  }

  /** How many more transitions controllers can commit: three per attempt, two for a supervision, one to approve. */
  ghost function Outlook(r: Run): int {
    OutlookOf(r.spec, r.state, Supervisions(r))
  }

  function OutlookOf(spec: RunSpec, s: RunState, supervisions: nat): int {
    if s.IsTerminal() then 0
    else
      3 * (spec.maxSteps - s.stepsUsed)
      + (if supervisions == 0 then 2 else 0) + (if s.status.Supervising? then 1 else 0)
      + (if s.status.Created? then 1 else 0)
      - (if s.status.Running? then 1 else if s.status.Evaluating? then 2 else 0)
  }

  ghost predicate LengthInv(r: Run) {
    && Count(History(r.log), PauseOrResume) == 0
    && !r.state.status.Paused?
    && r.state.revision + Outlook(r) <= 3 * r.spec.maxSteps + 3
  }

  /** Applied evaluations never exceed recorded ones, and are strictly fewer while evaluating. */
  ghost predicate EvidenceInv(r: Run) {
    && |r.candidates| == |r.evaluations|
    && (forall i :: 0 <= i < |r.evaluations| ==> r.evaluations[i].candidateHash == r.candidates[i].Identity())
    && Applied(r.log) <= |r.evaluations|
    && (r.state.status.Evaluating? ==> Applied(r.log) < |r.evaluations|)
    && (forall e <- r.log :: !e.event.EvaluationMissing?)
  }

  /** One supervision at most; once it is over, its advice is there or the run has ended. */
  ghost predicate SupervisionInv(r: Run) {
    && Supervisions(r) <= 1
    && (r.state.status.Supervising? ==> Supervisions(r) == 1)
    && (Supervisions(r) == 1 && r.advice == [] ==> r.state.status.Supervising? || r.state.IsTerminal())
  }

  ghost predicate MemoryInv(r: Run) {
    r.memory.Some? ==> r.memory.value.Valid() && r.memory.value.stateRevision <= r.state.revision
  }

  /** How a run may change under the steps of others: the rely of every operation. */
  ghost predicate Ext(r: Run, r': Run) {
    && r'.spec == r.spec
    && r.state.revision <= r'.state.revision
    && (r'.state.revision == r.state.revision ==>
          r'.state == r.state && Applied(r'.log) == Applied(r.log) && History(r'.log) == History(r.log))
    && r.candidates <= r'.candidates && r.evaluations <= r'.evaluations && r.advice <= r'.advice
    && MemoryRevision(r) <= MemoryRevision(r')
    && (MemoryRevision(r') == MemoryRevision(r) ==> r'.memory == r.memory)
  }

  /** What a step must respect for RunInv to survive it: the guarantee of every operation. */
  ghost predicate Permit(r: Run, op: Op) {
    match op
    case Commit(event, expected, _, _) =>
      expected == r.state.revision ==>
        && !event.EvaluationMissing? && !PauseOrResume(event)
        && (event.CandidateReady? ==> Applied(r.log) < |r.evaluations|)
        && (event.StartSupervisor? ==> Supervisions(r) == 0)
        && (event.SupervisorApplied? ==> r.advice != [])
    case Note(event, _) => !IsEvaluationEvent(event) && !event.EvaluationMissing?
    case Attempt(c, e) => e.candidateHash == c.Identity()
    case SandboxAttempt(c, e, _) => e.candidateHash == c.Identity()
    case Save(m, _) => m.Valid() && m.stateRevision <= r.state.revision
    case _ => true
  }

  // ----- the steps keep the invariants -----

  lemma TransitionStatuses(s: RunState, event: EventName, spec: RunSpec, candidate: Option<Digest>, cost: real)
    requires ApplyTransition(s, event, spec, candidate, cost).Ok?
    ensures var s' := ApplyTransition(s, event, spec, candidate, cost).value;
            && s'.revision == s.revision + 1
            && (s'.status.Evaluating? <==> event.CandidateReady?)
            && (s'.status.Supervising? <==> event.StartSupervisor?)
            && (s.status.Supervising? ==> s'.IsTerminal() || event.SupervisorApplied?)
            && (IsEvaluationEvent(event) ==> s.status.Evaluating?)
            && !s.IsTerminal()
            && !event.RunCreated?
  {
  }

  lemma AppliedAppend(log: seq<Entry>, e: Entry)
    ensures Applied(log + [e]) == Applied(log) + if IsEvaluationEvent(e.event) then 1 else 0
  {
    assert (log + [e])[..|log|] == log;
  }

  lemma CountAppend(h: seq<Input>, x: Input, p: EventName -> bool)
    ensures Count(h + [x], p) == Count(h, p) + if p(x.event) then 1 else 0
  {
    assert (h + [x])[..|h|] == h;
  }

  lemma CommitExtends(r: Run, op: Op)
    requires Replays(r) && op.Commit? && Try(r, op).Ok?
    ensures Ext(r, Exec(r, op))
  {
    TransitionStatuses(r.state, op.event, r.spec, op.candidate, op.cost);
  }

  lemma NoteExtends(r: Run, op: Op)
    requires Replays(r) && op.Note? && Permit(r, op)
    ensures Ext(r, Exec(r, op))
  {
    ExecReplays(r, op);
    AppliedAppend(r.log, EntryOf(op.event, r.state, op.payload));
  }

  lemma TableExtends(r: Run, op: Op)
    requires !op.Commit? && !op.Note?
    ensures Ext(r, Exec(r, op))
  {
    var r' := Exec(r, op);
    assert r'.state == r.state && r'.log == r.log && r'.spec == r.spec;
    assert r.candidates <= r'.candidates && r.evaluations <= r'.evaluations && r.advice <= r'.advice;
  }

  lemma ExecExtends(r: Run, op: Op)
    requires Replays(r) && Permit(r, op)
    ensures Ext(r, Exec(r, op))
  {
    if op.Note? {
      NoteExtends(r, op);
    } else if op.Commit? {
      if Try(r, op).Ok? { CommitExtends(r, op); }
    } else {
      TableExtends(r, op);
    }
  }

  lemma CommitKeepsRunInv(r: Run, op: Op)
    requires RunInv(r) && Permit(r, op) && op.Commit? && Try(r, op).Ok?
    ensures RunInv(Exec(r, op))
  {
    ExecReplays(r, op);
    TransitionStatuses(r.state, op.event, r.spec, op.candidate, op.cost);
    var r' := Exec(r, op);
    AppliedAppend(r.log, r'.log[|r.log|]);
    CountAppend(History(r.log), Input(op.event, op.candidate, op.cost), Supervises);
    CommitKeepsLength(r, op);
  }

  lemma CommitKeepsLength(r: Run, op: Op)
    requires r.spec.WithinBounds() && Replays(r) && LengthInv(r)
    requires op.Commit? && Try(r, op).Ok? && !PauseOrResume(op.event)
    requires Supervisions(r) <= 1 && (r.state.status.Supervising? ==> Supervisions(r) == 1)
    requires op.event.StartSupervisor? ==> Supervisions(r) == 0
    ensures LengthInv(Exec(r, op))
  {
    ExecReplays(r, op);
    StoredRunIsConsistent(r);
    CountAppend(History(r.log), Input(op.event, op.candidate, op.cost), Supervises);
    CountAppend(History(r.log), Input(op.event, op.candidate, op.cost), PauseOrResume);
    TransitionAdvances(r.state, op.event, r.spec, op.candidate, op.cost);
    OutlookFalls(r.spec, r.state, op, Exec(r, op).state, Supervisions(r));
  }

  lemma OutlookFalls(spec: RunSpec, s: RunState, op: Op, s': RunState, supervisions: nat)
    requires spec.WithinBounds() && Consistent(spec, s) && !s.status.Paused? && op.Commit? && !PauseOrResume(op.event)
    requires ApplyTransition(s, op.event, spec, op.candidate, op.cost) == Ok(s')
    requires supervisions <= 1 && (s.status.Supervising? ==> supervisions == 1) && (op.event.StartSupervisor? ==> supervisions == 0)
    ensures !s'.status.Paused?
    ensures OutlookOf(spec, s', supervisions + if op.event.StartSupervisor? then 1 else 0) < OutlookOf(spec, s, supervisions)
  {
  }

  lemma NoteKeepsRunInv(r: Run, op: Op)
    requires RunInv(r) && Permit(r, op) && op.Note?
    ensures RunInv(Exec(r, op))
  {
    ExecReplays(r, op);
    AppliedAppend(r.log, EntryOf(op.event, r.state, op.payload));
  }

  lemma TableKeepsRunInv(r: Run, op: Op)
    requires RunInv(r) && Permit(r, op) && !op.Commit? && !op.Note?
    ensures RunInv(Exec(r, op))
  {
    ExecReplays(r, op);
    var r' := Exec(r, op);
    assert r'.state == r.state && r'.log == r.log;
    assert r'.memory == r.memory || (op.Save? && r'.memory == Some(op.m));
    assert EvidenceInv(r');
  }

  lemma OpKeepsRunInv(r: Run, op: Op)
    requires RunInv(r) && Permit(r, op)
    ensures RunInv(Exec(r, op))
  {
    if op.Note? {
      NoteKeepsRunInv(r, op);
    } else if op.Commit? {
      if Try(r, op).Ok? { CommitKeepsRunInv(r, op); }
    } else {
      TableKeepsRunInv(r, op);
    }
  }

  // ----- what an operation knows at each program point -----

  /** st was the state of the run at some earlier moment. */
  ghost predicate Seen(r: Run, st: RunState) {
    st.revision <= r.state.revision && (st.revision == r.state.revision ==> st == r.state)
  }

  ghost predicate Current(r: Run, st: RunState) {
    st.revision == r.state.revision
  }

  /** A supervise call that found no advice after it read st. */
  ghost predicate MaySupervise(r: Run, st: RunState) {
    Seen(r, st) && st.status.SupervisionRequired? && (Current(r, st) ==> Supervisions(r) == 0)
  }

  ghost predicate TaskInv(r: Run, t: Task) {
    && (t.failure.Some? ==> Solid(t.failure.value))
    && (t.supervise.Some? ==> MaySupervise(r, t.supervise.value))
  }

  ghost predicate PreviousInv(r: Run, previous: Option<Memory>) {
    && (previous.Some? ==> previous.value.Valid() && previous.value.memoryRevision <= MemoryRevision(r))
    && (MemoryRevision(r) == (if previous.Some? then previous.value.memoryRevision else 0) ==> r.memory == previous)
  }

  ghost predicate PcInv(r: Run, pc: Pc) {
    match pc
    case StepStart(st) => Seen(r, st)
    case StepLaunch(st) => Seen(r, st)
    case StepLaunchError(st) => Seen(r, st)
    case StepNoteResult(st, child) => Seen(r, st) && child.Report?
    case StepChildFailed(st, error) => Seen(r, st) && Solid(error)
    case StepLineage(st, _, _) => Seen(r, st)
    case StepRecord(st, c, e) => Seen(r, st) && e.candidateHash == c.Identity() && c.ordinal == st.stepsUsed + 1
    case StepReady(st, _, _) => Seen(r, st) && (Current(r, st) ==> Applied(r.log) < |r.evaluations|)
    case StepApply(st, _, _) => Seen(r, st)
    case MemRun(t) => TaskInv(r, t)
    case MemPrevious(t, st) => TaskInv(r, t) && Seen(r, st)
    case MemLineage(t, st, previous) => TaskInv(r, t) && Seen(r, st) && PreviousInv(r, previous)
    case MemAdvice(t, st, previous, _, _) => TaskInv(r, t) && Seen(r, st) && PreviousInv(r, previous)
    case MemSave(t, m) =>
      && TaskInv(r, t) && m.Valid() && m.stateRevision <= r.state.revision
      && m.memoryRevision - 1 <= MemoryRevision(r)
      && (MemoryRevision(r) == m.memoryRevision - 1 ==>
            m.recentFailureSignatures == LastFive(Failures(r.memory, t.failure)))
    case SupAdvice(st) => Seen(r, st) && st.status.SupervisionRequired?
    case SupComplete(st) => Seen(r, st)
    case SupMemory(st) => MaySupervise(r, st)
    case SupStart(st, _) => MaySupervise(r, st)
    case SupLaunch(st, _) => Seen(r, st)
    case SupFail(st, error) => Seen(r, st) && Solid(error)
    case SupNoteFail(error) => Solid(error)
    case SupRecord(st, _, _) => Seen(r, st)
    case SupApply(st, _, _) => Seen(r, st) && r.advice != []
    case RecAdvice(st) => Seen(r, st) && st.status.Supervising?
    case RecReplayAdvice(st, _) => Seen(r, st) && r.advice != []
    case RecFailSup(st) => Seen(r, st)
    case RecLineage(st) => Seen(r, st) && InFlight(st)
    case RecEvents(st, cs, es) =>
      && Seen(r, st) && InFlight(st) && |cs| == |es| <= |r.evaluations|
      && (Current(r, st) && st.status.Evaluating? ==> Applied(r.log) < |es|)
    case RecReady(st, _, _) => Seen(r, st) && (Current(r, st) ==> Applied(r.log) < |r.evaluations|)
    case RecApply(st, _, _) => Seen(r, st)
    case RecMiss(st) => Seen(r, st) && InFlight(st) && (Current(r, st) ==> st.status.Running?)
    case RecNoteMiss(interrupted) => interrupted
    case CanCommit(st) => Seen(r, st)
    case _ => true
  }

  lemma PcStable(r: Run, r': Run, pc: Pc)
    requires Ext(r, r') && PcInv(r, pc)
    ensures PcInv(r', pc)
  {
  }

  lemma PcPermits(r: Run, pc: Pc)
    requires RunInv(r) && PcInv(r, pc)
    ensures Permit(r, OpOf(pc))
  {
    if InStep(pc) {
      StepPermits(r, pc);
    } else if InSupervise(pc) {
      SupervisePermits(r, pc);
    } else {
      OtherPermits(r, pc);
    }
  }

  lemma StepPermits(r: Run, pc: Pc)
    requires PcInv(r, pc) && InStep(pc)
    ensures Permit(r, OpOf(pc))
  {
  }

  lemma SupervisePermits(r: Run, pc: Pc)
    requires PcInv(r, pc) && InSupervise(pc)
    ensures Permit(r, OpOf(pc))
  {
  }

  lemma OtherPermits(r: Run, pc: Pc)
    requires PcInv(r, pc) && !InStep(pc) && !InSupervise(pc)
    ensures Permit(r, OpOf(pc))
  {
  }

  // ----- each operation re-establishes what it knows -----

  /** r' is the run after the call at pc succeeded on r. */
  ghost predicate CallTook(r: Run, pc: Pc, r': Run) {
    && Applied(r.log) <= |r.evaluations| && |r'.candidates| == |r'.evaluations|
    && (r'.state.status.Evaluating? ==> Applied(r'.log) < |r'.evaluations|)
    && SupervisionInv(r') && MemoryInv(r') && PcInv(r, pc) && PcInv(r', pc)
    && Try(r, OpOf(pc)) == Ok(r')
  }

  lemma TakeStep(r: Run, pc: Pc)
    requires RunInv(r) && PcInv(r, pc) && Try(r, OpOf(pc)).Ok?
    ensures CallTook(r, pc, Exec(r, OpOf(pc))) && RunInv(Exec(r, OpOf(pc))) && Ext(r, Exec(r, OpOf(pc)))
  {
    PcPermits(r, pc);
    OpKeepsRunInv(r, OpOf(pc));
    ExecExtends(r, OpOf(pc));
    PcStable(r, Exec(r, OpOf(pc)), pc);
  }

  lemma StepContinues(table: ScoreTable, r: Run, pc: Pc, r': Run, child: Child)
    requires CallTook(r, pc, r') && InStep(pc) && !pc.StepLineage?
    ensures PcInv(r', ContinueStep(table, r', pc, child))
  {
  }

  lemma LineageContinues(table: ScoreTable, r: Run, pc: Pc, r': Run, child: Child)
    requires CallTook(r, pc, r') && pc.StepLineage?
    ensures PcInv(r', ContinueStep(table, r', pc, child))
  {
    var next := ContinueStep(table, r', pc, child);
    if next.StepRecord? {
      var c := NewCandidate(r'.spec, pc.st, pc.variation, pc.resultHash);
      Evaluator.EvaluateDecides(r'.spec, c, map[OPERATIONS := BaselineScore(table, r'.evaluations)],
                                NewOutcome(pc.variation, table[pc.variation.strategy]));
    }
  }

  lemma RefreshContinues(r: Run, pc: Pc, r': Run)
    requires CallTook(r, pc, r') && InRefresh(pc) && !pc.MemAdvice?
    ensures PcInv(r', ContinueRefresh(r', pc))
  {
  }

  lemma AdviceContinues(r: Run, pc: Pc, r': Run)
    requires CallTook(r, pc, r') && pc.MemAdvice?
    ensures PcInv(r', ContinueRefresh(r', pc)) && ContinueRefresh(r', pc).MemSave?
  {
    RefreshNeverFails(r'.spec, pc.task, pc.st, pc.previous, pc.cs, pc.es, r'.advice);
  }

  lemma SuperviseContinues(r: Run, pc: Pc, r': Run, child: Child)
    requires CallTook(r, pc, r') && InSupervise(pc)
    ensures PcInv(r', ContinueSupervise(r', pc, child))
  {
    if OpOf(pc).Read? {
      SuperviseContinuesAfterRead(r', pc, child);
    } else {
      SuperviseContinuesAfterWrite(r, pc, r', child);
    }
  }

  lemma SuperviseContinuesAfterRead(r: Run, pc: Pc, child: Child)
    requires SupervisionInv(r) && PcInv(r, pc) && InSupervise(pc) && OpOf(pc).Read?
    ensures PcInv(r, ContinueSupervise(r, pc, child))
  {
  }

  lemma SuperviseContinuesAfterWrite(r: Run, pc: Pc, r': Run, child: Child)
    requires CallTook(r, pc, r') && InSupervise(pc) && !OpOf(pc).Read?
    ensures PcInv(r', ContinueSupervise(r', pc, child))
  {
  }

  lemma OtherContinues(r: Run, pc: Pc, r': Run)
    requires CallTook(r, pc, r') && !InStep(pc) && !InRefresh(pc) && !InSupervise(pc)
    ensures PcInv(r', ContinueOther(r', pc))
  {
    if OpOf(pc).Read? {
      OtherContinuesAfterRead(r', pc);
    } else {
      OtherContinuesAfterWrite(r, pc, r');
    }
  }

  lemma OtherContinuesAfterRead(r: Run, pc: Pc)
    requires !InStep(pc) && !InRefresh(pc) && !InSupervise(pc) && OpOf(pc).Read?
    requires PcInv(r, pc) && |r.candidates| == |r.evaluations|
    requires r.state.status.Evaluating? ==> Applied(r.log) < |r.evaluations|
    ensures PcInv(r, ContinueOther(r, pc))
  {
  }

  lemma OtherContinuesAfterWrite(r: Run, pc: Pc, r': Run)
    requires CallTook(r, pc, r') && !InStep(pc) && !InRefresh(pc) && !InSupervise(pc) && !OpOf(pc).Read?
    ensures PcInv(r', ContinueOther(r', pc))
  {
  }

  lemma ContinueKeeps(table: ScoreTable, r: Run, pc: Pc, r': Run, child: Child)
    requires CallTook(r, pc, r')
    ensures PcInv(r', Continue(table, r', pc, child))
  {
    hide PcInv, OpOf, CallTook, ContinueStep, ContinueRefresh, ContinueSupervise, ContinueOther;
    if pc.StepLineage? {
      LineageContinues(table, r, pc, r', child);
    } else if InStep(pc) {
      StepContinues(table, r, pc, r', child);
    } else if pc.MemAdvice? {
      AdviceContinues(r, pc, r');
    } else if InRefresh(pc) {
      RefreshContinues(r, pc, r');
    } else if InSupervise(pc) {
      SuperviseContinues(r, pc, r', child);
    } else {
      OtherContinues(r, pc, r');
    }
  }

  /** A step of one operation keeps the run's invariants and extends it, and leaves the operation informed. */
  lemma NextKeeps(table: ScoreTable, r: Run, pc: Pc, child: Child)
    requires RunInv(r) && PcInv(r, pc)
    ensures var (r', pc') := Next(table, r, pc, child); RunInv(r') && Ext(r, r') && PcInv(r', pc')
  {
    if Try(r, OpOf(pc)).Ok? {
      TakeStep(r, pc);
      ContinueKeeps(table, r, pc, Exec(r, OpOf(pc)), child);
    }
  }
}

/** Any number of operations, interleaved at their store calls, crashing anywhere. */
module Interleaving {
  import opened Wrappers
  import opened Contracts
  import opened StateMachine
  import opened RunHistory
  import opened Ledger
  import opened LogReplay
  import opened Actors
  import opened MemoryContract
  import opened RunInvariants

  /** The shared run, the operations in progress, and what was observed so far. */
  datatype Sys = Sys(
    run: Run,
    actors: seq<Pc>,
    launches: nat,
    supervisorLaunches: nat,
    saves: nat,
    failures: seq<string>)

  datatype Action = Spawn(pc: Pc) | Move(i: nat, child: Child) | Crash(j: nat)

  /** create_run has written the run row and is about to approve it. */
  function Init(spec: RunSpec): Sys {
    Sys(Create(spec), [NewApprove], 0, 0, 0, [])
  }

  predicate Saves(r: Run, pc: Pc) {
    pc.MemSave? && OpOf(pc).Save? && Try(r, OpOf(pc)).Ok?
  }

  function FailureOf(pc: Pc): seq<string>
    requires pc.MemSave?
  {
    if pc.task.failure.Some? then [Truncate(pc.task.failure.value)] else []
  }

  function Step(table: ScoreTable, s: Sys, a: Action): Sys {
    match a
    case Spawn(pc) => if IsEntry(pc) then s.(actors := s.actors + [pc]) else s
    case Crash(i) => if i < |s.actors| then s.(actors := s.actors[i := Done]) else s
    case Move(i, child) =>
      if i >= |s.actors| then s
      else
        var pc := s.actors[i];
        var (r', pc') := Next(table, s.run, pc, child);
        Sys(r', s.actors[i := pc'],
            s.launches + (if pc.StepLaunch? then 1 else 0),
            s.supervisorLaunches + (if pc.SupLaunch? then 1 else 0),
            s.saves + (if Saves(s.run, pc) then 1 else 0),
            if Saves(s.run, pc) then s.failures + FailureOf(pc) else s.failures)
  }

  function Behave(table: ScoreTable, spec: RunSpec, actions: seq<Action>): Sys {
    if actions == [] then Init(spec)
    else Step(table, Behave(table, spec, actions[..|actions| - 1]), actions[|actions| - 1])
  }

  // ----- claims: what an operation may still do because of a transition it committed -----

  datatype Claim = LaunchVariation | LaunchAdvisor | GiveAdvice | RecordOrdinal(n: nat)

  predicate Holds(claim: Claim, pc: Pc) {
    match claim
    case LaunchVariation => pc.StepLaunch?
    case LaunchAdvisor => pc.SupLaunch?
    case GiveAdvice => pc.SupLaunch? || pc.SupRecord?
    case RecordOrdinal(n) =>
      (pc.StepLaunch? || pc.StepNoteResult? || pc.StepLineage? || pc.StepRecord?) && pc.st.stepsUsed + 1 == n
  }

  function Held(claim: Claim, pc: Pc): nat {
    if Holds(claim, pc) then 1 else 0
  }

  function Holders(claim: Claim, actors: seq<Pc>): nat {
    if actors == [] then 0 else Holders(claim, actors[..|actors| - 1]) + Held(claim, actors[|actors| - 1])
  }

  lemma HoldersAppend(claim: Claim, actors: seq<Pc>, pc: Pc)
    ensures Holders(claim, actors + [pc]) == Holders(claim, actors) + Held(claim, pc)
  {
    assert (actors + [pc])[..|actors|] == actors;
  }

  lemma {:induction false} HoldersUpdate(claim: Claim, actors: seq<Pc>, i: nat, pc: Pc)
    requires i < |actors|
    ensures Holders(claim, actors[i := pc]) + Held(claim, actors[i]) == Holders(claim, actors) + Held(claim, pc)
  {
    var n := |actors| - 1;
    if i < n {
      HoldersUpdate(claim, actors[..n], i, pc);
      assert actors[i := pc][..n] == actors[..n][i := pc];
    } else {
      assert actors[i := pc][..n] == actors[..n];
    }
  }

  /** The candidates of the run that bear ordinal n. */
  function Bearing(cs: seq<Candidate>, n: nat): nat {
    if cs == [] then 0 else Bearing(cs[..|cs| - 1], n) + if cs[|cs| - 1].ordinal == n then 1 else 0
  }

  /** No candidate beyond this ordinal can exist yet. */
  function TopOrdinal(s: RunState): nat {
    s.stepsUsed + if InFlight(s) || s.IsTerminal() then 1 else 0
  }

  /** Launches and records come only from the program points before them, with the same local state. */
  predicate Succeeds(pc: Pc, pc': Pc) {
    && (pc'.StepLaunch? ==> pc.StepStart?)
    && (pc'.StepNoteResult? ==> pc.StepLaunch? && pc'.st == pc.st)
    && (pc'.StepLineage? ==> pc.StepNoteResult? && pc'.st == pc.st)
    && (pc'.StepRecord? ==> pc.StepLineage? && pc'.st == pc.st)
    && (pc'.SupLaunch? ==> pc.SupStart?)
    && (pc'.SupRecord? ==> pc.SupLaunch?)
  }

  lemma StepSucceeds(table: ScoreTable, r: Run, pc: Pc, child: Child)
    requires InStep(pc)
    ensures Succeeds(pc, ContinueStep(table, r, pc, child))
    ensures pc.StepStart? ==> ContinueStep(table, r, pc, child) == StepLaunch(r.state)
  {
  }

  lemma SuperviseSucceeds(r: Run, pc: Pc, child: Child)
    requires InSupervise(pc)
    ensures Succeeds(pc, ContinueSupervise(r, pc, child))
  {
  }

  lemma RefreshSucceeds(r: Run, pc: Pc)
    requires InRefresh(pc)
    ensures Succeeds(pc, ContinueRefresh(r, pc))
  {
  }

  lemma OtherSucceeds(r: Run, pc: Pc)
    requires !InStep(pc) && !InRefresh(pc) && !InSupervise(pc)
    ensures Succeeds(pc, ContinueOther(r, pc))
  {
  }

  lemma ContinueSucceeds(table: ScoreTable, r: Run, pc: Pc, child: Child)
    ensures Succeeds(pc, Continue(table, r, pc, child))
    ensures pc.StepStart? ==> Continue(table, r, pc, child) == StepLaunch(r.state)
  {
    hide Succeeds, ContinueStep, ContinueRefresh, ContinueSupervise, ContinueOther;
    if InStep(pc) {
      StepSucceeds(table, r, pc, child);
    } else if InRefresh(pc) {
      RefreshSucceeds(r, pc);
    } else if InSupervise(pc) {
      SuperviseSucceeds(r, pc, child);
    } else {
      OtherSucceeds(r, pc);
    }
  }

  lemma DoneSucceeds(pc: Pc)
    ensures Succeeds(pc, Done)
  {
  }

  lemma NextSucceeds(table: ScoreTable, r: Run, pc: Pc, child: Child)
    ensures var (r', pc') := Next(table, r, pc, child);
            && r' == Exec(r, OpOf(pc))
            && (Try(r, OpOf(pc)).Err? ==> pc'.Done?)
            && Succeeds(pc, pc')
            && (pc.StepStart? && Try(r, OpOf(pc)).Ok? ==> pc' == StepLaunch(r'.state))
  {
    hide Succeeds, OpOf, Continue, Try;
    ContinueSucceeds(table, Exec(r, OpOf(pc)), pc, child);
    DoneSucceeds(pc);
  }

  /** Which store call belongs to which program point. */
  ghost predicate Calls(pc: Pc, op: Op) {
    && (op.Commit? && op.event.StartStep? <==> pc.StepStart?)
    && (op.Commit? && op.event.StartSupervisor? <==> pc.SupStart?)
    && (op.Advise? <==> pc.SupRecord?)
    && (op.Attempt? <==> pc.StepRecord?)
    && (pc.StepRecord? ==> op == Attempt(pc.c, pc.e))
    && !op.SandboxAttempt?
  }

  lemma OpCalls(pc: Pc)
    ensures Calls(pc, OpOf(pc))
  {
  }

  /** What NextSucceeds and OpCalls tell of one step, for use with its result. */
  ghost predicate Stepped(r: Run, pc: Pc, op: Op, r': Run, pc': Pc) {
    && Calls(pc, op) && r' == Exec(r, op) && (Try(r, op).Err? ==> pc'.Done?) && Succeeds(pc, pc')
    && (pc.StepStart? && Try(r, op).Ok? ==> pc' == StepLaunch(r'.state))
  }

  lemma StepsCounted(r: Run, pc: Pc, op: Op)
    requires Replays(r) && Calls(pc, op)
    ensures var r' := Exec(r, op);
            && Starts(r') == Starts(r) + (if pc.StepStart? && Try(r, op).Ok? then 1 else 0)
            && Supervisions(r') == Supervisions(r) + (if pc.SupStart? && Try(r, op).Ok? then 1 else 0)
  {
    ExecReplays(r, op);
    if op.Commit? && Try(r, op).Ok? {
      CountAppend(History(r.log), Input(op.event, op.candidate, op.cost), Starting);
      CountAppend(History(r.log), Input(op.event, op.candidate, op.cost), Supervises);
    }
  }

  lemma TablesCounted(r: Run, pc: Pc, op: Op)
    requires Calls(pc, op)
    ensures var r' := Exec(r, op);
            && r'.candidates == (if pc.StepRecord? && Try(r, op).Ok? then r.candidates + [pc.c] else r.candidates)
            && |r'.advice| == |r.advice| + (if pc.SupRecord? && Try(r, op).Ok? then 1 else 0)
  {
  }

  /** A launch or an advice row is paid for by the transition committed before it. */
  lemma ClaimsPaid(r: Run, pc: Pc, op: Op, r': Run, pc': Pc)
    requires Replays(r) && Stepped(r, pc, op, r', pc')
    ensures Held(LaunchVariation, pc') <= Starts(r') - Starts(r)
    ensures Held(LaunchAdvisor, pc') <= Supervisions(r') - Supervisions(r)
    ensures |r'.advice| - |r.advice| + Held(GiveAdvice, pc') <= Held(GiveAdvice, pc) + Supervisions(r') - Supervisions(r)
  {
    StepsCounted(r, pc, op);
    TablesCounted(r, pc, op);
  }

  lemma BearingAppend(cs: seq<Candidate>, c: Candidate, n: nat)
    ensures Bearing(cs + [c], n) == Bearing(cs, n) + if c.ordinal == n then 1 else 0
  {
    assert (cs + [c])[..|cs|] == cs;
  }

  lemma OrdinalsPaid(r: Run, pc: Pc, op: Op, r': Run, pc': Pc, n: nat)
    requires Stepped(r, pc, op, r', pc') && (pc.StepRecord? ==> pc.c.ordinal == pc.st.stepsUsed + 1)
    ensures Bearing(r'.candidates, n) + Held(RecordOrdinal(n), pc') <=
            Bearing(r.candidates, n) + Held(RecordOrdinal(n), pc)
            + if pc.StepStart? && Try(r, op).Ok? && n == r'.state.stepsUsed + 1 then 1 else 0
  {
    TablesCounted(r, pc, op);
    if pc.StepRecord? {
      BearingAppend(r.candidates, pc.c, n);
    }
  }

  lemma TopOrdinalRises(r: Run, op: Op)
    requires Replays(r) && r.spec.WithinBounds()
    ensures TopOrdinal(r.state) <= TopOrdinal(Exec(r, op).state)
  {
    if op.Commit? && Try(r, op).Ok? {
      TopOrdinalOfTransition(r.state, op.event, r.spec, op.candidate, op.cost);
    }
  }

  lemma TopOrdinalOfTransition(s: RunState, event: EventName, spec: RunSpec, candidate: Option<Digest>, cost: real)
    requires ApplyTransition(s, event, spec, candidate, cost).Ok?
    ensures var s' := ApplyTransition(s, event, spec, candidate, cost).value;
            && TopOrdinal(s) <= TopOrdinal(s')
            && (event.StartStep? ==> TopOrdinal(s) == s.stepsUsed && s'.stepsUsed == s.stepsUsed && TopOrdinal(s') == s.stepsUsed + 1)
  {
  }

  // ----- the invariant of the whole system -----

  ghost predicate SysInv(s: Sys) {
    && RunInv(s.run)
    && (forall i :: 0 <= i < |s.actors| ==> PcInv(s.run, s.actors[i]))
    && ClaimInv(s) && OrdinalInv(s) && WindowInv(s)
  }

  ghost predicate ClaimInv(s: Sys) {
    && s.launches + Holders(LaunchVariation, s.actors) <= Starts(s.run)
    && s.supervisorLaunches + Holders(LaunchAdvisor, s.actors) <= Supervisions(s.run)
    && |s.run.advice| + Holders(GiveAdvice, s.actors) <= Supervisions(s.run)
  }

  /** Each ordinal belongs to at most one candidate, recorded or yet to be recorded. */
  ghost predicate OrdinalInv(s: Sys) {
    forall n: nat ::
      Bearing(s.run.candidates, n) + Holders(RecordOrdinal(n), s.actors) <=
      if n <= TopOrdinal(s.run.state) then 1 else 0
  }

  /** The stored failures are the last five of all failures saved so far. */
  ghost predicate WindowInv(s: Sys) {
    && s.saves == MemoryRevision(s.run)
    && Failures(s.run.memory, None) == LastFive(s.failures)
  }

  lemma InitInv(spec: RunSpec)
    requires spec.WithinBounds()
    ensures SysInv(Init(spec))
  {
    CreateReplays(spec);
    HoldersAppend(LaunchVariation, [], NewApprove);
    HoldersAppend(LaunchAdvisor, [], NewApprove);
    HoldersAppend(GiveAdvice, [], NewApprove);
    assert Init(spec).actors == [] + [NewApprove];
    forall n: nat ensures Holders(RecordOrdinal(n), Init(spec).actors) == 0 {
      HoldersAppend(RecordOrdinal(n), [], NewApprove);
    }
    assert Applied(Create(spec).log) == 0 by { AppliedAppend([], Create(spec).log[0]); assert [] + [Create(spec).log[0]] == Create(spec).log; }
  }

  lemma SpawnHolders(claim: Claim, actors: seq<Pc>, pc: Pc)
    requires IsEntry(pc)
    ensures Holders(claim, actors + [pc]) == Holders(claim, actors)
  {
    HoldersAppend(claim, actors, pc);
  }

  lemma SpawnKeeps(s: Sys, pc: Pc)
    requires SysInv(s) && IsEntry(pc)
    ensures SysInv(s.(actors := s.actors + [pc]))
  {
    var s' := s.(actors := s.actors + [pc]);
    SpawnHolders(LaunchVariation, s.actors, pc);
    SpawnHolders(LaunchAdvisor, s.actors, pc);
    SpawnHolders(GiveAdvice, s.actors, pc);
    forall n: nat ensures Holders(RecordOrdinal(n), s'.actors) == Holders(RecordOrdinal(n), s.actors) {
      SpawnHolders(RecordOrdinal(n), s.actors, pc);
    }
    forall i | 0 <= i < |s'.actors| ensures PcInv(s'.run, s'.actors[i]) {
      if i < |s.actors| {
        assert PcInv(s.run, s.actors[i]);
      } else {
        EntryKnowsNothing(s.run, pc);
      }
    }
  }

  lemma EntryKnowsNothing(r: Run, pc: Pc)
    requires IsEntry(pc)
    ensures PcInv(r, pc)
  {
  }

  lemma CrashKeeps(s: Sys, i: nat)
    requires SysInv(s) && i < |s.actors|
    ensures SysInv(s.(actors := s.actors[i := Done]))
  {
    HoldersUpdate(LaunchVariation, s.actors, i, Done);
    HoldersUpdate(LaunchAdvisor, s.actors, i, Done);
    HoldersUpdate(GiveAdvice, s.actors, i, Done);
    forall n: nat ensures Holders(RecordOrdinal(n), s.actors[i := Done]) <= Holders(RecordOrdinal(n), s.actors) {
      HoldersUpdate(RecordOrdinal(n), s.actors, i, Done);
    }
  }

  lemma ClaimsKept(s: Sys, i: nat, op: Op, s': Sys)
    requires RunInv(s.run) && ClaimInv(s) && i < |s.actors| && |s'.actors| == |s.actors|
    requires s'.actors == s.actors[i := s'.actors[i]]
    requires Stepped(s.run, s.actors[i], op, s'.run, s'.actors[i])
    requires s'.launches == s.launches + if s.actors[i].StepLaunch? then 1 else 0
    requires s'.supervisorLaunches == s.supervisorLaunches + if s.actors[i].SupLaunch? then 1 else 0
    ensures ClaimInv(s')
  {
    var pc, pc' := s.actors[i], s'.actors[i];
    ClaimsPaid(s.run, pc, op, s'.run, pc');
    HoldersUpdate(LaunchVariation, s.actors, i, pc');
    HoldersUpdate(LaunchAdvisor, s.actors, i, pc');
    HoldersUpdate(GiveAdvice, s.actors, i, pc');
  }

  lemma OrdinalsKept(s: Sys, i: nat, op: Op, s': Sys)
    requires RunInv(s.run) && OrdinalInv(s) && i < |s.actors| && |s'.actors| == |s.actors|
    requires s'.actors == s.actors[i := s'.actors[i]] && PcInv(s.run, s.actors[i])
    requires Stepped(s.run, s.actors[i], op, s'.run, s'.actors[i])
    ensures OrdinalInv(s')
  {
    var pc, pc' := s.actors[i], s'.actors[i];
    TopOrdinalRises(s.run, op);
    var starts := pc.StepStart? && Try(s.run, op).Ok?;
    if starts {
      TopOrdinalOfTransition(s.run.state, op.event, s.run.spec, op.candidate, op.cost);
    }
    forall n: nat
      ensures Bearing(s'.run.candidates, n) + Holders(RecordOrdinal(n), s'.actors) <=
              if n <= TopOrdinal(s'.run.state) then 1 else 0
    {
      OrdinalsPaid(s.run, pc, op, s'.run, pc', n);
      HoldersUpdate(RecordOrdinal(n), s.actors, i, pc');
      assert Bearing(s.run.candidates, n) + Holders(RecordOrdinal(n), s.actors) <=
             if n <= TopOrdinal(s.run.state) then 1 else 0;
    }
  }

  lemma SavedWindow(r: Run, pc: Pc)
    requires PcInv(r, pc) && Saves(r, pc)
    ensures MemoryRevision(Exec(r, OpOf(pc))) == MemoryRevision(r) + 1
    ensures Failures(Exec(r, OpOf(pc)).memory, None) == LastFive(Failures(r.memory, pc.task.failure))
    ensures pc.task.failure.Some? ==> Solid(pc.task.failure.value)
  {
  }

  lemma UnsavedWindow(r: Run, pc: Pc)
    requires !Saves(r, pc)
    ensures Exec(r, OpOf(pc)).memory == r.memory
  {
    hide OpOf;
    OnlySaveSaves(pc);
  }

  lemma OnlySaveSaves(pc: Pc)
    ensures OpOf(pc).Save? ==> pc.MemSave?
  {
  }

  lemma WindowKept(s: Sys, pc: Pc, op: Op, s': Sys)
    requires WindowInv(s) && PcInv(s.run, pc) && op == OpOf(pc) && s'.run == Exec(s.run, op)
    requires s'.saves == s.saves + if Saves(s.run, pc) then 1 else 0
    requires s'.failures == if Saves(s.run, pc) then s.failures + FailureOf(pc) else s.failures
    ensures WindowInv(s')
  {
    hide PcInv, OpOf, Exec;
    if Saves(s.run, pc) {
      SavedWindow(s.run, pc);
      LastFiveOfWindow(s.failures, if pc.task.failure.Some? then Truncate(pc.task.failure.value) else "");
      if pc.task.failure.None? { assert s.failures + FailureOf(pc) == s.failures; }
    } else {
      UnsavedWindow(s.run, pc);
    }
  }

  lemma MoveKeeps(table: ScoreTable, s: Sys, i: nat, child: Child)
    requires SysInv(s) && i < |s.actors|
    ensures SysInv(Step(table, s, Move(i, child)))
  {
    hide RunInv, PcInv, OpOf, Continue, ClaimInv, OrdinalInv, WindowInv;
    var s' := Step(table, s, Move(i, child));
    var pc, op := s.actors[i], OpOf(s.actors[i]);
    assert PcInv(s.run, pc);
    NextKeeps(table, s.run, pc, child);
    NextSucceeds(table, s.run, pc, child);
    OpCalls(pc);
    assert Stepped(s.run, pc, op, s'.run, s'.actors[i]);
    ClaimsKept(s, i, op, s');
    OrdinalsKept(s, i, op, s');
    WindowKept(s, pc, op, s');
    forall j | 0 <= j < |s'.actors| ensures PcInv(s'.run, s'.actors[j]) {
      if j != i { PcStable(s.run, s'.run, s.actors[j]); }
    }
  }

  lemma StepKeeps(table: ScoreTable, s: Sys, a: Action)
    requires SysInv(s)
    ensures SysInv(Step(table, s, a))
  {
    match a
    case Spawn(pc) => if IsEntry(pc) { SpawnKeeps(s, pc); }
    case Crash(i) => if i < |s.actors| { CrashKeeps(s, i); }
    case Move(i, child) => if i < |s.actors| { MoveKeeps(table, s, i, child); }
  }

  lemma {:induction false} Always(table: ScoreTable, spec: RunSpec, actions: seq<Action>)
    requires spec.WithinBounds()
    ensures SysInv(Behave(table, spec, actions))
    ensures Behave(table, spec, actions).run.spec == spec
  {
    if actions == [] {
      InitInv(spec);
    } else {
      Always(table, spec, actions[..|actions| - 1]);
      StepKeeps(table, Behave(table, spec, actions[..|actions| - 1]), actions[|actions| - 1]);
      KeepsSpec(table, Behave(table, spec, actions[..|actions| - 1]), actions[|actions| - 1]);
    }
  }

  lemma KeepsSpec(table: ScoreTable, s: Sys, a: Action)
    ensures Step(table, s, a).run.spec == s.run.spec
  {
  }

  // ----- what every interleaving guarantees -----

  /** One supervisor: one committed start, one launched child, one advice row, in every interleaving. */
  lemma OneSupervisor(table: ScoreTable, spec: RunSpec, actions: seq<Action>)
    requires spec.WithinBounds()
    ensures var s := Behave(table, spec, actions);
            Supervisions(s.run) <= 1 && s.supervisorLaunches <= 1 && |s.run.advice| <= 1
  {
    Always(table, spec, actions);
  }

  /** Applied evaluations never exceed recorded ones, and no evaluation_missing is ever written. */
  lemma NoEvaluationGoesMissing(table: ScoreTable, spec: RunSpec, actions: seq<Action>)
    requires spec.WithinBounds()
    ensures var r := Behave(table, spec, actions).run;
            && Applied(r.log) <= |r.evaluations|
            && (r.state.status.Evaluating? ==> Applied(r.log) < |r.evaluations|)
            && forall e <- r.log :: !e.event.EvaluationMissing?
  {
    Always(table, spec, actions);
  }

  /** The log of every interleaving replays to its state, through consistent states only. */
  lemma EveryLogReplays(table: ScoreTable, spec: RunSpec, actions: seq<Action>)
    requires spec.WithinBounds()
    ensures var r := Behave(table, spec, actions).run;
            Replays(r) && Consistent(spec, r.state) && CountersTell(spec, History(r.log), r.state)
  {
    Always(table, spec, actions);
    StoredRunIsConsistent(Behave(table, spec, actions).run);
  }

  /** Controllers launch at most max_steps variation children and commit at most 3 * max_steps + 3 transitions. */
  lemma LaunchAndLengthBounds(table: ScoreTable, spec: RunSpec, actions: seq<Action>)
    requires spec.WithinBounds()
    ensures var s := Behave(table, spec, actions);
            && s.launches <= spec.maxSteps && s.run.state.stepsUsed <= spec.maxSteps
            && s.run.state.revision <= 3 * spec.maxSteps + 3
  {
    Always(table, spec, actions);
    var r := Behave(table, spec, actions).run;
    StartsBound(spec, History(r.log));
    StoredRunIsConsistent(r);
  }

  /**
   * A committed start_step always launches a child, and the run is running then exactly when it may
   * cost something: with a zero cost budget the child of an already exhausted run is launched.
   */
  lemma LaunchDespiteExhaustion(table: ScoreTable, spec: RunSpec, actions: seq<Action>, i: nat, child: Child)
    requires spec.WithinBounds()
    requires var s := Behave(table, spec, actions);
             i < |s.actors| && s.actors[i].StepStart? && Try(s.run, OpOf(s.actors[i])).Ok?
    ensures var s := Behave(table, spec, actions);
            var s' := Step(table, s, Move(i, child));
            && s'.actors[i] == StepLaunch(s'.run.state)
            && (s'.run.state.status.Running? <==> spec.maxCostUsd > 0.0)
            && (s'.run.state.status.BudgetExhausted? <==> spec.maxCostUsd == 0.0)
  {
    Always(table, spec, actions);
    var s := Behave(table, spec, actions);
    StoredRunIsConsistent(s.run);
    NextSucceeds(table, s.run, s.actors[i], child);
  }

  lemma {:induction false} NotBorne(cs: seq<Candidate>, n: nat)
    requires Bearing(cs, n) == 0
    ensures forall c <- cs :: c.ordinal != n
  {
    if cs != [] {
      NotBorne(cs[..|cs| - 1], n);
      assert forall c <- cs :: c in cs[..|cs| - 1] || c == cs[|cs| - 1];
    }
  }

  lemma {:induction false} HolderCounts(claim: Claim, actors: seq<Pc>, i: nat)
    requires i < |actors| && Holds(claim, actors[i])
    ensures Holders(claim, actors) >= 1
  {
    if i < |actors| - 1 {
      HolderCounts(claim, actors[..|actors| - 1], i);
    }
  }

  /** Recording an attempt or an advice never meets a duplicate key, in every interleaving. */
  lemma RecordingNeverConflicts(table: ScoreTable, spec: RunSpec, actions: seq<Action>, i: nat)
    requires spec.WithinBounds()
    requires var s := Behave(table, spec, actions);
             i < |s.actors| && (s.actors[i].StepRecord? || s.actors[i].SupRecord?)
    ensures var s := Behave(table, spec, actions); Try(s.run, OpOf(s.actors[i])).Ok?
  {
    hide Behave, SysInv, OpOf, Try;
    Always(table, spec, actions);
    var s := Behave(table, spec, actions);
    if s.actors[i].SupRecord? {
      AdviceFits(s, i);
    } else {
      AttemptFits(s, i);
    }
  }

  lemma AdviceFits(s: Sys, i: nat)
    requires SysInv(s) && i < |s.actors| && s.actors[i].SupRecord?
    ensures Try(s.run, OpOf(s.actors[i])).Ok?
  {
    hide LengthInv, MemoryInv, Replays, EvidenceInv, OrdinalInv, WindowInv;
    HolderCounts(GiveAdvice, s.actors, i);
  }

  lemma AttemptFits(s: Sys, i: nat)
    requires SysInv(s) && i < |s.actors| && s.actors[i].StepRecord?
    ensures Try(s.run, OpOf(s.actors[i])).Ok?
  {
    hide LengthInv, MemoryInv, Replays, SupervisionInv, ClaimInv, WindowInv;
    var pc := s.actors[i];
    var n := pc.st.stepsUsed + 1;
    HolderCounts(RecordOrdinal(n), s.actors, i);
    NotBorne(s.run.candidates, n);
    assert PcInv(s.run, pc);
    FreshAttempt(s.run, pc.c, pc.e);
  }

  lemma FreshAttempt(r: Run, c: Candidate, e: Evaluation)
    requires EvidenceInv(r) && e.candidateHash == c.Identity()
    requires forall c' <- r.candidates :: c'.ordinal != c.ordinal
    ensures RecordAttempt(r, c, e).Ok?
  {
  }

  /**
   * Continuation memory: one revision per save, never ahead of the run, always within its contract,
   * and its window is the last five of all failures ever saved.
   */
  lemma MemoryIsExact(table: ScoreTable, spec: RunSpec, actions: seq<Action>)
    requires spec.WithinBounds()
    ensures var s := Behave(table, spec, actions);
            && MemoryRevision(s.run) == s.saves
            && (s.run.memory.Some? ==>
                  && s.run.memory.value.Valid()
                  && s.run.memory.value.stateRevision <= s.run.state.revision
                  && s.run.memory.value.recentFailureSignatures == LastFive(s.failures))
  {
    Always(table, spec, actions);
  }
}

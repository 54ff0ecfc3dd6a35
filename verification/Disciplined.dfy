/**
 * Overlap that does no harm. Any operations may overlap as long as no reconcile loads its
 * run while a step stands between launching its child and applying its verdict; then what
 * is recorded is still applied exactly once.
 */
module Discipline {
  import opened Wrappers
  import opened Contracts
  import opened StateMachine
  import opened RunHistory
  import opened Ledger
  import opened LogReplay
  import opened Actors
  import opened RunInvariants
  import opened Interleaving
  import opened ExclusiveDriver
  import opened Iteration

  /** A step whose attempt is in its hands. */
  predicate Live(pc: Pc) {
    pc.StepLaunch? || pc.StepLaunchError? || pc.StepNoteResult? || pc.StepChildFailed? ||
    pc.StepLineage? || pc.StepRecord? || pc.StepReady? || pc.StepApply?
  }

  predicate AnyLive(actors: seq<Pc>) {
    exists pc <- actors :: Live(pc)
  }

  /** The guard: no step is live when a reconcile loads its run. */
  predicate Guarded(s: Sys, a: Action) {
    a.Move? && a.i < |s.actors| && s.actors[a.i].RecLoad? ==> !AnyLive(s.actors)
  }

  /** Every action of the run kept the guard. */
  predicate Disciplined(table: ScoreTable, spec: RunSpec, actions: seq<Action>) {
    actions != [] ==>
      && Disciplined(table, spec, actions[..|actions| - 1])
      && Guarded(Behave(table, spec, actions[..|actions| - 1]), actions[|actions| - 1])
  }

  /** A reconcile that looks at an attempt in flight. */
  predicate Examining(pc: Pc) {
    pc.RecLineage? || pc.RecEvents? || pc.RecReady? || pc.RecApply? || pc.RecMiss?
  }

  /** A live step's local state is the stored one; a reconcile's is, as long as the revision it read is current. */
  ghost predicate Synced(r: Run, pc: Pc) {
    && (Live(pc) ==> ExPc(r, pc))
    && (Examining(pc) && Current(r, pc.st) ==> ExPc(r, pc))
    && (pc.CanCommit? ==> !InFlight(pc.st))
  }

  /** No two operations hold the attempt in flight. */
  ghost predicate Apart(r: Run, pc: Pc, pc': Pc) {
    && !(Live(pc) && Live(pc'))
    && !(Live(pc) && Examining(pc') && Current(r, pc'.st))
    && !(Live(pc') && Examining(pc) && Current(r, pc.st))
  }

  ghost predicate DisciplineInv(s: Sys) {
    && SysInv(s) && ExInv(s.run)
    && (forall i :: 0 <= i < |s.actors| ==> Synced(s.run, s.actors[i]))
    && (forall i, j :: 0 <= i < j < |s.actors| ==> Apart(s.run, s.actors[i], s.actors[j]))
  }

  // ----- one call -----

  /** A commit that succeeds was made with the stored state. */
  ghost predicate StateOfCommit(pc: Pc, st: RunState) {
    match pc
    case StepStart(s) => s == st
    case StepLaunchError(s) => s == st
    case StepChildFailed(s, _) => s == st
    case StepReady(s, _, _) => s == st
    case StepApply(s, _, _) => s == st
    case RecReady(s, _, _) => s == st
    case RecApply(s, _, _) => s == st
    case RecMiss(s) => s == st
    case CanCommit(s) => s == st
    case _ => true
  }

  lemma CommitsStored(r: Run, pc: Pc)
    requires PcInv(r, pc) && Try(r, OpOf(pc)).Ok?
    ensures StateOfCommit(pc, r.state)
  {
    if OpOf(pc).Commit? {
      assert OpOf(pc).expected == r.state.revision;
    }
  }

  /** What succeeds under the discipline is what an operation alone would ask of the store. */
  lemma DisciplinedOp(r: Run, pc: Pc)
    requires RunInv(r) && PcInv(r, pc) && ExInv(r) && Synced(r, pc) && Try(r, OpOf(pc)).Ok?
    ensures AloneOp(r, OpOf(pc))
  {
    CommitsStored(r, pc);
    if Live(pc) {
      AloneStepOp(r, pc);
    } else if Examining(pc) {
      ExaminingOp(r, pc);
    } else {
      OtherOp(r, pc);
    }
  }

  lemma ExaminingOp(r: Run, pc: Pc)
    requires ExInv(r) && PcInv(r, pc) && Synced(r, pc) && Examining(pc) && StateOfCommit(pc, r.state)
    ensures AloneOp(r, OpOf(pc))
  {
    if pc.RecReady? || pc.RecApply? || pc.RecMiss? {
      AloneOtherOp(r, pc);
    }
  }

  lemma OtherOp(r: Run, pc: Pc)
    requires PcInv(r, pc) && ExInv(r) && Synced(r, pc) && Try(r, OpOf(pc)).Ok? && !Live(pc) && !Examining(pc)
    requires StateOfCommit(pc, r.state)
    ensures AloneOp(r, OpOf(pc))
  {
    if InStep(pc) {
      StarterOp(r, pc);
    } else if InSupervise(pc) {
      SuperviserOp(r, pc);
    } else {
      RemainingOp(r, pc);
    }
  }

  lemma StarterOp(r: Run, pc: Pc)
    requires ExInv(r) && InStep(pc) && !Live(pc) && StateOfCommit(pc, r.state)
    ensures AloneOp(r, OpOf(pc))
  {
  }

  lemma SuperviserOp(r: Run, pc: Pc)
    requires ExInv(r) && InSupervise(pc) && Try(r, OpOf(pc)).Ok?
    ensures AloneOp(r, OpOf(pc))
  {
  }

  lemma RemainingOp(r: Run, pc: Pc)
    requires PcInv(r, pc) && ExInv(r) && Synced(r, pc) && Try(r, OpOf(pc)).Ok? && StateOfCommit(pc, r.state)
    requires !InStep(pc) && !InSupervise(pc) && !Examining(pc)
    ensures AloneOp(r, OpOf(pc))
  {
    hide Replays, MemoryInv, LengthInv, SupervisionInv;
  }

  /** What the guarded moves of others leave alone while an attempt is in somebody's hands. */
  ghost predicate Undisturbed(r: Run, r': Run) {
    && r'.state == r.state && r'.spec == r.spec && r'.candidates == r.candidates && r'.evaluations == r.evaluations
    && Surplus(r') == Surplus(r)
  }

  lemma UndisturbedSynced(r: Run, r': Run, pc: Pc)
    requires Undisturbed(r, r') && Synced(r, pc) && (Live(pc) || Examining(pc))
    ensures Synced(r', pc)
  {
  }

  /** While an attempt is in flight nobody but a live step or an examining reconcile commits or records anything. */
  lemma BystanderDisturbsNothing(r: Run, pc: Pc)
    requires RunInv(r) && PcInv(r, pc) && ExInv(r) && Synced(r, pc) && Try(r, OpOf(pc)).Ok?
    requires InFlight(r.state) && !Live(pc) && !Examining(pc)
    ensures Undisturbed(r, Exec(r, OpOf(pc)))
  {
    CommitsStored(r, pc);
    DisciplinedOp(r, pc);
    AloneOpKeeps(r, OpOf(pc), Exec(r, OpOf(pc)));
    BystanderCalls(r, pc);
  }

  lemma BystanderCalls(r: Run, pc: Pc)
    requires PcInv(r, pc) && Synced(r, pc) && Try(r, OpOf(pc)).Ok? && StateOfCommit(pc, r.state)
    requires InFlight(r.state) && !Live(pc) && !Examining(pc)
    ensures !OpOf(pc).Commit? && !OpOf(pc).Attempt? && !OpOf(pc).SandboxAttempt?
  {
  }

  /** Reads, notes, advice and saves leave the attempt alone. */
  lemma TableOpDisturbsNothing(r: Run, op: Op)
    requires AloneOp(r, op) && AloneDid(r, op, Exec(r, op)) && !op.Commit? && !op.Attempt?
    ensures Undisturbed(r, Exec(r, op))
  {
  }

  // ----- the operation that moves -----

  lemma AloneIsSynced(r: Run, pc: Pc)
    requires ExPc(r, pc)
    ensures Synced(r, pc)
  {
  }

  /** Program points that say nothing of an attempt. */
  predicate Plain(pc: Pc) {
    !Live(pc) && !Examining(pc) && !pc.CanCommit?
  }

  lemma StepMoves(table: ScoreTable, r: Run, pc: Pc, r': Run, child: Child)
    requires ExTook(r, pc, OpOf(pc), r') && InStep(pc)
    ensures Synced(r', ContinueStep(table, r', pc, child))
  {
    StepSynced(table, r, pc, OpOf(pc), r', child);
    AloneIsSynced(r', ContinueStep(table, r', pc, child));
  }

  lemma RefreshIsPlain(r: Run, pc: Pc)
    requires InRefresh(pc)
    ensures Plain(ContinueRefresh(r, pc))
  {
  }

  lemma SuperviseIsPlain(r: Run, pc: Pc, child: Child)
    requires InSupervise(pc)
    ensures Plain(ContinueSupervise(r, pc, child))
  {
  }

  /** A reconcile whose reading is out of date reads on in vain. */
  lemma StaleReadsOn(r: Run, pc: Pc)
    requires Examining(pc) && OpOf(pc).Read? && !Current(r, pc.st)
    ensures Synced(r, ContinueOther(r, pc))
    ensures var pc' := ContinueOther(r, pc); !Live(pc') && (Examining(pc') ==> !Current(r, pc'.st))
  {
  }

  lemma OtherMoves(table: ScoreTable, r: Run, pc: Pc, r': Run)
    requires ExTook(r, pc, OpOf(pc), r') && !InStep(pc) && !InRefresh(pc) && !InSupervise(pc)
    requires r'.state.status.Evaluating? ==> Surplus(r') == 1
    ensures Synced(r', ContinueOther(r', pc))
  {
    OtherSynced(r, pc, OpOf(pc), r');
    AloneIsSynced(r', ContinueOther(r', pc));
  }

  lemma PlainOtherMoves(r: Run, pc: Pc)
    requires !InStep(pc) && !InRefresh(pc) && !InSupervise(pc) && !Examining(pc) && !pc.RecLoad? && !pc.CanLoad?
    ensures Plain(ContinueOther(r, pc))
  {
  }

  /** Facts about a call that succeeded, for the lemmas on its continuation. */
  ghost predicate Made(r: Run, pc: Pc, r': Run) {
    && PcInv(r, pc) && Synced(r, pc) && Try(r, OpOf(pc)) == Ok(r') && StateOfCommit(pc, r.state)
    && AloneDid(r, OpOf(pc), r') && ExInv(r') && RunInv(r')
  }

  lemma MakeCall(r: Run, pc: Pc)
    requires RunInv(r) && PcInv(r, pc) && ExInv(r) && Synced(r, pc) && Try(r, OpOf(pc)).Ok?
    ensures Made(r, pc, Exec(r, OpOf(pc)))
  {
    CommitsStored(r, pc);
    DisciplinedOp(r, pc);
    AloneOpKeeps(r, OpOf(pc), Exec(r, OpOf(pc)));
    TakeStep(r, pc);
  }

  lemma MadeTook(r: Run, pc: Pc, r': Run)
    requires Made(r, pc, r') && ExPc(r, pc)
    ensures ExTook(r, pc, OpOf(pc), r') && (r'.state.status.Evaluating? ==> Surplus(r') == 1)
  {
  }

  lemma StepKnowsState(r: Run, pc: Pc)
    requires InStep(pc) && Synced(r, pc) && StateOfCommit(pc, r.state) && !pc.StepNoteLaunchError?
    ensures ExPc(r, pc)
  {
  }

  lemma ReconcileKnowsState(r: Run, pc: Pc)
    requires Synced(r, pc) && (pc.RecLoad? || pc.CanLoad? || (Examining(pc) && Current(r, pc.st)))
    ensures ExPc(r, pc)
  {
  }

  lemma CommitsCurrent(r: Run, pc: Pc)
    requires Examining(pc) && StateOfCommit(pc, r.state) && !Current(r, pc.st)
    ensures OpOf(pc).Read?
  {
  }

  lemma MoverSynced(table: ScoreTable, r: Run, pc: Pc, r': Run, child: Child)
    requires Made(r, pc, r')
    ensures Synced(r', Continue(table, r', pc, child))
  {
    if InStep(pc) {
      StepMoverSynced(table, r, pc, r', child);
    } else if InRefresh(pc) {
      RefreshIsPlain(r', pc);
    } else if InSupervise(pc) {
      SuperviseIsPlain(r', pc, child);
    } else {
      OtherMoverSynced(table, r, pc, r');
    }
  }

  lemma StepMoverSynced(table: ScoreTable, r: Run, pc: Pc, r': Run, child: Child)
    requires Made(r, pc, r') && InStep(pc)
    ensures Synced(r', ContinueStep(table, r', pc, child))
  {
    if pc.StepNoteLaunchError? {
      assert Plain(ContinueStep(table, r', pc, child));
    } else {
      StepKnowsState(r, pc);
      MadeTook(r, pc, r');
      StepMoves(table, r, pc, r', child);
    }
  }

  lemma OtherMoverSynced(table: ScoreTable, r: Run, pc: Pc, r': Run)
    requires Made(r, pc, r') && !InStep(pc) && !InRefresh(pc) && !InSupervise(pc)
    ensures Synced(r', ContinueOther(r', pc))
  {
    if pc.RecLoad? || pc.CanLoad? || (Examining(pc) && Current(r, pc.st)) {
      ReconcileKnowsState(r, pc);
      MadeTook(r, pc, r');
      OtherMoves(table, r, pc, r');
    } else if Examining(pc) {
      CommitsCurrent(r, pc);
      StaleReadsOn(r, pc);
    } else {
      PlainOtherMoves(r', pc);
    }
  }

  // ----- the others -----

  lemma CommitRaisesRevision(r: Run, op: Op)
    requires op.Commit? && Try(r, op).Ok?
    ensures Exec(r, op).state.revision == r.state.revision + 1
  {
    TransitionAdvances(r.state, op.event, r.spec, op.candidate, op.cost);
  }

  lemma OnlyStepRecords(pc: Pc)
    ensures OpOf(pc).Attempt? ==> pc.StepRecord?
    ensures !OpOf(pc).SandboxAttempt?
  {
  }

  /** A reading that is current after a call was current before it, and the call committed nothing. */
  lemma StaysCurrent(r: Run, pc: Pc, r': Run, st: RunState)
    requires Made(r, pc, r') && Seen(r, st) && Current(r', st)
    ensures Current(r, st) && !OpOf(pc).Commit?
  {
    if OpOf(pc).Commit? {
      CommitRaisesRevision(r, OpOf(pc));
    } else {
      assert r'.state == r.state;
    }
  }

  lemma ExaminingSaw(r: Run, pc: Pc)
    requires PcInv(r, pc) && Examining(pc)
    ensures Seen(r, pc.st)
  {
  }

  lemma LiveIsInFlight(r: Run, pc: Pc)
    requires Synced(r, pc) && Live(pc)
    ensures InFlight(r.state) && pc.st == r.state
  {
  }

  /** Next to a live step a reconcile that is already reading is overtaken: it reads on, or is refused. */
  lemma OvertakenReads(r: Run, pc: Pc, r': Run, other: Pc)
    requires Made(r, pc, r') && Apart(r, pc, other) && Live(other) && Examining(pc)
    ensures !Current(r, pc.st) && OpOf(pc).Read? && r' == r
  {
    CommitsCurrent(r, pc);
  }

  /** Nobody who may move next to a live step disturbs it. */
  lemma NeighbourOfLive(r: Run, pc: Pc, r': Run, other: Pc)
    requires RunInv(r) && ExInv(r) && Made(r, pc, r') && Synced(r, other) && Apart(r, pc, other) && Live(other)
    ensures Undisturbed(r, r')
  {
    if Examining(pc) {
      OvertakenReads(r, pc, r', other);
    } else {
      LiveIsInFlight(r, other);
      BystanderDisturbsNothing(r, pc);
    }
  }

  /** The other operations stay in step with the store. */
  lemma OthersSynced(r: Run, pc: Pc, r': Run, other: Pc)
    requires RunInv(r) && ExInv(r) && Made(r, pc, r') && PcInv(r, other) && Synced(r, other) && Apart(r, pc, other)
    ensures Synced(r', other)
  {
    if Live(other) {
      NeighbourOfLive(r, pc, r', other);
      UndisturbedSynced(r, r', other);
    } else if Examining(other) {
      ExaminingSaw(r, other);
      if Current(r', other.st) {
        StaysCurrent(r, pc, r', other.st);
        OnlyStepRecords(pc);
        DisciplinedOp(r, pc);
        TableOpDisturbsNothing(r, OpOf(pc));
        UndisturbedSynced(r, r', other);
      }
    }
  }

  /** Only a start makes a step live, and only a load begins to examine. */
  lemma ComesFrom(table: ScoreTable, r: Run, pc: Pc, child: Child)
    ensures Live(Continue(table, r, pc, child)) ==> Live(pc) || pc.StepStart?
    ensures Examining(Continue(table, r, pc, child)) ==> pc.RecLoad? || Examining(pc)
  {
    if InStep(pc) {
      StepComesFrom(table, r, pc, child);
    } else if InRefresh(pc) {
      RefreshIsPlain(r, pc);
    } else if InSupervise(pc) {
      SuperviseIsPlain(r, pc, child);
    } else {
      OtherComesFrom(r, pc);
    }
  }

  lemma StepComesFrom(table: ScoreTable, r: Run, pc: Pc, child: Child)
    requires InStep(pc)
    ensures Live(ContinueStep(table, r, pc, child)) ==> Live(pc) || pc.StepStart?
    ensures !Examining(ContinueStep(table, r, pc, child))
  {
  }

  lemma OtherComesFrom(r: Run, pc: Pc)
    requires !InStep(pc) && !InRefresh(pc) && !InSupervise(pc)
    ensures !Live(ContinueOther(r, pc)) && (Examining(ContinueOther(r, pc)) ==> pc.RecLoad? || Examining(pc))
  {
  }

  lemma StartsWhenReady(r: Run, pc: Pc)
    requires pc.StepStart? && Try(r, OpOf(pc)).Ok?
    ensures !InFlight(r.state) && OpOf(pc).Commit?
  {
  }

  lemma OvertakenStaysApart(table: ScoreTable, r: Run, pc: Pc, r': Run, child: Child, other: Pc)
    requires Made(r, pc, r') && Apart(r, pc, other) && Live(other) && Examining(pc)
    ensures var pc' := Continue(table, r', pc, child); !Live(pc') && (Examining(pc') ==> !Current(r', pc'.st))
  {
    OvertakenReads(r, pc, r', other);
    StaleReadsOn(r, pc);
  }

  /** The attempt in flight stays in one pair of hands. */
  lemma StaysApart(table: ScoreTable, r: Run, pc: Pc, r': Run, child: Child, other: Pc)
    requires RunInv(r) && ExInv(r) && Made(r, pc, r') && PcInv(r, other) && Synced(r, other) && Apart(r, pc, other)
    requires pc.RecLoad? ==> !Live(other)
    ensures Apart(r', Continue(table, r', pc, child), other) && Apart(r', other, Continue(table, r', pc, child))
  {
    ComesFrom(table, r', pc, child);
    if Live(other) {
      LiveIsInFlight(r, other);
      if Examining(pc) { OvertakenStaysApart(table, r, pc, r', child, other); }
    }
    if pc.StepStart? { StartsWhenReady(r, pc); }
    if Examining(other) {
      ExaminingSaw(r, other);
      if Current(r', other.st) { StaysCurrent(r, pc, r', other.st); }
    }
  }

  /** Two that do not move stay apart. */
  lemma BothStayApart(r: Run, pc: Pc, r': Run, a: Pc, b: Pc)
    requires Made(r, pc, r') && PcInv(r, a) && PcInv(r, b) && Apart(r, a, b)
    ensures Apart(r', a, b)
  {
    if Examining(a) {
      ExaminingSaw(r, a);
      if Current(r', a.st) { StaysCurrent(r, pc, r', a.st); }
    }
    if Examining(b) {
      ExaminingSaw(r, b);
      if Current(r', b.st) { StaysCurrent(r, pc, r', b.st); }
    }
  }

  // ----- the whole system -----

  lemma PlainIsApart(r: Run, pc: Pc, other: Pc)
    requires Plain(pc)
    ensures Synced(r, pc) && Apart(r, pc, other) && Apart(r, other, pc)
  {
  }

  ghost predicate AllSynced(r: Run, actors: seq<Pc>) {
    forall i :: 0 <= i < |actors| ==> Synced(r, actors[i])
  }

  ghost predicate AllApart(r: Run, actors: seq<Pc>) {
    forall i, j :: 0 <= i < j < |actors| ==> Apart(r, actors[i], actors[j])
  }

  /** An operation that crashed, or was refused, or is new, holds nothing. */
  lemma PlainReplaces(r: Run, actors: seq<Pc>, i: nat, pc: Pc)
    requires AllSynced(r, actors) && AllApart(r, actors) && i < |actors| && Plain(pc)
    ensures AllSynced(r, actors[i := pc]) && AllApart(r, actors[i := pc])
  {
    var actors' := actors[i := pc];
    forall j, k | 0 <= j < k < |actors'| ensures Apart(r, actors'[j], actors'[k]) {
      if j == i { PlainIsApart(r, pc, actors[k]); }
      if k == i { PlainIsApart(r, pc, actors[j]); }
    }
    PlainIsApart(r, pc, pc);
  }

  lemma PlainJoins(r: Run, actors: seq<Pc>, pc: Pc)
    requires AllSynced(r, actors) && AllApart(r, actors) && Plain(pc)
    ensures AllSynced(r, actors + [pc]) && AllApart(r, actors + [pc])
  {
    PlainIsApart(r, pc, pc);
    var actors' := actors + [pc];
    forall j, k | 0 <= j < k < |actors'| ensures Apart(r, actors'[j], actors'[k]) {
      if k == |actors| { PlainIsApart(r, pc, actors[j]); }
    }
  }

  /** A call that succeeded keeps everybody in step and apart. */
  lemma CallKeepsApart(table: ScoreTable, s: Sys, i: nat, r': Run, child: Child)
    requires DisciplineInv(s) && i < |s.actors| && Made(s.run, s.actors[i], r')
    requires s.actors[i].RecLoad? ==> !AnyLive(s.actors)
    ensures var actors' := s.actors[i := Continue(table, r', s.actors[i], child)];
            AllSynced(r', actors') && AllApart(r', actors')
  {
    var r, pc := s.run, s.actors[i];
    MoverSynced(table, r, pc, r', child);
    forall j | 0 <= j < |s.actors| && j != i
      ensures Synced(r', s.actors[j]) && Apart(r', Continue(table, r', pc, child), s.actors[j])
      ensures Apart(r', s.actors[j], Continue(table, r', pc, child))
    {
      NeighbourKept(table, s, i, j, r', child);
    }
    RestStaysApart(s, i, r');
  }

  lemma NeighbourKept(table: ScoreTable, s: Sys, i: nat, j: nat, r': Run, child: Child)
    requires DisciplineInv(s) && i < |s.actors| && j < |s.actors| && i != j && Made(s.run, s.actors[i], r')
    requires s.actors[i].RecLoad? ==> !AnyLive(s.actors)
    ensures Synced(r', s.actors[j]) && Apart(r', Continue(table, r', s.actors[i], child), s.actors[j])
    ensures Apart(r', s.actors[j], Continue(table, r', s.actors[i], child))
  {
    ApartBothWays(s, i, j);
    if Live(s.actors[j]) { LiveCounts(s.actors, j); }
    OthersSynced(s.run, s.actors[i], r', s.actors[j]);
    StaysApart(table, s.run, s.actors[i], r', child, s.actors[j]);
  }

  lemma RestStaysApart(s: Sys, i: nat, r': Run)
    requires DisciplineInv(s) && i < |s.actors| && Made(s.run, s.actors[i], r')
    ensures forall j, k :: 0 <= j < k < |s.actors| && j != i && k != i ==> Apart(r', s.actors[j], s.actors[k])
  {
    forall j, k | 0 <= j < k < |s.actors| && j != i && k != i ensures Apart(r', s.actors[j], s.actors[k]) {
      BothStayApart(s.run, s.actors[i], r', s.actors[j], s.actors[k]);
    }
  }

  lemma LiveCounts(actors: seq<Pc>, j: nat)
    requires j < |actors| && Live(actors[j])
    ensures AnyLive(actors)
  {
    assert actors[j] in actors;
  }

  lemma ApartBothWays(s: Sys, i: nat, j: nat)
    requires DisciplineInv(s) && i < |s.actors| && j < |s.actors| && i != j
    ensures Apart(s.run, s.actors[i], s.actors[j]) && PcInv(s.run, s.actors[j]) && Synced(s.run, s.actors[j])
    ensures RunInv(s.run) && ExInv(s.run)
  {
  }

  lemma MoveKeepsDiscipline(table: ScoreTable, s: Sys, i: nat, child: Child)
    requires DisciplineInv(s) && i < |s.actors| && Guarded(s, Move(i, child))
    ensures DisciplineInv(Step(table, s, Move(i, child)))
  {
    hide RunInv, PcInv, ExInv, Synced, Apart, OpOf, Continue, Made;
    var pc := s.actors[i];
    Interleaving.MoveKeeps(table, s, i, child);
    if Try(s.run, OpOf(pc)).Ok? {
      MakeCall(s.run, pc);
      CallKeepsApart(table, s, i, Exec(s.run, OpOf(pc)), child);
    } else {
      PlainReplaces(s.run, s.actors, i, Done);
    }
  }

  lemma StepKeepsDiscipline(table: ScoreTable, s: Sys, a: Action)
    requires DisciplineInv(s) && Guarded(s, a)
    ensures DisciplineInv(Step(table, s, a))
  {
    hide SysInv, ExInv, Synced, Apart, Next, Guarded;
    match a
    case Spawn(pc) => if IsEntry(pc) { SpawnKeeps(s, pc); PlainJoins(s.run, s.actors, pc); }
    case Crash(i) => if i < |s.actors| { CrashKeeps(s, i); PlainReplaces(s.run, s.actors, i, Done); }
    case Move(i, child) => if i < |s.actors| { MoveKeepsDiscipline(table, s, i, child); }
  }

  lemma InitDiscipline(spec: RunSpec)
    requires spec.WithinBounds() && spec.maxCostUsd > 0.0
    ensures DisciplineInv(Init(spec))
  {
    hide SysInv, ExInv, Create;
    InitInv(spec);
    CreatedExclusive(spec);
  }

  lemma CreatedExclusive(spec: RunSpec)
    requires spec.maxCostUsd > 0.0
    ensures ExInv(Create(spec))
  {
    var r := Create(spec);
    AppliedAppend([], r.log[0]);
    AppliedEntriesAppend([], r.log[0]);
    assert [] + [r.log[0]] == r.log;
  }

  lemma {:induction false} DisciplineAlways(table: ScoreTable, spec: RunSpec, actions: seq<Action>)
    requires spec.WithinBounds() && spec.maxCostUsd > 0.0 && Disciplined(table, spec, actions)
    ensures DisciplineInv(Behave(table, spec, actions))
  {
    if actions == [] {
      InitDiscipline(spec);
    } else {
      DisciplineAlways(table, spec, actions[..|actions| - 1]);
      StepKeepsDiscipline(table, Behave(table, spec, actions[..|actions| - 1]), actions[|actions| - 1]);
    }
  }

  /**
   * Exactly once, with operations overlapping: as long as no reconcile loads its run while a step is
   * live, everything recorded is applied outside running and evaluating, at most one evaluation waits
   * inside, and the i-th applied event carries the i-th recorded verdict.
   */
  lemma ExactlyOnceUnderDiscipline(table: ScoreTable, spec: RunSpec, actions: seq<Action>)
    requires spec.WithinBounds() && spec.maxCostUsd > 0.0 && Disciplined(table, spec, actions)
    ensures var r := Behave(table, spec, actions).run;
            && 0 <= Surplus(r) <= (if InFlight(r.state) then 1 else 0)
            && |AppliedEntries(r.log)| == Applied(r.log)
            && Matched(r)
  {
    DisciplineAlways(table, spec, actions);
    AppliedEntriesCount(Behave(table, spec, actions).run.log);
  }

  // ----- runs that keep the guard by construction -----

  predicate NoReconcile(actions: seq<Action>) {
    forall a <- actions :: a.Spawn? ==> !a.pc.RecLoad?
  }

  /** Operations load their run only where they begin. */
  lemma NeverLoadsAgain(table: ScoreTable, r: Run, pc: Pc, child: Child)
    ensures !Continue(table, r, pc, child).RecLoad?
  {
    hide ContinueStep, ContinueRefresh, ContinueSupervise, ContinueOther;
    if InStep(pc) {
      StepNeverLoads(table, r, pc, child);
    } else if InRefresh(pc) {
      RefreshNeverLoads(r, pc);
    } else if InSupervise(pc) {
      SuperviseNeverLoads(r, pc, child);
    } else {
      OtherNeverLoads(r, pc);
    }
  }

  lemma StepNeverLoads(table: ScoreTable, r: Run, pc: Pc, child: Child)
    requires InStep(pc)
    ensures !ContinueStep(table, r, pc, child).RecLoad?
  {
  }

  lemma RefreshNeverLoads(r: Run, pc: Pc)
    requires InRefresh(pc)
    ensures !ContinueRefresh(r, pc).RecLoad?
  {
  }

  lemma SuperviseNeverLoads(r: Run, pc: Pc, child: Child)
    requires InSupervise(pc)
    ensures !ContinueSupervise(r, pc, child).RecLoad?
  {
  }

  lemma OtherNeverLoads(r: Run, pc: Pc)
    ensures !ContinueOther(r, pc).RecLoad?
  {
  }

  /** Without reconciles every interleaving keeps the guard. */
  lemma {:induction false} NoReconcileIsDisciplined(table: ScoreTable, spec: RunSpec, actions: seq<Action>)
    requires NoReconcile(actions)
    ensures Disciplined(table, spec, actions)
    ensures forall pc <- Behave(table, spec, actions).actors :: !pc.RecLoad?
  {
    if actions != [] {
      var before, a := actions[..|actions| - 1], actions[|actions| - 1];
      assert a in actions && forall b <- before :: b in actions;
      NoReconcileIsDisciplined(table, spec, before);
      var s := Behave(table, spec, before);
      if a.Move? && a.i < |s.actors| {
        NeverLoadsAgain(table, Exec(s.run, OpOf(s.actors[a.i])), s.actors[a.i], a.child);
      }
    }
  }

  // ----- the exclusive driver as an interleaving -----

  /** Everybody else is done. */
  predicate OnlyLast(actors: seq<Pc>) {
    actors != [] && forall j :: 0 <= j < |actors| - 1 ==> actors[j].Done?
  }

  lemma OnlyLastIsGuarded(s: Sys, child: Child)
    requires OnlyLast(s.actors)
    ensures Guarded(s, Move(|s.actors| - 1, child))
  {
  }

  lemma Extended(table: ScoreTable, spec: RunSpec, actions: seq<Action>, a: Action)
    ensures Behave(table, spec, actions + [a]) == Step(table, Behave(table, spec, actions), a)
    ensures Disciplined(table, spec, actions) && Guarded(Behave(table, spec, actions), a) ==> Disciplined(table, spec, actions + [a])
  {
    assert (actions + [a])[..|actions|] == actions;
  }

  /** n store calls of the last operation, alone. */
  lemma {:induction false} MovesAlone(table: ScoreTable, spec: RunSpec, actions: seq<Action>, child: Child, n: nat)
    returns (actions': seq<Action>)
    requires Disciplined(table, spec, actions) && OnlyLast(Behave(table, spec, actions).actors)
    ensures Disciplined(table, spec, actions') && OnlyLast(Behave(table, spec, actions').actors)
    ensures Behave(table, spec, actions').run == Iterate(Stepper(table, child), Last(Behave(table, spec, actions)), n).run
    decreases n
  {
    if n == 0 {
      actions' := actions;
    } else {
      actions' := MovesOnce(table, spec, actions, child);
      actions' := MovesAlone(table, spec, actions', child, n - 1);
    }
  }

  /** The run, and the operation at work on it. */
  function Last(s: Sys): Config
    requires s.actors != []
  {
    Config(s.run, s.actors[|s.actors| - 1])
  }

  lemma MovesOnce(table: ScoreTable, spec: RunSpec, actions: seq<Action>, child: Child) returns (actions': seq<Action>)
    requires Disciplined(table, spec, actions) && OnlyLast(Behave(table, spec, actions).actors)
    ensures Disciplined(table, spec, actions') && OnlyLast(Behave(table, spec, actions').actors)
    ensures Last(Behave(table, spec, actions')) == Stepper(table, child)(Last(Behave(table, spec, actions)))
  {
    var s := Behave(table, spec, actions);
    var a := Move(|s.actors| - 1, child);
    OnlyLastIsGuarded(s, child);
    Extended(table, spec, actions, a);
    MoveIsStepper(table, s, child);
    actions' := actions + [a];
  }

  lemma MoveIsStepper(table: ScoreTable, s: Sys, child: Child)
    requires OnlyLast(s.actors)
    ensures var s' := Step(table, s, Move(|s.actors| - 1, child));
            OnlyLast(s'.actors) && Last(s') == Stepper(table, child)(Last(s))
  {
  }

  /** One operation of the driver: it joins, makes its calls and goes. */
  lemma PerformsAlone(table: ScoreTable, spec: RunSpec, actions: seq<Action>, op: Operation) returns (actions': seq<Action>)
    requires Disciplined(table, spec, actions) && OnlyLast(Behave(table, spec, actions).actors)
    ensures Disciplined(table, spec, actions') && OnlyLast(Behave(table, spec, actions').actors)
    ensures Behave(table, spec, actions').run == Perform(table, Behave(table, spec, actions).run, op)
  {
    if IsEntry(op.entry) {
      var n := |Behave(table, spec, actions).actors|;
      var crash, join := Crash(n - 1), Spawn(op.entry);
      Extended(table, spec, actions, crash);
      Extended(table, spec, actions + [crash], join);
      assert Last(Behave(table, spec, actions + [crash] + [join])) == Config(Behave(table, spec, actions).run, op.entry);
      actions' := MovesAlone(table, spec, actions + [crash] + [join], op.child, op.steps);
    } else {
      actions' := actions;
    }
  }

  lemma {:induction false} PerformsAllAlone(table: ScoreTable, spec: RunSpec, actions: seq<Action>, ops: seq<Operation>)
    returns (actions': seq<Action>)
    requires Disciplined(table, spec, actions) && OnlyLast(Behave(table, spec, actions).actors)
    ensures Disciplined(table, spec, actions') && OnlyLast(Behave(table, spec, actions').actors)
    ensures Behave(table, spec, actions').run == PerformAll(table, Behave(table, spec, actions).run, ops)
  {
    actions' := actions;
    if ops != [] {
      actions' := PerformsAllAlone(table, spec, actions, ops[..|ops| - 1]);
      actions' := PerformsAlone(table, spec, actions', ops[|ops| - 1]);
    }
  }

  /** Whatever the exclusive driver does is a disciplined interleaving. */
  lemma DriveIsDisciplined(table: ScoreTable, spec: RunSpec, created: nat, ops: seq<Operation>)
    ensures exists actions :: Disciplined(table, spec, actions) && Behave(table, spec, actions).run == Drive(table, spec, created, ops)
  {
    assert Behave(table, spec, []) == Init(spec) && Disciplined(table, spec, []);
    assert Last(Init(spec)) == Config(Create(spec), NewApprove);
    var actions := MovesAlone(table, spec, [], LaunchError, created);
    actions := PerformsAllAlone(table, spec, actions, ops);
  }
}

/** The search result of disciplined interleavings. */
module DisciplinedSearch {
  import opened Wrappers
  import opened Contracts
  import opened StateMachine
  import opened RunHistory
  import opened Ledger
  import opened Actors
  import opened RunInvariants
  import opened Interleaving
  import opened ExclusiveDriver
  import opened BestScore
  import opened Discipline

  ghost predicate SearchInv(table: ScoreTable, s: Sys) {
    BestInv(table, s.run) && forall i :: 0 <= i < |s.actors| ==> BestPc(table, s.run, s.actors[i])
  }

  lemma LineageKnowsState(r: Run, pc: Pc, r': Run)
    requires Made(r, pc, r') && pc.StepLineage?
    ensures pc.st == r'.state
  {
  }

  /** The pair in a live step's hands still extends the lineage. */
  lemma PairKept(table: ScoreTable, s: Sys, i: nat, j: nat, r': Run)
    requires DisciplineInv(s) && i < |s.actors| && j < |s.actors| && i != j && Made(s.run, s.actors[i], r')
    requires BestPc(table, s.run, s.actors[j])
    ensures BestPc(table, r', s.actors[j])
  {
    hide SysInv, RunInv, ExInv, Synced, Made, Apart, Undisturbed;
    if s.actors[j].StepRecord? {
      ApartBothWays(s, i, j);
      PairUndisturbed(s.run, s.actors[i], r', s.actors[j]);
    }
  }

  lemma PairUndisturbed(r: Run, pc: Pc, r': Run, other: Pc)
    requires RunInv(r) && ExInv(r) && Made(r, pc, r') && Synced(r, other) && Apart(r, pc, other) && Live(other)
    ensures r'.evaluations == r.evaluations && r'.state == r.state
  {
    NeighbourOfLive(r, pc, r', other);
  }

  lemma CallKeepsSearch(table: ScoreTable, s: Sys, i: nat, r': Run, child: Child)
    requires DisciplineInv(s) && SearchInv(table, s) && i < |s.actors| && Made(s.run, s.actors[i], r')
    ensures BestInv(table, r') && BestPc(table, r', Continue(table, r', s.actors[i], child))
    ensures forall j :: 0 <= j < |s.actors| && j != i ==> BestPc(table, r', s.actors[j])
  {
    var pc := s.actors[i];
    DisciplinedOp(s.run, pc);
    AttemptOfPc(pc);
    BestKeptByOp(table, s.run, OpOf(pc));
    if pc.StepLineage? { LineageKnowsState(s.run, pc, r'); }
    BestPcNext(table, r', pc, child);
    forall j | 0 <= j < |s.actors| && j != i ensures BestPc(table, r', s.actors[j]) {
      PairKept(table, s, i, j, r');
    }
  }

  lemma StepKeepsSearch(table: ScoreTable, s: Sys, a: Action)
    requires DisciplineInv(s) && SearchInv(table, s) && Guarded(s, a)
    ensures SearchInv(table, Step(table, s, a))
  {
    hide RunInv, PcInv, ExInv, BestInv, OpOf, Continue, Made, Synced, Apart;
    if a.Move? && a.i < |s.actors| && Try(s.run, OpOf(s.actors[a.i])).Ok? {
      MakeCall(s.run, s.actors[a.i]);
      CallKeepsSearch(table, s, a.i, Exec(s.run, OpOf(s.actors[a.i])), a.child);
    }
  }

  lemma {:induction false} SearchAlways(table: ScoreTable, spec: RunSpec, actions: seq<Action>)
    requires spec.WithinBounds() && spec.maxCostUsd > 0.0 && Phase2Spec(spec) && Disciplined(table, spec, actions)
    ensures DisciplineInv(Behave(table, spec, actions)) && SearchInv(table, Behave(table, spec, actions))
  {
    DisciplineAlways(table, spec, actions);
    if actions == [] {
      CreatedSearches(table, spec);
    } else {
      var before := actions[..|actions| - 1];
      SearchAlways(table, spec, before);
      StepKeepsSearch(table, Behave(table, spec, before), actions[|actions| - 1]);
    }
  }

  /**
   * The best candidate of any disciplined interleaving, whenever nothing recorded waits to be applied:
   * it is minimal among the baseline and all recorded scores, and its ancestry is the eligible candidates.
   */
  lemma BestCandidateUnderDiscipline(table: ScoreTable, spec: RunSpec, actions: seq<Action>)
    requires spec.WithinBounds() && spec.maxCostUsd > 0.0 && Phase2Spec(spec) && Disciplined(table, spec, actions)
    requires Surplus(Behave(table, spec, actions).run) == 0
    ensures Minimal(table, Behave(table, spec, actions).run)
  {
    SearchAlways(table, spec, actions);
    SearchedIsMinimal(table, Behave(table, spec, actions).run);
  }

  /** Eligible scores of any disciplined interleaving strictly decrease, starting below the table's baseline. */
  lemma EligibleScoresUnderDiscipline(table: ScoreTable, spec: RunSpec, actions: seq<Action>, i: nat, j: nat)
    requires spec.WithinBounds() && spec.maxCostUsd > 0.0 && Phase2Spec(spec) && Disciplined(table, spec, actions)
    requires var es := Behave(table, spec, actions).run.evaluations;
             i < j < |es| && es[i].eligible && es[j].eligible
    ensures var es := Behave(table, spec, actions).run.evaluations;
            && HasScore(es[i]) && HasScore(es[j])
            && es[j].scores[OPERATIONS] < es[i].scores[OPERATIONS] < table[BASELINE]
  {
    SearchAlways(table, spec, actions);
    var r := Behave(table, spec, actions).run;
    EligibleScoresDecrease(table, r.candidates, r.evaluations, i, j);
  }
}

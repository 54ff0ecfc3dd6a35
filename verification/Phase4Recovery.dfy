/** Phase 4 attempts never lose an evaluation, however their operations overlap. */
module Phase4Evidence {
  import opened Wrappers
  import opened Contracts
  import opened StateMachine
  import opened RunHistory
  import opened Ledger
  import opened LogReplay
  import opened Phase4Protocol
  import Actors
  import Sandbox
  import R = RunInvariants

  /** What an operation knows of the evidence, whoever else is at work on the run. */
  ghost predicate Informed(r: Run, pc: Pc) {
    match pc
    case PatchLaunch(st) => R.Seen(r, st)
    case PatchNoteResult(st, _) => R.Seen(r, st)
    case PatchSandbox(st, _, _, _) => R.Seen(r, st)
    case PatchDirectory(st, _, _, _) => R.Seen(r, st)
    case PatchWrite(st, _, _, _) => R.Seen(r, st)
    case PatchRecord(st, _, _, _) => R.Seen(r, st)
    case PatchNoteSandbox(st, _, _, _) => Waiting(r, st)
    case PatchReady(st, _, _) => Waiting(r, st)
    case RecLineage(st) => R.Seen(r, st) && InFlight(st)
    case RecReceipts(st, _, es) => Looked(r, st, |es|)
    case RecEvents(st, _, es, receipts) => Looked(r, st, |es|) && Looked(r, st, receipts)
    case RecReady(st, _, _) => Waiting(r, st)
    case RecMiss(st) => R.Seen(r, st) && (R.Current(r, st) ==> st.status.Running?)
    case RecNoteMiss(interrupted) => interrupted
    case _ => true
  }

  /** As long as st is current, an evaluation waits to be applied. */
  ghost predicate Waiting(r: Run, st: RunState) {
    R.Seen(r, st) && (R.Current(r, st) ==> Actors.Applied(r.log) < |r.evaluations|)
  }

  /** Of the rows there are n were seen; if st is an evaluating state and current, one more than were applied. */
  ghost predicate Looked(r: Run, st: RunState, n: nat) {
    && R.Seen(r, st) && InFlight(st) && n <= |r.evaluations|
    && (R.Current(r, st) && st.status.Evaluating? ==> Actors.Applied(r.log) < n)
  }

  lemma InformedStable(r: Run, r': Run, pc: Pc)
    requires R.Ext(r, r') && Informed(r, pc)
    ensures Informed(r', pc)
  {
  }

  lemma InformedPermits(b: Sandbox.Baseline, s: Shared, pc: Pc)
    requires PcInv(b, s, pc) && Informed(s.run, pc)
    ensures R.Permit(s.run, OpOf(pc))
  {
  }

  /** The run a successful call left, with what is known of it. */
  ghost predicate Left(r: Run, pc: Pc, r': Run) {
    && Try(r, OpOf(pc)) == Ok(r') && Informed(r, pc) && Informed(r', pc)
    && Actors.Applied(r.log) <= |r.evaluations| && |r'.receipts| == |r'.evaluations|
    && (r'.state.status.Evaluating? ==> Actors.Applied(r'.log) < |r'.evaluations|)
    && (pc.PatchRecord? ==> r.evaluations == [])
  }

  lemma PatchStaysInformed(b: Sandbox.Baseline, r: Run, pc: Pc, r': Run, choice: Choice)
    requires Left(r, pc, r') && InPatch(pc) && !pc.PatchRecord?
    ensures Informed(r', ContinuePatch(b, r', pc, choice))
  {
  }

  lemma RecordInforms(b: Sandbox.Baseline, r: Run, pc: Pc, r': Run, choice: Choice)
    requires Left(r, pc, r') && pc.PatchRecord?
    ensures Informed(r', ContinuePatch(b, r', pc, choice))
  {
    assert r'.log == r.log && |r'.evaluations| == 1;
  }

  lemma ReconcileStaysInformed(r: Run, pc: Pc, r': Run)
    requires Left(r, pc, r') && !InPatch(pc)
    ensures Informed(r', ContinueOther(r', pc))
  {
    if OpOf(pc).Read? {
      ReadInforms(r, pc);
    } else {
      WriteInforms(r, pc, r');
    }
  }

  lemma ReadInforms(r: Run, pc: Pc)
    requires Informed(r, pc) && !InPatch(pc) && OpOf(pc).Read? && |r.receipts| == |r.evaluations|
    requires r.state.status.Evaluating? ==> Actors.Applied(r.log) < |r.evaluations|
    ensures Informed(r, ContinueOther(r, pc))
  {
  }

  lemma WriteInforms(r: Run, pc: Pc, r': Run)
    requires Try(r, OpOf(pc)) == Ok(r') && Informed(r, pc) && !InPatch(pc) && !OpOf(pc).Read?
    ensures Informed(r', ContinueOther(r', pc))
  {
  }

  lemma StaysInformed(b: Sandbox.Baseline, r: Run, pc: Pc, r': Run, choice: Choice)
    requires Left(r, pc, r')
    ensures Informed(r', Continue(b, r', pc, choice))
  {
    hide Left, Informed, ContinuePatch, ContinueOther, OpOf;
    if pc.PatchRecord? {
      RecordInforms(b, r, pc, r', choice);
    } else if InPatch(pc) {
      PatchStaysInformed(b, r, pc, r', choice);
    } else {
      ReconcileStaysInformed(r, pc, r');
    }
  }

  lemma RowsCounted(b: Sandbox.Baseline, s: Shared, pc: Pc)
    requires SharedInv(b, s) && PcInv(b, s, pc)
    ensures |s.run.receipts| == |s.run.evaluations| && (pc.PatchRecord? ==> s.run.evaluations == [])
    ensures Replays(s.run)
  {
  }

  lemma EvidenceOf(r: Run)
    requires R.RunInv(r)
    ensures Actors.Applied(r.log) <= |r.evaluations| && (r.state.status.Evaluating? ==> Actors.Applied(r.log) < |r.evaluations|)
  {
  }

  lemma RunOfNext(b: Sandbox.Baseline, s: Shared, pc: Pc, choice: Choice)
    ensures var (s', pc') := Next(b, s, pc, choice);
            && s'.run == Exec(s.run, OpOf(pc))
            && (pc'.Done? || (Try(s.run, OpOf(pc)).Ok? && pc' == Continue(b, s'.run, pc, choice)))
  {
    hide Continue;
  }

  /** One step keeps the run's invariants, extends it, and leaves the operation informed. */
  lemma EvidenceNext(b: Sandbox.Baseline, s: Shared, pc: Pc, choice: Choice)
    requires SharedInv(b, s) && PcInv(b, s, pc) && R.RunInv(s.run) && Informed(s.run, pc)
    ensures var (s', pc') := Next(b, s, pc, choice);
            R.RunInv(s'.run) && Informed(s'.run, pc') && R.Ext(s.run, s'.run)
  {
    hide SharedInv, PcInv, R.RunInv, Informed, R.Ext, OpOf, Continue, R.Permit, Next;
    var (s', pc') := Next(b, s, pc, choice);
    RunOfNext(b, s, pc, choice);
    PatchNextKeeps(b, s, pc, choice);
    RowsCounted(b, s, pc);
    InformedPermits(b, s, pc);
    R.OpKeepsRunInv(s.run, OpOf(pc));
    R.ExecExtends(s.run, OpOf(pc));
    if pc'.Done? {
      DoneIsInformed(s'.run);
    } else {
      InformedStable(s.run, s'.run, pc);
      EvidenceOf(s.run);
      EvidenceOf(s'.run);
      RowsCounted(b, s', pc');
      StaysInformed(b, s.run, pc, s'.run, choice);
    }
  }

  lemma DoneIsInformed(r: Run)
    ensures Informed(r, Done)
  {
  }

  lemma EntryIsInformed(r: Run, pc: Pc)
    requires IsEntry(pc)
    ensures Informed(r, pc)
  {
  }

  ghost predicate AllInformed(s: Sys) {
    R.RunInv(s.shared.run) && forall i :: 0 <= i < |s.actors| ==> Informed(s.shared.run, s.actors[i])
  }

  lemma MoveInforms(b: Sandbox.Baseline, s: Sys, i: nat, choice: Choice)
    requires SysInv(b, s) && AllInformed(s) && i < |s.actors|
    ensures AllInformed(Step(b, s, Move(i, choice)))
  {
    hide SharedInv, PcInv, R.RunInv, Informed, R.Ext, Next;
    var (s', pc') := Next(b, s.shared, s.actors[i], choice);
    EvidenceNext(b, s.shared, s.actors[i], choice);
    var actors' := s.actors[i := pc'];
    forall j | 0 <= j < |actors'| ensures Informed(s'.run, actors'[j]) {
      if j != i { InformedStable(s.shared.run, s'.run, s.actors[j]); }
    }
  }

  lemma StepInforms(b: Sandbox.Baseline, s: Sys, a: Action)
    requires SysInv(b, s) && AllInformed(s)
    ensures AllInformed(Step(b, s, a))
  {
    hide SysInv, R.RunInv, Informed, Next;
    match a
    case Spawn(pc) => if IsEntry(pc) { EntryIsInformed(s.shared.run, pc); }
    case Crash(i) => DoneIsInformed(s.shared.run);
    case Move(i, choice) => if i < |s.actors| { MoveInforms(b, s, i, choice); }
  }

  lemma CreationIsInformed(spec: RunSpec)
    requires spec.WithinBounds()
    ensures R.RunInv(Create(spec)) && Informed(Create(spec), NewApprove) && Actors.Applied(Create(spec).log) == 0
  {
    var r := Create(spec);
    CreateReplays(spec);
    R.AppliedAppend([], r.log[0]);
    assert [] + [r.log[0]] == r.log;
  }

  lemma {:induction false} InformedAlways(b: Sandbox.Baseline, spec: RunSpec, actions: seq<Action>)
    requires Phase4Spec(spec)
    ensures AllInformed(Behave(b, spec, actions))
  {
    if actions == [] {
      CreationIsInformed(spec);
    } else {
      var before := actions[..|actions| - 1];
      InformedAlways(b, spec, before);
      Always(b, spec, before);
      StepInforms(b, Behave(b, spec, before), actions[|actions| - 1]);
    }
  }

  /**
   * In every interleaving of patch, reconcile and cancel operations with crashes applied evaluations
   * never exceed recorded ones, are fewer while evaluating, and no evaluation_missing is ever logged.
   */
  lemma NoPatchGoesMissing(b: Sandbox.Baseline, spec: RunSpec, actions: seq<Action>)
    requires Phase4Spec(spec)
    ensures var r := Behave(b, spec, actions).shared.run;
            && Actors.Applied(r.log) <= |r.evaluations|
            && (r.state.status.Evaluating? ==> Actors.Applied(r.log) < |r.evaluations|)
            && forall e <- r.log :: !e.event.EvaluationMissing?
  {
    InformedAlways(b, spec, actions);
  }
}

/** The Phase 4 operations one after another, each of which may stop between two steps. */
module Phase4Runs {
  import opened Wrappers
  import opened Contracts
  import opened StateMachine
  import opened RunHistory
  import opened Ledger
  import opened LogReplay
  import opened Iteration
  import opened Phase4Protocol
  import opened Phase4Evidence
  import Sandbox
  import R = RunInvariants

  // ----- operations alone -----

  datatype Config = Config(shared: Shared, pc: Pc)

  function Stepper(b: Sandbox.Baseline, choice: Choice): Config -> Config {
    (x: Config) => var (s', pc') := Next(b, x.shared, x.pc, choice); Config(s', pc')
  }

  /** A bound on the steps left. */
  function StepsLeft(pc: Pc): nat {
    match pc
    case Done => 0
    case NewApprove => 2
    case NewNote => 1
    case PatchLoad => 11
    case PatchStart(_) => 10
    case PatchLaunch(_) => 9
    case PatchNoteResult(_, _) => 8
    case PatchSandbox(_, _, _, _) => 7
    case PatchDirectory(_, _, _, _) => 6
    case PatchWrite(_, _, _, _) => 5
    case PatchRecord(_, _, _, _) => 4
    case PatchNoteSandbox(_, _, _, _) => 3
    case PatchReady(_, _, _) => 2
    case PatchApply(_, _, _) => 1
    case PatchFail(_, _) => 2
    case PatchNoteFail(_) => 1
    case RecLoad => 6
    case RecLineage(_) => 5
    case RecReceipts(_, _, _) => 4
    case RecEvents(_, _, _, _) => 3
    case RecReady(_, _, _) => 2
    case RecApply(_, _, _) => 1
    case RecMiss(_) => 2
    case RecNoteMiss(_) => 1
    case CanLoad => 2
    case CanCommit(_) => 1
  }

  function Rank(): Config -> nat {
    (x: Config) => StepsLeft(x.pc)
  }

  /** Run an operation for at most n steps, as when it crashes after the n-th. */
  function RunFor(b: Sandbox.Baseline, s: Shared, pc: Pc, choice: Choice, n: nat): Config {
    Iterate(Stepper(b, choice), Config(s, pc), n)
  }

  /** Run an operation to its end without interruption. */
  function Finish(b: Sandbox.Baseline, s: Shared, pc: Pc, choice: Choice): Shared {
    RunFor(b, s, pc, choice, StepsLeft(pc)).shared
  }

  /** One operation, stopped after at most `steps` steps; the environment makes its choices for it. */
  datatype Operation = Operation(entry: Pc, choice: Choice, steps: nat)

  function Perform(b: Sandbox.Baseline, s: Shared, op: Operation): Shared {
    if IsEntry(op.entry) then RunFor(b, s, op.entry, op.choice, op.steps).shared else s
  }

  function PerformAll(b: Sandbox.Baseline, s: Shared, ops: seq<Operation>): Shared {
    if ops == [] then s else Perform(b, PerformAll(b, s, ops[..|ops| - 1]), ops[|ops| - 1])
  }

  /** A run created (perhaps only partly) and then driven exclusively. */
  function Drive(b: Sandbox.Baseline, spec: RunSpec, created: nat, ops: seq<Operation>): Shared {
    PerformAll(b, RunFor(b, Shared(Create(spec), false, None), NewApprove, Choice(LaunchError, Unavailable), created).shared, ops)
  }

  predicate OnlyReconciles(ops: seq<Operation>) {
    forall op <- ops :: op.entry == RecLoad
  }

  lemma PatchShortens(b: Sandbox.Baseline, r: Run, pc: Pc, choice: Choice)
    requires InPatch(pc)
    ensures StepsLeft(ContinuePatch(b, r, pc, choice)) < StepsLeft(pc)
  {
  }

  lemma OtherShortens(r: Run, pc: Pc)
    requires !InPatch(pc) && !pc.Done?
    ensures StepsLeft(ContinueOther(r, pc)) < StepsLeft(pc)
  {
  }

  lemma DoneStays(b: Sandbox.Baseline, s: Shared, choice: Choice)
    ensures Next(b, s, Done, choice) == (s, Done)
  {
  }

  lemma NextShortens(b: Sandbox.Baseline, s: Shared, pc: Pc, choice: Choice)
    requires !pc.Done?
    ensures StepsLeft(Next(b, s, pc, choice).1) < StepsLeft(pc)
  {
    hide Next, ContinuePatch, ContinueOther;
    RunOfNext(b, s, pc, choice);
    RankZeroIsDone(pc);
    var run := Next(b, s, pc, choice).0.run;
    if InPatch(pc) {
      PatchShortens(b, run, pc, choice);
    } else {
      OtherShortens(run, pc);
    }
  }

  lemma RankZeroIsDone(pc: Pc)
    ensures StepsLeft(pc) == 0 <==> pc.Done?
  {
  }

  lemma StepperRanked(b: Sandbox.Baseline, choice: Choice)
    ensures Ranked(Stepper(b, choice), Rank())
  {
    hide Next, StepsLeft;
    forall x: Config
      ensures if Rank()(x) == 0 then Stepper(b, choice)(x) == x else Rank()(Stepper(b, choice)(x)) < Rank()(x)
    {
      RankZeroIsDone(x.pc);
      if x.pc.Done? {
        DoneStays(b, x.shared, choice);
      } else {
        NextShortens(b, x.shared, x.pc, choice);
      }
    }
  }

  lemma FinishIsDone(b: Sandbox.Baseline, s: Shared, pc: Pc, choice: Choice)
    ensures RunFor(b, s, pc, choice, StepsLeft(pc)).pc.Done?
  {
    hide StepsLeft, Stepper;
    StepperRanked(b, choice);
    IterateRests(Stepper(b, choice), Rank(), Config(s, pc), StepsLeft(pc));
    RankZeroIsDone(RunFor(b, s, pc, choice, StepsLeft(pc)).pc);
  }

  /** Finishing after one step is finishing. */
  lemma FinishAfterStep(b: Sandbox.Baseline, choice: Choice, x: Config)
    requires !x.pc.Done?
    ensures var y := Stepper(b, choice)(x); Finish(b, y.shared, y.pc, choice) == Finish(b, x.shared, x.pc, choice)
  {
    hide StepsLeft, Stepper;
    StepperRanked(b, choice);
    RankZeroIsDone(x.pc);
    FinishRested(Stepper(b, choice), Rank(), x);
    var y := Stepper(b, choice)(x);
    assert Config(x.shared, x.pc) == x && Config(y.shared, y.pc) == y;
  }

  // ----- what holds whatever a run may cost -----

  ghost function SoundAt(b: Sandbox.Baseline): Config -> bool {
    (x: Config) => SharedInv(b, x.shared) && R.RunInv(x.shared.run) && PcInv(b, x.shared, x.pc) && Informed(x.shared.run, x.pc)
  }

  lemma SoundRunFor(b: Sandbox.Baseline, s: Shared, pc: Pc, choice: Choice, n: nat)
    requires SoundAt(b)(Config(s, pc))
    ensures SharedInv(b, RunFor(b, s, pc, choice, n).shared) && R.RunInv(RunFor(b, s, pc, choice, n).shared.run)
  {
    hide SharedInv, R.RunInv, PcInv, Informed, Next;
    forall x: Config | SoundAt(b)(x) ensures SoundAt(b)(Stepper(b, choice)(x)) {
      PatchNextKeeps(b, x.shared, x.pc, choice);
      EvidenceNext(b, x.shared, x.pc, choice);
    }
    IterateKeeps(Stepper(b, choice), SoundAt(b), Config(s, pc), n);
    assert SoundAt(b)(RunFor(b, s, pc, choice, n));
  }

  lemma EntryIsSound(b: Sandbox.Baseline, s: Shared, pc: Pc)
    requires SharedInv(b, s) && R.RunInv(s.run) && IsEntry(pc)
    ensures SoundAt(b)(Config(s, pc))
  {
    hide SharedInv, R.RunInv;
  }

  lemma {:induction false} PerformAllSound(b: Sandbox.Baseline, s: Shared, ops: seq<Operation>)
    requires SharedInv(b, s) && R.RunInv(s.run)
    ensures SharedInv(b, PerformAll(b, s, ops)) && R.RunInv(PerformAll(b, s, ops).run)
  {
    hide SharedInv, R.RunInv, RunFor, SoundAt;
    if ops != [] {
      var before, op := ops[..|ops| - 1], ops[|ops| - 1];
      PerformAllSound(b, s, before);
      if IsEntry(op.entry) {
        EntryIsSound(b, PerformAll(b, s, before), op.entry);
        SoundRunFor(b, PerformAll(b, s, before), op.entry, op.choice, op.steps);
      }
    }
  }

  lemma CreatedSound(b: Sandbox.Baseline, spec: RunSpec)
    requires Phase4Spec(spec)
    ensures SoundAt(b)(Config(Shared(Create(spec), false, None), NewApprove))
  {
    CreationIsInformed(spec);
    CreateReplays(spec);
  }

  /** What holds of interleavings holds of every driven run, whatever it may cost. */
  lemma DriveIsSound(b: Sandbox.Baseline, spec: RunSpec, created: nat, ops: seq<Operation>)
    requires Phase4Spec(spec)
    ensures SharedInv(b, Drive(b, spec, created, ops)) && R.RunInv(Drive(b, spec, created, ops).run)
  {
    hide SharedInv, R.RunInv, RunFor, SoundAt, Phase4Spec;
    CreatedSound(b, spec);
    SoundRunFor(b, Shared(Create(spec), false, None), NewApprove, Choice(LaunchError, Unavailable), created);
    PerformAllSound(b, RunFor(b, Shared(Create(spec), false, None), NewApprove, Choice(LaunchError, Unavailable), created).shared, ops);
  }

  lemma StoredIsConsistent(r: Run)
    requires R.RunInv(r)
    ensures Consistent(r.spec, r.state) && r.state.runSpecHash == SpecIdentity(r.spec)
  {
    StoredRunIsConsistent(r);
  }

  // ----- nothing to reconcile -----

  /** A reconcile with nothing in flight changes nothing at all, however far it gets. */
  lemma IdleReconcile(b: Sandbox.Baseline, s: Shared, choice: Choice, n: nat)
    requires !InFlight(s.run.state)
    ensures RunFor(b, s, RecLoad, choice, n).shared == s
  {
    if n > 0 {
      assert Stepper(b, choice)(Config(s, RecLoad)) == Config(s, Done);
      hide Stepper;
      StepperRanked(b, choice);
      IterateStays(Stepper(b, choice), Rank(), Config(s, Done), n - 1);
    }
  }

  lemma ReconcileIsIdempotent(b: Sandbox.Baseline, s: Shared, choice: Choice)
    requires !InFlight(s.run.state)
    ensures Finish(b, s, RecLoad, choice) == s
  {
    IdleReconcile(b, s, choice, StepsLeft(RecLoad));
  }

  lemma {:induction false} IdleReconciles(b: Sandbox.Baseline, s: Shared, ops: seq<Operation>)
    requires !InFlight(s.run.state) && OnlyReconciles(ops)
    ensures PerformAll(b, s, ops) == s
  {
    hide RunFor;
    if ops != [] {
      var before, op := ops[..|ops| - 1], ops[|ops| - 1];
      IdleReconciles(b, s, before);
      assert op in ops;
      IdleReconcile(b, s, op.choice, op.steps);
    }
  }
}

/** Crash recovery of patch, when operations follow one another. */
module Phase4Recovery {
  import opened Wrappers
  import opened Contracts
  import opened StateMachine
  import opened RunHistory
  import opened Ledger
  import opened LogReplay
  import opened Iteration
  import opened Phase4Protocol
  import opened Phase4Evidence
  import opened Phase4Runs
  import Actors
  import Sandbox
  import R = RunInvariants
  import E = ExclusiveDriver
  import C = CrashRecovery

  // ----- what holds of an operation alone -----

  /** Without interference an operation's local variables are the stored ones. */
  ghost predicate Synced(r: Run, pc: Pc) {
    match pc
    case NewApprove => r.state.status.Created? && r.state.revision == 0
    case PatchStart(st) => st == r.state
    case PatchLaunch(st) => Attempting(r, st)
    case PatchFail(st, _) => Attempting(r, st)
    case PatchNoteResult(st, _) => Attempting(r, st)
    case PatchSandbox(st, _, _, _) => Attempting(r, st)
    case PatchDirectory(st, _, _, _) => Attempting(r, st)
    case PatchWrite(st, _, _, _) => Attempting(r, st)
    case PatchRecord(st, _, _, _) => Attempting(r, st)
    case PatchNoteFail(_) => !InFlight(r.state)
    case PatchNoteSandbox(st, c, e, _) => Recorded(r, st, c, e) && st.status.Running?
    case PatchReady(st, c, e) => Recorded(r, st, c, e) && st.status.Running?
    case PatchApply(st, c, e) => Recorded(r, st, c, e) && st.status.Evaluating?
    case RecLineage(st) => st == r.state && InFlight(st)
    case RecReceipts(st, cs, es) => st == r.state && InFlight(st) && cs == r.candidates && es == r.evaluations
    case RecEvents(st, cs, es, n) => st == r.state && InFlight(st) && cs == r.candidates && es == r.evaluations && n == |r.receipts|
    case RecReady(st, c, e) => Recorded(r, st, c, e) && st.status.Running?
    case RecApply(st, c, e) => Recorded(r, st, c, e) && st.status.Evaluating?
    case RecMiss(st) => Attempting(r, st)
    case RecNoteMiss(interrupted) => interrupted && !InFlight(r.state)
    case CanCommit(st) => st == r.state && !InFlight(st)
    case _ => true
  }

  /** The attempt in flight has recorded nothing. */
  ghost predicate Attempting(r: Run, st: RunState) {
    st == r.state && st.status.Running? && E.Surplus(r) == 0
  }

  /** The attempt in flight has recorded c and e. */
  ghost predicate Recorded(r: Run, st: RunState, c: Candidate, e: Evaluation) {
    st == r.state && E.Surplus(r) == 1 && E.Latest(r, c, e)
  }

  /** Between operations. */
  ghost predicate AtRest(b: Sandbox.Baseline, s: Shared) {
    SharedInv(b, s) && R.RunInv(s.run) && E.ExInv(s.run) && !s.run.state.status.Supervising?
  }

  ghost predicate Alone(b: Sandbox.Baseline, s: Shared, pc: Pc) {
    AtRest(b, s) && PcInv(b, s, pc) && Informed(s.run, pc) && Synced(s.run, pc)
  }

  lemma AloneCall(r: Run, pc: Pc)
    requires E.ExInv(r) && Synced(r, pc) && !pc.PatchRecord?
    ensures E.AloneOp(r, OpOf(pc)) && !OpOf(pc).Attempt? && !OpOf(pc).Advise? && !OpOf(pc).Save?
    ensures OpOf(pc).Commit? ==> !OpOf(pc).event.StartSupervisor?
  {
    if InPatch(pc) {
      AlonePatchCall(r, pc);
    } else {
      AloneOtherCall(r, pc);
    }
  }

  lemma AlonePatchCall(r: Run, pc: Pc)
    requires E.ExInv(r) && Synced(r, pc) && !pc.PatchRecord? && InPatch(pc)
    ensures E.AloneOp(r, OpOf(pc)) && !OpOf(pc).Attempt? && !OpOf(pc).Advise? && !OpOf(pc).Save?
    ensures OpOf(pc).Commit? ==> !OpOf(pc).event.StartSupervisor?
  {
  }

  lemma AloneOtherCall(r: Run, pc: Pc)
    requires E.ExInv(r) && Synced(r, pc) && !InPatch(pc)
    ensures E.AloneOp(r, OpOf(pc)) && !OpOf(pc).Attempt? && !OpOf(pc).Advise? && !OpOf(pc).Save?
    ensures OpOf(pc).Commit? ==> !OpOf(pc).event.StartSupervisor?
  {
  }

  /** What the one recording of an attempt does. */
  lemma RecordKeepsExclusive(r: Run, c: Candidate, e: Evaluation, x: Receipt, r': Run)
    requires R.RunInv(r) && E.ExInv(r) && E.Surplus(r) == 0 && InFlight(r.state) && Try(r, SandboxAttempt(c, e, x)) == Ok(r')
    ensures E.ExInv(r') && E.Surplus(r') == 1 && E.Latest(r', c, e) && r'.state == r.state
    ensures |r'.evaluations| == |r.evaluations| + 1
  {
    E.AttemptKeeps(r, c, e);
    assert RecordAttempt(r, c, e).Ok?;
    SameEvidence(RecordAttempt(r, c, e).value, r');
  }

  /** Receipts do not matter to the evidence. */
  lemma SameEvidence(r: Run, r': Run)
    requires r' == r.(receipts := r'.receipts) && E.ExInv(r)
    ensures E.ExInv(r') && E.Surplus(r') == E.Surplus(r)
  {
  }

  /** What the call at pc, made alone, did to r. */
  ghost predicate CallDid(r: Run, pc: Pc, r': Run) {
    if pc.PatchRecord? then r'.state == r.state && E.Surplus(r') == 1 && E.Latest(r', pc.c, pc.e)
    else E.AloneDid(r, OpOf(pc), r') && !OpOf(pc).Attempt? && (OpOf(pc).Read? ==> r' == r)
  }

  /** r' is the run that the call at pc, made alone, left of r. */
  ghost predicate Called(r: Run, pc: Pc, r': Run) {
    && Synced(r, pc) && CallDid(r, pc, r')
    && |r'.candidates| == |r'.evaluations| == |r'.receipts|
    && (r'.state.status.Evaluating? ==> E.Surplus(r') == 1) && 0 <= E.Surplus(r') <= 1
  }

  lemma PatchStaysSynced(b: Sandbox.Baseline, r: Run, pc: Pc, r': Run, choice: Choice)
    requires Called(r, pc, r') && InPatch(pc)
    ensures Synced(r', ContinuePatch(b, r', pc, choice))
  {
  }

  lemma ReconcileReadsSynced(r: Run, pc: Pc)
    requires Called(r, pc, r) && !InPatch(pc) && OpOf(pc).Read?
    ensures Synced(r, ContinueOther(r, pc))
  {
  }

  lemma ReconcileWritesSynced(r: Run, pc: Pc, r': Run)
    requires Called(r, pc, r') && Informed(r, pc) && !InPatch(pc) && !OpOf(pc).Read?
    ensures Synced(r', ContinueOther(r', pc))
  {
  }

  lemma StaysSynced(b: Sandbox.Baseline, r: Run, pc: Pc, r': Run, choice: Choice)
    requires Called(r, pc, r') && Informed(r, pc)
    ensures Synced(r', Continue(b, r', pc, choice))
  {
    hide Synced, Informed, ContinuePatch, ContinueOther, OpOf;
    if InPatch(pc) {
      PatchStaysSynced(b, r, pc, r', choice);
    } else if OpOf(pc).Read? {
      ReconcileReadsSynced(r, pc);
    } else {
      ReconcileWritesSynced(r, pc, r');
    }
  }

  lemma NeverSupervises(r: Run, op: Op)
    requires !r.state.status.Supervising? && (op.Commit? ==> !op.event.StartSupervisor?)
    ensures !Exec(r, op).state.status.Supervising?
  {
    if op.Commit? && Try(r, op).Ok? {
      R.TransitionStatuses(r.state, op.event, r.spec, op.candidate, op.cost);
    }
  }

  lemma RecordCall(r: Run, pc: Pc)
    requires pc.PatchRecord? && Synced(r, pc)
    ensures OpOf(pc) == SandboxAttempt(pc.c, pc.e, pc.x) && E.Surplus(r) == 0 && InFlight(r.state)
  {
  }

  lemma MakeCall(b: Sandbox.Baseline, s: Shared, pc: Pc)
    requires Alone(b, s, pc) && Try(s.run, OpOf(pc)).Ok?
    ensures var r' := Exec(s.run, OpOf(pc));
            E.ExInv(r') && !r'.state.status.Supervising? && CallDid(s.run, pc, r')
  {
    hide SharedInv, PcInv, Informed, Synced, R.RunInv, E.ExInv, OpOf, Try, E.AloneDid, E.AloneOp, E.Latest;
    var r' := Exec(s.run, OpOf(pc));
    if pc.PatchRecord? {
      RecordCall(s.run, pc);
      RecordKeepsExclusive(s.run, pc.c, pc.e, pc.x, r');
    } else {
      AloneCall(s.run, pc);
      E.AloneOpKeeps(s.run, OpOf(pc), r');
      ReadsNothing(s.run, OpOf(pc));
    }
    NeverSupervises(s.run, OpOf(pc));
  }

  lemma ReadsNothing(r: Run, op: Op)
    ensures op.Read? ==> Exec(r, op) == r
  {
  }

  lemma EvidenceCounts(b: Sandbox.Baseline, s: Shared)
    requires SharedInv(b, s) && R.RunInv(s.run) && E.ExInv(s.run)
    ensures |s.run.candidates| == |s.run.evaluations| == |s.run.receipts|
    ensures (s.run.state.status.Evaluating? ==> E.Surplus(s.run) == 1) && 0 <= E.Surplus(s.run) <= 1
  {
  }

  lemma DoneIsAlone(b: Sandbox.Baseline, s: Shared)
    requires AtRest(b, s)
    ensures Alone(b, s, Done)
  {
  }

  lemma AloneNext(b: Sandbox.Baseline, s: Shared, pc: Pc, choice: Choice)
    requires Alone(b, s, pc)
    ensures var (s', pc') := Next(b, s, pc, choice); Alone(b, s', pc')
  {
    hide SharedInv, PcInv, Informed, Synced, R.RunInv, E.ExInv, OpOf, Try, Continue, Next, CallDid;
    var (s', pc') := Next(b, s, pc, choice);
    PatchNextKeeps(b, s, pc, choice);
    EvidenceNext(b, s, pc, choice);
    RunOfNext(b, s, pc, choice);
    if Try(s.run, OpOf(pc)).Ok? {
      MakeCall(b, s, pc);
      EvidenceCounts(b, s');
      StaysSynced(b, s.run, pc, s'.run, choice);
      if pc'.Done? { DoneIsAlone(b, s'); }
    } else {
      DoneIsAlone(b, s');
    }
  }

  // ----- where a run is bound to settle -----

  /** Program points from which an operation only brings the run to its settled state. */
  predicate Recovering(pc: Pc) {
    || pc.PatchNoteSandbox? || pc.PatchReady? || pc.PatchApply?
    || pc.RecLoad? || pc.RecLineage? || pc.RecReceipts? || pc.RecEvents? || pc.RecReady? || pc.RecApply? || pc.RecMiss? || pc.RecNoteMiss?
  }

  /** Program points of a started patch at which its attempt is not recorded. */
  predicate Unrecorded(pc: Pc) {
    || pc.PatchLaunch? || pc.PatchFail? || pc.PatchNoteFail? || pc.PatchNoteResult? || pc.PatchSandbox? || pc.PatchDirectory?
    || pc.PatchWrite? || pc.PatchRecord?
  }

  lemma RecoveringOp(r: Run, pc: Pc)
    requires E.ExInv(r) && Synced(r, pc) && Recovering(pc)
    ensures C.RecoveryOp(r, OpOf(pc))
  {
    if pc.PatchNoteSandbox? || pc.PatchReady? || pc.PatchApply? {
      RecoveringPatchOp(r, pc);
    } else {
      RecoveringReconcileOp(r, pc);
    }
  }

  lemma RecoveringPatchOp(r: Run, pc: Pc)
    requires E.ExInv(r) && Synced(r, pc) && (pc.PatchNoteSandbox? || pc.PatchReady? || pc.PatchApply?)
    ensures C.RecoveryOp(r, OpOf(pc))
  {
  }

  lemma RecoveringReconcileOp(r: Run, pc: Pc)
    requires E.ExInv(r) && Synced(r, pc) && Recovering(pc) && !InPatch(pc)
    ensures C.RecoveryOp(r, OpOf(pc))
  {
  }

  lemma UnrecordedOp(r: Run, pc: Pc)
    requires Synced(r, pc) && Unrecorded(pc) && !pc.PatchRecord?
    ensures C.RecoveryOp(r, OpOf(pc))
  {
  }

  lemma RecoveringPatchContinues(b: Sandbox.Baseline, r: Run, pc: Pc, choice: Choice)
    requires Recovering(pc) && InPatch(pc)
    ensures var pc' := ContinuePatch(b, r, pc, choice); Recovering(pc') || (pc'.Done? && pc.PatchApply?)
  {
  }

  lemma RecoveringReconcileContinues(r: Run, pc: Pc)
    requires Recovering(pc) && !InPatch(pc)
    ensures var pc' := ContinueOther(r, pc);
            || Recovering(pc')
            || (pc'.Done? && (pc.RecApply? || pc.RecNoteMiss? || pc.RecLoad? || pc.RecEvents?))
  {
  }

  /** Recovery ends at a closing commit, after it, or where there is nothing to recover. */
  lemma RecoveryEnds(r: Run, pc: Pc, r': Run)
    requires Called(r, pc, r') && (pc.PatchApply? || pc.RecApply? || pc.RecNoteMiss? || pc.RecLoad? || pc.RecEvents?)
    requires !InPatch(pc) ==> ContinueOther(r', pc).Done?
    ensures !InFlight(r'.state)
  {
  }

  lemma RecoveryCall(b: Sandbox.Baseline, s: Shared, pc: Pc)
    requires Alone(b, s, pc) && (Recovering(pc) || (Unrecorded(pc) && !pc.PatchRecord?))
    ensures var r' := Exec(s.run, OpOf(pc));
            && Try(s.run, OpOf(pc)).Ok? && C.Settled(r') == C.Settled(s.run) && |r'.evaluations| == |s.run.evaluations|
  {
    hide SharedInv, PcInv, Informed, Synced, R.RunInv, E.ExInv, OpOf, Try, C.RecoveryOp, C.Settled;
    if Recovering(pc) {
      RecoveringOp(s.run, pc);
    } else {
      UnrecordedOp(s.run, pc);
    }
    C.RecoveryOpSettles(s.run, OpOf(pc));
    TableCallsSucceed(s.run, pc);
  }

  lemma TableCallsSucceed(r: Run, pc: Pc)
    requires !pc.PatchRecord?
    ensures !OpOf(pc).Commit? ==> Try(r, OpOf(pc)).Ok?
  {
  }

  lemma RecoveryStep(b: Sandbox.Baseline, s: Shared, pc: Pc, choice: Choice)
    requires Alone(b, s, pc) && Recovering(pc)
    ensures var (s', pc') := Next(b, s, pc, choice);
            && C.Settled(s'.run) == C.Settled(s.run) && |s'.run.evaluations| == |s.run.evaluations|
            && (Recovering(pc') || (pc'.Done? && !InFlight(s'.run.state)))
  {
    hide SharedInv, PcInv, Informed, Synced, R.RunInv, E.ExInv, OpOf, Try, C.Settled, CallDid, ContinuePatch, ContinueOther;
    var s' := Next(b, s, pc, choice).0;
    RecoveryCall(b, s, pc);
    MakeCall(b, s, pc);
    PatchNextKeeps(b, s, pc, choice);
    EvidenceNext(b, s, pc, choice);
    EvidenceCounts(b, s');
    if InPatch(pc) {
      RecoveringPatchContinues(b, s'.run, pc, choice);
    } else {
      RecoveringReconcileContinues(s'.run, pc);
    }
    if Next(b, s, pc, choice).1.Done? {
      RecoveryEnds(s.run, pc, s'.run);
    }
  }

  /** x is recovering towards `target`, or there. */
  ghost predicate RecoversTo(b: Sandbox.Baseline, x: Config, target: RunState, evaluations: nat) {
    && Alone(b, x.shared, x.pc)
    && (Recovering(x.pc) || (x.pc.Done? && !InFlight(x.shared.run.state)))
    && C.Settled(x.shared.run) == target && |x.shared.run.evaluations| == evaluations
  }

  ghost function RecoversAt(b: Sandbox.Baseline, target: RunState, evaluations: nat): Config -> bool {
    (x: Config) => RecoversTo(b, x, target, evaluations)
  }

  lemma RecoversNext(b: Sandbox.Baseline, choice: Choice, x: Config, target: RunState, evaluations: nat)
    requires RecoversTo(b, x, target, evaluations)
    ensures RecoversTo(b, Stepper(b, choice)(x), target, evaluations)
  {
    hide Alone, Next, Recovering, C.Settled;
    if x.pc.Done? {
      DoneStays(b, x.shared, choice);
    } else {
      AloneNext(b, x.shared, x.pc, choice);
      RecoveryStep(b, x.shared, x.pc, choice);
    }
  }

  /** Recovery that stops anywhere keeps the settled state. */
  lemma RecoveryKeepsSettled(b: Sandbox.Baseline, s: Shared, pc: Pc, choice: Choice, n: nat)
    requires Alone(b, s, pc) && Recovering(pc)
    ensures RecoversTo(b, RunFor(b, s, pc, choice, n), C.Settled(s.run), |s.run.evaluations|)
  {
    hide RecoversTo, Stepper, Alone, C.Settled;
    var inv := RecoversAt(b, C.Settled(s.run), |s.run.evaluations|);
    RecoveryBegins(b, s, pc);
    forall x: Config | inv(x) ensures inv(Stepper(b, choice)(x)) {
      RecoversNext(b, choice, x, C.Settled(s.run), |s.run.evaluations|);
    }
    assert inv(Config(s, pc));
    IterateKeeps(Stepper(b, choice), inv, Config(s, pc), n);
    assert inv(RunFor(b, s, pc, choice, n));
  }

  lemma RecoveryBegins(b: Sandbox.Baseline, s: Shared, pc: Pc)
    requires Alone(b, s, pc) && Recovering(pc)
    ensures RecoversTo(b, Config(s, pc), C.Settled(s.run), |s.run.evaluations|)
  {
  }

  /** Recovery that runs to its end reaches the settled state. */
  lemma RecoveryFinishes(b: Sandbox.Baseline, s: Shared, pc: Pc, choice: Choice)
    requires Alone(b, s, pc) && Recovering(pc)
    ensures var end := Finish(b, s, pc, choice); end.run.state == C.Settled(s.run) && !InFlight(end.run.state) && AtRest(b, end)
  {
    RecoveryKeepsSettled(b, s, pc, choice, StepsLeft(pc));
    FinishIsDone(b, s, pc, choice);
    NotRecovering(RunFor(b, s, pc, choice, StepsLeft(pc)).pc);
    hide Alone, Recovering, RunFor, SharedInv, R.RunInv, E.ExInv, C.Settled;
    SettledAtRest(b, RunFor(b, s, pc, choice, StepsLeft(pc)));
  }

  lemma NotRecovering(pc: Pc)
    ensures pc.Done? ==> !Recovering(pc)
  {
  }

  lemma SettledAtRest(b: Sandbox.Baseline, x: Config)
    requires Alone(b, x.shared, x.pc) && !InFlight(x.shared.run.state)
    ensures AtRest(b, x.shared) && C.Settled(x.shared.run) == x.shared.run.state
  {
  }

  // ----- a patch that stops anywhere -----

  lemma UnrecordedContinues(b: Sandbox.Baseline, r: Run, pc: Pc, choice: Choice)
    requires Unrecorded(pc)
    ensures var pc' := ContinuePatch(b, r, pc, choice); Unrecorded(pc') || Recovering(pc') || pc'.Done?
    ensures pc.PatchRecord? ==> ContinuePatch(b, r, pc, choice).PatchNoteSandbox?
  {
  }

  lemma UnrecordedStep(b: Sandbox.Baseline, s: Shared, pc: Pc, choice: Choice)
    requires Alone(b, s, pc) && Unrecorded(pc) && !pc.PatchRecord?
    ensures var (s', pc') := Next(b, s, pc, choice);
            && C.Settled(s'.run) == C.Settled(s.run) && |s'.run.evaluations| == |s.run.evaluations|
            && (Unrecorded(pc') || Recovering(pc') || pc'.Done?)
  {
    hide Alone, OpOf, Try, C.Settled, Recovering, ContinuePatch, ContinueOther, Next;
    RecoveryCall(b, s, pc);
    RunOfNext(b, s, pc, choice);
    UnrecordedContinues(b, Next(b, s, pc, choice).0.run, pc, choice);
  }

  /** Recording makes the attempt recoverable, or is refused. */
  lemma PatchRecords(b: Sandbox.Baseline, s: Shared, pc: Pc, choice: Choice)
    requires Alone(b, s, pc) && pc.PatchRecord?
    ensures var (s', pc') := Next(b, s, pc, choice);
            if Try(s.run, OpOf(pc)).Ok? then Recovering(pc') && |s'.run.evaluations| == |s.run.evaluations| + 1
            else s' == s && pc'.Done?
  {
    hide SharedInv, PcInv, Informed, Synced, R.RunInv, E.ExInv, ContinuePatch, ContinueOther, Try, OpOf;
    UnrecordedContinues(b, Next(b, s, pc, choice).0.run, pc, choice);
    RecordCall(s.run, pc);
    if Try(s.run, OpOf(pc)).Ok? {
      RecordKeepsExclusive(s.run, pc.c, pc.e, pc.x, Exec(s.run, OpOf(pc)));
    }
  }

  /** x lies on the path of a started patch that would finish in `end`; unrecorded it settles as `failed`. */
  ghost predicate OnPath(b: Sandbox.Baseline, choice: Choice, x: Config, end: Shared, failed: RunState, evaluations: nat) {
    && Alone(b, x.shared, x.pc)
    && Finish(b, x.shared, x.pc, choice) == end
    && if |x.shared.run.evaluations| > evaluations then RecoversTo(b, x, end.run.state, |x.shared.run.evaluations|)
       else |x.shared.run.evaluations| == evaluations && C.Settled(x.shared.run) == failed
            && (Unrecorded(x.pc) || Recovering(x.pc) || x.pc.Done?)
  }

  ghost function PathAt(b: Sandbox.Baseline, choice: Choice, end: Shared, failed: RunState, evaluations: nat): Config -> bool {
    (x: Config) => OnPath(b, choice, x, end, failed, evaluations)
  }

  lemma RecoversToOwnEnd(b: Sandbox.Baseline, choice: Choice, y: Config)
    requires Alone(b, y.shared, y.pc) && Recovering(y.pc)
    ensures RecoversTo(b, y, Finish(b, y.shared, y.pc, choice).run.state, |y.shared.run.evaluations|)
  {
    hide Alone, C.Settled, Recovering, Finish;
    RecoveryBegins(b, y.shared, y.pc);
    RecoveryFinishes(b, y.shared, y.pc, choice);
  }

  lemma PathNext(b: Sandbox.Baseline, choice: Choice, x: Config, end: Shared, failed: RunState, evaluations: nat)
    requires OnPath(b, choice, x, end, failed, evaluations) && !x.pc.Done?
    ensures OnPath(b, choice, Stepper(b, choice)(x), end, failed, evaluations)
  {
    hide Alone, Next, Finish, C.Settled, Recovering, Try, OpOf;
    var y := Stepper(b, choice)(x);
    AloneNext(b, x.shared, x.pc, choice);
    FinishAfterStep(b, choice, x);
    if |x.shared.run.evaluations| > evaluations {
      RecoversNext(b, choice, x, end.run.state, |x.shared.run.evaluations|);
    } else if Recovering(x.pc) {
      RecoveryStep(b, x.shared, x.pc, choice);
    } else if x.pc.PatchRecord? {
      PatchRecords(b, x.shared, x.pc, choice);
      if Recovering(y.pc) { RecoversToOwnEnd(b, choice, y); }
    } else {
      UnrecordedStep(b, x.shared, x.pc, choice);
    }
  }

  lemma PathKept(b: Sandbox.Baseline, choice: Choice, end: Shared, failed: RunState, evaluations: nat)
    ensures Kept(Stepper(b, choice), PathAt(b, choice, end, failed, evaluations))
  {
    hide OnPath, Next;
    var inv := PathAt(b, choice, end, failed, evaluations);
    forall x: Config | inv(x) ensures inv(Stepper(b, choice)(x)) {
      if x.pc.Done? {
        DoneStays(b, x.shared, choice);
        assert Stepper(b, choice)(x) == x;
      } else {
        PathNext(b, choice, x, end, failed, evaluations);
      }
    }
  }

  lemma PathBegins(b: Sandbox.Baseline, s: Shared, pc: Pc, choice: Choice)
    requires Alone(b, s, pc) && pc.PatchLaunch?
    ensures OnPath(b, choice, Config(s, pc), Finish(b, s, pc, choice), C.Settled(s.run), |s.run.evaluations|)
  {
    hide Alone, C.Settled, Finish;
  }

  /** What being on the path says of the run. */
  lemma PathSettles(b: Sandbox.Baseline, choice: Choice, x: Config, end: Shared, failed: RunState, evaluations: nat)
    requires OnPath(b, choice, x, end, failed, evaluations)
    ensures AtRest(b, x.shared) && C.Settled(x.shared.run) == if |x.shared.run.evaluations| > evaluations then end.run.state else failed
  {
    hide SharedInv, R.RunInv, E.ExInv, Synced, Informed, PcInv, C.Settled, Finish;
  }

  /** Stopped before its attempt was recorded, a patch settles as before it; stopped after, as its end. */
  lemma PatchPath(b: Sandbox.Baseline, s: Shared, pc: Pc, choice: Choice, n: nat)
    requires Alone(b, s, pc) && pc.PatchLaunch?
    ensures var s' := RunFor(b, s, pc, choice, n).shared;
            && AtRest(b, s')
            && C.Settled(s'.run) == if |s'.run.evaluations| > |s.run.evaluations| then Finish(b, s, pc, choice).run.state else C.Settled(s.run)
  {
    hide OnPath, Alone, AtRest, C.Settled, Finish, Stepper;
    var end, failed := Finish(b, s, pc, choice), C.Settled(s.run);
    var inv := PathAt(b, choice, end, failed, |s.run.evaluations|);
    PathKept(b, choice, end, failed, |s.run.evaluations|);
    PathBegins(b, s, pc, choice);
    assert inv(Config(s, pc));
    IterateKeeps(Stepper(b, choice), inv, Config(s, pc), n);
    assert inv(RunFor(b, s, pc, choice, n));
    PathSettles(b, choice, RunFor(b, s, pc, choice, n), end, failed, |s.run.evaluations|);
  }

  // ----- driven runs -----

  ghost function AloneAt(b: Sandbox.Baseline): Config -> bool {
    (x: Config) => Alone(b, x.shared, x.pc)
  }

  lemma AloneRunFor(b: Sandbox.Baseline, s: Shared, pc: Pc, choice: Choice, n: nat)
    requires Alone(b, s, pc)
    ensures AtRest(b, RunFor(b, s, pc, choice, n).shared)
  {
    hide AtRest, Synced, Informed, PcInv, Next;
    forall x: Config | AloneAt(b)(x) ensures AloneAt(b)(Stepper(b, choice)(x)) {
      AloneNext(b, x.shared, x.pc, choice);
    }
    IterateKeeps(Stepper(b, choice), AloneAt(b), Config(s, pc), n);
    assert AloneAt(b)(RunFor(b, s, pc, choice, n));
  }

  lemma EntryIsAlone(b: Sandbox.Baseline, s: Shared, pc: Pc)
    requires AtRest(b, s) && IsEntry(pc)
    ensures Alone(b, s, pc)
  {
    hide AtRest;
  }

  lemma {:induction false} PerformAllAtRest(b: Sandbox.Baseline, s: Shared, ops: seq<Operation>)
    requires AtRest(b, s)
    ensures AtRest(b, PerformAll(b, s, ops))
  {
    hide AtRest, Alone, RunFor;
    if ops != [] {
      var before, op := ops[..|ops| - 1], ops[|ops| - 1];
      PerformAllAtRest(b, s, before);
      if IsEntry(op.entry) {
        EntryIsAlone(b, PerformAll(b, s, before), op.entry);
        AloneRunFor(b, PerformAll(b, s, before), op.entry, op.choice, op.steps);
      }
    }
  }

  lemma CreatedAlone(b: Sandbox.Baseline, spec: RunSpec)
    requires Phase4Spec(spec) && spec.maxCostUsd > 0.0
    ensures Alone(b, Shared(Create(spec), false, None), NewApprove)
  {
    CreationIsInformed(spec);
    C.CreatedAlone(spec);
    CreateReplays(spec);
  }

  lemma DriveAtRest(b: Sandbox.Baseline, spec: RunSpec, created: nat, ops: seq<Operation>)
    requires Phase4Spec(spec) && spec.maxCostUsd > 0.0
    ensures AtRest(b, Drive(b, spec, created, ops))
  {
    hide AtRest, Alone, RunFor, Phase4Spec;
    CreatedAlone(b, spec);
    AloneRunFor(b, Shared(Create(spec), false, None), NewApprove, Choice(LaunchError, Unavailable), created);
    PerformAllAtRest(b, RunFor(b, Shared(Create(spec), false, None), NewApprove, Choice(LaunchError, Unavailable), created).shared, ops);
  }

  lemma {:induction false} ReconcilesKeepSettled(b: Sandbox.Baseline, s: Shared, ops: seq<Operation>)
    requires AtRest(b, s) && OnlyReconciles(ops)
    ensures AtRest(b, PerformAll(b, s, ops)) && C.Settled(PerformAll(b, s, ops).run) == C.Settled(s.run)
  {
    hide AtRest, Alone, C.Settled, RunFor;
    if ops != [] {
      var before, op := ops[..|ops| - 1], ops[|ops| - 1];
      ReconcilesKeepSettled(b, s, before);
      assert op in ops;
      ReconcileKeepsSettled(b, PerformAll(b, s, before), op.choice, op.steps);
    }
  }

  lemma ReconcileKeepsSettled(b: Sandbox.Baseline, s: Shared, choice: Choice, n: nat)
    requires AtRest(b, s)
    ensures var s' := RunFor(b, s, RecLoad, choice, n).shared; AtRest(b, s') && C.Settled(s'.run) == C.Settled(s.run)
  {
    hide AtRest, Synced, Informed, PcInv, RunFor, C.Settled;
    EntryIsAlone(b, s, RecLoad);
    RecoveryKeepsSettled(b, s, RecLoad, choice, n);
  }

  /** A patch that stops before its second call has changed nothing. */
  lemma BeforeStart(b: Sandbox.Baseline, s: Shared, choice: Choice, n: nat)
    requires n < 2
    ensures RunFor(b, s, PatchLoad, choice, n).shared == s
  {
    if n == 1 {
      assert Stepper(b, choice)(Config(s, PatchLoad)) == Config(s, PatchStart(s.run.state));
    }
  }

  lemma ReconcilingSettles(b: Sandbox.Baseline, s: Shared, reconciles: seq<Operation>, last: Choice)
    requires AtRest(b, s) && OnlyReconciles(reconciles)
    ensures var recovered := Finish(b, PerformAll(b, s, reconciles), RecLoad, last);
            recovered.run.state == C.Settled(s.run) && !InFlight(recovered.run.state) && Finish(b, recovered, RecLoad, last) == recovered
  {
    hide AtRest, Alone, PerformAll, Finish, C.Settled;
    ReconcilesKeepSettled(b, s, reconciles);
    EntryIsAlone(b, PerformAll(b, s, reconciles), RecLoad);
    RecoveryFinishes(b, PerformAll(b, s, reconciles), RecLoad, last);
    ReconcileIsIdempotent(b, Finish(b, PerformAll(b, s, reconciles), RecLoad, last), last);
  }

  // ----- crash equivalence -----

  lemma StartOps(b: Sandbox.Baseline, r: Run, st: RunState, choice: Choice)
    ensures OpOf(PatchLoad).Read? && Continue(b, r, PatchLoad, choice) == PatchStart(r.state)
    ensures OpOf(PatchStart(st)) == Commit(StartStep, st.revision, None, 0.0)
    ensures Continue(b, r, PatchStart(st), choice) == PatchLaunch(r.state)
  {
  }

  lemma OneStep(b: Sandbox.Baseline, s: Shared, pc: Pc, choice: Choice)
    requires !pc.PatchDirectory? && !pc.PatchWrite? && Try(s.run, OpOf(pc)).Ok?
    ensures var run' := Exec(s.run, OpOf(pc));
            Stepper(b, choice)(Config(s, pc)) == Config(s.(run := run'), Continue(b, run', pc, choice))
  {
    hide OpOf, Continue;
  }

  /** The first two steps of a patch on a ready run commit its start. */
  lemma PatchStarts(b: Sandbox.Baseline, s: Shared, choice: Choice, n: nat)
    requires R.RunInv(s.run) && s.run.state.status.Ready? && n >= 2
    ensures var run' := Exec(s.run, Commit(StartStep, s.run.state.revision, None, 0.0));
            var s', pc' := s.(run := run'), PatchLaunch(run'.state);
            && run'.state == C.Accept(s.run.state, StartStep, s.run.spec, None) && run'.spec == s.run.spec
            && run'.evaluations == s.run.evaluations
            && RunFor(b, s, PatchLoad, choice, n) == RunFor(b, s', pc', choice, n - 2)
            && Finish(b, s, PatchLoad, choice) == Finish(b, s', pc', choice)
            && Stepper(b, choice)(Config(s, PatchLoad)) == Config(s, PatchStart(s.run.state))
            && Stepper(b, choice)(Config(s, PatchStart(s.run.state))) == Config(s', pc')
  {
    var run' := Exec(s.run, Commit(StartStep, s.run.state.revision, None, 0.0));
    E.CommitAccepted(s.run, StartStep, None);
    hide R.RunInv, OpOf, Continue, Next, Finish;
    var x, y, z := Config(s, PatchLoad), Config(s, PatchStart(s.run.state)), Config(s.(run := run'), PatchLaunch(run'.state));
    StartOps(b, s.run, s.run.state, choice);
    StartOps(b, run', s.run.state, choice);
    OneStep(b, s, PatchLoad, choice);
    OneStep(b, s, PatchStart(s.run.state), choice);
    FinishAfterStep(b, choice, x);
    FinishAfterStep(b, choice, y);
    TwoIterations(Stepper(b, choice), x, y, z, n);
  }

  lemma TwoIterations<S>(step: S -> S, x: S, y: S, z: S, n: nat)
    requires step(x) == y && step(y) == z && n >= 2
    ensures Iterate(step, x, n) == Iterate(step, z, n - 2)
  {
    assert Iterate(step, x, n) == Iterate(step, y, n - 1);
  }

  lemma StartedAlone(b: Sandbox.Baseline, s: Shared, choice: Choice, s': Shared, pc': Pc)
    requires AtRest(b, s) && s.run.state.status.Ready?
    requires Stepper(b, choice)(Config(s, PatchLoad)) == Config(s, PatchStart(s.run.state))
    requires Stepper(b, choice)(Config(s, PatchStart(s.run.state))) == Config(s', pc')
    ensures Alone(b, s', pc')
  {
    hide Alone, AtRest, Next;
    EntryIsAlone(b, s, PatchLoad);
    AloneNext(b, s, PatchLoad, choice);
    AloneNext(b, s, PatchStart(s.run.state), choice);
  }

  lemma SettledWhenStarted(b: Sandbox.Baseline, s: Shared, pc: Pc)
    requires Alone(b, s, pc) && pc.PatchLaunch?
    ensures C.Settled(s.run) == C.Accept(s.run.state, Interrupt, s.run.spec, None)
  {
  }

  lemma RestFacts(b: Sandbox.Baseline, s: Shared)
    requires AtRest(b, s)
    ensures R.RunInv(s.run)
  {
  }

  /** Where a patch of a ready run settles when it stops after n steps. */
  lemma StoppedPatchSettles(b: Sandbox.Baseline, s: Shared, choice: Choice, n: nat)
    requires AtRest(b, s) && s.run.state.status.Ready? && n >= 2
    ensures var stopped := RunFor(b, s, PatchLoad, choice, n).shared;
            && AtRest(b, stopped)
            && C.Settled(stopped.run) ==
               if |stopped.run.evaluations| > |s.run.evaluations| then Finish(b, s, PatchLoad, choice).run.state
               else C.Accept(C.Accept(s.run.state, StartStep, s.run.spec, None), Interrupt, s.run.spec, None)
  {
    hide AtRest, Alone, RunFor, Finish, C.Settled, C.Accept, Stepper, R.RunInv, Exec;
    RestFacts(b, s);
    PatchStarts(b, s, choice, n);
    var run' := Exec(s.run, Commit(StartStep, s.run.state.revision, None, 0.0));
    var s', pc' := s.(run := run'), PatchLaunch(run'.state);
    StartedAlone(b, s, choice, s', pc');
    PatchPath(b, s', pc', choice, n - 2);
    SettledWhenStarted(b, s', pc');
  }

  lemma ReceiptsCount(b: Sandbox.Baseline, s: Shared)
    requires AtRest(b, s)
    ensures |s.run.receipts| == |s.run.evaluations|
  {
  }

  // ----- a run with nothing to spend -----

  ghost function LastsAt(spec: RunSpec, state: RunState): Config -> bool {
    (x: Config) => x.shared.run.spec == spec && (state.IsTerminal() ==> x.shared.run.state == state)
  }

  lemma ExecLasts(r: Run, op: Op)
    ensures Exec(r, op).spec == r.spec && (r.state.IsTerminal() ==> Exec(r, op).state == r.state)
  {
    if r.state.IsTerminal() { C.EndedRefuses(r, op); }
  }

  /** No operation changes the spec, or the state of a run that has ended. */
  lemma Lasts(b: Sandbox.Baseline, s: Shared, pc: Pc, choice: Choice, n: nat, spec: RunSpec, state: RunState)
    requires s.run.spec == spec && (state.IsTerminal() ==> s.run.state == state)
    ensures var s' := RunFor(b, s, pc, choice, n).shared; s'.run.spec == spec && (state.IsTerminal() ==> s'.run.state == state)
  {
    hide Next;
    var inv := LastsAt(spec, state);
    forall x: Config | inv(x) ensures inv(Stepper(b, choice)(x)) {
      RunOfNext(b, x.shared, x.pc, choice);
      ExecLasts(x.shared.run, OpOf(x.pc));
    }
    assert inv(Config(s, pc));
    IterateKeeps(Stepper(b, choice), inv, Config(s, pc), n);
    assert inv(RunFor(b, s, pc, choice, n));
  }

  lemma {:induction false} PerformingLasts(b: Sandbox.Baseline, s: Shared, ops: seq<Operation>, spec: RunSpec, state: RunState)
    requires s.run.spec == spec && (state.IsTerminal() ==> s.run.state == state)
    ensures var s' := PerformAll(b, s, ops); s'.run.spec == spec && (state.IsTerminal() ==> s'.run.state == state)
  {
    hide RunFor;
    if ops != [] {
      var before, op := ops[..|ops| - 1], ops[|ops| - 1];
      PerformingLasts(b, s, before, spec, state);
      if IsEntry(op.entry) {
        Lasts(b, PerformAll(b, s, before), op.entry, op.choice, op.steps, spec, state);
      }
    }
  }

  lemma DriveKeepsSpec(b: Sandbox.Baseline, spec: RunSpec, created: nat, ops: seq<Operation>)
    ensures Drive(b, spec, created, ops).run.spec == spec
  {
    hide RunFor;
    var s, choice, live := Shared(Create(spec), false, None), Choice(LaunchError, Unavailable), NewState(SpecIdentity(spec));
    Lasts(b, s, NewApprove, choice, created, spec, live);
    PerformingLasts(b, RunFor(b, s, NewApprove, choice, created).shared, ops, spec, live);
  }

  /** With nothing to spend the start of a patch is also its end, so stopping later makes no difference. */
  lemma ExhaustedPatchIsOver(b: Sandbox.Baseline, s: Shared, choice: Choice, n: nat, reconciles: seq<Operation>, last: Choice)
    requires R.RunInv(s.run) && s.run.state.status.Ready? && s.run.spec.maxCostUsd == 0.0 && n >= 2
    ensures var over := C.Accept(s.run.state, StartStep, s.run.spec, None);
            var recovered := Finish(b, PerformAll(b, RunFor(b, s, PatchLoad, choice, n).shared, reconciles), RecLoad, last);
            && over.IsTerminal() && over == C.Accept(over, Interrupt, s.run.spec, None)
            && Finish(b, s, PatchLoad, choice).run.state == over && recovered.run.state == over
  {
    StoredIsConsistent(s.run);
    hide R.RunInv, RunFor, PerformAll, C.Accept, Stepper, Exec;
    ExhaustedByStart(s.run.state, s.run.spec);
    PatchStarts(b, s, choice, n);
    var over := C.Accept(s.run.state, StartStep, s.run.spec, None);
    var run' := Exec(s.run, Commit(StartStep, s.run.state.revision, None, 0.0));
    var s', pc' := s.(run := run'), PatchLaunch(run'.state);
    Lasts(b, s', pc', choice, n - 2, s.run.spec, over);
    Lasts(b, s', pc', choice, StepsLeft(pc'), s.run.spec, over);
    var stopped := RunFor(b, s, PatchLoad, choice, n).shared;
    PerformingLasts(b, stopped, reconciles, s.run.spec, over);
    Lasts(b, PerformAll(b, stopped, reconciles), RecLoad, last, StepsLeft(RecLoad), s.run.spec, over);
  }

  lemma ExhaustedByStart(s: RunState, spec: RunSpec)
    requires Consistent(spec, s) && s.runSpecHash == SpecIdentity(spec) && s.status.Ready? && spec.maxCostUsd == 0.0
    ensures var over := C.Accept(s, StartStep, spec, None); over.IsTerminal() && over == C.Accept(over, Interrupt, spec, None)
  {
  }

  // ----- in general -----

  /**
   * Crash equivalence of patch, when operations follow one another. It stops after any number of steps;
   * any number of reconciles stop too; then one reconcile completes. The run is as it was if the patch
   * stopped before its start, and else ends in the state of the uninterrupted patch if its receipt is
   * stored, and as interrupted otherwise, revision included; and reconciling again changes nothing, files
   * included.
   */
  lemma PatchCrashEquivalence(b: Sandbox.Baseline, spec: RunSpec, created: nat, ops: seq<Operation>,
                              choice: Choice, n: nat, reconciles: seq<Operation>, last: Choice)
    requires Phase4Spec(spec)
    requires Drive(b, spec, created, ops).run.state.status.Ready? && OnlyReconciles(reconciles)
    ensures var s := Drive(b, spec, created, ops);
            var stopped := RunFor(b, s, PatchLoad, choice, n).shared;
            var recovered := Finish(b, PerformAll(b, stopped, reconciles), RecLoad, last);
            && recovered.run.state ==
               (if n < 2 then s.run.state
                else if |stopped.run.receipts| > |s.run.receipts| then Finish(b, s, PatchLoad, choice).run.state
                else C.Accept(C.Accept(s.run.state, StartStep, spec, None), Interrupt, spec, None))
            && !InFlight(recovered.run.state)
            && Finish(b, recovered, RecLoad, last) == recovered
  {
    hide Phase4Spec, Drive, AtRest, RunFor, PerformAll, Finish, C.Settled, C.Accept, OnlyReconciles, SharedInv, R.RunInv;
    var s := Drive(b, spec, created, ops);
    var stopped := RunFor(b, s, PatchLoad, choice, n).shared;
    DriveKeepsSpec(b, spec, created, ops);
    CostIsNotNegative(spec);
    if n < 2 {
      BeforeStart(b, s, choice, n);
      IdleReconciles(b, s, reconciles);
      ReconcileIsIdempotent(b, s, last);
    } else if spec.maxCostUsd > 0.0 {
      DriveAtRest(b, spec, created, ops);
      StoppedPatchSettles(b, s, choice, n);
      ReceiptsCount(b, s);
      ReceiptsCount(b, stopped);
      ReconcilingSettles(b, stopped, reconciles, last);
    } else {
      DriveIsSound(b, spec, created, ops);
      ExhaustedPatchIsOver(b, s, choice, n, reconciles, last);
      ReconcileIsIdempotent(b, Finish(b, PerformAll(b, stopped, reconciles), RecLoad, last), last);
    }
  }

  lemma CostIsNotNegative(spec: RunSpec)
    requires Phase4Spec(spec)
    ensures spec.maxCostUsd >= 0.0
  {
  }
}

/** A supervise that stops between two store calls, under the exclusive driver, and the reconciles after it. */
module SuperviseRecovery {
  import opened Wrappers
  import opened Contracts
  import opened StateMachine
  import opened RunHistory
  import opened Ledger
  import opened LogReplay
  import opened Actors
  import opened Iteration
  import opened RunInvariants
  import opened ExclusiveDriver
  import opened CrashRecovery

  /** Program points of a started supervision at which its advice is not stored. */
  predicate Unadvised(pc: Pc) {
    pc.SupLaunch? || pc.SupFail? || pc.SupNoteFail? || pc.SupRecord?
  }

  /** Program points at which a supervise has committed nothing; all but the first ones found no advice. */
  predicate Before(pc: Pc, advised: bool) {
    || pc.SupLoad? || pc.SupAdvice? || pc.Done?
    || (pc.SupComplete? && advised)
    || ((pc.SupMemory? || pc.SupStart? || (InRefresh(pc) && pc.task.supervise.Some?)) && !advised)
  }

  // ----- before the first commit -----

  lemma BeforeContinues(table: ScoreTable, r: Run, pc: Pc, child: Child)
    requires Before(pc, r.advice != []) && !pc.SupComplete? && !pc.SupStart?
    ensures Before(Continue(table, r, pc, child), r.advice != [])
  {
    hide ContinueStep, ContinueOther;
    if pc.Done? {
      assert Continue(table, r, pc, child) == ContinueOther(r, pc);
      DoneContinues(r);
    }
  }

  lemma DoneContinues(r: Run)
    ensures ContinueOther(r, Done).Done?
  {
  }

  lemma BeforeOp(pc: Pc, advised: bool)
    requires Before(pc, advised) && !pc.SupComplete? && !pc.SupStart?
    ensures OpOf(pc).Read? || OpOf(pc).Save?
  {
  }

  lemma TablesOnly(r: Run, op: Op)
    requires op.Read? || op.Save?
    ensures Exec(r, op).state == r.state && Exec(r, op).advice == r.advice
  {
  }

  /** Reads and saves go on without a commit. */
  lemma BeforeStep(table: ScoreTable, r: Run, pc: Pc, child: Child)
    requires Before(pc, r.advice != []) && !pc.SupComplete? && !pc.SupStart?
    ensures var (r', pc') := Next(table, r, pc, child); r'.state == r.state && r'.advice == r.advice && Before(pc', r'.advice != [])
  {
    hide OpOf, Continue;
    BeforeOp(pc, r.advice != []);
    TablesOnly(r, OpOf(pc));
    BeforeContinues(table, Exec(r, OpOf(pc)), pc, child);
  }

  /** Where a run settles whose supervision has started and has brought no advice. */
  function Unsupervised(spec: RunSpec, s: RunState): RunState {
    Accept(Accept(s, StartSupervisor, spec, None), SupervisorFailed, spec, None)
  }

  lemma StartsSupervision(table: ScoreTable, r: Run, pc: Pc, child: Child)
    requires RunInv(r) && pc.SupStart? && pc.st == r.state && r.state.status.SupervisionRequired?
    ensures var (r', pc') := Next(table, r, pc, child);
            && r'.state.revision == r.state.revision + 1 && r'.advice == r.advice && r'.spec == r.spec
            && pc'.SupLaunch? && (r.advice == [] ==> Settled(r') == Unsupervised(r.spec, r.state))
  {
    CommitAccepted(r, StartSupervisor, None);
  }

  lemma CompletesInstead(table: ScoreTable, r: Run, pc: Pc, child: Child)
    requires RunInv(r) && pc.SupComplete? && pc.st == r.state && r.state.status.SupervisionRequired?
    ensures var (r', pc') := Next(table, r, pc, child);
            r'.state.revision == r.state.revision + 1 && r'.advice == r.advice && Recovering(pc')
  {
    CommitAccepted(r, Complete, None);
  }

  // ----- after it -----

  lemma UnadvisedOp(r: Run, pc: Pc)
    requires ExPc(r, pc) && Unadvised(pc) && !pc.SupRecord? && r.advice == []
    ensures RecoveryOp(r, OpOf(pc))
  {
  }

  lemma UnadvisedContinues(table: ScoreTable, r: Run, pc: Pc, child: Child)
    requires Unadvised(pc)
    ensures var pc' := Continue(table, r, pc, child); Unadvised(pc') || Recovering(pc')
    ensures pc.SupRecord? ==> Continue(table, r, pc, child).SupApply?
  {
    assert Continue(table, r, pc, child) == ContinueSupervise(r, pc, child);
  }

  lemma RecoveryKeepsAdvice(r: Run, op: Op)
    requires RecoveryOp(r, op)
    ensures Exec(r, op).advice == r.advice
    ensures Exec(r, op).state.revision >= r.state.revision
  {
    if op.Commit? && Try(r, op).Ok? {
      TransitionAdvances(r.state, op.event, r.spec, op.candidate, op.cost);
    }
  }

  lemma UnadvisedStep(table: ScoreTable, r: Run, pc: Pc, child: Child)
    requires Alone(r, pc) && Unadvised(pc) && !pc.SupRecord? && r.advice == []
    ensures var (r', pc') := Next(table, r, pc, child);
            && Settled(r') == Settled(r) && r'.advice == [] && r'.state.revision >= r.state.revision
            && (Unadvised(pc') || Recovering(pc') || pc'.Done?)
  {
    hide OpOf, Continue, ExPc, PcInv, RunInv, ExInv, RecoveryOp, Settled, Unadvised, Recovering;
    UnadvisedOp(r, pc);
    RecoveryOpSettles(r, OpOf(pc));
    RecoveryKeepsAdvice(r, OpOf(pc));
    UnadvisedContinues(table, Exec(r, OpOf(pc)), pc, child);
  }

  lemma AdviceRecorded(table: ScoreTable, r: Run, pc: Pc, child: Child)
    requires pc.SupRecord?
    ensures var (r', pc') := Next(table, r, pc, child);
            && r'.state == r.state
            && (if Try(r, OpOf(pc)).Ok? then r'.advice != [] && pc'.SupApply? else r' == r && pc'.Done?)
  {
    UnadvisedContinues(table, Exec(r, OpOf(pc)), pc, child);
  }

  /**
   * x lies on the path of a supervise of a run in state s that would finish in `end`: nothing is
   * committed, or else it settles as `end` once there is advice and as unsupervised before.
   */
  ghost predicate OnSupervision(table: ScoreTable, child: Child, x: Config, end: Run, spec: RunSpec, s: RunState) {
    && Alone(x.run, x.pc) && x.run.spec == spec && s.revision <= x.run.state.revision
    && Finish(table, x.run, x.pc, child) == end
    && if x.run.state.revision == s.revision then x.run.state == s && Before(x.pc, x.run.advice != [])
       else if x.run.advice != [] then RecoversTo(x, end.state, |x.run.evaluations|)
       else Settled(x.run) == Unsupervised(spec, s) && (Unadvised(x.pc) || Recovering(x.pc) || x.pc.Done?)
  }

  ghost function SupervisionAt(table: ScoreTable, child: Child, end: Run, spec: RunSpec, s: RunState): Config -> bool {
    (x: Config) => OnSupervision(table, child, x, end, spec, s)
  }

  /** Once an operation is recovering it recovers towards its own end. */
  lemma RecoversToOwnEnd(table: ScoreTable, child: Child, y: Config)
    requires Alone(y.run, y.pc) && Recovering(y.pc)
    ensures RecoversTo(y, Finish(table, y.run, y.pc, child).state, |y.run.evaluations|)
  {
    RecoveryKeepsSettled(table, y.run, y.pc, child, 0);
    RecoveryFinishes(table, y.run, y.pc, child);
  }

  lemma SupervisionStarts(table: ScoreTable, child: Child, x: Config, end: Run, spec: RunSpec, s: RunState)
    requires OnSupervision(table, child, x, end, spec, s) && x.run.state.revision == s.revision && s.status.SupervisionRequired?
    requires !x.pc.Done? && Alone(Stepper(table, child)(x).run, Stepper(table, child)(x).pc)
    requires Stepper(table, child)(x).run.spec == spec
    requires Finish(table, Stepper(table, child)(x).run, Stepper(table, child)(x).pc, child) == end
    ensures OnSupervision(table, child, Stepper(table, child)(x), end, spec, s)
  {
    hide Continue, OpOf, Try, RunInv, ExInv, Finish, RecoversTo, Settled, Unsupervised;
    var y := Stepper(table, child)(x);
    if x.pc.SupStart? {
      StartsSupervision(table, x.run, x.pc, child);
    } else if x.pc.SupComplete? {
      CompletesInstead(table, x.run, x.pc, child);
      RecoversToOwnEnd(table, child, y);
    } else {
      BeforeStep(table, x.run, x.pc, child);
    }
  }

  lemma RecoveringStaysAdvised(table: ScoreTable, r: Run, pc: Pc, child: Child)
    requires Alone(r, pc) && Recovering(pc)
    ensures var (r', pc') := Next(table, r, pc, child); r'.advice == r.advice && r'.state.revision >= r.state.revision
  {
    hide OpOf, Continue, ExPc, PcInv, RunInv, ExInv, RecoveryOp, Recovering;
    RecoveringOp(r, pc);
    RecoveryKeepsAdvice(r, OpOf(pc));
  }

  lemma SupervisionGoesOn(table: ScoreTable, child: Child, x: Config, end: Run, spec: RunSpec, s: RunState)
    requires OnSupervision(table, child, x, end, spec, s) && x.run.state.revision > s.revision
    requires !x.pc.Done? && Alone(Stepper(table, child)(x).run, Stepper(table, child)(x).pc)
    requires Stepper(table, child)(x).run.spec == spec
    requires Finish(table, Stepper(table, child)(x).run, Stepper(table, child)(x).pc, child) == end
    ensures OnSupervision(table, child, Stepper(table, child)(x), end, spec, s)
  {
    hide Continue, OpOf, Try, RunInv, ExInv, ExPc, PcInv, Finish, Settled, Unsupervised, Recovering;
    var y := Stepper(table, child)(x);
    if Recovering(x.pc) {
      RecoveringStaysAdvised(table, x.run, x.pc, child);
      RecoveryStep(table, x.run, x.pc, child);
    } else if x.pc.SupRecord? {
      AdviceRecorded(table, x.run, x.pc, child);
      AppliesRecovering(y.pc);
      if y.pc.SupApply? { RecoversToOwnEnd(table, child, y); }
    } else {
      UnadvisedStep(table, x.run, x.pc, child);
    }
  }

  lemma AppliesRecovering(pc: Pc)
    ensures pc.SupApply? ==> Recovering(pc)
  {
  }

  lemma NextKeepsSpec(table: ScoreTable, r: Run, pc: Pc, child: Child)
    ensures Next(table, r, pc, child).0.spec == r.spec
  {
  }

  lemma SupervisionNext(table: ScoreTable, child: Child, x: Config, end: Run, spec: RunSpec, s: RunState)
    requires OnSupervision(table, child, x, end, spec, s) && s.status.SupervisionRequired?
    ensures OnSupervision(table, child, Stepper(table, child)(x), end, spec, s)
  {
    hide OnSupervision, Alone, Finish;
    SupervisionAlone(table, child, x, end, spec, s);
    if x.pc.Done? {
      DoneStays(table, x.run, child);
      assert Stepper(table, child)(x) == x;
    } else {
      AloneNext(table, x.run, x.pc, child);
      FinishAfterStep(table, child, x);
      NextKeepsSpec(table, x.run, x.pc, child);
      if x.run.state.revision == s.revision {
        SupervisionStarts(table, child, x, end, spec, s);
      } else {
        SupervisionGoesOn(table, child, x, end, spec, s);
      }
    }
  }

  lemma SupervisionAlone(table: ScoreTable, child: Child, x: Config, end: Run, spec: RunSpec, s: RunState)
    requires OnSupervision(table, child, x, end, spec, s)
    ensures Alone(x.run, x.pc) && x.run.spec == spec && s.revision <= x.run.state.revision
    ensures Finish(table, x.run, x.pc, child) == end
  {
  }

  lemma SupervisionKept(table: ScoreTable, child: Child, end: Run, spec: RunSpec, s: RunState)
    requires s.status.SupervisionRequired?
    ensures Kept(Stepper(table, child), SupervisionAt(table, child, end, spec, s))
  {
    hide OnSupervision, Stepper;
    var inv := SupervisionAt(table, child, end, spec, s);
    forall x: Config | inv(x) ensures inv(Stepper(table, child)(x)) {
      SupervisionNext(table, child, x, end, spec, s);
    }
  }

  /** Where a supervise settles that stops after any number of calls. */
  lemma StoppedSupervisionSettles(table: ScoreTable, r: Run, child: Child, n: nat)
    requires AtRest(r) && r.state.status.SupervisionRequired?
    ensures var stopped := RunFor(table, r, SupLoad, child, n).run;
            && AtRest(stopped)
            && Settled(stopped) ==
               if stopped.state.revision == r.state.revision then r.state
               else if stopped.advice != [] then Finish(table, r, SupLoad, child).state
               else Unsupervised(r.spec, r.state)
  {
    var x, end := Config(r, SupLoad), Finish(table, r, SupLoad, child);
    var inv := SupervisionAt(table, child, end, r.spec, r.state);
    SupervisionKept(table, child, end, r.spec, r.state);
    assert inv(x);
    IterateKeeps(Stepper(table, child), inv, x, n);
    assert inv(RunFor(table, r, SupLoad, child, n));
  }

  /** Only a run with something to spend comes to need a supervision. */
  lemma SupervisionHasBudget(r: Run)
    requires RunInv(r) && r.state.status.SupervisionRequired?
    ensures r.spec.maxCostUsd > 0.0
  {
    StoredRunIsConsistent(r);
    StagnationWithinAttempts(History(r.log));
  }

  /**
   * Crash equivalence of supervise. It stops after any number of store calls, any number of reconciles
   * stop too, then one reconcile completes. The run is as it was if nothing had been committed; it ends
   * in the state of the uninterrupted supervise if advice is stored, and in that of a failed supervisor
   * otherwise; and reconciling again changes nothing.
   */
  lemma SuperviseCrashEquivalence(table: ScoreTable, spec: RunSpec, created: nat, ops: seq<Operation>,
                                  child: Child, n: nat, reconciles: seq<Operation>, last: Child)
    requires spec.WithinBounds()
    requires Drive(table, spec, created, ops).state.status.SupervisionRequired? && OnlyReconciles(reconciles)
    ensures var r := Drive(table, spec, created, ops);
            var stopped := RunFor(table, r, SupLoad, child, n).run;
            var recovered := Finish(table, PerformAll(table, stopped, reconciles), RecLoad, last);
            && recovered.state ==
               (if stopped.state.revision == r.state.revision then r.state
                else if stopped.advice != [] then Finish(table, r, SupLoad, child).state
                else Accept(Accept(r.state, StartSupervisor, spec, None), SupervisorFailed, spec, None))
            && !Active(recovered.state)
            && Finish(table, recovered, RecLoad, last) == recovered
  {
    hide RunFor, Drive, PerformAll, Finish, RunInv, ExInv, Accept;
    var r := Drive(table, spec, created, ops);
    DriveInformed(table, spec, created, ops);
    DriveKeepsSpec(table, spec, created, ops);
    SupervisionHasBudget(r);
    DriveAtRest(table, spec, created, ops);
    StoppedSupervisionSettles(table, r, child, n);
    ReconcilingSettles(table, RunFor(table, r, SupLoad, child, n).run, reconciles, last);
  }
}

/**
 * The exclusive driver: operations follow one another, and any of them may stop
 * between two store calls. What is recorded is applied exactly once, and a
 * reconcile brings a stopped step to where the step itself would have gone.
 */
module ExclusiveDriver {
  import opened Wrappers
  import opened Contracts
  import opened StateMachine
  import opened RunHistory
  import opened Ledger
  import opened LogReplay
  import opened Actors
  import opened RunInvariants

  /** One operation, stopped after at most `steps` store calls. */
  datatype Operation = Operation(entry: Pc, child: Child, steps: nat)

  function Perform(table: ScoreTable, r: Run, op: Operation): Run {
    if IsEntry(op.entry) then RunFor(table, r, op.entry, op.child, op.steps).run else r
  }

  function PerformAll(table: ScoreTable, r: Run, ops: seq<Operation>): Run {
    if ops == [] then r else Perform(table, PerformAll(table, r, ops[..|ops| - 1]), ops[|ops| - 1])
  }

  /** A run created (perhaps only partly) and then driven exclusively. */
  function Drive(table: ScoreTable, spec: RunSpec, created: nat, ops: seq<Operation>): Run {
    PerformAll(table, RunFor(table, Create(spec), NewApprove, LaunchError, created).run, ops)
  }

  // ----- what holds between operations, and within one -----

  function Surplus(r: Run): int {
    |r.evaluations| - Applied(r.log)
  }

  predicate Active(s: RunState) {
    InFlight(s) || s.status.Supervising?
  }

  /** The entries of the log that applied an evaluation, oldest first. */
  function AppliedEntries(log: seq<Entry>): seq<Entry> {
    if log == [] then []
    else
      var rest := AppliedEntries(log[..|log| - 1]);
      if IsEvaluationEvent(log[|log| - 1].event) then rest + [log[|log| - 1]] else rest
  }

  /** The i-th applied entry carries the verdict and the candidate of the i-th recorded pair. */
  ghost predicate Matched(r: Run) {
    && |AppliedEntries(r.log)| <= |r.evaluations| == |r.candidates|
    && forall i :: 0 <= i < |AppliedEntries(r.log)| ==> Carries(AppliedEntries(r.log)[i], r.candidates[i], r.evaluations[i])
  }

  predicate Carries(entry: Entry, c: Candidate, e: Evaluation) {
    entry.event == EvaluationEvent(e) && entry.payload == Change(Credit(c, e), 0.0)
  }

  ghost predicate ExInv(r: Run) {
    && r.spec.maxCostUsd > 0.0
    && Surplus(r) <= 1 && (!InFlight(r.state) ==> Surplus(r) == 0)
    && Matched(r)
  }

  predicate Latest(r: Run, c: Candidate, e: Evaluation) {
    && r.candidates != [] && c == r.candidates[|r.candidates| - 1]
    && r.evaluations != [] && e == r.evaluations[|r.evaluations| - 1]
  }

  /** Without interference an operation's local variables are the stored ones. */
  ghost predicate ExPc(r: Run, pc: Pc) {
    match pc
    case NewApprove => r.state.status.Created? && r.state.revision == 0
    case StepStart(st) => st == r.state
    case StepLaunch(st) => st == r.state && st.status.Running? && Surplus(r) == 0
    case StepLaunchError(st) => st == r.state && st.status.Running? && Surplus(r) == 0
    case StepNoteResult(st, _) => st == r.state && st.status.Running? && Surplus(r) == 0
    case StepChildFailed(st, _) => st == r.state && st.status.Running? && Surplus(r) == 0
    case StepLineage(st, _, _) => st == r.state && st.status.Running? && Surplus(r) == 0
    case StepRecord(st, _, _) => st == r.state && st.status.Running? && Surplus(r) == 0
    case StepReady(st, c, e) => st == r.state && st.status.Running? && Surplus(r) == 1 && Latest(r, c, e)
    case StepApply(st, c, e) => st == r.state && st.status.Evaluating? && Surplus(r) == 1 && Latest(r, c, e)
    case StepNoteLaunchError => !Active(r.state)
    case MemRun(t) => ExTask(r, t)
    case MemPrevious(t, _) => ExTask(r, t)
    case MemLineage(t, _, _) => ExTask(r, t)
    case MemAdvice(t, _, _, _, _) => ExTask(r, t)
    case MemSave(t, _) => ExTask(r, t)
    case SupAdvice(st) => st == r.state && !Active(st)
    case SupComplete(st) => st == r.state && !Active(st)
    case SupMemory(st) => st == r.state && !Active(st)
    case SupStart(st, _) => st == r.state && !Active(st)
    case SupLaunch(st, _) => st == r.state && st.status.Supervising?
    case SupFail(st, _) => st == r.state && st.status.Supervising?
    case SupRecord(st, _, _) => st == r.state && st.status.Supervising?
    case SupApply(st, _, _) => st == r.state && st.status.Supervising?
    case SupNoteFail(_) => !Active(r.state)
    case SupNoteResult(_, _) => !Active(r.state)
    case RecAdvice(st) => st == r.state && st.status.Supervising?
    case RecReplayAdvice(st, _) => st == r.state && st.status.Supervising? && r.advice != []
    case RecFailSup(st) => st == r.state && st.status.Supervising? && r.advice == []
    case RecLineage(st) => st == r.state && InFlight(st)
    case RecEvents(st, cs, es) => st == r.state && InFlight(st) && cs == r.candidates && es == r.evaluations
    case RecReady(st, c, e) => st == r.state && st.status.Running? && Surplus(r) == 1 && Latest(r, c, e)
    case RecApply(st, c, e) => st == r.state && st.status.Evaluating? && Surplus(r) == 1 && Latest(r, c, e)
    case RecMiss(st) => st == r.state && st.status.Running? && Surplus(r) == 0
    case RecNoteMissingSup => !Active(r.state)
    case RecNoteMiss(_) => !Active(r.state)
    case CanCommit(st) => st == r.state && !InFlight(st)
    case _ => true
  }

  ghost predicate ExTask(r: Run, t: Task) {
    !Active(r.state) && (t.supervise.Some? ==> t.supervise.value == r.state)
  }

  // ----- one step -----

  lemma AppliedEntriesAppend(log: seq<Entry>, e: Entry)
    ensures AppliedEntries(log + [e]) == AppliedEntries(log) + if IsEvaluationEvent(e.event) then [e] else []
  {
    assert (log + [e])[..|log|] == log;
  }

  lemma {:induction false} AppliedEntriesCount(log: seq<Entry>)
    ensures |AppliedEntries(log)| == Applied(log)
  {
    if log != [] { AppliedEntriesCount(log[..|log| - 1]); }
  }

  /** A transition with the current revision that the status allows is accepted. */
  lemma CommitAccepted(r: Run, event: EventName, candidate: Option<Digest>)
    requires RunInv(r) && event in Allowed(r.state.status)
    requires !event.Resume? && (event.EvaluationEligible? ==> candidate.Some?)
    ensures var t := ApplyTransition(r.state, event, r.spec, candidate, 0.0);
            && t.Ok?
            && Try(r, Commit(event, r.state.revision, candidate, 0.0))
               == Ok(r.(state := t.value, log := r.log + [EntryOf(event, t.value, Change(candidate, 0.0))]))
  {
    StoredRunIsConsistent(r);
  }

  /** Transitions that close nothing keep the evidence as it is. */
  lemma PlainCommitKeeps(r: Run, r': Run, event: EventName, candidate: Option<Digest>)
    requires ExInv(r) && !IsEvaluationEvent(event)
    requires r' == r.(state := r'.state, log := r.log + [EntryOf(event, r'.state, Change(candidate, 0.0))])
    ensures Matched(r') && Surplus(r') == Surplus(r)
  {
    AppliedEntriesAppend(r.log, r'.log[|r.log|]);
    AppliedAppend(r.log, r'.log[|r.log|]);
  }

  /** Applying the latest recorded pair matches it to the entry written. */
  lemma ApplyKeeps(r: Run, r': Run, c: Candidate, e: Evaluation)
    requires ExInv(r) && Surplus(r) == 1 && Latest(r, c, e)
    requires r' == r.(state := r'.state, log := r.log + [EntryOf(EvaluationEvent(e), r'.state, Change(Credit(c, e), 0.0))])
    ensures Matched(r') && Surplus(r') == 0
  {
    AppliedEntriesAppend(r.log, r'.log[|r.log|]);
    AppliedAppend(r.log, r'.log[|r.log|]);
    AppliedEntriesCount(r.log);
  }

  lemma NoteKeepsMatch(r: Run, event: EventName, payload: Payload)
    requires ExInv(r) && !IsEvaluationEvent(event)
    ensures ExInv(Observe(r, event, payload)) && Surplus(Observe(r, event, payload)) == Surplus(r)
  {
    AppliedEntriesAppend(r.log, EntryOf(event, r.state, payload));
    AppliedAppend(r.log, EntryOf(event, r.state, payload));
  }

  lemma AttemptKeeps(r: Run, c: Candidate, e: Evaluation)
    requires RunInv(r) && ExInv(r) && Surplus(r) == 0 && InFlight(r.state) && RecordAttempt(r, c, e).Ok?
    ensures var r' := RecordAttempt(r, c, e).value; ExInv(r') && Surplus(r') == 1 && Latest(r', c, e)
  {
    AppliedEntriesCount(r.log);
  }

  lemma StatusAfter(s: RunState, event: EventName, spec: RunSpec, candidate: Option<Digest>, cost: real)
    requires Consistent(spec, s) && spec.WithinBounds() && spec.maxCostUsd > 0.0
    requires ApplyTransition(s, event, spec, candidate, cost).Ok?
    ensures var s' := ApplyTransition(s, event, spec, candidate, cost).value;
            && (event.StartStep? ==> s'.status.Running?)
            && (event.CandidateReady? ==> s'.status.Evaluating?)
            && (event.StartSupervisor? ==> s'.status.Supervising?)
            && (!event.StartStep? && !event.CandidateReady? && !event.StartSupervisor? ==> !Active(s'))
            && (InFlight(s) ==> Closing(event) || event.CandidateReady? || event.Cancel?)
  {
  }

  lemma Committed(r: Run, r': Run, event: EventName)
    requires RunInv(r) && ExInv(r) && !IsEvaluationEvent(event)
    requires Try(r, Commit(event, r.state.revision, None, 0.0)) == Ok(r')
    requires Surplus(r) == 1 ==> event.CandidateReady?
    ensures ExInv(r') && Surplus(r') == Surplus(r)
    ensures event.StartStep? ==> r'.state.status.Running?
    ensures event.CandidateReady? ==> r'.state.status.Evaluating?
    ensures event.StartSupervisor? ==> r'.state.status.Supervising?
    ensures !event.StartStep? && !event.CandidateReady? && !event.StartSupervisor? ==> !Active(r'.state)
  {
    StoredRunIsConsistent(r);
    StatusAfter(r.state, event, r.spec, None, 0.0);
    PlainCommitKeeps(r, r', event, None);
  }

  lemma CommittedVerdict(r: Run, r': Run, c: Candidate, e: Evaluation)
    requires RunInv(r) && ExInv(r) && Surplus(r) == 1 && Latest(r, c, e)
    requires Try(r, Commit(EvaluationEvent(e), r.state.revision, Credit(c, e), 0.0)) == Ok(r')
    ensures ExInv(r') && !Active(r'.state)
  {
    StoredRunIsConsistent(r);
    StatusAfter(r.state, EvaluationEvent(e), r.spec, Credit(c, e), 0.0);
    ApplyKeeps(r, r', c, e);
  }

  /** What an operation that runs alone asks of the store. */
  ghost predicate AloneOp(r: Run, op: Op) {
    match op
    case Commit(event, expected, candidate, cost) =>
      && expected == r.state.revision && cost == 0.0
      && if IsEvaluationEvent(event) then Surplus(r) == 1 && Verdict(r, event, candidate)
         else candidate == None && (Surplus(r) == 1 && event in Allowed(r.state.status) ==> event.CandidateReady?)
    case Note(event, _) => !IsEvaluationEvent(event)
    case Attempt(_, _) => Surplus(r) == 0 && InFlight(r.state)
    case SandboxAttempt(_, _, _) => false
    case _ => true
  }

  /** event and candidate are the verdict on the latest recorded pair. */
  ghost predicate Verdict(r: Run, event: EventName, candidate: Option<Digest>) {
    && r.candidates != [] && r.evaluations != []
    && event == EvaluationEvent(r.evaluations[|r.evaluations| - 1])
    && candidate == Credit(r.candidates[|r.candidates| - 1], r.evaluations[|r.evaluations| - 1])
  }

  /** What such a call did. */
  ghost predicate AloneDid(r: Run, op: Op, r': Run) {
    match op
    case Commit(event, _, _, _) =>
      && r'.candidates == r.candidates && r'.evaluations == r.evaluations && r'.advice == r.advice
      && (!IsEvaluationEvent(event) ==> Surplus(r') == Surplus(r))
      && (event.StartStep? ==> r'.state.status.Running? && Surplus(r') == 0)
      && (event.CandidateReady? ==> r'.state.status.Evaluating?)
      && (event.StartSupervisor? ==> r'.state.status.Supervising?)
      && (!event.StartStep? && !event.CandidateReady? && !event.StartSupervisor? ==> !Active(r'.state))
    case Attempt(c, e) => r'.state == r.state && Surplus(r') == 1 && Latest(r', c, e)
    case _ =>
      && r'.state == r.state && Surplus(r') == Surplus(r)
      && r'.candidates == r.candidates && r'.evaluations == r.evaluations
      && (!op.Advise? ==> r'.advice == r.advice)
  }

  lemma AloneOpOf(r: Run, pc: Pc)
    requires ExInv(r) && ExPc(r, pc) && PcInv(r, pc)
    ensures AloneOp(r, OpOf(pc))
  {
    if InStep(pc) {
      AloneStepOp(r, pc);
    } else if InSupervise(pc) {
      AloneSuperviseOp(r, pc);
    } else {
      AloneOtherOp(r, pc);
    }
  }

  lemma AloneStepOp(r: Run, pc: Pc)
    requires ExInv(r) && ExPc(r, pc) && InStep(pc)
    ensures AloneOp(r, OpOf(pc))
  {
  }

  lemma AloneSuperviseOp(r: Run, pc: Pc)
    requires ExInv(r) && ExPc(r, pc) && InSupervise(pc)
    ensures AloneOp(r, OpOf(pc))
  {
  }

  lemma AloneOtherOp(r: Run, pc: Pc)
    requires ExInv(r) && ExPc(r, pc) && PcInv(r, pc) && !InStep(pc) && !InSupervise(pc)
    ensures AloneOp(r, OpOf(pc))
  {
  }

  lemma AloneOpKeeps(r: Run, op: Op, r': Run)
    requires RunInv(r) && ExInv(r) && AloneOp(r, op) && Try(r, op) == Ok(r')
    ensures ExInv(r') && AloneDid(r, op, r')
  {
    match op
    case Commit(event, _, candidate, _) =>
      if IsEvaluationEvent(event) {
        CommittedVerdict(r, r', r.candidates[|r.candidates| - 1], r.evaluations[|r.evaluations| - 1]);
      } else {
        Committed(r, r', event);
      }
    case Note(event, payload) => NoteKeepsMatch(r, event, payload);
    case Attempt(c, e) => AttemptKeeps(r, c, e);
    case _ => TableOpKeeps(r, op, r');
  }

  lemma TableOpKeeps(r: Run, op: Op, r': Run)
    requires ExInv(r) && Try(r, op) == Ok(r') && (op.Read? || op.Advise? || op.Save?)
    ensures ExInv(r') && AloneDid(r, op, r')
  {
    assert r'.log == r.log && r'.state == r.state && r'.spec == r.spec;
  }

  /** r' is the run after the call at pc, made alone, succeeded on r. */
  ghost predicate ExTook(r: Run, pc: Pc, op: Op, r': Run) {
    && op == OpOf(pc) && ExPc(r, pc) && PcInv(r, pc) && AloneDid(r, op, r')
    && 0 <= Surplus(r') <= 1
    && |r'.evaluations| == |r'.candidates|
  }

  lemma StepSynced(table: ScoreTable, r: Run, pc: Pc, op: Op, r': Run, child: Child)
    requires ExTook(r, pc, op, r') && InStep(pc)
    ensures ExPc(r', ContinueStep(table, r', pc, child))
  {
  }

  lemma RefreshSynced(r: Run, pc: Pc, op: Op, r': Run)
    requires ExTook(r, pc, op, r') && InRefresh(pc)
    ensures ExPc(r', ContinueRefresh(r', pc))
  {
    hide ExPc, PcInv, OpOf, AloneDid, ContinueRefresh, ExTask;
    RefreshIsHarmless(r, pc, op, r');
    RefreshTaskGoesOn(r, pc, r');
  }

  lemma RefreshIsHarmless(r: Run, pc: Pc, op: Op, r': Run)
    requires op == OpOf(pc) && ExPc(r, pc) && AloneDid(r, op, r') && InRefresh(pc)
    ensures ExTask(r, pc.task) && r'.state == r.state
  {
    hide OpOf, ExPc, ExTask;
    RefreshOp(pc);
    RefreshTask(r, pc);
  }

  lemma RefreshOp(pc: Pc)
    requires InRefresh(pc)
    ensures OpOf(pc).Read? || OpOf(pc).Save?
  {
  }

  lemma RefreshTask(r: Run, pc: Pc)
    requires InRefresh(pc) && ExPc(r, pc)
    ensures ExTask(r, pc.task)
  {
    hide ExTask;
  }

  lemma RefreshTaskGoesOn(r: Run, pc: Pc, r': Run)
    requires InRefresh(pc) && ExTask(r, pc.task) && r'.state == r.state
    ensures ExPc(r', ContinueRefresh(r', pc))
  {
    hide NextMemory;
  }

  lemma SuperviseSynced(r: Run, pc: Pc, op: Op, r': Run, child: Child)
    requires ExTook(r, pc, op, r') && InSupervise(pc)
    ensures ExPc(r', ContinueSupervise(r', pc, child))
  {
    if op.Read? {
      SuperviseReadSynced(r, pc, r', child);
    } else {
      SuperviseWriteSynced(r, pc, op, r', child);
    }
  }

  lemma SuperviseWriteSynced(r: Run, pc: Pc, op: Op, r': Run, child: Child)
    requires InSupervise(pc) && op == OpOf(pc) && !op.Read? && ExPc(r, pc) && AloneDid(r, op, r')
    ensures ExPc(r', ContinueSupervise(r', pc, child))
  {
  }

  lemma SuperviseReadSynced(r: Run, pc: Pc, r': Run, child: Child)
    requires InSupervise(pc) && OpOf(pc).Read? && ExPc(r, pc) && r'.state == r.state
    ensures ExPc(r', ContinueSupervise(r', pc, child))
  {
  }

  lemma OtherSynced(r: Run, pc: Pc, op: Op, r': Run)
    requires ExTook(r, pc, op, r') && !InStep(pc) && !InRefresh(pc) && !InSupervise(pc)
    requires r'.state.status.Evaluating? ==> Surplus(r') == 1
    ensures ExPc(r', ContinueOther(r', pc))
  {
    if op.Read? {
      OtherReadSynced(r, pc, r');
    } else {
      OtherWriteSynced(r, pc, op, r');
    }
  }

  lemma OtherReadSynced(r: Run, pc: Pc, r': Run)
    requires !InStep(pc) && !InRefresh(pc) && !InSupervise(pc) && OpOf(pc).Read? && ExPc(r, pc) && AloneDid(r, Read, r')
    requires 0 <= Surplus(r') <= 1 && |r'.evaluations| == |r'.candidates|
    requires r'.state.status.Evaluating? ==> Surplus(r') == 1
    ensures ExPc(r', ContinueOther(r', pc))
  {
  }

  lemma OtherWriteSynced(r: Run, pc: Pc, op: Op, r': Run)
    requires ExTook(r, pc, op, r') && !InStep(pc) && !InRefresh(pc) && !InSupervise(pc) && !op.Read?
    ensures ExPc(r', ContinueOther(r', pc))
  {
  }

  /** Alone, an operation keeps recorded and applied evidence in step and its local state current. */
  ghost predicate Alone(r: Run, pc: Pc) {
    RunInv(r) && PcInv(r, pc) && ExInv(r) && ExPc(r, pc)
  }

  lemma AloneTook(r: Run, pc: Pc, r': Run)
    requires Alone(r, pc) && RunInv(r') && ExInv(r') && AloneDid(r, OpOf(pc), r')
    ensures ExTook(r, pc, OpOf(pc), r') && (r'.state.status.Evaluating? ==> Surplus(r') == 1)
  {
    hide ExPc, PcInv, OpOf, AloneDid;
  }

  lemma AloneContinues(table: ScoreTable, r: Run, pc: Pc, r': Run, child: Child)
    requires Alone(r, pc) && RunInv(r') && ExInv(r') && Try(r, OpOf(pc)) == Ok(r') && AloneDid(r, OpOf(pc), r')
    ensures ExPc(r', Continue(table, r', pc, child))
  {
    hide RunInv, ExInv, ExPc, PcInv, OpOf, AloneDid, ExTook, ContinueStep, ContinueRefresh, ContinueSupervise, ContinueOther;
    AloneTook(r, pc, r');
    if InStep(pc) {
      StepSynced(table, r, pc, OpOf(pc), r', child);
    } else if InRefresh(pc) {
      RefreshSynced(r, pc, OpOf(pc), r');
    } else if InSupervise(pc) {
      SuperviseSynced(r, pc, OpOf(pc), r', child);
    } else {
      OtherSynced(r, pc, OpOf(pc), r');
    }
  }

  lemma AloneNext(table: ScoreTable, r: Run, pc: Pc, child: Child)
    requires Alone(r, pc)
    ensures var (r', pc') := Next(table, r, pc, child); Alone(r', pc')
  {
    NextKeeps(table, r, pc, child);
    if Try(r, OpOf(pc)).Ok? {
      AloneOpOf(r, pc);
      AloneOpKeeps(r, OpOf(pc), Exec(r, OpOf(pc)));
      AloneContinues(table, r, pc, Exec(r, OpOf(pc)), child);
    }
  }
}

/** Crash recovery under the exclusive driver. */
module CrashRecovery {
  import opened Wrappers
  import opened Contracts
  import opened StateMachine
  import opened RunHistory
  import opened Ledger
  import opened LogReplay
  import opened Actors
  import opened Iteration
  import opened RunInvariants
  import opened ExclusiveDriver

  // ----- the invariants over whole exclusive runs -----

  ghost function AloneAt(): Config -> bool {
    (x: Config) => Alone(x.run, x.pc)
  }

  lemma AloneKept(table: ScoreTable, child: Child)
    ensures Kept(Stepper(table, child), AloneAt())
  {
    forall x: Config | AloneAt()(x) ensures AloneAt()(Stepper(table, child)(x)) {
      AloneNext(table, x.run, x.pc, child);
    }
  }

  lemma AloneRunFor(table: ScoreTable, r: Run, pc: Pc, child: Child, n: nat)
    requires Alone(r, pc)
    ensures var x := RunFor(table, r, pc, child, n); Alone(x.run, x.pc)
  {
    AloneKept(table, child);
    IterateKeeps(Stepper(table, child), AloneAt(), Config(r, pc), n);
    assert AloneAt()(RunFor(table, r, pc, child, n));
  }

  /** A run between operations. */
  ghost predicate AtRest(r: Run) {
    RunInv(r) && ExInv(r)
  }

  lemma PerformAtRest(table: ScoreTable, r: Run, op: Operation)
    requires AtRest(r)
    ensures AtRest(Perform(table, r, op))
  {
    hide RunInv, ExInv;
    if IsEntry(op.entry) {
      AloneRunFor(table, r, op.entry, op.child, op.steps);
    }
  }

  lemma {:induction false} PerformAllAtRest(table: ScoreTable, r: Run, ops: seq<Operation>)
    requires AtRest(r)
    ensures AtRest(PerformAll(table, r, ops))
  {
    if ops != [] {
      PerformAllAtRest(table, r, ops[..|ops| - 1]);
      PerformAtRest(table, PerformAll(table, r, ops[..|ops| - 1]), ops[|ops| - 1]);
    }
  }

  lemma CreatedInformed(spec: RunSpec)
    requires spec.WithinBounds()
    ensures RunInv(Create(spec)) && PcInv(Create(spec), NewApprove) && Applied(Create(spec).log) == 0
  {
    var r := Create(spec);
    CreateReplays(spec);
    AppliedAppend([], r.log[0]);
    assert [] + [r.log[0]] == r.log;
  }

  lemma CreatedAlone(spec: RunSpec)
    requires spec.WithinBounds() && spec.maxCostUsd > 0.0
    ensures Alone(Create(spec), NewApprove) && Applied(Create(spec).log) == 0
  {
    var r := Create(spec);
    CreatedInformed(spec);
    AppliedEntriesAppend([], r.log[0]);
    assert [] + [r.log[0]] == r.log;
  }

  lemma DriveAtRest(table: ScoreTable, spec: RunSpec, created: nat, ops: seq<Operation>)
    requires spec.WithinBounds() && spec.maxCostUsd > 0.0
    ensures AtRest(Drive(table, spec, created, ops))
  {
    CreatedAlone(spec);
    AloneRunFor(table, Create(spec), NewApprove, LaunchError, created);
    PerformAllAtRest(table, RunFor(table, Create(spec), NewApprove, LaunchError, created).run, ops);
  }

  /**
   * Exactly once: everything recorded is applied outside running and evaluating, at most one
   * evaluation waits inside, and the i-th applied event carries the i-th recorded verdict.
   */
  lemma ExactlyOnce(table: ScoreTable, spec: RunSpec, created: nat, ops: seq<Operation>)
    requires spec.WithinBounds() && spec.maxCostUsd > 0.0
    ensures var r := Drive(table, spec, created, ops);
            && 0 <= Surplus(r) <= (if InFlight(r.state) then 1 else 0)
            && |AppliedEntries(r.log)| == Applied(r.log)
            && Matched(r)
  {
    DriveAtRest(table, spec, created, ops);
    AppliedEntriesCount(Drive(table, spec, created, ops).log);
  }

  // ----- where a run is bound to settle -----

  function Accept(s: RunState, event: EventName, spec: RunSpec, candidate: Option<Digest>): RunState {
    match ApplyTransition(s, event, spec, candidate, 0.0)
    case Ok(s') => s'
    case Err(_) => s
  }

  function LatestVerdict(r: Run, s: RunState): RunState
    requires r.candidates != [] && r.evaluations != []
  {
    var c, e := r.candidates[|r.candidates| - 1], r.evaluations[|r.evaluations| - 1];
    Accept(s, EvaluationEvent(e), r.spec, Credit(c, e))
  }

  /** The state that durable evidence alone determines. */
  function Settled(r: Run): RunState {
    var s := r.state;
    if s.status.Supervising? then Accept(s, if r.advice != [] then SupervisorApplied else SupervisorFailed, r.spec, None)
    else if !InFlight(s) then s
    else if Surplus(r) > 0 && r.candidates != [] && r.evaluations != [] then
      LatestVerdict(r, if s.status.Running? then Accept(s, CandidateReady, r.spec, None) else s)
    else Accept(s, if s.status.Running? then Interrupt else EvaluationMissing, r.spec, None)
  }

  /** Store calls that bring a run towards its settled state. */
  ghost predicate RecoveryOp(r: Run, op: Op) {
    match op
    case Commit(event, expected, candidate, cost) =>
      && expected == r.state.revision && cost == 0.0
      && (match event
          case CandidateReady => r.state.status.Running? && Surplus(r) == 1 && candidate == None
          case Interrupt => r.state.status.Running? && Surplus(r) == 0 && candidate == None
          case ChildFailed => r.state.status.Running? && Surplus(r) == 0 && candidate == None
          case SupervisorApplied => r.state.status.Supervising? && r.advice != [] && candidate == None
          case SupervisorFailed => r.state.status.Supervising? && r.advice == [] && candidate == None
          case _ => r.state.status.Evaluating? && Surplus(r) == 1 && IsEvaluationEvent(event) && Verdict(r, event, candidate))
    case Note(event, _) => !IsEvaluationEvent(event)
    case Read => true
    case Save(_, _) => true
    case _ => false
  }

  lemma ClosingLeavesFlight(s: RunState, event: EventName, spec: RunSpec, candidate: Option<Digest>)
    requires ApplyTransition(s, event, spec, candidate, 0.0).Ok?
    requires Closing(event) || event.SupervisorApplied? || event.SupervisorFailed?
    ensures !Active(ApplyTransition(s, event, spec, candidate, 0.0).value)
  {
  }

  /** Failing and interrupting a child close the attempt in the same way. */
  lemma InterruptIsChildFailed(s: RunState, spec: RunSpec)
    ensures s.status.Running? ==> Accept(s, Interrupt, spec, None) == Accept(s, ChildFailed, spec, None)
  {
  }

  lemma RecoveryCommitSettles(r: Run, op: Op)
    requires RunInv(r) && ExInv(r) && RecoveryOp(r, op) && op.Commit?
    ensures Try(r, op).Ok? && Settled(Exec(r, op)) == Settled(r)
    ensures Exec(r, op).evaluations == r.evaluations && Exec(r, op).candidates == r.candidates
    ensures !op.event.CandidateReady? ==> !Active(Exec(r, op).state)
  {
    CommitAccepted(r, op.event, op.candidate);
    if op.event.CandidateReady? {
      ReadyingSettles(r, op);
    } else {
      ClosingLeavesFlight(r.state, op.event, r.spec, op.candidate);
      InterruptIsChildFailed(r.state, r.spec);
      ClosingSettles(r, op);
    }
  }

  lemma ReadyingSettles(r: Run, op: Op)
    requires ExInv(r) && RecoveryOp(r, op) && op.Commit? && op.event.CandidateReady? && Try(r, op).Ok?
    ensures Settled(Exec(r, op)) == Settled(r)
  {
    PlainCommitKeeps(r, Exec(r, op), CandidateReady, None);
  }

  lemma ClosingSettles(r: Run, op: Op)
    requires ExInv(r) && RecoveryOp(r, op) && op.Commit? && !op.event.CandidateReady? && Try(r, op).Ok?
    requires !Active(Exec(r, op).state)
    requires r.state.status.Running? ==> Accept(r.state, Interrupt, r.spec, None) == Accept(r.state, ChildFailed, r.spec, None)
    ensures Settled(Exec(r, op)) == Settled(r)
  {
  }

  lemma RecoveryOpSettles(r: Run, op: Op)
    requires RunInv(r) && ExInv(r) && RecoveryOp(r, op)
    ensures Settled(Exec(r, op)) == Settled(r) && |Exec(r, op).evaluations| == |r.evaluations|
    ensures op.Commit? ==> Try(r, op).Ok?
    ensures !op.Commit? ==> Exec(r, op).state == r.state
  {
    match op
    case Commit(_, _, _, _) => RecoveryCommitSettles(r, op);
    case Note(event, payload) => NoteKeepsMatch(r, event, payload);
    case _ => TableOpSettles(r, op);
  }

  lemma TableOpSettles(r: Run, op: Op)
    requires op.Read? || op.Save?
    ensures Settled(Exec(r, op)) == Settled(r) && Exec(r, op).evaluations == r.evaluations && Exec(r, op).state == r.state
  {
    assert Exec(r, op).log == r.log && Exec(r, op).advice == r.advice && Exec(r, op).candidates == r.candidates;
  }

  /** Program points from which an operation only brings the run to its settled state. */
  predicate Recovering(pc: Pc) {
    || pc.StepReady? || pc.StepApply? || pc.SupApply? || pc.SupNoteResult?
    || pc.RecLoad? || pc.RecAdvice? || pc.RecReplayAdvice? || pc.RecFailSup? || pc.RecNoteMissingSup?
    || pc.RecLineage? || pc.RecEvents? || pc.RecReady? || pc.RecApply? || pc.RecMiss? || pc.RecNoteMiss?
    || (InRefresh(pc) && pc.task.supervise.None?)
  }

  lemma RecoveringOp(r: Run, pc: Pc)
    requires ExInv(r) && ExPc(r, pc) && PcInv(r, pc) && Recovering(pc)
    ensures RecoveryOp(r, OpOf(pc))
  {
    hide RecoveryOp, OpOf, ExInv, ExPc, PcInv;
    if pc.StepReady? || pc.StepApply? || pc.SupApply? {
      RecoveringWriteOp(r, pc);
    } else if InRefresh(pc) || pc.SupNoteResult? || pc.RecLoad? || pc.RecLineage? || pc.RecEvents? || pc.RecAdvice? {
      RecoveringTableOp(r, pc);
    } else {
      RecoveringReconcileOp(r, pc);
    }
  }

  lemma RecoveringWriteOp(r: Run, pc: Pc)
    requires ExInv(r) && ExPc(r, pc) && PcInv(r, pc) && (pc.StepReady? || pc.StepApply? || pc.SupApply?)
    ensures RecoveryOp(r, OpOf(pc))
  {
  }

  lemma RecoveringTableOp(r: Run, pc: Pc)
    requires InRefresh(pc) || pc.SupNoteResult? || pc.RecLoad? || pc.RecLineage? || pc.RecEvents? || pc.RecAdvice?
    ensures RecoveryOp(r, OpOf(pc))
  {
  }

  lemma RecoveringReconcileOp(r: Run, pc: Pc)
    requires ExInv(r) && ExPc(r, pc) && PcInv(r, pc)
    requires pc.RecReplayAdvice? || pc.RecFailSup? || pc.RecNoteMissingSup? || pc.RecReady? || pc.RecApply? || pc.RecMiss? || pc.RecNoteMiss?
    ensures RecoveryOp(r, OpOf(pc))
  {
  }

  lemma RecoveringContinues(table: ScoreTable, r: Run, pc: Pc, child: Child)
    requires Recovering(pc)
    ensures var pc' := Continue(table, r, pc, child); Recovering(pc') || pc'.Done?
  {
    hide Recovering, ContinueStep, ContinueRefresh, ContinueSupervise, ContinueOther;
    if InStep(pc) {
      RecoveringStepContinues(table, r, pc, child);
    } else if InRefresh(pc) {
      RecoveringRefreshContinues(r, pc);
    } else if InSupervise(pc) {
      RecoveringSuperviseContinues(r, pc, child);
    } else {
      RecoveringReconcileContinues(r, pc);
    }
  }

  lemma RecoveringStepContinues(table: ScoreTable, r: Run, pc: Pc, child: Child)
    requires Recovering(pc) && InStep(pc)
    ensures Recovering(ContinueStep(table, r, pc, child)) && OpOf(pc).Commit?
  {
  }

  lemma RecoveringRefreshContinues(r: Run, pc: Pc)
    requires Recovering(pc) && InRefresh(pc)
    ensures Recovering(ContinueRefresh(r, pc)) || ContinueRefresh(r, pc).Done?
  {
  }

  lemma RecoveringSuperviseContinues(r: Run, pc: Pc, child: Child)
    requires Recovering(pc) && InSupervise(pc)
    ensures Recovering(ContinueSupervise(r, pc, child)) && (OpOf(pc).Commit? || OpOf(pc).Note?)
  {
  }

  lemma RecoveringReconcileContinues(r: Run, pc: Pc)
    requires Recovering(pc) && !InStep(pc) && !InRefresh(pc) && !InSupervise(pc)
    ensures Recovering(ContinueOther(r, pc)) || ContinueOther(r, pc).Done?
  {
  }

  lemma RecoveryEnds(table: ScoreTable, r: Run, pc: Pc, child: Child)
    requires Alone(r, pc) && Recovering(pc) && Next(table, r, pc, child).1.Done?
    ensures !Active(Next(table, r, pc, child).0.state)
  {
    hide PcInv, ExInv, ExPc, Recovering, Active, OpOf, Continue, Settled, RecoveryOp;
    RecoveringOp(r, pc);
    RecoveryOpSettles(r, OpOf(pc));
    if InRefresh(pc) {
      RefreshIsIdle(r, pc);
    } else if InStep(pc) || InSupervise(pc) {
      RecoveringGoesOn(table, Exec(r, OpOf(pc)), pc, child);
    } else {
      ReconcileCallsSucceed(r, pc);
      OnlyIdleReconcileEnds(table, r, pc, child);
    }
  }

  lemma RecoveringGoesOn(table: ScoreTable, r: Run, pc: Pc, child: Child)
    requires Recovering(pc) && (InStep(pc) || InSupervise(pc))
    ensures !Continue(table, r, pc, child).Done? && (OpOf(pc).Commit? || OpOf(pc).Note?)
  {
    hide ContinueStep, ContinueSupervise, OpOf;
    if InStep(pc) {
      RecoveringStepContinues(table, r, pc, child);
    } else {
      RecoveringSuperviseContinues(r, pc, child);
    }
  }

  lemma RefreshIsIdle(r: Run, pc: Pc)
    requires ExPc(r, pc) && InRefresh(pc)
    ensures !Active(r.state) && !OpOf(pc).Commit?
  {
  }

  lemma OnlyIdleReconcileEnds(table: ScoreTable, r: Run, pc: Pc, child: Child)
    requires ExPc(r, pc) && Recovering(pc) && !InStep(pc) && !InRefresh(pc) && !InSupervise(pc) && |r.candidates| == |r.evaluations|
    ensures Continue(table, Exec(r, OpOf(pc)), pc, child).Done? ==> pc.RecLoad? && !Active(r.state)
  {
    hide ContinueStep, ContinueRefresh, ContinueSupervise;
    assert Continue(table, Exec(r, OpOf(pc)), pc, child) == ContinueOther(Exec(r, OpOf(pc)), pc);
    if pc.RecLoad? || pc.RecEvents? {
      assert Exec(r, OpOf(pc)) == r;
    }
  }

  lemma ReconcileCallsSucceed(r: Run, pc: Pc)
    requires Recovering(pc) && !InStep(pc) && !InRefresh(pc) && !InSupervise(pc)
    ensures !OpOf(pc).Commit? ==> Try(r, OpOf(pc)).Ok?
    ensures pc.RecLoad? ==> OpOf(pc).Read?
  {
  }

  lemma RecoveryStep(table: ScoreTable, r: Run, pc: Pc, child: Child)
    requires Alone(r, pc) && Recovering(pc)
    ensures var (r', pc') := Next(table, r, pc, child);
            && Settled(r') == Settled(r) && |r'.evaluations| == |r.evaluations|
            && (Recovering(pc') || (pc'.Done? && !Active(r'.state)))
  {
    RecoveringOp(r, pc);
    RecoveryOpSettles(r, OpOf(pc));
    RecoveringContinues(table, Exec(r, OpOf(pc)), pc, child);
    if Next(table, r, pc, child).1.Done? {
      RecoveryEnds(table, r, pc, child);
    }
  }

  /** x is recovering towards `target`, or there. */
  ghost predicate RecoversTo(x: Config, target: RunState, evaluations: nat) {
    && Alone(x.run, x.pc)
    && (Recovering(x.pc) || (x.pc.Done? && !Active(x.run.state)))
    && Settled(x.run) == target && |x.run.evaluations| == evaluations
  }

  ghost function RecoversAt(target: RunState, evaluations: nat): Config -> bool {
    (x: Config) => RecoversTo(x, target, evaluations)
  }

  lemma RecoversNext(table: ScoreTable, child: Child, x: Config, target: RunState, evaluations: nat)
    requires RecoversTo(x, target, evaluations)
    ensures RecoversTo(Stepper(table, child)(x), target, evaluations)
  {
    if x.pc.Done? {
      DoneStays(table, x.run, child);
    } else {
      AloneNext(table, x.run, x.pc, child);
      RecoveryStep(table, x.run, x.pc, child);
    }
  }

  lemma RecoversKept(table: ScoreTable, child: Child, target: RunState, evaluations: nat)
    ensures Kept(Stepper(table, child), RecoversAt(target, evaluations))
  {
    forall x: Config | RecoversAt(target, evaluations)(x) ensures RecoversAt(target, evaluations)(Stepper(table, child)(x)) {
      RecoversNext(table, child, x, target, evaluations);
    }
  }

  /** Recovery that stops anywhere keeps the settled state. */
  lemma RecoveryKeepsSettled(table: ScoreTable, r: Run, pc: Pc, child: Child, n: nat)
    requires Alone(r, pc) && Recovering(pc)
    ensures RecoversTo(RunFor(table, r, pc, child, n), Settled(r), |r.evaluations|)
  {
    RecoversKept(table, child, Settled(r), |r.evaluations|);
    assert RecoversAt(Settled(r), |r.evaluations|)(Config(r, pc));
    IterateKeeps(Stepper(table, child), RecoversAt(Settled(r), |r.evaluations|), Config(r, pc), n);
    assert RecoversAt(Settled(r), |r.evaluations|)(RunFor(table, r, pc, child, n));
  }

  /** Recovery that runs to its end reaches the settled state, and leaves nothing active. */
  lemma RecoveryFinishes(table: ScoreTable, r: Run, pc: Pc, child: Child)
    requires Alone(r, pc) && Recovering(pc)
    ensures Finish(table, r, pc, child).state == Settled(r) && !Active(Settled(r))
  {
    RecoveryKeepsSettled(table, r, pc, child, StepsLeft(pc));
    FinishIsDone(table, r, pc, child);
  }

  lemma FinishIsDone(table: ScoreTable, r: Run, pc: Pc, child: Child)
    ensures RunFor(table, r, pc, child, StepsLeft(pc)).pc.Done?
  {
    StepperRanked(table, child);
    IterateRests(Stepper(table, child), Rank(), Config(r, pc), StepsLeft(pc));
    RankZeroIsDone(RunFor(table, r, pc, child, StepsLeft(pc)).pc);
    assert Rank()(Config(r, pc)) == StepsLeft(pc);
  }

  // ----- a step that stops anywhere -----

  /** Program points of a started step at which its attempt is not recorded. */
  predicate Unrecorded(pc: Pc) {
    pc.StepLaunch? || pc.StepLaunchError? || pc.StepNoteLaunchError? || pc.StepNoteResult? ||
    pc.StepChildFailed? || pc.StepLineage? || pc.StepRecord?
  }

  lemma UnrecordedStep(table: ScoreTable, r: Run, pc: Pc, child: Child)
    requires Alone(r, pc) && Unrecorded(pc) && !pc.StepRecord?
    ensures var (r', pc') := Next(table, r, pc, child);
            && Settled(r') == Settled(r) && |r'.evaluations| == |r.evaluations|
            && (Unrecorded(pc') || Recovering(pc') || pc'.Done?)
  {
    UnrecordedOp(r, pc);
    RecoveryOpSettles(r, OpOf(pc));
    UnrecordedContinues(table, Exec(r, OpOf(pc)), pc, child);
  }

  lemma UnrecordedOp(r: Run, pc: Pc)
    requires ExPc(r, pc) && Unrecorded(pc) && !pc.StepRecord?
    ensures RecoveryOp(r, OpOf(pc))
  {
  }

  lemma UnrecordedContinues(table: ScoreTable, r: Run, pc: Pc, child: Child)
    requires Unrecorded(pc)
    ensures var pc' := Continue(table, r, pc, child); Unrecorded(pc') || Recovering(pc') || pc'.Done?
    ensures pc.StepRecord? ==> Continue(table, r, pc, child).StepReady?
  {
    assert Continue(table, r, pc, child) == ContinueStep(table, r, pc, child);
  }

  /** x lies on the path of a started step that would finish in `end`; unrecorded it settles as `failed`. */
  ghost predicate OnPath(table: ScoreTable, child: Child, x: Config, end: Run, failed: RunState, evaluations: nat) {
    && Alone(x.run, x.pc)
    && Finish(table, x.run, x.pc, child) == end
    && if |x.run.evaluations| > evaluations then RecoversTo(x, end.state, |x.run.evaluations|)
       else |x.run.evaluations| == evaluations && Settled(x.run) == failed
            && (Unrecorded(x.pc) || Recovering(x.pc) || x.pc.Done?)
  }

  ghost function PathAt(table: ScoreTable, child: Child, end: Run, failed: RunState, evaluations: nat): Config -> bool {
    (x: Config) => OnPath(table, child, x, end, failed, evaluations)
  }

  lemma PathRecords(table: ScoreTable, child: Child, x: Config)
    requires Alone(x.run, x.pc) && x.pc.StepRecord?
    ensures var y := Stepper(table, child)(x);
            if |y.run.evaluations| > |x.run.evaluations|
            then RecoversTo(y, Finish(table, y.run, y.pc, child).state, |y.run.evaluations|)
            else y == Config(x.run, Done)
  {
    var y := Stepper(table, child)(x);
    AloneNext(table, x.run, x.pc, child);
    RecordGoesOn(table, x.run, x.pc, child);
    if Try(x.run, OpOf(x.pc)).Ok? {
      RecoveryKeepsSettled(table, y.run, y.pc, child, 0);
      RecoveryFinishes(table, y.run, y.pc, child);
    }
  }

  lemma RecordGoesOn(table: ScoreTable, r: Run, pc: Pc, child: Child)
    requires pc.StepRecord?
    ensures var y := Stepper(table, child)(Config(r, pc));
            if Try(r, OpOf(pc)).Ok? then y.pc.StepReady? && |y.run.evaluations| == |r.evaluations| + 1
            else y == Config(r, Done)
  {
    UnrecordedContinues(table, Exec(r, OpOf(pc)), pc, child);
  }

  lemma PathNext(table: ScoreTable, child: Child, x: Config, end: Run, failed: RunState, evaluations: nat)
    requires OnPath(table, child, x, end, failed, evaluations) && !x.pc.Done?
    ensures OnPath(table, child, Stepper(table, child)(x), end, failed, evaluations)
  {
    var y := Stepper(table, child)(x);
    AloneNext(table, x.run, x.pc, child);
    FinishAfterStep(table, child, x);
    if |x.run.evaluations| > evaluations {
      RecoversNext(table, child, x, end.state, |x.run.evaluations|);
    } else if Recovering(x.pc) {
      RecoveryStep(table, x.run, x.pc, child);
    } else if x.pc.StepRecord? {
      PathRecords(table, child, x);
    } else {
      UnrecordedStep(table, x.run, x.pc, child);
    }
  }

  lemma PathKept(table: ScoreTable, child: Child, end: Run, failed: RunState, evaluations: nat)
    ensures Kept(Stepper(table, child), PathAt(table, child, end, failed, evaluations))
  {
    var inv := PathAt(table, child, end, failed, evaluations);
    forall x: Config | inv(x) ensures inv(Stepper(table, child)(x)) {
      if x.pc.Done? {
        DoneStays(table, x.run, child);
        assert Stepper(table, child)(x) == x;
      } else {
        PathNext(table, child, x, end, failed, evaluations);
      }
    }
  }

  /** Stopped before its attempt was recorded, a step settles as before it; stopped after, as its end. */
  lemma StepPath(table: ScoreTable, r: Run, pc: Pc, child: Child, n: nat)
    requires Alone(r, pc) && pc.StepLaunch?
    ensures var r' := RunFor(table, r, pc, child, n).run;
            && AtRest(r')
            && Settled(r') == if |r'.evaluations| > |r.evaluations| then Finish(table, r, pc, child).state else Settled(r)
  {
    var end := Finish(table, r, pc, child);
    var inv := PathAt(table, child, end, Settled(r), |r.evaluations|);
    PathKept(table, child, end, Settled(r), |r.evaluations|);
    assert inv(Config(r, pc));
    IterateKeeps(Stepper(table, child), inv, Config(r, pc), n);
    assert inv(RunFor(table, r, pc, child, n));
  }

  predicate OnlyReconciles(ops: seq<Operation>) {
    forall op <- ops :: op.entry == RecLoad
  }

  lemma ReconcileKeepsSettled(table: ScoreTable, r: Run, child: Child, n: nat)
    requires AtRest(r)
    ensures var r' := RunFor(table, r, RecLoad, child, n).run; AtRest(r') && Settled(r') == Settled(r)
  {
    RecoveryKeepsSettled(table, r, RecLoad, child, n);
  }

  lemma {:induction false} ReconcilesKeepSettled(table: ScoreTable, r: Run, ops: seq<Operation>)
    requires AtRest(r) && OnlyReconciles(ops)
    ensures AtRest(PerformAll(table, r, ops)) && Settled(PerformAll(table, r, ops)) == Settled(r)
  {
    if ops != [] {
      var op := ops[|ops| - 1];
      ReconcilesKeepSettled(table, r, ops[..|ops| - 1]);
      assert op in ops;
      PerformedReconcile(table, PerformAll(table, r, ops[..|ops| - 1]), op);
    }
  }

  lemma PerformedReconcile(table: ScoreTable, r: Run, op: Operation)
    requires AtRest(r) && op.entry == RecLoad
    ensures AtRest(Perform(table, r, op)) && Settled(Perform(table, r, op)) == Settled(r)
  {
    ReconcileKeepsSettled(table, r, op.child, op.steps);
  }

  /** A reconcile of a settled run changes nothing at all, however far it gets. */
  lemma IdleReconcile(table: ScoreTable, r: Run, child: Child, n: nat)
    requires !Active(r.state)
    ensures RunFor(table, r, RecLoad, child, n).run == r
  {
    if n > 0 {
      assert Stepper(table, child)(Config(r, RecLoad)) == Config(r, Done);
      hide Stepper;
      StepperRanked(table, child);
      IterateStays(Stepper(table, child), Rank(), Config(r, Done), n - 1);
    }
  }

  lemma ReconcileIsIdempotent(table: ScoreTable, r: Run, child: Child)
    requires !Active(r.state)
    ensures Finish(table, r, RecLoad, child) == r
  {
    IdleReconcile(table, r, child, StepsLeft(RecLoad));
  }

  lemma {:induction false} IdleReconciles(table: ScoreTable, r: Run, ops: seq<Operation>)
    requires !Active(r.state) && OnlyReconciles(ops)
    ensures PerformAll(table, r, ops) == r
  {
    hide RunFor;
    if ops != [] {
      var before, op := ops[..|ops| - 1], ops[|ops| - 1];
      IdleReconciles(table, r, before);
      assert op in ops;
      IdleReconcile(table, r, op.child, op.steps);
    }
  }

  /** A step that stops before its second call has changed nothing. */
  lemma BeforeStart(table: ScoreTable, r: Run, child: Child, n: nat)
    requires n < 2
    ensures RunFor(table, r, StepLoad, child, n).run == r
  {
    if n == 1 {
      assert Stepper(table, child)(Config(r, StepLoad)) == Config(r, StepStart(r.state));
    }
  }

  /** The first two calls of a step on a ready run commit its start. */
  lemma StepStarts(table: ScoreTable, r: Run, child: Child, n: nat)
    requires AtRest(r) && r.state.status.Ready? && n >= 2
    ensures var r' := Exec(r, Commit(StartStep, r.state.revision, None, 0.0));
            var pc' := StepLaunch(r'.state);
            && Alone(r', pc') && r'.evaluations == r.evaluations
            && r'.state == Accept(r.state, StartStep, r.spec, None) && r'.state.status.Running?
            && RunFor(table, r, StepLoad, child, n) == RunFor(table, r', pc', child, n - 2)
            && Finish(table, r, StepLoad, child) == Finish(table, r', pc', child)
  {
    StartIsTwoCalls(table, r, child, n);
    CommitAccepted(r, StartStep, None);
    AloneNext(table, r, StepLoad, child);
    AloneNext(table, r, StepStart(r.state), child);
  }

  lemma StartIsTwoCalls(table: ScoreTable, r: Run, child: Child, n: nat)
    requires RunInv(r) && r.state.status.Ready? && n >= 2
    ensures var r' := Exec(r, Commit(StartStep, r.state.revision, None, 0.0));
            var pc' := StepLaunch(r'.state);
            && Next(table, r, StepLoad, child) == (r, StepStart(r.state))
            && Next(table, r, StepStart(r.state), child) == (r', pc')
            && r'.state == Accept(r.state, StartStep, r.spec, None) && r'.spec == r.spec && r'.evaluations == r.evaluations
            && RunFor(table, r, StepLoad, child, n) == RunFor(table, r', pc', child, n - 2)
            && Finish(table, r, StepLoad, child) == Finish(table, r', pc', child)
  {
    CommitAccepted(r, StartStep, None);
    var r' := Exec(r, Commit(StartStep, r.state.revision, None, 0.0));
    var step := Stepper(table, child);
    var x, y, z := Config(r, StepLoad), Config(r, StepStart(r.state)), Config(r', StepLaunch(r'.state));
    assert step(x) == y && step(y) == z;
    FinishAfterStep(table, child, x);
    FinishAfterStep(table, child, y);
    assert Iterate(step, x, n) == Iterate(step, y, n - 1) == Iterate(step, z, n - 2);
  }

  lemma SettledWhenStarted(r: Run)
    requires r.state.status.Running? && Surplus(r) == 0
    ensures Settled(r) == Accept(r.state, ChildFailed, r.spec, None)
  {
    InterruptIsChildFailed(r.state, r.spec);
  }

  /** Any stopped reconciles and then a complete one settle the run; one more changes nothing. */
  lemma ReconcilingSettles(table: ScoreTable, r: Run, reconciles: seq<Operation>, last: Child)
    requires AtRest(r) && OnlyReconciles(reconciles)
    ensures var recovered := Finish(table, PerformAll(table, r, reconciles), RecLoad, last);
            recovered.state == Settled(r) && !Active(recovered.state) && Finish(table, recovered, RecLoad, last) == recovered
  {
    hide RunInv, ExInv, PerformAll, Finish, Settled, Active;
    ReconcilesKeepSettled(table, r, reconciles);
    RecoveryFinishes(table, PerformAll(table, r, reconciles), RecLoad, last);
    ReconcileIsIdempotent(table, Finish(table, PerformAll(table, r, reconciles), RecLoad, last), last);
  }

  /** Where a step of a ready run settles when it stops after n store calls. */
  lemma StoppedStepSettles(table: ScoreTable, r: Run, child: Child, n: nat)
    requires AtRest(r) && r.state.status.Ready? && n >= 2
    ensures var stopped := RunFor(table, r, StepLoad, child, n).run;
            && AtRest(stopped)
            && Settled(stopped) ==
               if |stopped.evaluations| > |r.evaluations| then Finish(table, r, StepLoad, child).state
               else Accept(Accept(r.state, StartStep, r.spec, None), ChildFailed, r.spec, None)
  {
    StepStarts(table, r, child, n);
    var started := Exec(r, Commit(StartStep, r.state.revision, None, 0.0));
    StepPath(table, started, StepLaunch(started.state), child, n - 2);
    SettledWhenStarted(started);
  }

  // ----- a run with nothing to spend -----

  ghost function InformedAt(): Config -> bool {
    (x: Config) => RunInv(x.run) && PcInv(x.run, x.pc)
  }

  lemma InformedRunFor(table: ScoreTable, r: Run, pc: Pc, child: Child, n: nat)
    requires RunInv(r) && PcInv(r, pc)
    ensures RunInv(RunFor(table, r, pc, child, n).run)
  {
    forall x: Config | InformedAt()(x) ensures InformedAt()(Stepper(table, child)(x)) {
      NextKeeps(table, x.run, x.pc, child);
    }
    IterateKeeps(Stepper(table, child), InformedAt(), Config(r, pc), n);
    assert InformedAt()(RunFor(table, r, pc, child, n));
  }

  lemma {:induction false} PerformAllInformed(table: ScoreTable, r: Run, ops: seq<Operation>)
    requires RunInv(r)
    ensures RunInv(PerformAll(table, r, ops))
  {
    if ops != [] {
      var op := ops[|ops| - 1];
      PerformAllInformed(table, r, ops[..|ops| - 1]);
      if IsEntry(op.entry) {
        InformedRunFor(table, PerformAll(table, r, ops[..|ops| - 1]), op.entry, op.child, op.steps);
      }
    }
  }

  /** The run invariants hold of every driven run, whatever it may cost. */
  lemma DriveInformed(table: ScoreTable, spec: RunSpec, created: nat, ops: seq<Operation>)
    requires spec.WithinBounds()
    ensures RunInv(Drive(table, spec, created, ops))
  {
    CreatedInformed(spec);
    InformedRunFor(table, Create(spec), NewApprove, LaunchError, created);
    PerformAllInformed(table, RunFor(table, Create(spec), NewApprove, LaunchError, created).run, ops);
  }

  lemma EndedRefuses(r: Run, op: Op)
    requires r.state.IsTerminal()
    ensures Exec(r, op).state == r.state
  {
  }

  ghost function EndedIn(s: RunState): Config -> bool {
    (x: Config) => x.run.state == s
  }

  /** No operation changes the state of a run that has ended. */
  lemma EndedStays(table: ScoreTable, r: Run, pc: Pc, child: Child, n: nat)
    requires r.state.IsTerminal()
    ensures RunFor(table, r, pc, child, n).run.state == r.state
  {
    var inv := EndedIn(r.state);
    forall x: Config | inv(x) ensures inv(Stepper(table, child)(x)) {
      EndedRefuses(x.run, OpOf(x.pc));
    }
    assert inv(Config(r, pc));
    IterateKeeps(Stepper(table, child), inv, Config(r, pc), n);
    assert inv(RunFor(table, r, pc, child, n));
  }

  lemma {:induction false} EndedStaysPerforming(table: ScoreTable, r: Run, ops: seq<Operation>)
    requires r.state.IsTerminal()
    ensures PerformAll(table, r, ops).state == r.state
  {
    if ops != [] {
      var op := ops[|ops| - 1];
      EndedStaysPerforming(table, r, ops[..|ops| - 1]);
      if IsEntry(op.entry) {
        EndedStays(table, PerformAll(table, r, ops[..|ops| - 1]), op.entry, op.child, op.steps);
      }
    }
  }

  lemma ExhaustedByStart(s: RunState, spec: RunSpec)
    requires Consistent(spec, s) && s.runSpecHash == SpecIdentity(spec) && s.status.Ready? && spec.maxCostUsd == 0.0
    ensures Accept(s, StartStep, spec, None).status.BudgetExhausted?
    ensures Accept(Accept(s, StartStep, spec, None), ChildFailed, spec, None) == Accept(s, StartStep, spec, None)
  {
  }

  /** With nothing to spend the start of a step is also its end, so stopping later makes no difference. */
  lemma ExhaustedStepIsOver(table: ScoreTable, r: Run, child: Child, n: nat, reconciles: seq<Operation>, last: Child)
    requires RunInv(r) && r.state.status.Ready? && r.spec.maxCostUsd == 0.0 && n >= 2
    ensures var over := Accept(r.state, StartStep, r.spec, None);
            var recovered := Finish(table, PerformAll(table, RunFor(table, r, StepLoad, child, n).run, reconciles), RecLoad, last);
            && over.IsTerminal() && over == Accept(over, ChildFailed, r.spec, None)
            && Finish(table, r, StepLoad, child).state == over && recovered.state == over
  {
    StoredRunIsConsistent(r);
    ExhaustedByStart(r.state, r.spec);
    StartIsTwoCalls(table, r, child, n);
    var r' := Exec(r, Commit(StartStep, r.state.revision, None, 0.0));
    EndedStays(table, r', StepLaunch(r'.state), child, n - 2);
    EndedStays(table, r', StepLaunch(r'.state), child, StepsLeft(StepLaunch(r'.state)));
    var stopped := RunFor(table, r, StepLoad, child, n).run;
    EndedStaysPerforming(table, stopped, reconciles);
    EndedStays(table, PerformAll(table, stopped, reconciles), RecLoad, last, StepsLeft(RecLoad));
  }

  lemma {:induction false} PerformAllKeepsSpec(table: ScoreTable, r: Run, ops: seq<Operation>)
    ensures PerformAll(table, r, ops).spec == r.spec
  {
    if ops != [] {
      var op := ops[|ops| - 1];
      PerformAllKeepsSpec(table, r, ops[..|ops| - 1]);
      if IsEntry(op.entry) {
        RunForKeepsSpec(table, PerformAll(table, r, ops[..|ops| - 1]), op.entry, op.child, op.steps);
      }
    }
  }

  ghost function SpecIs(spec: RunSpec): Config -> bool {
    (x: Config) => x.run.spec == spec
  }

  lemma RunForKeepsSpec(table: ScoreTable, r: Run, pc: Pc, child: Child, n: nat)
    ensures RunFor(table, r, pc, child, n).run.spec == r.spec
  {
    var inv := SpecIs(r.spec);
    forall x: Config | inv(x) ensures inv(Stepper(table, child)(x)) {
    }
    assert inv(Config(r, pc));
    IterateKeeps(Stepper(table, child), inv, Config(r, pc), n);
    assert inv(RunFor(table, r, pc, child, n));
  }

  lemma DriveKeepsSpec(table: ScoreTable, spec: RunSpec, created: nat, ops: seq<Operation>)
    ensures Drive(table, spec, created, ops).spec == spec
  {
    RunForKeepsSpec(table, Create(spec), NewApprove, LaunchError, created);
    PerformAllKeepsSpec(table, RunFor(table, Create(spec), NewApprove, LaunchError, created).run, ops);
  }

  /**
   * Crash equivalence. A step of a driven run stops after any number of store calls; any number of
   * reconciles stop too; then one reconcile completes. The run is as it was if the step stopped before
   * its start, and else ends in the state of the uninterrupted step if its attempt had been recorded,
   * and in the state of a failed child otherwise, revision included; and reconciling again changes nothing.
   */
  lemma CrashEquivalence(table: ScoreTable, spec: RunSpec, created: nat, ops: seq<Operation>,
                         child: Child, n: nat, reconciles: seq<Operation>, last: Child)
    requires spec.WithinBounds()
    requires Drive(table, spec, created, ops).state.status.Ready? && OnlyReconciles(reconciles)
    ensures var r := Drive(table, spec, created, ops);
            var stopped := RunFor(table, r, StepLoad, child, n).run;
            var recovered := Finish(table, PerformAll(table, stopped, reconciles), RecLoad, last);
            && recovered.state ==
               (if n < 2 then r.state
                else if |stopped.evaluations| > |r.evaluations| then Finish(table, r, StepLoad, child).state
                else Accept(Accept(r.state, StartStep, r.spec, None), ChildFailed, r.spec, None))
            && !Active(recovered.state)
            && Finish(table, recovered, RecLoad, last) == recovered
  {
    hide RunFor, Drive, PerformAll, Finish, RunInv, ExInv;
    var r := Drive(table, spec, created, ops);
    var stopped := RunFor(table, r, StepLoad, child, n).run;
    if n < 2 {
      BeforeStart(table, r, child, n);
      IdleReconciles(table, r, reconciles);
      ReconcileIsIdempotent(table, r, last);
    } else if spec.maxCostUsd > 0.0 {
      DriveAtRest(table, spec, created, ops);
      StoppedStepSettles(table, r, child, n);
      ReconcilingSettles(table, stopped, reconciles, last);
    } else {
      DriveInformed(table, spec, created, ops);
      DriveKeepsSpec(table, spec, created, ops);
      ExhaustedStepIsOver(table, r, child, n, reconciles, last);
      ReconcileIsIdempotent(table, Finish(table, PerformAll(table, stopped, reconciles), RecLoad, last), last);
    }
  }
}

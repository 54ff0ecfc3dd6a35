/** The transition function of state_machine.py. */
module StateMachine {
  import opened Wrappers
  import opened Contracts

  /**
   * Names of ledger events. The first group labels transitions; the rest only ever label the
   * creation of a run or an observation. EvaluationMissing and SupervisorFailed label both.
   */
  datatype EventName =
    | Approve | StartStep | CandidateReady | ChildFailed | Interrupt
    | EvaluationEligible | EvaluationIneligible | EvaluationMissing
    | StartSupervisor | SupervisorApplied | SupervisorFailed
    | Pause | Resume | Cancel | Complete
    | RunCreated
    | ChildLaunchError | ChildResult | Interrupted | SupervisorMissing | SupervisorResult
    | SandboxPreflight | SandboxResult | Phase4Failed

  datatype TransitionError =
    | SpecMismatch | TerminalRun | NegativeCost | EventNotAllowed | CandidateRequired | NoSafeResumeState

  function NewState(runSpecHash: Digest): RunState {
    RunState(runSpecHash, Created, 0, 0, 0, None, 0.0, None)
  }

  function Allowed(status: Status): set<EventName> {
    match status
    case Created => {Approve, Cancel}
    case Ready => {StartStep, Pause, Cancel, Complete}
    case Running => {CandidateReady, ChildFailed, Interrupt, Cancel}
    case Evaluating => {EvaluationEligible, EvaluationIneligible, EvaluationMissing, Cancel}
    case SupervisionRequired => {StartSupervisor, Pause, Cancel, Complete}
    case Supervising => {SupervisorApplied, SupervisorFailed, Cancel}
    case Paused => {Resume, Cancel}
    case _ => {}
  }

  function NextAfterAttempt(s: RunState, spec: RunSpec, progressed: bool, candidate: Option<Digest>, cost: real): RunState {
    var steps := s.stepsUsed + 1;
    var total := s.costUsd + cost;
    var noProgress := if progressed then 0 else s.consecutiveNoProgress + 1;
    var status :=
      if progressed && (steps >= spec.maxSteps || total >= spec.maxCostUsd) then Succeeded
      else if steps >= spec.maxSteps || total >= spec.maxCostUsd then BudgetExhausted
      else if noProgress >= spec.noProgressLimit then SupervisionRequired
      else Ready;
    s.(status := status, revision := s.revision + 1, stepsUsed := steps, consecutiveNoProgress := noProgress,
       bestCandidateHash := if progressed then candidate else s.bestCandidateHash, costUsd := total)
  }

  function Settle(s: RunState): Status {
    if s.bestCandidateHash.Some? then Succeeded else NoResult
  }

  function Move(s: RunState, status: Status): RunState {
    s.(status := status, revision := s.revision + 1)
  }

  function ApplyTransition(s: RunState, event: EventName, spec: RunSpec, candidate: Option<Digest>, cost: real)
    : Result<RunState, TransitionError>
  {
    if s.runSpecHash != SpecIdentity(spec) then Err(SpecMismatch)
    else if s.IsTerminal() then Err(TerminalRun)
    else if cost < 0.0 then Err(NegativeCost)
    else if event !in Allowed(s.status) then Err(EventNotAllowed)
    else match event
      case Approve => Ok(Move(s, Ready))
      case StartStep =>
        if s.stepsUsed >= spec.maxSteps || s.costUsd >= spec.maxCostUsd
        then Ok(Move(s, BudgetExhausted)) else Ok(Move(s, Running))
      case CandidateReady => Ok(Move(s, Evaluating))
      case EvaluationEligible =>
        if candidate.None? then Err(CandidateRequired) else Ok(NextAfterAttempt(s, spec, true, candidate, cost))
      case StartSupervisor => Ok(Move(s, Supervising))
      case SupervisorApplied => Ok(Move(s, Ready).(consecutiveNoProgress := 0))
      case SupervisorFailed => Ok(Move(s, Settle(s)))
      case Pause => Ok(Move(s, Paused).(pausedFrom := Some(s.status)))
      case Resume =>
        if s.pausedFrom == Some(Ready) || s.pausedFrom == Some(SupervisionRequired)
        then Ok(Move(s, s.pausedFrom.value).(pausedFrom := None)) else Err(NoSafeResumeState)
      case Cancel => Ok(Move(s, Cancelled))
      case Complete => Ok(Move(s, Settle(s)))
      case _ => Ok(NextAfterAttempt(s, spec, false, None, cost))
  }
}

/** Whole runs of the state machine: what every sequence of accepted transitions leads to. */
module RunHistory {
  import opened Wrappers
  import opened Contracts
  import opened StateMachine

  datatype Input = Input(event: EventName, candidate: Option<Digest>, cost: real)

  /** The state after all inputs of h, oldest first; an error if any of them is refused. */
  function Replay(spec: RunSpec, h: seq<Input>): Result<RunState, TransitionError> {
    if h == [] then Ok(NewState(SpecIdentity(spec)))
    else
      var s :- Replay(spec, h[..|h| - 1]);
      var x := h[|h| - 1];
      ApplyTransition(s, x.event, spec, x.candidate, x.cost)
  }

  predicate Closing(e: EventName) {
    e.ChildFailed? || e.Interrupt? || e.EvaluationMissing? || e.EvaluationEligible? || e.EvaluationIneligible?
  }

  function Count(h: seq<Input>, p: EventName -> bool): nat {
    if h == [] then 0 else Count(h[..|h| - 1], p) + if p(h[|h| - 1].event) then 1 else 0
  }

  function ClosingCost(h: seq<Input>): real {
    if h == [] then 0.0
    else ClosingCost(h[..|h| - 1]) + if Closing(h[|h| - 1].event) then h[|h| - 1].cost else 0.0
  }

  /** Attempts closed since the last eligible result or applied advice. */
  function Stagnation(h: seq<Input>): nat {
    if h == [] then 0
    else match h[|h| - 1].event
      case EvaluationEligible => 0
      case SupervisorApplied => 0
      case e => Stagnation(h[..|h| - 1]) + if Closing(e) then 1 else 0
  }

  function LastEligible(h: seq<Input>): Option<Digest> {
    if h == [] then None
    else if h[|h| - 1].event.EvaluationEligible? then h[|h| - 1].candidate
    else LastEligible(h[..|h| - 1])
  }

  /** The status a paused run will return to; otherwise its own. */
  function Underlying(s: RunState): Status {
    if s.status.Paused? && s.pausedFrom.Some? then s.pausedFrom.value else s.status
  }

  /** How many more transitions, not counting pauses and resumes, the run can still accept. */
  function Remaining(spec: RunSpec, s: RunState): int {
    var left := 5 * (spec.maxSteps - s.stepsUsed);
    match Underlying(s)
    case Created => left - 1
    case Ready => left - 2
    case Running => left - 3
    case Evaluating => left - 4
    case SupervisionRequired => left
    case Supervising => left - 1
    case _ => 0
  }

  predicate InFlight(s: RunState) {
    s.status.Running? || s.status.Evaluating?
  }

  predicate PauseOrResume(e: EventName) { e.Pause? || e.Resume? }

  predicate Starting(e: EventName) { e.StartStep? }

  /** What the counters of a state say about the history that led to it. */
  predicate CountersTell(spec: RunSpec, h: seq<Input>, s: RunState) {
    && s.runSpecHash == SpecIdentity(spec)
    && s.revision == |h|
    && s.stepsUsed == Count(h, Closing)
    && s.costUsd == ClosingCost(h)
    && s.consecutiveNoProgress == Stagnation(h)
    && s.bestCandidateHash == LastEligible(h)
  }

  /** What holds of every state a run reaches. */
  predicate Consistent(spec: RunSpec, s: RunState) {
    && !s.status.Failed?
    && (s.status.Succeeded? ==> s.bestCandidateHash.Some?)
    && (s.status.NoResult? ==> s.bestCandidateHash.None?)
    && s.stepsUsed <= spec.maxSteps
    && s.consecutiveNoProgress <= spec.noProgressLimit
    && s.costUsd >= 0.0
    && (!s.IsTerminal() ==>
          && s.stepsUsed < spec.maxSteps
          && (s.costUsd < spec.maxCostUsd || (s.costUsd == 0.0 && s.stepsUsed == 0))
          && (s.consecutiveNoProgress == spec.noProgressLimit <==>
              Underlying(s).SupervisionRequired? || Underlying(s).Supervising?))
    && (InFlight(s) ==> s.costUsd < spec.maxCostUsd)
    && (s.status.Paused? ==> s.pausedFrom == Some(Ready) || s.pausedFrom == Some(SupervisionRequired))
    && (s.pausedFrom.Some? ==> s.status.Paused? || s.status.Cancelled?)
    && (s.status.Created? ==> s.stepsUsed == 0)
  }

  lemma ConsistentClosing(spec: RunSpec, s: RunState, x: Input, s': RunState)
    requires spec.WithinBounds() && Consistent(spec, s) && Closing(x.event)
    requires ApplyTransition(s, x.event, spec, x.candidate, x.cost) == Ok(s')
    ensures Consistent(spec, s') && 0 <= Remaining(spec, s') <= Remaining(spec, s) - 1
  {
  }

  lemma ConsistentMove(spec: RunSpec, s: RunState, x: Input, s': RunState)
    requires spec.WithinBounds() && Consistent(spec, s) && !Closing(x.event) && !PauseOrResume(x.event)
    requires ApplyTransition(s, x.event, spec, x.candidate, x.cost) == Ok(s')
    ensures Consistent(spec, s') && 0 <= Remaining(spec, s') <= Remaining(spec, s) - 1
  {
  }

  lemma ConsistentPause(spec: RunSpec, s: RunState, x: Input, s': RunState)
    requires spec.WithinBounds() && Consistent(spec, s) && PauseOrResume(x.event)
    requires ApplyTransition(s, x.event, spec, x.candidate, x.cost) == Ok(s')
    ensures Consistent(spec, s') && 0 <= Remaining(spec, s') <= Remaining(spec, s)
  {
  }

  lemma ConsistentStep(spec: RunSpec, s: RunState, x: Input, s': RunState)
    requires spec.WithinBounds() && Consistent(spec, s)
    requires ApplyTransition(s, x.event, spec, x.candidate, x.cost) == Ok(s')
    ensures Consistent(spec, s')
    ensures 0 <= Remaining(spec, s')
    ensures Remaining(spec, s') <= Remaining(spec, s) - if PauseOrResume(x.event) then 0 else 1
  {
    hide ApplyTransition, Consistent, Remaining;
    if PauseOrResume(x.event) {
      ConsistentPause(spec, s, x, s');
    } else if Closing(x.event) {
      ConsistentClosing(spec, s, x, s');
    } else {
      ConsistentMove(spec, s, x, s');
    }
  }

  lemma CountersStep(spec: RunSpec, h: seq<Input>, s: RunState, s': RunState)
    requires h != [] && CountersTell(spec, h[..|h| - 1], s)
    requires var x := h[|h| - 1]; ApplyTransition(s, x.event, spec, x.candidate, x.cost) == Ok(s')
    ensures CountersTell(spec, h, s')
  {
  }

  /** Every reached state is consistent, and its counters are exact. */
  lemma {:induction false} WholeRun(spec: RunSpec, h: seq<Input>)
    requires spec.WithinBounds() && Replay(spec, h).Ok?
    ensures Consistent(spec, Replay(spec, h).value)
    ensures CountersTell(spec, h, Replay(spec, h).value)
    ensures |h| + Remaining(spec, Replay(spec, h).value) <= 5 * spec.maxSteps - 1 + Count(h, PauseOrResume)
    ensures 0 <= Remaining(spec, Replay(spec, h).value)
  {
    if h != [] {
      var g, x := h[..|h| - 1], h[|h| - 1];
      var s, s' := Replay(spec, g).value, Replay(spec, h).value;
      WholeRun(spec, g);
      ConsistentStep(spec, s, x, s');
      CountersStep(spec, h, s, s');
      assert Count(h, PauseOrResume) == Count(g, PauseOrResume) + if PauseOrResume(x.event) then 1 else 0;
    }
  }

  /** A run accepts at most 5 * max_steps - 1 transitions besides pauses and resumes. */
  lemma LengthBound(spec: RunSpec, h: seq<Input>)
    requires spec.WithinBounds() && Replay(spec, h).Ok?
    ensures Replay(spec, h).value.revision <= 5 * spec.maxSteps - 1 + Count(h, PauseOrResume)
  {
    WholeRun(spec, h);
  }

  /** The attempts closed by h use up one of the run's two budgets. */
  predicate Spent(spec: RunSpec, h: seq<Input>) {
    Count(h, Closing) >= spec.maxSteps || ClosingCost(h) >= spec.maxCostUsd
  }

  /**
   * The status of a run is told by its history. An attempt that uses up a budget ends the run, as succeeded
   * exactly if it was eligible; one that does not leaves it ready, or in need of supervision exactly if it
   * completes the attempts that may follow one another without progress. A failed supervision or a completion
   * ends the run as succeeded exactly if some attempt was eligible.
   */
  lemma StatusTells(spec: RunSpec, h: seq<Input>)
    requires spec.WithinBounds() && Replay(spec, h).Ok? && h != []
    ensures var status, last := Replay(spec, h).value.status, h[|h| - 1].event;
            && (Closing(last) ==>
                  && (Spent(spec, h) ==> if last.EvaluationEligible? then status.Succeeded? else status.BudgetExhausted?)
                  && (!Spent(spec, h) ==>
                        if Stagnation(h) == spec.noProgressLimit then status.SupervisionRequired? else status.Ready?))
            && (last.SupervisorFailed? || last.Complete? ==>
                  if LastEligible(h).Some? then status.Succeeded? else status.NoResult?)
            && (last.Approve? || last.SupervisorApplied? ==> status.Ready?)
            && (last.StartStep? ==> if spec.maxCostUsd > 0.0 then status.Running? else status.BudgetExhausted?)
            && (last.CandidateReady? ==> status.Evaluating?) && (last.StartSupervisor? ==> status.Supervising?)
            && (last.Pause? ==> status.Paused?) && (last.Cancel? ==> status.Cancelled?)
            && (last.Resume? ==> if Stagnation(h) == spec.noProgressLimit then status.SupervisionRequired? else status.Ready?)
  {
    WholeRun(spec, h[..|h| - 1]);
    WholeRun(spec, h);
  }

  /** Which inputs a run accepts: a cancel whenever it has not ended, and every other event in just these statuses. */
  lemma AcceptedExactly(spec: RunSpec, h: seq<Input>, x: Input)
    requires spec.WithinBounds() && Replay(spec, h).Ok?
    ensures var s := Replay(spec, h).value.status;
            Replay(spec, h + [x]).Ok? <==>
            x.cost >= 0.0 &&
            match x.event
            case Approve => h == []
            case StartStep => s.Ready?
            case CandidateReady => s.Running?
            case ChildFailed => s.Running?
            case Interrupt => s.Running?
            case EvaluationEligible => s.Evaluating? && x.candidate.Some?
            case EvaluationIneligible => s.Evaluating?
            case EvaluationMissing => s.Evaluating?
            case StartSupervisor => s.SupervisionRequired?
            case SupervisorApplied => s.Supervising?
            case SupervisorFailed => s.Supervising?
            case Pause => s.Ready? || s.SupervisionRequired?
            case Complete => s.Ready? || s.SupervisionRequired?
            case Resume => s.Paused?
            case Cancel => !Replay(spec, h).value.IsTerminal()
            case _ => false
  {
    WholeRun(spec, h);
    ReplaySnoc(spec, h, x);
    if h != [] { StatusTells(spec, h); }
  }

  lemma {:induction false} PrefixAccepted(spec: RunSpec, h: seq<Input>, k: nat)
    requires Replay(spec, h).Ok? && k <= |h|
    ensures Replay(spec, h[..k]).Ok?
  {
    if k < |h| {
      PrefixAccepted(spec, h[..|h| - 1], k);
      assert h[..|h| - 1][..k] == h[..k];
    } else {
      assert h[..k] == h;
    }
  }

  /** Each attempt was closed while the cost accumulated before it was still below the budget. */
  lemma CostBelowBudgetBeforeEachAttempt(spec: RunSpec, h: seq<Input>, k: nat)
    requires spec.WithinBounds() && Replay(spec, h).Ok? && k < |h| && Closing(h[k].event)
    ensures ClosingCost(h[..k]) < spec.maxCostUsd && Count(h[..k], Closing) < spec.maxSteps
  {
    PrefixAccepted(spec, h, k);
    PrefixAccepted(spec, h, k + 1);
    assert h[..k + 1][..k] == h[..k];
    WholeRun(spec, h[..k]);
  }

  /** A start_step is answered with budget_exhausted exactly when the run may cost nothing. */
  lemma ExhaustedStart(spec: RunSpec, h: seq<Input>, k: nat)
    requires spec.WithinBounds() && Replay(spec, h).Ok? && k < |h| && h[k].event.StartStep?
    ensures Replay(spec, h[..k + 1]).Ok?
    ensures Replay(spec, h[..k + 1]).value.status.BudgetExhausted? <==> spec.maxCostUsd == 0.0
    ensures Replay(spec, h[..k + 1]).value.status.Running? <==> spec.maxCostUsd > 0.0
  {
    PrefixAccepted(spec, h, k);
    PrefixAccepted(spec, h, k + 1);
    assert h[..k + 1][..k] == h[..k];
    WholeRun(spec, h[..k]);
  }

  /** Steps started: one for each closed attempt, and one more while an attempt is in flight. */
  lemma {:induction false} StartsBound(spec: RunSpec, h: seq<Input>)
    requires spec.WithinBounds() && Replay(spec, h).Ok?
    ensures var s := Replay(spec, h).value;
            && Count(h, Starting) <= spec.maxSteps
            && (!s.IsTerminal() ==> Count(h, Starting) == s.stepsUsed + if InFlight(s) then 1 else 0)
  {
    if h != [] {
      var g := h[..|h| - 1];
      StartsBound(spec, g);
      WholeRun(spec, g);
      WholeRun(spec, h);
    }
  }

  /** Terminal states accept nothing, so a history that reached one is complete. */
  lemma TerminalIsFinal(spec: RunSpec, h: seq<Input>, k: nat)
    requires spec.WithinBounds() && Replay(spec, h).Ok? && k < |h|
    ensures Replay(spec, h[..k]).Ok? && !Replay(spec, h[..k]).value.IsTerminal()
  {
    PrefixAccepted(spec, h, k);
    PrefixAccepted(spec, h, k + 1);
    assert h[..k + 1][..k] == h[..k];
  }

  // ----- pausing and cancelling -----

  lemma ReplaySnoc(spec: RunSpec, h: seq<Input>, x: Input)
    requires Replay(spec, h).Ok?
    ensures Replay(spec, h + [x]) == ApplyTransition(Replay(spec, h).value, x.event, spec, x.candidate, x.cost)
  {
    assert (h + [x])[..|h|] == h;
  }

  /** A run that is cancelled while paused keeps the status it was paused from, and everything else but its status. */
  lemma CancelKeepsPausedFrom(spec: RunSpec, h: seq<Input>, x: Input)
    requires spec.WithinBounds() && Replay(spec, h).Ok? && Replay(spec, h).value.status.Paused?
    requires x.event.Cancel? && x.cost >= 0.0
    ensures var s, s' := Replay(spec, h).value, Replay(spec, h + [x]);
            && s'.Ok? && s'.value == s.(status := Cancelled, revision := s.revision + 1)
            && (s'.value.pausedFrom == Some(Ready) || s'.value.pausedFrom == Some(SupervisionRequired))
  {
    WholeRun(spec, h);
    ReplaySnoc(spec, h, x);
  }

  lemma OnlyCancelCancels(spec: RunSpec, s: RunState, x: Input, s': RunState)
    requires Consistent(spec, s) && ApplyTransition(s, x.event, spec, x.candidate, x.cost) == Ok(s') && s'.status.Cancelled?
    ensures s'.pausedFrom.Some? <==> s.status.Paused?
  {
  }

  /** A cancelled run tells whether it was paused when it was cancelled. */
  lemma PausedFromTells(spec: RunSpec, h: seq<Input>)
    requires spec.WithinBounds() && Replay(spec, h).Ok? && Replay(spec, h).value.status.Cancelled?
    ensures h != [] && Replay(spec, h[..|h| - 1]).Ok?
    ensures Replay(spec, h).value.pausedFrom.Some? <==> Replay(spec, h[..|h| - 1]).value.status.Paused?
  {
    hide Consistent, ApplyTransition;
    WholeRun(spec, h[..|h| - 1]);
    OnlyCancelCancels(spec, Replay(spec, h[..|h| - 1]).value, h[|h| - 1], Replay(spec, h).value);
  }

  /** n attempts that fail without cost. */
  lemma {:induction false} FailedAttempts(spec: RunSpec, n: nat) returns (h: seq<Input>)
    requires spec.WithinBounds() && n <= spec.noProgressLimit < spec.maxSteps && spec.maxCostUsd > 0.0
    ensures Replay(spec, h).Ok?
    ensures var s := Replay(spec, h).value;
            && s.runSpecHash == SpecIdentity(spec) && s.stepsUsed == s.consecutiveNoProgress == n && s.costUsd == 0.0
            && s.status == if n == spec.noProgressLimit then SupervisionRequired else Ready
  {
    if n == 0 {
      h := [] + [Input(Approve, None, 0.0)];
      ReplaySnoc(spec, [], Input(Approve, None, 0.0));
    } else {
      var g := FailedAttempts(spec, n - 1);
      ReplaySnoc(spec, g, Input(StartStep, None, 0.0));
      ReplaySnoc(spec, g + [Input(StartStep, None, 0.0)], Input(ChildFailed, None, 0.0));
      h := g + [Input(StartStep, None, 0.0)] + [Input(ChildFailed, None, 0.0)];
    }
  }

  lemma {:induction false} StagnationWithinAttempts(h: seq<Input>)
    ensures Stagnation(h) <= Count(h, Closing)
  {
    if h != [] { StagnationWithinAttempts(h[..|h| - 1]); }
  }

  /** h ends paused from `from`. */
  ghost predicate PausedAfter(spec: RunSpec, h: seq<Input>, from: Status) {
    Replay(spec, h).Ok? && Replay(spec, h).value.status.Paused? && Replay(spec, h).value.pausedFrom == Some(from)
  }

  /**
   * Both cases of CancelKeepsPausedFrom occur: every run can be paused from ready, and exactly those can
   * be paused from supervision_required that may stagnate before their budgets end them.
   */
  lemma PausedFromEither(spec: RunSpec)
    requires spec.WithinBounds()
    ensures exists h :: PausedAfter(spec, h, Ready)
    ensures (exists h :: PausedAfter(spec, h, SupervisionRequired)) <==> spec.noProgressLimit < spec.maxSteps && spec.maxCostUsd > 0.0
  {
    var pause, approved := Input(Pause, None, 0.0), [] + [Input(Approve, None, 0.0)];
    ReplaySnoc(spec, [], Input(Approve, None, 0.0));
    ReplaySnoc(spec, approved, pause);
    assert PausedAfter(spec, approved + [pause], Ready);
    forall h | PausedAfter(spec, h, SupervisionRequired) ensures spec.noProgressLimit < spec.maxSteps && spec.maxCostUsd > 0.0 {
      WholeRun(spec, h);
      StagnationWithinAttempts(h);
    }
    if spec.noProgressLimit < spec.maxSteps && spec.maxCostUsd > 0.0 {
      var h := FailedAttempts(spec, spec.noProgressLimit);
      ReplaySnoc(spec, h, pause);
      assert PausedAfter(spec, h + [pause], SupervisionRequired);
    }
  }
}

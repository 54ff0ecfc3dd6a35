/** What Phase 4 operations leave behind, however they overlap: where a receipt comes from, and what it leads to. */
module Phase4Outcome {
  import opened Wrappers
  import opened Contracts
  import opened StateMachine
  import opened RunHistory
  import opened Ledger
  import opened LogReplay
  import opened PatchGrammar
  import opened Phase4Protocol
  import Actors
  import Evaluator
  import Sandbox

  // ----- where the evidence comes from -----

  predicate Gives(child: PatchChild, patchHash: Digest, rationale: Rationale, resultHash: Digest) {
    && child.Report? && child.succeeded && child.hasSummary && child.resultHash == resultHash
    && child.proposal.Some? && child.proposal.value.rationale == rationale
    && Sha256(PlainText(child.proposal.value.patch)) == patchHash
  }

  predicate Prints(call: SandboxCall, exitCode: int, stdoutHash: Digest, stderrHash: Digest) {
    call.Prints? && call.env.exitCode == exitCode && call.env.stdoutHash == Some(stdoutHash) && call.env.stderrHash == Some(stderrHash)
  }

  /** Some child of the interleaving reported this. */
  ghost predicate Reported(actions: seq<Action>, child: PatchChild) {
    exists a <- actions :: a.Move? && a.choice.child == child
  }

  /** Some child of the interleaving proposed the hashed patch, for this reason. */
  ghost predicate Given(actions: seq<Action>, patchHash: Digest, rationale: Rationale, resultHash: Digest) {
    exists a <- actions :: a.Move? && Gives(a.choice.child, patchHash, rationale, resultHash)
  }

  /** Some sandbox call of the interleaving printed an envelope with these. */
  ghost predicate Printed(actions: seq<Action>, exitCode: int, stdoutHash: Digest, stderrHash: Digest) {
    exists a <- actions :: a.Move? && Prints(a.choice.call, exitCode, stdoutHash, stderrHash)
  }

  /** The candidate is a child's proposal, and the receipt is of what a sandbox printed. */
  ghost predicate Traceable(actions: seq<Action>, c: Candidate, x: Receipt) {
    Given(actions, x.patchHash, c.hypothesis, c.childResultHash) && Printed(actions, x.exitCode, x.stdoutHash, x.stderrHash)
  }

  ghost predicate Traced(actions: seq<Action>, pc: Pc) {
    match pc
    case PatchNoteResult(_, child) => Reported(actions, child)
    case PatchSandbox(_, p, rationale, h) => Given(actions, Sha256(PlainText(p.raw)), rationale, h)
    case PatchDirectory(_, r, rationale, h) =>
      Given(actions, r.patchHash, rationale, h) && Printed(actions, r.exitCode, r.stdoutHash, r.stderrHash)
    case PatchWrite(_, r, rationale, h) =>
      Given(actions, r.patchHash, rationale, h) && Printed(actions, r.exitCode, r.stdoutHash, r.stderrHash)
    case PatchRecord(_, c, _, x) => Traceable(actions, c, x)
    case _ => true
  }

  ghost predicate RunTraced(actions: seq<Action>, run: Run) {
    |run.receipts| == |run.candidates| && forall i :: 0 <= i < |run.receipts| ==> Traceable(actions, run.candidates[i], run.receipts[i])
  }

  lemma LongerTraces(actions: seq<Action>, a: Action, c: Candidate, x: Receipt)
    requires Traceable(actions, c, x)
    ensures Traceable(actions + [a], c, x)
  {
    var given :| given in actions && given.Move? && Gives(given.choice.child, x.patchHash, c.hypothesis, c.childResultHash);
    var printed :| printed in actions && printed.Move? && Prints(printed.choice.call, x.exitCode, x.stdoutHash, x.stderrHash);
    assert given in actions + [a] && printed in actions + [a];
  }

  lemma LongerGives(actions: seq<Action>, a: Action, patchHash: Digest, rationale: Rationale, resultHash: Digest)
    requires Given(actions, patchHash, rationale, resultHash)
    ensures Given(actions + [a], patchHash, rationale, resultHash)
  {
    var given :| given in actions && given.Move? && Gives(given.choice.child, patchHash, rationale, resultHash);
    assert given in actions + [a];
  }

  lemma LongerPrints(actions: seq<Action>, a: Action, exitCode: int, stdoutHash: Digest, stderrHash: Digest)
    requires Printed(actions, exitCode, stdoutHash, stderrHash)
    ensures Printed(actions + [a], exitCode, stdoutHash, stderrHash)
  {
    var printed :| printed in actions && printed.Move? && Prints(printed.choice.call, exitCode, stdoutHash, stderrHash);
    assert printed in actions + [a];
  }

  lemma LongerReports(actions: seq<Action>, a: Action, child: PatchChild)
    requires Reported(actions, child)
    ensures Reported(actions + [a], child)
  {
    var reported :| reported in actions && reported.Move? && reported.choice.child == child;
    assert reported in actions + [a];
  }

  lemma StaysTraced(actions: seq<Action>, a: Action, pc: Pc)
    requires Traced(actions, pc)
    ensures Traced(actions + [a], pc)
  {
    hide Reported, Given, Printed, Traceable;
    match pc
    case PatchNoteResult(_, child) => LongerReports(actions, a, child);
    case PatchSandbox(_, p, rationale, h) => LongerGives(actions, a, Sha256(PlainText(p.raw)), rationale, h);
    case PatchDirectory(_, r, rationale, h) =>
      LongerGives(actions, a, r.patchHash, rationale, h);
      LongerPrints(actions, a, r.exitCode, r.stdoutHash, r.stderrHash);
    case PatchWrite(_, r, rationale, h) =>
      LongerGives(actions, a, r.patchHash, rationale, h);
      LongerPrints(actions, a, r.exitCode, r.stdoutHash, r.stderrHash);
    case PatchRecord(_, c, _, x) => LongerTraces(actions, a, c, x);
    case _ =>
  }

  lemma RunStaysTraced(actions: seq<Action>, a: Action, run: Run)
    requires RunTraced(actions, run)
    ensures RunTraced(actions + [a], run)
  {
    hide Traceable;
    forall i | 0 <= i < |run.receipts| ensures Traceable(actions + [a], run.candidates[i], run.receipts[i]) {
      LongerTraces(actions, a, run.candidates[i], run.receipts[i]);
    }
  }

  /** The child of the move that launched it. */
  lemma LaunchTraced(b: Sandbox.Baseline, run: Run, pc: Pc, choice: Choice, actions: seq<Action>, i: nat)
    requires pc.PatchLaunch?
    ensures Traced(actions + [Move(i, choice)], Continue(b, run, pc, choice))
  {
    assert Move(i, choice) in actions + [Move(i, choice)];
  }

  lemma ReportTraced(b: Sandbox.Baseline, run: Run, pc: Pc, choice: Choice, actions: seq<Action>)
    requires pc.PatchNoteResult? && Traced(actions, pc)
    ensures Traced(actions, Continue(b, run, pc, choice))
  {
    hide Parse;
    var c := pc.child;
    if c.Report? && c.succeeded && c.hasSummary && c.proposal.Some? && Parse(c.proposal.value.patch).Ok? {
      ParsedIsWellFormed(c.proposal.value.patch);
      var a :| a in actions && a.Move? && a.choice.child == c;
      assert Gives(a.choice.child, Sha256(PlainText(c.proposal.value.patch)), c.proposal.value.rationale, c.resultHash);
    }
  }

  lemma SandboxTraced(b: Sandbox.Baseline, run: Run, pc: Pc, choice: Choice, actions: seq<Action>, i: nat)
    requires pc.PatchSandbox? && Traced(actions, pc)
    ensures Traced(actions + [Move(i, choice)], Continue(b, run, pc, choice))
  {
    hide Given, Sandbox.ValidateOutput;
    var all := actions + [Move(i, choice)];
    var next := Continue(b, run, pc, choice);
    if next.PatchDirectory? {
      Sandbox.AcceptedFields(choice.call.env, b, pc.p);
      LongerGives(actions, Move(i, choice), Sha256(PlainText(pc.p.raw)), pc.rationale, pc.resultHash);
      assert Move(i, choice) in all && Prints(choice.call, next.result.exitCode, next.result.stdoutHash, next.result.stderrHash);
    }
  }

  lemma OthersTraced(b: Sandbox.Baseline, run: Run, pc: Pc, choice: Choice, actions: seq<Action>)
    requires !pc.PatchLaunch? && !pc.PatchNoteResult? && !pc.PatchSandbox? && Traced(actions, pc)
    ensures Traced(actions, Continue(b, run, pc, choice))
  {
    hide Given, Printed, Evaluator.Evaluate;
  }

  lemma ContinueTraced(b: Sandbox.Baseline, run: Run, pc: Pc, choice: Choice, actions: seq<Action>, i: nat)
    requires Traced(actions, pc)
    ensures Traced(actions + [Move(i, choice)], Continue(b, run, pc, choice))
  {
    hide Traced, Continue;
    if pc.PatchLaunch? {
      LaunchTraced(b, run, pc, choice, actions, i);
    } else if pc.PatchNoteResult? {
      ReportTraced(b, run, pc, choice, actions);
      StaysTraced(actions, Move(i, choice), Continue(b, run, pc, choice));
    } else if pc.PatchSandbox? {
      SandboxTraced(b, run, pc, choice, actions, i);
    } else {
      OthersTraced(b, run, pc, choice, actions);
      StaysTraced(actions, Move(i, choice), Continue(b, run, pc, choice));
    }
  }

  /** Only the record of an attempt adds rows. */
  lemma CallTraced(run: Run, pc: Pc, actions: seq<Action>)
    requires RunTraced(actions, run) && Traced(actions, pc)
    ensures RunTraced(actions, Exec(run, OpOf(pc)))
  {
    hide Traceable;
    if pc.PatchRecord? && Try(run, OpOf(pc)).Ok? {
      var run' := Exec(run, OpOf(pc));
      assert run'.candidates == run.candidates + [pc.c] && run'.receipts == run.receipts + [pc.x];
    } else {
      NoRowsAdded(run, pc);
    }
  }

  lemma NoRowsAdded(run: Run, pc: Pc)
    requires !pc.PatchRecord? || Try(run, OpOf(pc)).Err?
    ensures var run' := Exec(run, OpOf(pc)); run'.candidates == run.candidates && run'.receipts == run.receipts
  {
  }

  lemma DoneIsTraced(actions: seq<Action>)
    ensures Traced(actions, Done)
  {
  }

  lemma MoveTraced(b: Sandbox.Baseline, s: Shared, pc: Pc, choice: Choice, actions: seq<Action>, i: nat)
    requires Traced(actions, pc) && RunTraced(actions, s.run)
    ensures var (s', pc') := Next(b, s, pc, choice);
            Traced(actions + [Move(i, choice)], pc') && RunTraced(actions + [Move(i, choice)], s'.run)
  {
    hide Traced, RunTraced, Next, Continue, OpOf, Try;
    var (s', pc') := Next(b, s, pc, choice);
    RunAfterNext(b, s, pc, choice);
    CallTraced(s.run, pc, actions);
    RunStaysTraced(actions, Move(i, choice), s'.run);
    if pc'.Done? {
      DoneIsTraced(actions + [Move(i, choice)]);
    } else {
      ContinueTraced(b, s'.run, pc, choice, actions, i);
    }
  }

  lemma RunAfterNext(b: Sandbox.Baseline, s: Shared, pc: Pc, choice: Choice)
    ensures var (s', pc') := Next(b, s, pc, choice);
            s'.run == Exec(s.run, OpOf(pc)) && (pc'.Done? || pc' == Continue(b, s'.run, pc, choice))
  {
    hide Continue;
  }

  ghost predicate AllTraced(actions: seq<Action>, s: Sys) {
    RunTraced(actions, s.shared.run) && forall i :: 0 <= i < |s.actors| ==> Traced(actions, s.actors[i])
  }

  lemma EntryIsTraced(actions: seq<Action>, pc: Pc)
    requires IsEntry(pc) || pc.Done? || pc.NewApprove?
    ensures Traced(actions, pc)
  {
  }

  lemma StepTraced(b: Sandbox.Baseline, s: Sys, a: Action, actions: seq<Action>)
    requires AllTraced(actions, s)
    ensures AllTraced(actions + [a], Step(b, s, a))
  {
    hide Traced, RunTraced, Next;
    RunStaysTraced(actions, a, s.shared.run);
    forall j | 0 <= j < |s.actors| ensures Traced(actions + [a], s.actors[j]) {
      StaysTraced(actions, a, s.actors[j]);
    }
    EntryIsTraced(actions + [a], Done);
    if a.Spawn? && IsEntry(a.pc) { EntryIsTraced(actions + [a], a.pc); }
    if a.Move? && a.i < |s.actors| { MoveTraced(b, s.shared, s.actors[a.i], a.choice, actions, a.i); }
  }

  lemma {:induction false} TracedAlways(b: Sandbox.Baseline, spec: RunSpec, actions: seq<Action>)
    ensures AllTraced(actions, Behave(b, spec, actions))
  {
    hide Step;
    if actions == [] {
      EntryIsTraced(actions, NewApprove);
    } else {
      var before, a := actions[..|actions| - 1], actions[|actions| - 1];
      TracedAlways(b, spec, before);
      StepTraced(b, Behave(b, spec, before), a, before);
      assert before + [a] == actions;
    }
  }

  /**
   * In every interleaving, whatever children and sandboxes do: at most one attempt is recorded. Its candidate is the
   * patch of a child that reported in that interleaving, its receipt carries the exit code and the log hashes of an
   * envelope printed in it, and both name the run, its spec and its baseline. In a run judged by its tests, the
   * evaluation is eligible exactly if the exit code is 0, with a score of 0 then and 1 otherwise.
   */
  lemma ReceiptTells(b: Sandbox.Baseline, spec: RunSpec, actions: seq<Action>)
    requires Phase4Spec(spec)
    ensures var s := Behave(b, spec, actions).shared;
            && |s.run.receipts| == |s.run.candidates| == |s.run.evaluations| <= 1
            && (|s.run.receipts| == 1 ==>
                  var c, e, x := s.run.candidates[0], s.run.evaluations[0], s.run.receipts[0];
                  && Traceable(actions, c, x)
                  && x.runId == c.runId == spec.runId && x.runSpecHash == c.runSpecHash == e.runSpecHash == SpecIdentity(spec)
                  && x.candidateHash == e.candidateHash == Sha256(CandidateText(c)) && x.evaluationHash == Sha256(EvaluationText(e))
                  && x.baselineTreeHash == spec.seedDigest && c.artifact == x.outputTreeHash && c.ordinal == 1 && c.parent == None
                  && e.evidenceHash ==
                     Sha256(EvidenceText(SandboxEvidence(x.patchHash, x.outputTreeHash, x.exitCode, x.stdoutHash, x.stderrHash)))
                  && (x.testsPassed <==> x.exitCode == 0)
                  && (JudgedByTests(spec) ==>
                        && (e.eligible <==> x.exitCode == 0)
                        && e.scores == map[TEST_FAILURES := if x.exitCode == 0 then 0.0 else 1.0]))
  {
    hide Traceable, Produces;
    Always(b, spec, actions);
    TracedAlways(b, spec, actions);
    SpecOfBehaviour(b, spec, actions);
  }

  lemma {:induction false} SpecOfBehaviour(b: Sandbox.Baseline, spec: RunSpec, actions: seq<Action>)
    ensures Behave(b, spec, actions).shared.run.spec == spec
  {
    hide Next;
    if actions != [] {
      var before, a := actions[..|actions| - 1], actions[|actions| - 1];
      SpecOfBehaviour(b, spec, before);
      var s := Behave(b, spec, before);
      if a.Move? && a.i < |s.actors| {
        RunAfterNext(b, s.shared, s.actors[a.i], a.choice);
        ExecKeepsSpec(s.shared.run, OpOf(s.actors[a.i]));
      }
    }
  }

  lemma ExecKeepsSpec(run: Run, op: Op)
    ensures Exec(run, op).spec == run.spec
  {
  }

  // ----- what an applied verdict leads to -----

  /** With one step to use, an applied verdict has ended the run. */
  predicate Decided(run: Run) {
    Actors.Applied(run.log) == 0 ||
    (|run.evaluations| == 1 && if run.evaluations[0].eligible then run.state.status.Succeeded? else run.state.status.BudgetExhausted?)
  }

  lemma AppliedByEntry(log: seq<Entry>, e: Entry)
    ensures Actors.Applied(log + [e]) == Actors.Applied(log) + if Actors.IsEvaluationEvent(e.event) then 1 else 0
  {
    assert (log + [e])[..|log|] == log;
  }

  /** A verdict is of the one pair on record. */
  lemma VerdictOfRow(b: Sandbox.Baseline, s: Shared, pc: Pc)
    requires PcInv(b, s, pc)
    ensures var op := OpOf(pc);
            && (op.Note? ==> !Actors.IsEvaluationEvent(op.event))
            && (op.Commit? && Actors.IsEvaluationEvent(op.event) ==>
                  |s.run.evaluations| == 1 && op.event == if s.run.evaluations[0].eligible then EvaluationEligible else EvaluationIneligible)
            && ((op.SandboxAttempt? || op.Attempt?) ==> NoRows(s.run))
            && !op.Advise? && !op.Save?
  {
    hide Bears;
  }

  lemma VerdictEnds(run: Run, event: EventName, expected: nat, candidate: Option<Digest>, cost: real, run': Run)
    requires run.spec.maxSteps == 1 && Actors.IsEvaluationEvent(event) && Try(run, Commit(event, expected, candidate, cost)) == Ok(run')
    ensures if event.EvaluationEligible? then run'.state.status.Succeeded? else run'.state.status.BudgetExhausted?
  {
  }

  lemma EndedRefuses(run: Run, event: EventName, expected: nat, candidate: Option<Digest>, cost: real)
    requires run.state.IsTerminal()
    ensures Try(run, Commit(event, expected, candidate, cost)).Err?
  {
  }

  lemma EntryOfCall(run: Run, op: Op)
    requires op.Commit? || op.Note?
    ensures Try(run, op).Ok? ==>
              var run' := Exec(run, op);
              && run'.candidates == run.candidates && run'.evaluations == run.evaluations && run'.spec == run.spec
              && |run'.log| == |run.log| + 1 && run'.log == run.log + [run'.log[|run.log|]] && run'.log[|run.log|].event == op.event
              && (op.Note? ==> run'.state == run.state)
  {
  }

  lemma CallDecides(b: Sandbox.Baseline, s: Shared, pc: Pc)
    requires PcInv(b, s, pc) && s.run.spec.maxSteps == 1 && Decided(s.run)
    ensures Decided(Exec(s.run, OpOf(pc)))
  {
    hide PcInv, OpOf, Actors.Applied;
    var op, run := OpOf(pc), s.run;
    VerdictOfRow(b, s, pc);
    if (op.Commit? || op.Note?) && Try(run, op).Ok? {
      var run' := Exec(run, op);
      EntryOfCall(run, op);
      AppliedByEntry(run.log, run'.log[|run.log|]);
      if op.Commit? {
        if run.state.IsTerminal() { EndedRefuses(run, op.event, op.expected, op.candidate, op.cost); }
        if Actors.IsEvaluationEvent(op.event) { VerdictEnds(run, op.event, op.expected, op.candidate, op.cost, run'); }
      }
    }
  }

  lemma {:induction false} DecidedAlways(b: Sandbox.Baseline, spec: RunSpec, actions: seq<Action>)
    requires Phase4Spec(spec) && spec.maxSteps == 1
    ensures Decided(Behave(b, spec, actions).shared.run)
  {
    hide Next, Decided, PcInv, SharedInv;
    if actions == [] {
      CreatedUndecided(spec);
    } else {
      var before, a := actions[..|actions| - 1], actions[|actions| - 1];
      DecidedAlways(b, spec, before);
      Always(b, spec, before);
      SpecOfBehaviour(b, spec, before);
      var s := Behave(b, spec, before);
      if a.Move? && a.i < |s.actors| {
        RunAfterNext(b, s.shared, s.actors[a.i], a.choice);
        CallDecides(b, s.shared, s.actors[a.i]);
      }
    }
  }

  lemma CreatedUndecided(spec: RunSpec)
    ensures Decided(Create(spec))
  {
    AppliedByEntry([], Create(spec).log[0]);
    assert [] + [Create(spec).log[0]] == Create(spec).log;
  }

  /**
   * In every interleaving of a run as phase4.py creates it, judged by its tests and with one step to use: once the
   * verdict of a receipt is applied, the run has succeeded with the candidate of that receipt as its best if the exit
   * code was 0, and has exhausted its budget without a best candidate if not.
   */
  lemma VerdictTells(b: Sandbox.Baseline, spec: RunSpec, actions: seq<Action>)
    requires Phase4Spec(spec) && JudgedByTests(spec) && spec.maxSteps == 1
    ensures var r := Behave(b, spec, actions).shared.run;
            Actors.Applied(r.log) >= 1 ==>
              && |r.receipts| == 1 && |r.candidates| == 1
              && if r.receipts[0].exitCode == 0
                 then r.state.status.Succeeded? && r.state.bestCandidateHash == Some(Sha256(CandidateText(r.candidates[0])))
                 else r.state.status.BudgetExhausted? && r.state.bestCandidateHash == None
  {
    hide Behave, Actors.Applied, Produces;
    DecidedAlways(b, spec, actions);
    Always(b, spec, actions);
    ReceiptTells(b, spec, actions);
    StoredRunIsConsistent(Behave(b, spec, actions).shared.run);
  }
}

/** What a patch that nobody interferes with does, from its start to its end, for every child and every sandbox call. */
module Phase4Patched {
  import opened Wrappers
  import opened Contracts
  import opened StateMachine
  import opened RunHistory
  import opened Ledger
  import opened PatchEngine
  import opened PatchGrammar
  import opened Phase4Protocol
  import opened Phase4Evidence
  import opened Phase4Runs
  import Actors
  import Evaluator
  import Sandbox
  import Effects
  import R = RunInvariants

  // ----- what is promised -----

  type Said = Effects.Said

  function Moved(event: EventName): Said {
    Effects.Said(event, Change(None, 0.0))
  }

  /** How far a patch gets: it raises, it fails with an error, or the sandbox returns a result. */
  datatype Course = Raises | Fails(error: string) | Gets(result: Sandbox.SandboxResult)

  /** The course that child and sandbox set, when the artifact directory is new. */
  function CourseOf(b: Sandbox.Baseline, choice: Choice): Course {
    match choice.child
    case LaunchError => Fails("CHILD_LAUNCH_ERROR")
    case Report(succeeded, hasSummary, proposal, _) =>
      if !succeeded || !hasSummary then Fails("CHILD_FAILED")
      else if proposal.None? then Fails("INVALID_CHILD_PAYLOAD")
      else
        match Parse(proposal.value.patch)
        case Err(_) => Fails("INVALID_PATCH")
        case Ok(p) =>
          ParsedIsWellFormed(proposal.value.patch);
          match choice.call
          case Unavailable => Fails("SANDBOX_FAILED")
          case Raises => Course.Raises
          case Prints(env, identityMatches) =>
            match Sandbox.ValidateOutput(env, b, p)
            case Ok(result) => if identityMatches then Gets(result) else Course.Raises
            case Err(e) => if e.NotApplicable? then Course.Raises else Fails("SANDBOX_FAILED")
  }

  /** The entries a patch logs up to the point where its child is judged. */
  function Begun(child: PatchChild): seq<Said> {
    match child
    case LaunchError => [Moved(StartStep)]
    case Report(succeeded, _, _, resultHash) => [Moved(StartStep), Effects.Said(ChildResult, ChildReport(succeeded, resultHash))]
  }

  ghost predicate Untouched(r: Run, r': Run) {
    r'.spec == r.spec && r'.advice == r.advice && r'.memory == r.memory
  }

  ghost predicate LeftRunning(s: Shared, s': Shared, said: seq<Said>) {
    && s'.artifact == s.artifact && s'.directory == s.directory && Untouched(s.run, s'.run) && Effects.SameRows(s.run, s'.run)
    && s'.run.state == s.run.state.(status := Running, revision := s.run.state.revision + 1)
    && Effects.Logged(s.run.log, s'.run.log, said)
  }

  ghost predicate AttemptFailed(s: Shared, s': Shared, said: seq<Said>, error: string) {
    && s'.artifact == s.artifact && s'.directory == s.directory && Untouched(s.run, s'.run) && Effects.SameRows(s.run, s'.run)
    && Effects.Closes(s.run.spec, s.run.state, s'.run.state, 2, None)
    && Effects.Logged(s.run.log, s'.run.log, said + [Moved(ChildFailed), Effects.Said(Phase4Failed, Classification(error))])
  }

  /** The artifact is in place, one attempt is recorded that it bears out, and the verdict of its tests is applied. */
  ghost predicate AttemptRecorded(b: Sandbox.Baseline, s: Shared, s': Shared, choice: Choice, said: seq<Said>, result: Sandbox.SandboxResult)
    requires choice.child.Report? && choice.child.proposal.Some?
  {
    && s'.directory && s'.artifact == Some(result.candidateSource) && Untouched(s.run, s'.run)
    && |s'.run.candidates| == |s'.run.evaluations| == |s'.run.receipts| == 1
    && var c, e, x := s'.run.candidates[0], s'.run.evaluations[0], s'.run.receipts[0];
       var credit := if result.exitCode == 0 then Some(Sha256(CandidateText(c))) else None;
    && Bears(b, s.run.spec, s'.artifact, c, e, x)
    && c.hypothesis == choice.child.proposal.value.rationale && c.childResultHash == choice.child.resultHash
    && x.patchHash == Sha256(PlainText(choice.child.proposal.value.patch))
    && x.exitCode == result.exitCode && x.stdoutHash == result.stdoutHash && x.stderrHash == result.stderrHash
    && Effects.Closes(s.run.spec, s.run.state, s'.run.state, 3, credit)
    && Effects.Logged(s.run.log, s'.run.log,
                      said + [Effects.Said(EventName.SandboxResult, SandboxReport(Sha256(ReceiptText(x)), x.patchHash, x.outputTreeHash)),
                              Moved(CandidateReady),
                              Effects.Said(if credit.Some? then EvaluationEligible else EvaluationIneligible, Change(credit, 0.0))])
  }

  ghost predicate Patched(b: Sandbox.Baseline, s: Shared, s': Shared, choice: Choice) {
    match CourseOf(b, choice)
    case Raises => LeftRunning(s, s', Begun(choice.child))
    case Fails(error) => AttemptFailed(s, s', Begun(choice.child), error)
    case Gets(result) => AttemptRecorded(b, s, s', choice, Begun(choice.child), result)
  }

  // ----- the way there -----

  lemma GoesOn(b: Sandbox.Baseline, s: Shared, pc: Pc, choice: Choice)
    requires !pc.Done?
    ensures var (s', pc') := Next(b, s, pc, choice); Finish(b, s', pc', choice) == Finish(b, s, pc, choice)
  {
    hide Next, Finish;
    FinishAfterStep(b, choice, Config(s, pc));
  }

  /** A call on the run that is accepted. */
  lemma Called(b: Sandbox.Baseline, s: Shared, pc: Pc, choice: Choice, r': Run)
    requires !pc.Done? && !pc.PatchDirectory? && !pc.PatchWrite? && Try(s.run, OpOf(pc)) == Ok(r')
    ensures Finish(b, s, pc, choice) == Finish(b, s.(run := r'), Continue(b, r', pc, choice), choice)
  {
    hide OpOf, Continue, Finish, Try;
    GoesOn(b, s, pc, choice);
  }

  lemma NoteAccepted(r: Run, event: EventName, payload: Payload) returns (r': Run)
    ensures Try(r, Note(event, payload)) == Ok(r') && r' == r.(log := r.log + [EntryOf(event, r.state, payload)])
  {
    r' := Exec(r, Note(event, payload));
  }

  lemma EndedAt(b: Sandbox.Baseline, s: Shared, choice: Choice)
    ensures Finish(b, s, Done, choice) == s
  {
  }

  lemma StartAccepted(r: Run) returns (r': Run)
    requires R.RunInv(r) && r.state.status.Ready? && r.spec.maxCostUsd > 0.0
    ensures Try(r, Commit(StartStep, r.state.revision, None, 0.0)) == Ok(r')
    ensures r'.state == r.state.(status := Running, revision := r.state.revision + 1) && r'.state.runSpecHash == SpecIdentity(r.spec)
    ensures r' == r.(state := r'.state, log := r.log + [EntryOf(StartStep, r'.state, Change(None, 0.0))])
  {
    StoredIsConsistent(r);
    r' := Exec(r, Commit(StartStep, r.state.revision, None, 0.0));
  }

  lemma LaunchCalls(b: Sandbox.Baseline, r: Run, st: RunState, choice: Choice)
    ensures OpOf(PatchLoad).Read? && Continue(b, r, PatchLoad, choice) == PatchStart(r.state)
    ensures OpOf(PatchStart(st)) == Commit(StartStep, st.revision, None, 0.0)
    ensures Continue(b, r, PatchStart(st), choice) == PatchLaunch(r.state)
    ensures OpOf(PatchLaunch(st)).Read?
    ensures Continue(b, r, PatchLaunch(st), choice) ==
            if choice.child.LaunchError? then PatchFail(st, "CHILD_LAUNCH_ERROR") else PatchNoteResult(st, choice.child)
  {
  }

  lemma ReadsReturn(r: Run)
    ensures Try(r, Read) == Ok(r)
  {
  }

  lemma ChildLaunched(b: Sandbox.Baseline, s: Shared, choice: Choice) returns (r: Run)
    requires R.RunInv(s.run) && s.run.state.status.Ready? && s.run.spec.maxCostUsd > 0.0
    ensures r.state == s.run.state.(status := Running, revision := s.run.state.revision + 1) && r.state.runSpecHash == SpecIdentity(r.spec)
    ensures r == s.run.(state := r.state, log := s.run.log + [EntryOf(StartStep, r.state, Change(None, 0.0))])
    ensures var pc' := if choice.child.LaunchError? then PatchFail(r.state, "CHILD_LAUNCH_ERROR") else PatchNoteResult(r.state, choice.child);
            Finish(b, s.(run := r), pc', choice) == Finish(b, s, PatchLoad, choice)
  {
    hide OpOf, Continue, Finish, Try, R.RunInv;
    var st := s.run.state;
    r := StartAccepted(s.run);
    ReadsReturn(s.run);
    ReadsReturn(r);
    LaunchCalls(b, s.run, st, choice);
    LaunchCalls(b, r, st, choice);
    LaunchCalls(b, r, r.state, choice);
    assert s.(run := s.run) == s;
    Called(b, s, PatchLoad, choice, s.run);
    Called(b, s, PatchStart(st), choice, r);
    Called(b, s.(run := r), PatchLaunch(r.state), choice, r);
  }

  // ----- failures -----

  lemma FailureCalls(b: Sandbox.Baseline, r: Run, st: RunState, error: string, choice: Choice)
    ensures OpOf(PatchFail(st, error)) == Commit(ChildFailed, st.revision, None, 0.0)
    ensures Continue(b, r, PatchFail(st, error), choice) == PatchNoteFail(error)
    ensures OpOf(PatchNoteFail(error)) == Note(Phase4Failed, Classification(error)) && Continue(b, r, PatchNoteFail(error), choice) == Done
  {
  }

  lemma FailureAccepted(r: Run) returns (r': Run)
    requires r.state.status.Running? && r.state.runSpecHash == SpecIdentity(r.spec)
    ensures Try(r, Commit(ChildFailed, r.state.revision, None, 0.0)) == Ok(r')
    ensures r' == r.(state := r'.state, log := r.log + [EntryOf(ChildFailed, r'.state, Change(None, 0.0))])
    ensures Effects.Closes(r.spec, r.state, r'.state, 1, None)
  {
    r' := Exec(r, Commit(ChildFailed, r.state.revision, None, 0.0));
  }

  lemma ClosesLater(spec: RunSpec, s: RunState, s1: RunState, s': RunState, n: nat, credit: Option<Digest>)
    requires s1 == s.(status := Running, revision := s.revision + 1) && Effects.Closes(spec, s1, s', n, credit)
    ensures Effects.Closes(spec, s, s', n + 1, credit)
  {
  }

  lemma FailureEnds(b: Sandbox.Baseline, s: Shared, error: string, choice: Choice) returns (r: Run)
    requires s.run.state.status.Running? && s.run.state.runSpecHash == SpecIdentity(s.run.spec)
    ensures Finish(b, s, PatchFail(s.run.state, error), choice) == s.(run := r)
    ensures Effects.Closes(s.run.spec, s.run.state, r.state, 1, None)
    ensures r == s.run.(state := r.state, log := s.run.log + [EntryOf(ChildFailed, r.state, Change(None, 0.0))]
                                                 + [EntryOf(Phase4Failed, r.state, Classification(error))])
  {
    hide OpOf, Continue, Finish, Effects.Closes, Try;
    var r1 := FailureAccepted(s.run);
    r := NoteAccepted(r1, Phase4Failed, Classification(error));
    FailureCalls(b, r1, s.run.state, error, choice);
    FailureCalls(b, r, s.run.state, error, choice);
    Called(b, s, PatchFail(s.run.state, error), choice, r1);
    Called(b, s.(run := r1), PatchNoteFail(error), choice, r);
    EndedAt(b, s.(run := r), choice);
  }

  lemma LaunchFails(b: Sandbox.Baseline, s: Shared, choice: Choice)
    requires R.RunInv(s.run) && s.run.state.status.Ready? && s.run.spec.maxCostUsd > 0.0 && choice.child.LaunchError?
    ensures Patched(b, s, Finish(b, s, PatchLoad, choice), choice)
  {
    hide Finish, R.RunInv, Effects.Closes, Effects.Logged;
    var r1 := ChildLaunched(b, s, choice);
    var r2 := FailureEnds(b, s.(run := r1), "CHILD_LAUNCH_ERROR", choice);
    ClosesLater(s.run.spec, s.run.state, r1.state, r2.state, 1, None);
    var started, failed := EntryOf(StartStep, r1.state, Change(None, 0.0)), EntryOf(ChildFailed, r2.state, Change(None, 0.0));
    var noted := EntryOf(Phase4Failed, r2.state, Classification("CHILD_LAUNCH_ERROR"));
    Effects.LoggedAll(s.run.log, started, failed, noted, noted);
    assert [Moved(StartStep)] + [Moved(ChildFailed), Effects.Said(Phase4Failed, noted.payload)] ==
           [Moved(StartStep), Moved(ChildFailed), Effects.Said(Phase4Failed, noted.payload)];
  }

  lemma ReportCalls(b: Sandbox.Baseline, r: Run, st: RunState, choice: Choice)
    requires choice.child.Report?
    ensures OpOf(PatchNoteResult(st, choice.child)) == Note(ChildResult, ChildReport(choice.child.succeeded, choice.child.resultHash))
    ensures var c := choice.child;
            Continue(b, r, PatchNoteResult(st, c), choice) ==
            if !c.succeeded || !c.hasSummary then PatchFail(st, "CHILD_FAILED")
            else if c.proposal.None? then PatchFail(st, "INVALID_CHILD_PAYLOAD")
            else AfterParse(Parse(c.proposal.value.patch), st, c.proposal.value.rationale, c.resultHash)
  {
    hide Parse, AfterParse;
  }

  lemma SandboxCalls(b: Sandbox.Baseline, r: Run, st: RunState, p: ValidatedPatch, rationale: Rationale, h: Digest, choice: Choice)
    requires p.oldStart >= 1
    ensures OpOf(PatchSandbox(st, p, rationale, h)).Read?
    ensures Continue(b, r, PatchSandbox(st, p, rationale, h), choice) == AfterSandbox(Reply(b, p, choice.call), st, rationale, h)
  {
    hide Reply, AfterSandbox;
  }

  /** Where the report of a child takes its patch, up to the artifact directory. */
  function AfterReport(course: Course, st: RunState, child: PatchChild): Pc
    requires child.Report? && (course.Gets? ==> child.proposal.Some?)
  {
    match course
    case Raises => Done
    case Fails(error) => PatchFail(st, error)
    case Gets(result) => PatchDirectory(st, result, child.proposal.value.rationale, child.resultHash)
  }

  lemma SandboxAnswers(b: Sandbox.Baseline, s: Shared, st: RunState, p: ValidatedPatch, choice: Choice)
    requires choice.child.Report? && choice.child.succeeded && choice.child.hasSummary && choice.child.proposal.Some?
    requires Parse(choice.child.proposal.value.patch) == Ok(p) && p.oldStart >= 1
    ensures AfterSandbox(Reply(b, p, choice.call), st, choice.child.proposal.value.rationale, choice.child.resultHash) ==
            AfterReport(CourseOf(b, choice), st, choice.child)
  {
    hide Parse, Sandbox.ValidateOutput;
  }

  lemma ReportJudged(b: Sandbox.Baseline, s: Shared, st: RunState, choice: Choice) returns (r: Run)
    requires choice.child.Report?
    ensures r == s.run.(log := s.run.log + [EntryOf(ChildResult, s.run.state, ChildReport(choice.child.succeeded, choice.child.resultHash))])
    ensures Finish(b, s, PatchNoteResult(st, choice.child), choice) ==
            Finish(b, s.(run := r), AfterReport(CourseOf(b, choice), st, choice.child), choice)
  {
    hide OpOf, Continue, Finish, Parse, Reply, AfterSandbox, Sandbox.ValidateOutput, Try;
    var c := choice.child;
    r := NoteAccepted(s.run, ChildResult, ChildReport(c.succeeded, c.resultHash));
    ReportCalls(b, r, st, choice);
    Called(b, s, PatchNoteResult(st, c), choice, r);
    if c.succeeded && c.hasSummary && c.proposal.Some? && Parse(c.proposal.value.patch).Ok? {
      var p := Parse(c.proposal.value.patch).value;
      ParsedIsWellFormed(c.proposal.value.patch);
      ReadsReturn(r);
      SandboxCalls(b, r, st, p, c.proposal.value.rationale, c.resultHash, choice);
      SandboxAnswers(b, s, st, p, choice);
      Called(b, s.(run := r), PatchSandbox(st, p, c.proposal.value.rationale, c.resultHash), choice, r);
    }
  }

  lemma ReportFails(b: Sandbox.Baseline, s: Shared, choice: Choice)
    requires R.RunInv(s.run) && s.run.state.status.Ready? && s.run.spec.maxCostUsd > 0.0
    requires choice.child.Report? && !CourseOf(b, choice).Gets?
    ensures Patched(b, s, Finish(b, s, PatchLoad, choice), choice)
  {
    hide Finish, R.RunInv, Effects.Closes, Effects.Logged, CourseOf;
    var r1 := ChildLaunched(b, s, choice);
    var r2 := ReportJudged(b, s.(run := r1), r1.state, choice);
    var said := ChildReport(choice.child.succeeded, choice.child.resultHash);
    var started, reported := EntryOf(StartStep, r1.state, Change(None, 0.0)), EntryOf(ChildResult, r1.state, said);
    if CourseOf(b, choice).Raises? {
      EndedAt(b, s.(run := r2), choice);
      Effects.LoggedAll(s.run.log, started, reported, reported, reported);
    } else {
      var error := CourseOf(b, choice).error;
      var r3 := FailureEnds(b, s.(run := r2), error, choice);
      ClosesLater(s.run.spec, s.run.state, r1.state, r3.state, 1, None);
      var failed, noted := EntryOf(ChildFailed, r3.state, Change(None, 0.0)), EntryOf(Phase4Failed, r3.state, Classification(error));
      Effects.LoggedAll(s.run.log, started, reported, failed, noted);
      assert [Moved(StartStep), Effects.Said(ChildResult, said)] + [Moved(ChildFailed), Effects.Said(Phase4Failed, Classification(error))] ==
             [Moved(StartStep), Effects.Said(ChildResult, said), Moved(ChildFailed), Effects.Said(Phase4Failed, Classification(error))];
    }
  }

  // ----- a result -----

  lemma WriteCalls(b: Sandbox.Baseline, s: Shared, st: RunState, result: Sandbox.SandboxResult, rationale: Rationale, h: Digest, choice: Choice)
    requires !s.directory
    ensures Next(b, s, PatchDirectory(st, result, rationale, h), choice) == (s.(directory := true), PatchWrite(st, result, rationale, h))
    ensures Next(b, s, PatchWrite(st, result, rationale, h), choice) ==
            (s.(artifact := Some(result.candidateSource)), Continue(b, s.run, PatchWrite(st, result, rationale, h), choice))
  {
    hide NewCandidate, NewReceipt, NewOutcome, Evaluator.Evaluate;
  }

  lemma WriteContinues(b: Sandbox.Baseline, r: Run, st: RunState, result: Sandbox.SandboxResult, rationale: Rationale, h: Digest, choice: Choice)
    returns (c: Candidate, e: Evaluation, x: Receipt)
    requires Phase4Spec(r.spec) && JudgedByTests(r.spec) && Validated(b, result)
    ensures Continue(b, r, PatchWrite(st, result, rationale, h), choice) == PatchRecord(st, c, e, x)
    ensures Bears(b, r.spec, Some(result.candidateSource), c, e, x)
    ensures c.hypothesis == rationale && c.childResultHash == h && x.patchHash == result.patchHash
    ensures x.exitCode == result.exitCode && x.stdoutHash == result.stdoutHash && x.stderrHash == result.stderrHash
  {
    hide Evaluator.Evaluate, Bears, Validated, SpecIdentity;
    c := NewCandidate(r.spec, result, rationale, h);
    var judged := Evaluator.Evaluate(r.spec, c, map[TEST_FAILURES := 1.0], NewOutcome(result));
    Evaluator.EvaluateRecords(r.spec, c, map[TEST_FAILURES := 1.0], NewOutcome(result));
    assert forall p <- r.spec.correctnessPredicates :: p in Evaluator.SetOf(r.spec.correctnessPredicates);
    assert judged.Ok?;
    e := judged.value;
    x := NewReceipt(r.spec, c, e, result);
    ResultBears(b, r.spec, result, rationale, h);
  }

  lemma VerdictCalls(b: Sandbox.Baseline, r: Run, st: RunState, c: Candidate, e: Evaluation, x: Receipt, choice: Choice)
    ensures OpOf(PatchRecord(st, c, e, x)) == SandboxAttempt(c, e, x)
    ensures Continue(b, r, PatchRecord(st, c, e, x), choice) == PatchNoteSandbox(st, c, e, x)
    ensures OpOf(PatchNoteSandbox(st, c, e, x)) ==
            Note(EventName.SandboxResult, SandboxReport(Sha256(ReceiptText(x)), x.patchHash, x.outputTreeHash))
    ensures Continue(b, r, PatchNoteSandbox(st, c, e, x), choice) == PatchReady(st, c, e)
    ensures OpOf(PatchReady(st, c, e)) == Commit(CandidateReady, st.revision, None, 0.0)
    ensures Continue(b, r, PatchReady(st, c, e), choice) == PatchApply(r.state, c, e)
    ensures OpOf(PatchApply(st, c, e)) ==
            Commit(if e.eligible then EvaluationEligible else EvaluationIneligible, st.revision,
                   if e.eligible then Some(Sha256(CandidateText(c))) else None, 0.0)
    ensures Continue(b, r, PatchApply(st, c, e), choice) == Done
  {
  }

  lemma AttemptAccepted(r: Run, c: Candidate, e: Evaluation, x: Receipt)
    requires NoRows(r)
    ensures Try(r, SandboxAttempt(c, e, x)) == Ok(r.(candidates := [c], evaluations := [e], receipts := [x]))
  {
    FirstRow(r, c, e, x, Exec(r, SandboxAttempt(c, e, x)));
  }

  lemma ReadyAccepted(r: Run) returns (r': Run)
    requires r.state.status.Running? && r.state.runSpecHash == SpecIdentity(r.spec)
    ensures Try(r, Commit(CandidateReady, r.state.revision, None, 0.0)) == Ok(r')
    ensures r'.state == r.state.(status := Evaluating, revision := r.state.revision + 1)
    ensures r' == r.(state := r'.state, log := r.log + [EntryOf(CandidateReady, r'.state, Change(None, 0.0))])
  {
    r' := Exec(r, Commit(CandidateReady, r.state.revision, None, 0.0));
  }

  lemma VerdictAccepted(r: Run, event: EventName, credit: Option<Digest>) returns (r': Run)
    requires r.state.status.Evaluating? && r.state.runSpecHash == SpecIdentity(r.spec)
    requires if credit.Some? then event.EvaluationEligible? else event.EvaluationIneligible?
    ensures Try(r, Commit(event, r.state.revision, credit, 0.0)) == Ok(r') && Effects.Closes(r.spec, r.state, r'.state, 1, credit)
    ensures r' == r.(state := r'.state, log := r.log + [EntryOf(event, r'.state, Change(credit, 0.0))])
  {
    r' := Exec(r, Commit(event, r.state.revision, credit, 0.0));
  }

  lemma ReadyCloses(spec: RunSpec, s: RunState, s1: RunState, s2: RunState, s': RunState, credit: Option<Digest>)
    requires s1 == s.(status := Running, revision := s.revision + 1) && s2 == s1.(status := Evaluating, revision := s1.revision + 1)
    requires Effects.Closes(spec, s2, s', 1, credit)
    ensures Effects.Closes(spec, s, s', 3, credit)
  {
  }

  /** The record of an attempt is followed by its note. */
  lemma RecordNoted(b: Sandbox.Baseline, s: Shared, c: Candidate, e: Evaluation, x: Receipt, choice: Choice) returns (r: Run)
    requires NoRows(s.run)
    ensures var said := SandboxReport(Sha256(ReceiptText(x)), x.patchHash, x.outputTreeHash);
            r == s.run.(candidates := [c], evaluations := [e], receipts := [x],
                        log := s.run.log + [EntryOf(EventName.SandboxResult, s.run.state, said)])
    ensures Finish(b, s, PatchRecord(s.run.state, c, e, x), choice) == Finish(b, s.(run := r), PatchReady(s.run.state, c, e), choice)
  {
    hide OpOf, Continue, Finish, NoRows, Try;
    var st := s.run.state;
    AttemptAccepted(s.run, c, e, x);
    var r0 := s.run.(candidates := [c], evaluations := [e], receipts := [x]);
    r := NoteAccepted(r0, EventName.SandboxResult, SandboxReport(Sha256(ReceiptText(x)), x.patchHash, x.outputTreeHash));
    VerdictCalls(b, r0, st, c, e, x, choice);
    VerdictCalls(b, r, st, c, e, x, choice);
    Called(b, s, PatchRecord(st, c, e, x), choice, r0);
    Called(b, s.(run := r0), PatchNoteSandbox(st, c, e, x), choice, r);
  }

  lemma VerdictEnds(b: Sandbox.Baseline, s: Shared, c: Candidate, e: Evaluation, x: Receipt, choice: Choice) returns (r: Run)
    requires s.run.state.status.Evaluating? && s.run.state.runSpecHash == SpecIdentity(s.run.spec)
    ensures Finish(b, s, PatchApply(s.run.state, c, e), choice) == s.(run := r)
    ensures var credit := if e.eligible then Some(Sha256(CandidateText(c))) else None;
            var event := if e.eligible then EvaluationEligible else EvaluationIneligible;
            && Effects.Closes(s.run.spec, s.run.state, r.state, 1, credit)
            && r == s.run.(state := r.state, log := s.run.log + [EntryOf(event, r.state, Change(credit, 0.0))])
  {
    hide OpOf, Continue, Finish, Effects.Closes, Try;
    var credit := if e.eligible then Some(Sha256(CandidateText(c))) else None;
    r := VerdictAccepted(s.run, if e.eligible then EvaluationEligible else EvaluationIneligible, credit);
    VerdictCalls(b, r, s.run.state, c, e, x, choice);
    Called(b, s, PatchApply(s.run.state, c, e), choice, r);
    EndedAt(b, s.(run := r), choice);
  }

  /** From its record on, a patch notes the receipt, commits the verdict and ends. */
  lemma RecordEnds(b: Sandbox.Baseline, s: Shared, c: Candidate, e: Evaluation, x: Receipt, choice: Choice) returns (r2: Run, r: Run)
    requires NoRows(s.run) && s.run.state.status.Running? && s.run.state.runSpecHash == SpecIdentity(s.run.spec)
    ensures Finish(b, s, PatchRecord(s.run.state, c, e, x), choice) == s.(run := r)
    ensures r.candidates == [c] && r.evaluations == [e] && r.receipts == [x] && Untouched(s.run, r)
    ensures r2.state == s.run.state.(status := Evaluating, revision := s.run.state.revision + 1)
    ensures var credit := if e.eligible then Some(Sha256(CandidateText(c))) else None;
            var event := if e.eligible then EvaluationEligible else EvaluationIneligible;
            && Effects.Closes(s.run.spec, r2.state, r.state, 1, credit)
            && r.log == s.run.log
                        + [EntryOf(EventName.SandboxResult, s.run.state, SandboxReport(Sha256(ReceiptText(x)), x.patchHash, x.outputTreeHash))]
                        + [EntryOf(CandidateReady, r2.state, Change(None, 0.0))] + [EntryOf(event, r.state, Change(credit, 0.0))]
  {
    hide OpOf, Continue, Finish, Effects.Closes, NoRows, Try;
    var st := s.run.state;
    var r1 := RecordNoted(b, s, c, e, x, choice);
    r2 := ReadyAccepted(r1);
    VerdictCalls(b, r2, st, c, e, x, choice);
    Called(b, s.(run := r1), PatchReady(st, c, e), choice, r2);
    r := VerdictEnds(b, s.(run := r2), c, e, x, choice);
  }

  lemma ResultValidated(b: Sandbox.Baseline, choice: Choice)
    requires CourseOf(b, choice).Gets?
    ensures choice.child.Report? && choice.child.proposal.Some? && Validated(b, CourseOf(b, choice).result)
    ensures CourseOf(b, choice).result.patchHash == Sha256(PlainText(choice.child.proposal.value.patch))
  {
    hide Parse, Sandbox.ValidateOutput, Validated;
    var payload := choice.child.proposal.value.patch;
    var p := Parse(payload).value;
    ParsedIsWellFormed(payload);
    ReplyValidates(b, p, choice.call);
    Sandbox.AcceptedFields(choice.call.env, b, p);
  }

  lemma ResultWritten(b: Sandbox.Baseline, s: Shared, st: RunState, result: Sandbox.SandboxResult, rationale: Rationale, h: Digest, choice: Choice)
    returns (c: Candidate, e: Evaluation, x: Receipt)
    requires Phase4Spec(s.run.spec) && JudgedByTests(s.run.spec) && Validated(b, result) && !s.directory
    ensures var s' := s.(directory := true, artifact := Some(result.candidateSource));
            Finish(b, s, PatchDirectory(st, result, rationale, h), choice) == Finish(b, s', PatchRecord(st, c, e, x), choice)
    ensures Bears(b, s.run.spec, Some(result.candidateSource), c, e, x)
    ensures c.hypothesis == rationale && c.childResultHash == h && x.patchHash == result.patchHash
    ensures x.exitCode == result.exitCode && x.stdoutHash == result.stdoutHash && x.stderrHash == result.stderrHash
  {
    hide Next, Finish, Continue, Bears, Validated, JudgedByTests, Phase4Spec;
    c, e, x := WriteContinues(b, s.run, st, result, rationale, h, choice);
    WriteCalls(b, s, st, result, rationale, h, choice);
    WriteMore(b, s.(directory := true), st, result, rationale, h, choice);
    GoesOn(b, s, PatchDirectory(st, result, rationale, h), choice);
    GoesOn(b, s.(directory := true), PatchWrite(st, result, rationale, h), choice);
  }

  lemma WriteMore(b: Sandbox.Baseline, s: Shared, st: RunState, result: Sandbox.SandboxResult, rationale: Rationale, h: Digest, choice: Choice)
    ensures Next(b, s, PatchWrite(st, result, rationale, h), choice) ==
            (s.(artifact := Some(result.candidateSource)), Continue(b, s.run, PatchWrite(st, result, rationale, h), choice))
  {
    hide Continue;
  }

  lemma ResultRecorded(b: Sandbox.Baseline, s: Shared, choice: Choice)
    requires R.RunInv(s.run) && s.run.state.status.Ready? && s.run.spec.maxCostUsd > 0.0 && NoRows(s.run) && !s.directory
    requires Phase4Spec(s.run.spec) && JudgedByTests(s.run.spec) && CourseOf(b, choice).Gets?
    ensures Patched(b, s, Finish(b, s, PatchLoad, choice), choice)
  {
    hide Finish, R.RunInv, Effects.Closes, Effects.Logged, CourseOf, Bears, Validated, JudgedByTests, Phase4Spec;
    var result := CourseOf(b, choice).result;
    ResultValidated(b, choice);
    var rationale, h := choice.child.proposal.value.rationale, choice.child.resultHash;
    var r1 := ChildLaunched(b, s, choice);
    var r2 := ReportJudged(b, s.(run := r1), r1.state, choice);
    var c, e, x := ResultWritten(b, s.(run := r2), r1.state, result, rationale, h, choice);
    var written := Shared(r2, true, Some(result.candidateSource));
    var r3, r := RecordEnds(b, written, c, e, x, choice);
    VerdictOfReceipt(b, s.run.spec, written.artifact, c, e, x);
    ResultCredited(b, s, written, choice, result, r1, r2, r3, r);
  }

  lemma VerdictOfReceipt(b: Sandbox.Baseline, spec: RunSpec, artifact: Option<string>, c: Candidate, e: Evaluation, x: Receipt)
    requires Bears(b, spec, artifact, c, e, x) && JudgedByTests(spec)
    ensures e.eligible <==> x.exitCode == 0
  {
  }

  lemma ResultCredited(b: Sandbox.Baseline, s: Shared, written: Shared, choice: Choice, result: Sandbox.SandboxResult,
                       r1: Run, r2: Run, r3: Run, r: Run)
    requires CourseOf(b, choice) == Gets(result) && choice.child.Report? && choice.child.proposal.Some?
    requires written == Shared(r2, true, Some(result.candidateSource)) && Finish(b, s, PatchLoad, choice) == written.(run := r)
    requires r1.state == s.run.state.(status := Running, revision := s.run.state.revision + 1)
    requires r1 == s.run.(state := r1.state, log := s.run.log + [EntryOf(StartStep, r1.state, Change(None, 0.0))])
    requires r2 == r1.(log := r1.log + [EntryOf(ChildResult, r1.state, ChildReport(choice.child.succeeded, choice.child.resultHash))])
    requires r3.state == r1.state.(status := Evaluating, revision := r1.state.revision + 1)
    requires |r.candidates| == |r.evaluations| == |r.receipts| == 1 && Untouched(r2, r)
    requires var c, e, x := r.candidates[0], r.evaluations[0], r.receipts[0];
             var credit := if e.eligible then Some(Sha256(CandidateText(c))) else None;
             var event := if e.eligible then EvaluationEligible else EvaluationIneligible;
             && Bears(b, s.run.spec, written.artifact, c, e, x) && (e.eligible <==> x.exitCode == 0)
             && c.hypothesis == choice.child.proposal.value.rationale && c.childResultHash == choice.child.resultHash
             && x.patchHash == Sha256(PlainText(choice.child.proposal.value.patch))
             && x.exitCode == result.exitCode && x.stdoutHash == result.stdoutHash && x.stderrHash == result.stderrHash
             && Effects.Closes(s.run.spec, r3.state, r.state, 1, credit)
             && r.log == r2.log
                         + [EntryOf(EventName.SandboxResult, r1.state, SandboxReport(Sha256(ReceiptText(x)), x.patchHash, x.outputTreeHash))]
                         + [EntryOf(CandidateReady, r3.state, Change(None, 0.0))] + [EntryOf(event, r.state, Change(credit, 0.0))]
    ensures Patched(b, s, Finish(b, s, PatchLoad, choice), choice)
  {
    hide Finish, Effects.Closes, CourseOf, Bears;
    var c, e := r.candidates[0], r.evaluations[0];
    ReadyCloses(s.run.spec, s.run.state, r1.state, r3.state, r.state, if e.eligible then Some(Sha256(CandidateText(c))) else None);
  }

  /**
   * A patch of a ready run with something to spend, judged by its tests, in a new artifact directory. If child or
   * sandbox fail as they declare, the attempt is closed with that error; if the sandbox raises, it stays in flight;
   * and if the sandbox returns a result, that result is put in place, recorded with its receipt, and decides the
   * verdict by its exit code.
   */
  lemma PatchTells(b: Sandbox.Baseline, s: Shared, choice: Choice)
    requires R.RunInv(s.run) && s.run.state.status.Ready? && s.run.spec.maxCostUsd > 0.0 && NoRows(s.run) && !s.directory
    requires Phase4Spec(s.run.spec) && JudgedByTests(s.run.spec)
    ensures Patched(b, s, Finish(b, s, PatchLoad, choice), choice)
  {
    hide R.RunInv, Finish, Patched, CourseOf, Phase4Spec, JudgedByTests;
    if choice.child.LaunchError? {
      LaunchFails(b, s, choice);
    } else if CourseOf(b, choice).Gets? {
      ResultRecorded(b, s, choice);
    } else {
      ReportFails(b, s, choice);
    }
  }

  // ----- with the runner as it is -----

  /** A new run, approved and noted. */
  function NewRun(b: Sandbox.Baseline, spec: RunSpec): Shared {
    Finish(b, Shared(Create(spec), false, None), NewApprove, Choice(PatchChild.LaunchError, Unavailable))
  }

  lemma NewRunIsReady(b: Sandbox.Baseline, spec: RunSpec)
    requires Phase4Spec(spec)
    ensures var s := NewRun(b, spec);
            && R.RunInv(s.run) && s.run.state.status.Ready? && NoRows(s.run) && !s.directory && s.run.spec == spec
  {
    hide R.RunInv, SoundAt;
    var s, choice := Shared(Create(spec), false, None), Choice(PatchChild.LaunchError, Unavailable);
    CreatedSound(b, spec);
    SoundRunFor(b, s, NewApprove, choice, StepsLeft(NewApprove));
    var r1 := Exec(s.run, Commit(Approve, 0, None, 0.0));
    var r2 := Exec(r1, Note(SandboxPreflight, Classification("SANDBOX_PREFLIGHT")));
    NewCalls(b, r1, choice);
    NewCalls(b, r2, choice);
    hide Finish, OpOf, Continue;
    Called(b, s, NewApprove, choice, r1);
    Called(b, s.(run := r1), NewNote, choice, r2);
    EndedAt(b, s.(run := r2), choice);
  }

  lemma NewCalls(b: Sandbox.Baseline, r: Run, choice: Choice)
    ensures OpOf(NewApprove) == Commit(Approve, 0, None, 0.0) && Continue(b, r, NewApprove, choice) == NewNote
    ensures OpOf(NewNote) == Note(SandboxPreflight, Classification("SANDBOX_PREFLIGHT")) && Continue(b, r, NewNote, choice) == Done
  {
  }

  /** A child that proposes payload, and a sandbox that runs the runner on it. */
  function HonestChoice(b: Sandbox.Baseline, payload: string, rationale: Rationale, h: Digest, t: Sandbox.TestRun): Choice
    requires Sandbox.RunnerMain(b, payload, t).Ok?
  {
    Choice(PatchChild.Report(true, true, Some(Proposal(payload, rationale)), h), SandboxCall.Prints(Sandbox.RunnerMain(b, payload, t).value, true))
  }

  lemma HonestCourse(b: Sandbox.Baseline, payload: string, rationale: Rationale, h: Digest, t: Sandbox.TestRun)
    requires Parse(payload).Ok? && Parse(payload).value.oldStart >= 1 && Sandbox.HostRun(b, Parse(payload).value, t).Ok?
    ensures Sandbox.RunnerMain(b, payload, t).Ok?
    ensures CourseOf(b, HonestChoice(b, payload, rationale, h, t)) == Gets(Sandbox.HostRun(b, Parse(payload).value, t).value)
  {
    hide Parse, Sandbox.RunnerMain, Sandbox.ValidateOutput;
    ParsedIsWellFormed(payload);
  }

  /**
   * A new run as phase4.py creates it, whose child proposes a patch that the runner applies to the baseline and the
   * host accepts, succeeds exactly if the tests pass, with the candidate as its best, and exhausts its budget if not.
   * The receipt holds the exit code and the hashes of what the tests printed.
   */
  lemma NewRunIsPatched(b: Sandbox.Baseline, spec: RunSpec, payload: string, rationale: Rationale, h: Digest, t: Sandbox.TestRun)
    requires Phase4Spec(spec) && JudgedByTests(spec) && spec.maxSteps == 1 && spec.maxCostUsd > 0.0
    requires Parse(payload).Ok? && Parse(payload).value.oldStart >= 1 && Sandbox.HostRun(b, Parse(payload).value, t).Ok?
    ensures Sandbox.RunnerMain(b, payload, t).Ok?
    ensures var r := Finish(b, NewRun(b, spec), PatchLoad, HonestChoice(b, payload, rationale, h, t)).run;
            && |r.receipts| == |r.candidates| == 1
            && r.receipts[0].exitCode == t.exitCode && r.receipts[0].patchHash == Sha256(PlainText(payload))
            && r.receipts[0].stdoutHash == Sha256(PlainText(t.stdout)) && r.receipts[0].stderrHash == Sha256(PlainText(t.stderr))
            && if t.exitCode == 0 then r.state.status.Succeeded? && r.state.bestCandidateHash == Some(Sha256(CandidateText(r.candidates[0])))
               else r.state.status.BudgetExhausted?
  {
    hide NewRun, Finish, R.RunInv, Parse, Sandbox.HostRun, Sandbox.RunnerMain, CourseOf, Bears, JudgedByTests, Phase4Spec, Effects.Logged;
    NewRunIsReady(b, spec);
    HonestCourse(b, payload, rationale, h, t);
    Sandbox.HostRunAccepts(b, payload, t);
    PatchTells(b, NewRun(b, spec), HonestChoice(b, payload, rationale, h, t));
  }

  // ----- cancel -----

  lemma CancelCalls(b: Sandbox.Baseline, r: Run, st: RunState, choice: Choice)
    ensures OpOf(CanLoad).Read? && Continue(b, r, CanLoad, choice) == if InFlight(r.state) then Done else CanCommit(r.state)
    ensures OpOf(CanCommit(st)) == Commit(Cancel, st.revision, None, 0.0) && Continue(b, r, CanCommit(st), choice) == Done
  {
  }

  lemma CancelAccepted(r: Run) returns (r': Run)
    requires R.RunInv(r) && !r.state.IsTerminal()
    ensures Try(r, Commit(Cancel, r.state.revision, None, 0.0)) == Ok(r')
    ensures r'.state == r.state.(status := Cancelled, revision := r.state.revision + 1)
    ensures r' == r.(state := r'.state, log := r.log + [EntryOf(Cancel, r'.state, Change(None, 0.0))])
  {
    StoredIsConsistent(r);
    r' := Exec(r, Commit(Cancel, r.state.revision, None, 0.0));
  }

  lemma CancelRefused(r: Run)
    requires r.state.IsTerminal()
    ensures Try(r, Commit(Cancel, r.state.revision, None, 0.0)).Err? && !InFlight(r.state)
  {
  }

  /** A cancel that nobody interferes with only cancels a run that has neither ended nor an attempt in flight; else it changes nothing. */
  lemma PatchCancelTells(b: Sandbox.Baseline, s: Shared, choice: Choice)
    requires R.RunInv(s.run)
    ensures var s' := Finish(b, s, CanLoad, choice);
            if InFlight(s.run.state) || s.run.state.IsTerminal() then s' == s
            else
              && s' == s.(run := s'.run) && Untouched(s.run, s'.run) && Effects.SameRows(s.run, s'.run)
              && s'.run.state == s.run.state.(status := Cancelled, revision := s.run.state.revision + 1)
              && Effects.Logged(s.run.log, s'.run.log, [Moved(Cancel)])
  {
    hide OpOf, Continue, Finish, R.RunInv, Try, InFlight, Effects.Logged;
    var r, st := s.run, s.run.state;
    CancelCalls(b, r, st, choice);
    ReadsReturn(r);
    assert s.(run := r) == s;
    Called(b, s, CanLoad, choice, r);
    if st.IsTerminal() {
      CancelRefused(r);
      GoesOn(b, s, CanCommit(st), choice);
    } else if !InFlight(st) {
      var r' := CancelAccepted(r);
      CancelCalls(b, r', st, choice);
      Called(b, s, CanCommit(st), choice, r');
      EndedAt(b, s.(run := r'), choice);
      var entry := EntryOf(Cancel, r'.state, Change(None, 0.0));
      Effects.LoggedAll(r.log, entry, entry, entry, entry);
    }
    EndedAt(b, s, choice);
  }

  // ----- reconcile -----

  /** The last pair on record is applied as the verdict of the attempt in flight. */
  ghost predicate VerdictReplayed(r: Run, r': Run)
    requires r.candidates != [] && r.evaluations != []
  {
    var c, e := r.candidates[|r.candidates| - 1], r.evaluations[|r.evaluations| - 1];
    var credit := if e.eligible then Some(Sha256(CandidateText(c))) else None;
    var verdict := Effects.Said(if e.eligible then EvaluationEligible else EvaluationIneligible, Change(credit, 0.0));
    && Effects.Closes(r.spec, r.state, r'.state, if r.state.status.Running? then 2 else 1, credit)
    && Effects.Logged(r.log, r'.log, if r.state.status.Running? then [Moved(CandidateReady), verdict] else [verdict])
  }

  /** The attempt in flight is closed as interrupted. */
  ghost predicate AttemptInterrupted(r: Run, r': Run) {
    && r.state.status.Running? && Effects.Closes(r.spec, r.state, r'.state, 1, None)
    && Effects.Logged(r.log, r'.log, [Moved(Interrupt), Effects.Said(Interrupted, Classification("INTERRUPTED"))])
  }

  lemma RecoveryCalls(b: Sandbox.Baseline, r: Run, st: RunState, choice: Choice)
    ensures OpOf(RecLoad).Read? && Continue(b, r, RecLoad, choice) == if InFlight(r.state) then RecLineage(r.state) else Done
    ensures OpOf(RecLineage(st)).Read? && Continue(b, r, RecLineage(st), choice) == RecReceipts(st, r.candidates, r.evaluations)
    ensures OpOf(RecReceipts(st, r.candidates, r.evaluations)).Read?
    ensures Continue(b, r, RecReceipts(st, r.candidates, r.evaluations), choice) == RecEvents(st, r.candidates, r.evaluations, |r.receipts|)
  {
  }

  lemma EvidenceCalls(b: Sandbox.Baseline, r: Run, st: RunState, choice: Choice)
    requires |r.receipts| == |r.evaluations| == |r.candidates|
    ensures OpOf(RecEvents(st, r.candidates, r.evaluations, |r.receipts|)).Read?
    ensures Continue(b, r, RecEvents(st, r.candidates, r.evaluations, |r.receipts|), choice) ==
            if |r.evaluations| <= Actors.Applied(r.log) then RecMiss(st)
            else
              var c, e := r.candidates[|r.candidates| - 1], r.evaluations[|r.evaluations| - 1];
              if st.status.Running? then RecReady(st, c, e) else RecApply(st, c, e)
  {
    hide Actors.Applied;
  }

  /** What a reconcile of an attempt in flight finds. */
  lemma EvidenceFound(b: Sandbox.Baseline, s: Shared, choice: Choice)
    requires InFlight(s.run.state) && |s.run.receipts| == |s.run.evaluations| == |s.run.candidates|
    ensures var r, st := s.run, s.run.state;
            Finish(b, s, RecLoad, choice) ==
            if |r.evaluations| <= Actors.Applied(r.log) then Finish(b, s, RecMiss(st), choice)
            else
              var c, e := r.candidates[|r.candidates| - 1], r.evaluations[|r.evaluations| - 1];
              if st.status.Running? then Finish(b, s, RecReady(st, c, e), choice) else Finish(b, s, RecApply(st, c, e), choice)
  {
    hide OpOf, Continue, Finish, Actors.Applied;
    var r, st := s.run, s.run.state;
    RecoveryCalls(b, r, st, choice);
    EvidenceCalls(b, r, st, choice);
    ReadsReturn(r);
    assert s.(run := r) == s;
    Called(b, s, RecLoad, choice, r);
    Called(b, s, RecLineage(st), choice, r);
    Called(b, s, RecReceipts(st, r.candidates, r.evaluations), choice, r);
    Called(b, s, RecEvents(st, r.candidates, r.evaluations, |r.receipts|), choice, r);
  }

  lemma ReplayCalls(b: Sandbox.Baseline, r: Run, st: RunState, c: Candidate, e: Evaluation, choice: Choice)
    ensures OpOf(RecReady(st, c, e)) == Commit(CandidateReady, st.revision, None, 0.0)
    ensures Continue(b, r, RecReady(st, c, e), choice) == RecApply(r.state, c, e)
    ensures OpOf(RecApply(st, c, e)) ==
            Commit(if e.eligible then EvaluationEligible else EvaluationIneligible, st.revision,
                   if e.eligible then Some(Sha256(CandidateText(c))) else None, 0.0)
    ensures Continue(b, r, RecApply(st, c, e), choice) == Done
  {
  }

  lemma ReadyThenCloses(spec: RunSpec, s: RunState, s1: RunState, s': RunState, credit: Option<Digest>)
    requires s1 == s.(status := Evaluating, revision := s.revision + 1) && Effects.Closes(spec, s1, s', 1, credit)
    ensures Effects.Closes(spec, s, s', 2, credit)
  {
  }

  lemma VerdictReplays(b: Sandbox.Baseline, s: Shared, c: Candidate, e: Evaluation, choice: Choice) returns (r: Run)
    requires s.run.state.status.Evaluating? && s.run.state.runSpecHash == SpecIdentity(s.run.spec)
    ensures Finish(b, s, RecApply(s.run.state, c, e), choice) == s.(run := r)
    ensures var credit := if e.eligible then Some(Sha256(CandidateText(c))) else None;
            var event := if e.eligible then EvaluationEligible else EvaluationIneligible;
            && Effects.Closes(s.run.spec, s.run.state, r.state, 1, credit)
            && r == s.run.(state := r.state, log := s.run.log + [EntryOf(event, r.state, Change(credit, 0.0))])
  {
    hide OpOf, Continue, Finish, Effects.Closes, Try;
    var credit := if e.eligible then Some(Sha256(CandidateText(c))) else None;
    r := VerdictAccepted(s.run, if e.eligible then EvaluationEligible else EvaluationIneligible, credit);
    ReplayCalls(b, r, s.run.state, c, e, choice);
    Called(b, s, RecApply(s.run.state, c, e), choice, r);
    EndedAt(b, s.(run := r), choice);
  }

  lemma ReadyReplays(b: Sandbox.Baseline, s: Shared, c: Candidate, e: Evaluation, choice: Choice) returns (r: Run)
    requires s.run.state.status.Running? && s.run.state.runSpecHash == SpecIdentity(s.run.spec)
    ensures r.state == s.run.state.(status := Evaluating, revision := s.run.state.revision + 1)
    ensures r == s.run.(state := r.state, log := s.run.log + [EntryOf(CandidateReady, r.state, Change(None, 0.0))])
    ensures Finish(b, s, RecReady(s.run.state, c, e), choice) == Finish(b, s.(run := r), RecApply(r.state, c, e), choice)
  {
    hide OpOf, Continue, Finish, Try;
    r := ReadyAccepted(s.run);
    ReplayCalls(b, r, s.run.state, c, e, choice);
    Called(b, s, RecReady(s.run.state, c, e), choice, r);
  }

  lemma Replays(b: Sandbox.Baseline, s: Shared, choice: Choice)
    requires R.RunInv(s.run) && InFlight(s.run.state) && |s.run.receipts| == |s.run.evaluations| == |s.run.candidates|
    requires |s.run.evaluations| > Actors.Applied(s.run.log)
    ensures var s' := Finish(b, s, RecLoad, choice);
            s' == s.(run := s'.run) && Untouched(s.run, s'.run) && Effects.SameRows(s.run, s'.run) && VerdictReplayed(s.run, s'.run)
  {
    hide Finish, Actors.Applied, R.RunInv, Effects.Closes, Effects.Logged;
    StoredIsConsistent(s.run);
    EvidenceFound(b, s, choice);
    var r, c, e := s.run, s.run.candidates[|s.run.candidates| - 1], s.run.evaluations[|s.run.evaluations| - 1];
    var credit := if e.eligible then Some(Sha256(CandidateText(c))) else None;
    var event := if e.eligible then EvaluationEligible else EvaluationIneligible;
    if r.state.status.Running? {
      var r1 := ReadyReplays(b, s, c, e, choice);
      var r2 := VerdictReplays(b, s.(run := r1), c, e, choice);
      var ready, verdict := EntryOf(CandidateReady, r1.state, Change(None, 0.0)), EntryOf(event, r2.state, Change(credit, 0.0));
      Effects.LoggedAll(r.log, ready, verdict, verdict, verdict);
      ReadyThenCloses(r.spec, r.state, r1.state, r2.state, credit);
    } else {
      var r2 := VerdictReplays(b, s, c, e, choice);
      var verdict := EntryOf(event, r2.state, Change(credit, 0.0));
      Effects.LoggedAll(r.log, verdict, verdict, verdict, verdict);
    }
  }

  lemma MissCalls(b: Sandbox.Baseline, r: Run, st: RunState, choice: Choice)
    requires st.status.Running?
    ensures OpOf(RecMiss(st)) == Commit(Interrupt, st.revision, None, 0.0) && Continue(b, r, RecMiss(st), choice) == RecNoteMiss(true)
    ensures OpOf(RecNoteMiss(true)) == Note(Interrupted, Classification("INTERRUPTED")) && Continue(b, r, RecNoteMiss(true), choice) == Done
  {
  }

  lemma InterruptAccepted(r: Run) returns (r': Run)
    requires r.state.status.Running? && r.state.runSpecHash == SpecIdentity(r.spec)
    ensures Try(r, Commit(Interrupt, r.state.revision, None, 0.0)) == Ok(r') && Effects.Closes(r.spec, r.state, r'.state, 1, None)
    ensures r' == r.(state := r'.state, log := r.log + [EntryOf(Interrupt, r'.state, Change(None, 0.0))])
  {
    r' := Exec(r, Commit(Interrupt, r.state.revision, None, 0.0));
  }

  lemma Interrupts(b: Sandbox.Baseline, s: Shared, choice: Choice)
    requires R.RunInv(s.run) && s.run.state.status.Running? && |s.run.receipts| == |s.run.evaluations| == |s.run.candidates|
    requires |s.run.evaluations| <= Actors.Applied(s.run.log)
    ensures var s' := Finish(b, s, RecLoad, choice);
            s' == s.(run := s'.run) && Untouched(s.run, s'.run) && Effects.SameRows(s.run, s'.run) && AttemptInterrupted(s.run, s'.run)
  {
    hide OpOf, Continue, Finish, Actors.Applied, R.RunInv, Effects.Closes, Effects.Logged, Try;
    StoredIsConsistent(s.run);
    EvidenceFound(b, s, choice);
    var r, st := s.run, s.run.state;
    var r1 := InterruptAccepted(r);
    var r2 := NoteAccepted(r1, Interrupted, Classification("INTERRUPTED"));
    MissCalls(b, r1, st, choice);
    MissCalls(b, r2, st, choice);
    Called(b, s, RecMiss(st), choice, r1);
    Called(b, s.(run := r1), RecNoteMiss(true), choice, r2);
    EndedAt(b, s.(run := r2), choice);
    var closed, noted := EntryOf(Interrupt, r1.state, Change(None, 0.0)), EntryOf(Interrupted, r1.state, Classification("INTERRUPTED"));
    Effects.LoggedAll(r.log, closed, noted, noted, noted);
  }

  /**
   * After any interleaving, a reconcile that then runs undisturbed leaves a run with nothing in flight as it was,
   * applies the recorded verdict if there is one that is not applied, and else closes the attempt as interrupted.
   */
  lemma PatchReconcileTells(b: Sandbox.Baseline, spec: RunSpec, actions: seq<Action>, choice: Choice)
    requires Phase4Spec(spec)
    ensures var s := Behave(b, spec, actions).shared;
            var s' := Finish(b, s, RecLoad, choice);
            && s' == s.(run := s'.run) && Untouched(s.run, s'.run) && Effects.SameRows(s.run, s'.run)
            && if !InFlight(s.run.state) then s' == s
               else if |s.run.evaluations| > Actors.Applied(s.run.log) then s.run.candidates != [] && VerdictReplayed(s.run, s'.run)
               else AttemptInterrupted(s.run, s'.run)
  {
    hide Behave, Finish, R.RunInv, SharedInv, Actors.Applied, VerdictReplayed, AttemptInterrupted;
    Always(b, spec, actions);
    InformedAlways(b, spec, actions);
    var s := Behave(b, spec, actions).shared;
    PairsCounted(b, s);
    if !InFlight(s.run.state) {
      ReconcileIsIdempotent(b, s, choice);
    } else if |s.run.evaluations| > Actors.Applied(s.run.log) {
      Replays(b, s, choice);
    } else {
      Interrupts(b, s, choice);
    }
  }

  lemma PairsCounted(b: Sandbox.Baseline, s: Shared)
    requires SharedInv(b, s) && R.RunInv(s.run)
    ensures |s.run.receipts| == |s.run.evaluations| == |s.run.candidates|
    ensures s.run.state.status.Evaluating? ==> Actors.Applied(s.run.log) < |s.run.evaluations|
  {
    hide Produces, Bears;
  }
}

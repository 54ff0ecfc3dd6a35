/**
 * The Phase 4 operations of phase4.py, interleaved at their store and file-system
 * steps: the artifact is written before the receipt, the receipt before the verdict.
 */
module Phase4Protocol {
  import opened Wrappers
  import opened Contracts
  import opened StateMachine
  import opened RunHistory
  import opened Ledger
  import opened LogReplay
  import opened PatchText
  import opened PatchEngine
  import opened PatchGrammar
  import opened Sandbox
  import Actors
  import Evaluator

  const TESTS_PASS := "tests_pass"
  const OUTPUT_MATCHES := "output_matches"
  const TEST_FAILURES := "test_failures"

  /** What a patch child may do. */
  datatype PatchChild =
    | LaunchError
    | Report(succeeded: bool, hasSummary: bool, proposal: Option<Proposal>, resultHash: Digest)

  datatype Proposal = Proposal(patch: string, rationale: Rationale)

  /** What the sandbox call may do: fail as it declares, raise otherwise, or return some envelope. */
  datatype SandboxCall = Unavailable | Raises | Prints(env: Envelope, identityMatches: bool)

  /** The choices the environment makes for one step. */
  datatype Choice = Choice(child: PatchChild, call: SandboxCall)

  /** The run, and the artifact directory of the run. */
  datatype Shared = Shared(run: Run, directory: bool, artifact: Option<string>)

  datatype Pc =
    | Done
    | NewApprove
    | NewNote
    | PatchLoad
    | PatchStart(st: RunState)
    | PatchLaunch(st: RunState)
    | PatchFail(st: RunState, error: string)
    | PatchNoteFail(error: string)
    | PatchNoteResult(st: RunState, child: PatchChild)
    | PatchSandbox(st: RunState, p: ValidatedPatch, rationale: Rationale, resultHash: Digest)
    | PatchDirectory(st: RunState, result: Sandbox.SandboxResult, rationale: Rationale, resultHash: Digest)
    | PatchWrite(st: RunState, result: Sandbox.SandboxResult, rationale: Rationale, resultHash: Digest)
    | PatchRecord(st: RunState, c: Candidate, e: Evaluation, x: Receipt)
    | PatchNoteSandbox(st: RunState, c: Candidate, e: Evaluation, x: Receipt)
    | PatchReady(st: RunState, c: Candidate, e: Evaluation)
    | PatchApply(st: RunState, c: Candidate, e: Evaluation)
    | RecLoad
    | RecLineage(st: RunState)
    | RecReceipts(st: RunState, cs: seq<Candidate>, es: seq<Evaluation>)
    | RecEvents(st: RunState, cs: seq<Candidate>, es: seq<Evaluation>, receipts: nat)
    | RecReady(st: RunState, c: Candidate, e: Evaluation)
    | RecApply(st: RunState, c: Candidate, e: Evaluation)
    | RecMiss(st: RunState)
    | RecNoteMiss(interrupted: bool)
    | CanLoad
    | CanCommit(st: RunState)

  predicate IsEntry(pc: Pc) {
    pc.PatchLoad? || pc.RecLoad? || pc.CanLoad?
  }

  function OpOf(pc: Pc): Op {
    match pc
    case NewApprove => Commit(Approve, 0, None, 0.0)
    case NewNote => Note(SandboxPreflight, Classification("SANDBOX_PREFLIGHT"))
    case PatchStart(st) => Commit(StartStep, st.revision, None, 0.0)
    case PatchFail(st, _) => Commit(ChildFailed, st.revision, None, 0.0)
    case PatchNoteFail(error) => Note(Phase4Failed, Classification(error))
    case PatchNoteResult(_, child) =>
      if child.Report? then Note(ChildResult, ChildReport(child.succeeded, child.resultHash)) else Read
    case PatchRecord(_, c, e, x) => SandboxAttempt(c, e, x)
    case PatchNoteSandbox(_, _, _, x) => Note(EventName.SandboxResult, SandboxReport(x.Identity(), x.patchHash, x.outputTreeHash))
    case PatchReady(st, _, _) => Commit(CandidateReady, st.revision, None, 0.0)
    case PatchApply(st, c, e) => Commit(Actors.EvaluationEvent(e), st.revision, Actors.Credit(c, e), 0.0)
    case RecReady(st, _, _) => Commit(CandidateReady, st.revision, None, 0.0)
    case RecApply(st, c, e) => Commit(Actors.EvaluationEvent(e), st.revision, Actors.Credit(c, e), 0.0)
    case RecMiss(st) => Commit(if st.status.Running? then Interrupt else EvaluationMissing, st.revision, None, 0.0)
    case RecNoteMiss(interrupted) =>
      if interrupted then Note(Interrupted, Classification("INTERRUPTED"))
      else Note(EvaluationMissing, Classification("EVALUATION_MISSING"))
    case CanCommit(st) => Commit(Cancel, st.revision, None, 0.0)
    case _ => Read
  }

  function NewCandidate(spec: RunSpec, result: Sandbox.SandboxResult, rationale: Rationale, resultHash: Digest): Candidate {
    Candidate(spec.runId, 1, SpecIdentity(spec), None, result.candidateTreeHash, resultHash, rationale)
  }

  function NewOutcome(result: Sandbox.SandboxResult): Evaluator.Outcome {
    Evaluator.Outcome(map[TESTS_PASS := result.testsPassed, OUTPUT_MATCHES := true],
                      map[TEST_FAILURES := if result.testsPassed then 0.0 else 1.0],
                      SandboxEvidence(result.patchHash, result.candidateTreeHash, result.exitCode, result.stdoutHash, result.stderrHash))
  }

  function NewReceipt(spec: RunSpec, c: Candidate, e: Evaluation, result: Sandbox.SandboxResult): Receipt {
    Receipt(spec.runId, SpecIdentity(spec), c.Identity(), e.Identity(), spec.seedDigest, result.patchHash,
            result.candidateTreeHash, result.candidateSourceHash, result.exitCode, result.testsPassed, result.stdoutHash, result.stderrHash)
  }

  /** What `DockerSandbox.run` makes of a call: a result, a declared failure (None) or a raised exception. */
  datatype SandboxReply = Returned(result: Sandbox.SandboxResult) | Declared | Raised

  function Reply(b: Baseline, p: ValidatedPatch, call: SandboxCall): SandboxReply
    requires p.oldStart >= 1
  {
    match call
    case Unavailable => Declared
    case Raises => Raised
    case Prints(env, identityMatches) =>
      match ValidateOutput(env, b, p)
      case Ok(result) => if identityMatches then Returned(result) else Raised
      case Err(e) => if e.NotApplicable? then Raised else Declared
  }

  function AfterParse(parsed: Result<ValidatedPatch, PatchError>, st: RunState, rationale: Rationale, resultHash: Digest): Pc {
    if parsed.Err? then PatchFail(st, "INVALID_PATCH") else PatchSandbox(st, parsed.value, rationale, resultHash)
  }

  function AfterSandbox(reply: SandboxReply, st: RunState, rationale: Rationale, resultHash: Digest): Pc {
    match reply
    case Returned(result) => PatchDirectory(st, result, rationale, resultHash)
    case Declared => PatchFail(st, "SANDBOX_FAILED")
    case Raised => Done
  }

  function ContinuePatch(b: Baseline, run: Run, pc: Pc, choice: Choice): Pc {
    match pc
    case PatchLoad => PatchStart(run.state)
    case PatchStart(_) => PatchLaunch(run.state)
    case PatchLaunch(st) =>
      if choice.child.LaunchError? then PatchFail(st, "CHILD_LAUNCH_ERROR") else PatchNoteResult(st, choice.child)
    case PatchFail(_, error) => PatchNoteFail(error)
    case PatchNoteResult(st, c) =>
      if c.LaunchError? || !c.succeeded || !c.hasSummary then PatchFail(st, "CHILD_FAILED")
      else if c.proposal.None? then PatchFail(st, "INVALID_CHILD_PAYLOAD")
      else
        AfterParse(Parse(c.proposal.value.patch), st, c.proposal.value.rationale, c.resultHash)
    case PatchSandbox(st, p, rationale, h) =>
      if p.oldStart < 1 then Done else AfterSandbox(Reply(b, p, choice.call), st, rationale, h)
    case PatchDirectory(st, result, rationale, h) => PatchWrite(st, result, rationale, h)
    case PatchWrite(st, result, rationale, h) =>
      var c := NewCandidate(run.spec, result, rationale, h);
      var e := Evaluator.Evaluate(run.spec, c, map[TEST_FAILURES := 1.0], NewOutcome(result));
      if e.Ok? then PatchRecord(st, c, e.value, NewReceipt(run.spec, c, e.value, result)) else Done
    case PatchRecord(st, c, e, x) => PatchNoteSandbox(st, c, e, x)
    case PatchNoteSandbox(st, c, e, _) => PatchReady(st, c, e)
    case PatchReady(_, c, e) => PatchApply(run.state, c, e)
    case _ => Done
  }

  function ContinueOther(run: Run, pc: Pc): Pc {
    match pc
    case NewApprove => NewNote
    case RecLoad => if InFlight(run.state) then RecLineage(run.state) else Done
    case RecLineage(st) => RecReceipts(st, run.candidates, run.evaluations)
    case RecReceipts(st, cs, es) => RecEvents(st, cs, es, |run.receipts|)
    case RecEvents(st, cs, es, receipts) =>
      if |es| <= Actors.Applied(run.log) || receipts <= Actors.Applied(run.log) then RecMiss(st)
      else if cs == [] || es == [] then Done
      else if st.status.Running? then RecReady(st, cs[|cs| - 1], es[|es| - 1])
      else RecApply(st, cs[|cs| - 1], es[|es| - 1])
    case RecReady(_, c, e) => RecApply(run.state, c, e)
    case RecMiss(st) => RecNoteMiss(st.status.Running?)
    case CanLoad => if InFlight(run.state) then Done else CanCommit(run.state)
    case _ => Done
  }

  predicate InPatch(pc: Pc) {
    pc.PatchLoad? || pc.PatchStart? || pc.PatchLaunch? || pc.PatchFail? || pc.PatchNoteFail? || pc.PatchNoteResult? ||
    pc.PatchSandbox? || pc.PatchDirectory? || pc.PatchWrite? || pc.PatchRecord? || pc.PatchNoteSandbox? ||
    pc.PatchReady? || pc.PatchApply?
  }

  function Continue(b: Baseline, run: Run, pc: Pc, choice: Choice): Pc {
    if InPatch(pc) then ContinuePatch(b, run, pc, choice) else ContinueOther(run, pc)
  }

  /** One step: a store call, making the artifact directory (which must not exist), or putting the file in place. */
  function Next(b: Baseline, s: Shared, pc: Pc, choice: Choice): (Shared, Pc) {
    if pc.PatchDirectory? then
      if s.directory then (s, Done) else (s.(directory := true), Continue(b, s.run, pc, choice))
    else if pc.PatchWrite? then
      (s.(artifact := Some(pc.result.candidateSource)), Continue(b, s.run, pc, choice))
    else match Try(s.run, OpOf(pc))
      case Err(_) => (s, Done)
      case Ok(run') => (s.(run := run'), Continue(b, run', pc, choice))
  }

  datatype Sys = Sys(shared: Shared, actors: seq<Pc>)

  datatype Action = Spawn(pc: Pc) | Move(i: nat, choice: Choice) | Crash(j: nat)

  function Step(b: Baseline, s: Sys, a: Action): Sys {
    match a
    case Spawn(pc) => if IsEntry(pc) then s.(actors := s.actors + [pc]) else s
    case Crash(i) => if i < |s.actors| then s.(actors := s.actors[i := Done]) else s
    case Move(i, choice) =>
      if i >= |s.actors| then s
      else
        var (shared', pc') := Next(b, s.shared, s.actors[i], choice);
        Sys(shared', s.actors[i := pc'])
  }

  function Behave(b: Baseline, spec: RunSpec, actions: seq<Action>): Sys {
    if actions == [] then Sys(Shared(Create(spec), false, None), [NewApprove])
    else Step(b, Behave(b, spec, actions[..|actions| - 1]), actions[|actions| - 1])
  }

  // ----- invariants -----

  /** Phase 4 specs require the tests to pass. */
  predicate Phase4Spec(spec: RunSpec) {
    spec.WithinBounds() && TESTS_PASS in spec.correctnessPredicates
  }

  /** The hashed patch turns the baseline into text, and the other hashes are those of text. */
  predicate Produces(b: Baseline, patchHash: Digest, text: string, sourceHash: Digest, treeHash: Digest) {
    && patchHash.of.PlainText?
    && Parse(patchHash.of.text).Ok? && Parse(patchHash.of.text).value.oldStart >= 1
    && Applied(Parse(patchHash.of.text).value, ReadText(b.source)) == Ok(text)
    && sourceHash == TextHash(text) && treeHash == TreeHash(text, b.tests)
  }

  predicate Validated(b: Baseline, r: Sandbox.SandboxResult) {
    && Produces(b, r.patchHash, r.candidateSource, r.candidateSourceHash, r.candidateTreeHash)
    && (r.testsPassed <==> r.exitCode == 0)
  }

  /** The run is judged by its tests alone, as in the specs that phase4.py creates. */
  predicate JudgedByTests(spec: RunSpec) {
    && Evaluator.SetOf(spec.correctnessPredicates) == {TESTS_PASS, OUTPUT_MATCHES}
    && spec.scoreKeys == [TEST_FAILURES] && spec.comparison.Minimize?
  }

  /** e is what the tests say, if they decide. */
  predicate Verdict(spec: RunSpec, e: Evaluation, exitCode: int) {
    && (e.eligible ==> exitCode == 0)
    && (JudgedByTests(spec) ==>
          && (e.eligible <==> exitCode == 0) && e.baselineScores == map[TEST_FAILURES := 1.0]
          && e.scores == map[TEST_FAILURES := if exitCode == 0 then 0.0 else 1.0])
  }

  /** The receipt belongs to the pair and to the run, the artifact bears it out, and the exit code decides the verdict. */
  predicate Bears(b: Baseline, spec: RunSpec, artifact: Option<string>, c: Candidate, e: Evaluation, x: Receipt) {
    && artifact.Some? && Produces(b, x.patchHash, artifact.value, x.outputSourceHash, x.outputTreeHash)
    && x.runId == c.runId == spec.runId && x.runSpecHash == c.runSpecHash == e.runSpecHash == SpecIdentity(spec)
    && x.candidateHash == e.candidateHash == Sha256(CandidateText(c)) && x.evaluationHash == Sha256(EvaluationText(e))
    && x.baselineTreeHash == spec.seedDigest && c.artifact == x.outputTreeHash && c.ordinal == 1 && c.parent == None
    && e.evidenceHash == Sha256(EvidenceText(SandboxEvidence(x.patchHash, x.outputTreeHash, x.exitCode, x.stdoutHash, x.stderrHash)))
    && (x.testsPassed <==> x.exitCode == 0) && Verdict(spec, e, x.exitCode)
  }

  predicate NoRows(run: Run) {
    run.candidates == [] && run.evaluations == [] && run.receipts == []
  }

  predicate OneRow(run: Run, c: Candidate, e: Evaluation) {
    run.candidates == [c] && run.evaluations == [e]
  }

  /** Nothing is recorded, or one pair with a receipt that the artifact bears out. */
  predicate RowsInv(b: Baseline, s: Shared) {
    || NoRows(s.run)
    || (&& |s.run.receipts| == |s.run.candidates| == |s.run.evaluations| == 1
        && Bears(b, s.run.spec, s.artifact, s.run.candidates[0], s.run.evaluations[0], s.run.receipts[0]))
  }

  /** The best candidate is the recorded one, and it was eligible. */
  predicate BestInv(run: Run) {
    run.state.bestCandidateHash.Some? ==>
      && |run.candidates| == |run.evaluations| == 1
      && run.evaluations[0].eligible && run.state.bestCandidateHash == Some(run.candidates[0].Identity())
  }

  predicate SharedInv(b: Baseline, s: Shared) {
    Phase4Spec(s.run.spec) && Replays(s.run) && RowsInv(b, s) && BestInv(s.run) && (s.artifact.Some? ==> s.directory)
  }

  /** The operation that made the directory and has not yet recorded what it put there. */
  predicate Writer(pc: Pc) {
    pc.PatchWrite? || pc.PatchRecord?
  }

  predicate PcInv(b: Baseline, s: Shared, pc: Pc) {
    match pc
    case PatchSandbox(_, p, _, _) => Parse(p.raw) == Ok(p)
    case PatchDirectory(_, result, _, _) => Validated(b, result)
    case PatchWrite(_, result, _, _) => s.directory && s.artifact.None? && NoRows(s.run) && Validated(b, result)
    case PatchRecord(_, c, e, x) => s.directory && NoRows(s.run) && Bears(b, s.run.spec, s.artifact, c, e, x)
    case PatchNoteSandbox(_, c, e, _) => OneRow(s.run, c, e)
    case PatchReady(_, c, e) => OneRow(s.run, c, e)
    case PatchApply(_, c, e) => OneRow(s.run, c, e)
    case RecReceipts(_, cs, es) => Seen(s.run, cs, es)
    case RecEvents(_, cs, es, _) => Seen(s.run, cs, es)
    case RecReady(_, c, e) => OneRow(s.run, c, e)
    case RecApply(_, c, e) => OneRow(s.run, c, e)
    case _ => true
  }

  /** What a lineage read returned: nothing, or what is still there. */
  predicate Seen(run: Run, cs: seq<Candidate>, es: seq<Evaluation>) {
    (cs == [] && es == []) || (|cs| == |es| == 1 && OneRow(run, cs[0], es[0]))
  }

  /** At most one operation holds the artifact directory. */
  predicate SysInv(b: Baseline, s: Sys) {
    && SharedInv(b, s.shared)
    && (forall i :: 0 <= i < |s.actors| ==> PcInv(b, s.shared, s.actors[i]))
    && (forall i, j :: 0 <= i < j < |s.actors| ==> !(Writer(s.actors[i]) && Writer(s.actors[j])))
  }

  /** What an operation that does not hold the directory may rely on: rows, once written, stay. */
  predicate Ext(s: Shared, s': Shared) {
    && s'.run.spec == s.run.spec
    && (NoRows(s.run) || (s'.run.candidates == s.run.candidates && s'.run.evaluations == s.run.evaluations))
  }

  /** What the holder may rely on. */
  predicate Quiet(s: Shared, s': Shared) {
    && s'.artifact == s.artifact && (s.directory ==> s'.directory)
    && s'.run.candidates == s.run.candidates && s'.run.evaluations == s.run.evaluations && s'.run.receipts == s.run.receipts
  }

  lemma PcStable(b: Baseline, s: Shared, s': Shared, pc: Pc)
    requires PcInv(b, s, pc) && Ext(s, s') && (Writer(pc) ==> Quiet(s, s'))
    ensures PcInv(b, s', pc)
  {
    hide Bears, Validated;
  }

  // ----- the steps -----

  /** Only crediting an eligible evaluation moves the best candidate. */
  lemma CommitBest(run: Run, op: Op, run': Run)
    requires BestInv(run) && (op.Commit? || op.Note? || op.Read?) && Try(run, op) == Ok(run')
    requires op.Commit? && op.event.EvaluationEligible? ==>
               && |run.candidates| == |run.evaluations| == 1
               && run.evaluations[0].eligible && op.candidate == Some(run.candidates[0].Identity())
    ensures BestInv(run')
    ensures run' == run.(state := run'.state, log := run'.log)
  {
  }

  /** Commits and notes leave files and rows alone. */
  lemma CommitKeeps(b: Baseline, s: Shared, op: Op, run': Run)
    requires SharedInv(b, s) && (op.Commit? || op.Note? || op.Read?) && Try(s.run, op) == Ok(run')
    requires op.Commit? && op.event.EvaluationEligible? ==>
               && |s.run.candidates| == |s.run.evaluations| == 1
               && s.run.evaluations[0].eligible && op.candidate == Some(s.run.candidates[0].Identity())
    ensures SharedInv(b, s.(run := run')) && Quiet(s, s.(run := run'))
  {
    CommitBest(s.run, op, run');
    ExecReplays(s.run, op);
  }

  lemma FirstRow(run: Run, c: Candidate, e: Evaluation, x: Receipt, run': Run)
    requires NoRows(run) && Try(run, SandboxAttempt(c, e, x)) == Ok(run')
    ensures run' == run.(candidates := [c], evaluations := [e], receipts := [x])
  {
    assert run.candidates + [c] == [c] && run.evaluations + [e] == [e] && run.receipts + [x] == [x];
  }

  lemma RecordKeeps(b: Baseline, s: Shared, c: Candidate, e: Evaluation, x: Receipt, run': Run)
    requires SharedInv(b, s) && NoRows(s.run) && Bears(b, s.run.spec, s.artifact, c, e, x)
    requires Try(s.run, SandboxAttempt(c, e, x)) == Ok(run')
    ensures SharedInv(b, s.(run := run')) && OneRow(run', c, e)
  {
    FirstRow(s.run, c, e, x, run');
    ExecReplays(s.run, SandboxAttempt(c, e, x));
  }

  lemma WriteKeeps(b: Baseline, s: Shared, pc: Pc, choice: Choice)
    requires SharedInv(b, s) && pc.PatchWrite? && PcInv(b, s, pc)
    ensures var (s', pc') := Next(b, s, pc, choice);
            SharedInv(b, s') && PcInv(b, s', pc') && Ext(s, s')
  {
    hide Try, Replays, Produces, Bears, NewCandidate, NewOutcome, NewReceipt, Evaluator.Evaluate;
    var r := pc.result;
    var c := NewCandidate(s.run.spec, r, pc.rationale, pc.resultHash);
    if Evaluator.Evaluate(s.run.spec, c, map[TEST_FAILURES := 1.0], NewOutcome(r)).Ok? {
      ResultBears(b, s.run.spec, r, pc.rationale, pc.resultHash);
    }
  }

  /** What is recorded of a validated result. */
  lemma ResultBears(b: Baseline, spec: RunSpec, r: Sandbox.SandboxResult, rationale: Rationale, resultHash: Digest)
    requires Phase4Spec(spec) && Validated(b, r)
    requires Evaluator.Evaluate(spec, NewCandidate(spec, r, rationale, resultHash), map[TEST_FAILURES := 1.0], NewOutcome(r)).Ok?
    ensures var c := NewCandidate(spec, r, rationale, resultHash);
            var e := Evaluator.Evaluate(spec, c, map[TEST_FAILURES := 1.0], NewOutcome(r)).value;
            Bears(b, spec, Some(r.candidateSource), c, e, NewReceipt(spec, c, e, r))
  {
    hide Evaluator.Evaluate, Produces, SpecIdentity, Verdict;
    var c := NewCandidate(spec, r, rationale, resultHash);
    Evaluator.EvaluateRecords(spec, c, map[TEST_FAILURES := 1.0], NewOutcome(r));
    ResultDecides(spec, r, c);
  }

  lemma ResultDecides(spec: RunSpec, r: Sandbox.SandboxResult, c: Candidate)
    requires Phase4Spec(spec) && (r.testsPassed <==> r.exitCode == 0)
    requires Evaluator.Evaluate(spec, c, map[TEST_FAILURES := 1.0], NewOutcome(r)).Ok?
    ensures Verdict(spec, Evaluator.Evaluate(spec, c, map[TEST_FAILURES := 1.0], NewOutcome(r)).value, r.exitCode)
  {
    hide Evaluator.Evaluate;
    var baseline, o := map[TEST_FAILURES := 1.0], NewOutcome(r);
    Evaluator.EvaluateDecides(spec, c, baseline, o);
    Evaluator.EvaluateRecords(spec, c, baseline, o);
    if JudgedByTests(spec) {
      assert TEST_FAILURES in spec.scoreKeys;
      assert forall p <- spec.correctnessPredicates :: p in {TESTS_PASS, OUTPUT_MATCHES};
    }
  }

  lemma ReplyValidates(b: Baseline, p: ValidatedPatch, call: SandboxCall)
    requires p.oldStart >= 1 && Parse(p.raw) == Ok(p) && Reply(b, p, call).Returned?
    ensures Validated(b, Reply(b, p, call).result)
  {
    AcceptedGives(b, p, call.env);
  }

  lemma AcceptedGives(b: Baseline, p: ValidatedPatch, env: Envelope)
    requires p.oldStart >= 1 && ValidateOutput(env, b, p).Ok?
    ensures var r := ValidateOutput(env, b, p).value;
            && r.patchHash == TextHash(p.raw) && Applied(p, ReadText(b.source)) == Ok(r.candidateSource)
            && r.candidateSourceHash == TextHash(r.candidateSource) && r.candidateTreeHash == TreeHash(r.candidateSource, b.tests)
            && (r.testsPassed <==> r.exitCode == 0)
  {
  }

  lemma ParsedKeepsRaw(payload: string)
    requires Parse(payload).Ok?
    ensures Parse(Parse(payload).value.raw) == Parse(payload)
  {
    hide Parse;
    ParsedIsWellFormed(payload);
  }

  lemma AfterParseKeeps(b: Baseline, s: Shared, payload: string, st: RunState, rationale: Rationale, resultHash: Digest)
    ensures PcInv(b, s, AfterParse(Parse(payload), st, rationale, resultHash))
  {
    if Parse(payload).Ok? { ParsedKeepsRaw(payload); }
  }

  /** What the next program point may assume, given the run its store call left. */
  lemma PatchContinueKeeps(b: Baseline, s: Shared, s': Shared, pc: Pc, choice: Choice)
    requires PcInv(b, s, pc) && RowsInv(b, s') && Quiet(s, s') && !Writer(pc)
    requires pc.PatchDirectory? ==> s'.directory && s'.artifact.None? && NoRows(s'.run)
    ensures PcInv(b, s', Continue(b, s'.run, pc, choice))
    ensures Writer(Continue(b, s'.run, pc, choice)) ==> pc.PatchDirectory?
  {
    if pc.PatchNoteResult? {
      NoteResultKeeps(b, s', pc, choice);
    } else if pc.PatchSandbox? {
      SandboxKeeps(b, s', pc, choice);
    } else if InPatch(pc) {
      PatchKeeps(b, s, s', pc, choice);
    } else {
      ReconcileKeeps(b, s, s', pc, choice);
    }
  }

  lemma NoteResultKeeps(b: Baseline, s: Shared, pc: Pc, choice: Choice)
    requires pc.PatchNoteResult?
    ensures PcInv(b, s, Continue(b, s.run, pc, choice)) && !Writer(Continue(b, s.run, pc, choice))
  {
    var c := pc.child;
    if c.Report? && c.proposal.Some? {
      AfterParseKeeps(b, s, c.proposal.value.patch, pc.st, c.proposal.value.rationale, c.resultHash);
    }
  }

  lemma SandboxKeeps(b: Baseline, s: Shared, pc: Pc, choice: Choice)
    requires pc.PatchSandbox? && PcInv(b, s, pc)
    ensures PcInv(b, s, Continue(b, s.run, pc, choice)) && !Writer(Continue(b, s.run, pc, choice))
  {
    if pc.p.oldStart >= 1 {
      if Reply(b, pc.p, choice.call).Returned? { ReplyValidates(b, pc.p, choice.call); }
      AfterSandboxKeeps(b, s, Reply(b, pc.p, choice.call), pc.st, pc.rationale, pc.resultHash);
    }
  }

  lemma AfterSandboxKeeps(b: Baseline, s: Shared, reply: SandboxReply, st: RunState, rationale: Rationale, resultHash: Digest)
    requires reply.Returned? ==> Validated(b, reply.result)
    ensures var pc := AfterSandbox(reply, st, rationale, resultHash); PcInv(b, s, pc) && !Writer(pc)
  {
  }

  lemma PatchKeeps(b: Baseline, s: Shared, s': Shared, pc: Pc, choice: Choice)
    requires InPatch(pc) && !pc.PatchNoteResult? && !pc.PatchSandbox?
    requires PcInv(b, s, pc) && Quiet(s, s') && !Writer(pc)
    requires pc.PatchDirectory? ==> s'.directory && s'.artifact.None? && NoRows(s'.run)
    ensures PcInv(b, s', ContinuePatch(b, s'.run, pc, choice))
    ensures Writer(ContinuePatch(b, s'.run, pc, choice)) ==> pc.PatchDirectory?
  {
  }

  lemma ReconcileKeeps(b: Baseline, s: Shared, s': Shared, pc: Pc, choice: Choice)
    requires !InPatch(pc) && PcInv(b, s, pc) && Quiet(s, s')
    requires NoRows(s'.run) || |s'.run.candidates| == |s'.run.evaluations| == 1
    ensures PcInv(b, s', ContinueOther(s'.run, pc)) && !Writer(ContinueOther(s'.run, pc))
  {
  }

  lemma DirectoryKeeps(b: Baseline, s: Shared, pc: Pc, choice: Choice)
    requires SharedInv(b, s) && PcInv(b, s, pc) && pc.PatchDirectory? && !s.directory
    ensures var (s', pc') := Next(b, s, pc, choice);
            SharedInv(b, s') && PcInv(b, s', pc') && Ext(s, s') && Quiet(s, s')
  {
    hide Continue, PcInv, Writer, BestInv, Replays, Produces, Try;
    NotWriting(pc);
    PatchContinueKeeps(b, s, s.(directory := true), pc, choice);
  }

  lemma NotWriting(pc: Pc)
    requires pc.PatchDirectory?
    ensures !Writer(pc)
  {
  }

  lemma RecordNextKeeps(b: Baseline, s: Shared, pc: Pc, choice: Choice)
    requires SharedInv(b, s) && PcInv(b, s, pc) && pc.PatchRecord? && Try(s.run, OpOf(pc)).Ok?
    ensures var (s', pc') := Next(b, s, pc, choice);
            SharedInv(b, s') && PcInv(b, s', pc') && Ext(s, s')
  {
    hide Bears, Verdict, Produces, BestInv, Replays, SharedInv, Try;
    var run' := Try(s.run, SandboxAttempt(pc.c, pc.e, pc.x)).value;
    FirstRow(s.run, pc.c, pc.e, pc.x, run');
    RecordKeeps(b, s, pc.c, pc.e, pc.x, run');
  }

  /** Calls other than those on the directory and the attempt are commits, notes and reads. */
  lemma CallOnRun(b: Baseline, s: Shared, pc: Pc)
    requires PcInv(b, s, pc) && !pc.PatchWrite? && !pc.PatchDirectory? && !pc.PatchRecord?
    ensures var op := OpOf(pc);
            && (op.Commit? || op.Note? || op.Read?) && !Writer(pc)
            && (op.Commit? && op.event.EvaluationEligible? ==>
                  && |s.run.candidates| == |s.run.evaluations| == 1
                  && s.run.evaluations[0].eligible && op.candidate == Some(s.run.candidates[0].Identity()))
  {
  }

  lemma CallKeepsSpec(run: Run, op: Op, run': Run)
    requires Try(run, op) == Ok(run')
    ensures run'.spec == run.spec
  {
  }

  lemma CallNextKeeps(b: Baseline, s: Shared, pc: Pc, choice: Choice, run': Run)
    requires SharedInv(b, s) && PcInv(b, s, pc) && !pc.PatchWrite? && !pc.PatchDirectory? && !pc.PatchRecord?
    requires Try(s.run, OpOf(pc)) == Ok(run')
    ensures var s', pc' := s.(run := run'), Continue(b, run', pc, choice);
            SharedInv(b, s') && PcInv(b, s', pc') && Ext(s, s') && Quiet(s, s') && !Writer(pc')
  {
    hide PcInv, OpOf, Try, Continue, Writer;
    CallOnRun(b, s, pc);
    CallKeepsSpec(s.run, OpOf(pc), run');
    CommitKeeps(b, s, OpOf(pc), run');
    PatchContinueKeeps(b, s, s.(run := run'), pc, choice);
  }

  /** One step keeps the invariants; only the first to make the directory becomes its holder. */
  lemma PatchNextKeeps(b: Baseline, s: Shared, pc: Pc, choice: Choice)
    requires SharedInv(b, s) && PcInv(b, s, pc)
    ensures var (s', pc') := Next(b, s, pc, choice);
            && SharedInv(b, s') && PcInv(b, s', pc') && Ext(s, s')
            && (!Writer(pc) ==> Quiet(s, s') && (Writer(pc') ==> !s.directory))
  {
    hide SharedInv, OpOf, Try, Continue;
    if pc.PatchWrite? {
      WriteKeeps(b, s, pc, choice);
    } else if pc.PatchDirectory? {
      if !s.directory { DirectoryKeeps(b, s, pc, choice); }
    } else if Try(s.run, OpOf(pc)).Ok? {
      if pc.PatchRecord? {
        RecordNextKeeps(b, s, pc, choice);
      } else {
        CallNextKeeps(b, s, pc, choice, Try(s.run, OpOf(pc)).value);
      }
    }
  }

  lemma ArriveKeeps(b: Baseline, s: Sys, a: Action)
    requires SysInv(b, s) && !a.Move?
    ensures SysInv(b, Step(b, s, a))
  {
    hide SharedInv;
  }

  /** The others keep what they knew while one operation moves. */
  lemma OthersKeep(b: Baseline, s: Sys, i: nat, shared': Shared)
    requires SysInv(b, s) && i < |s.actors| && Ext(s.shared, shared')
    requires !Writer(s.actors[i]) ==> Quiet(s.shared, shared')
    ensures forall j :: 0 <= j < |s.actors| && j != i ==> PcInv(b, shared', s.actors[j])
  {
    forall j | 0 <= j < |s.actors| && j != i ensures PcInv(b, shared', s.actors[j]) {
      PcStable(b, s.shared, shared', s.actors[j]);
    }
  }

  /** A holder holds the directory. */
  lemma HolderHolds(b: Baseline, s: Sys)
    requires SysInv(b, s)
    ensures forall j :: 0 <= j < |s.actors| && Writer(s.actors[j]) ==> s.shared.directory
  {
  }

  lemma OneWriter(s: Sys, i: nat, pc': Pc)
    requires i < |s.actors|
    requires forall i, j :: 0 <= i < j < |s.actors| ==> !(Writer(s.actors[i]) && Writer(s.actors[j]))
    requires forall j :: 0 <= j < |s.actors| && Writer(s.actors[j]) ==> s.shared.directory
    requires Writer(pc') ==> Writer(s.actors[i]) || !s.shared.directory
    ensures var actors' := s.actors[i := pc'];
            forall i, j :: 0 <= i < j < |actors'| ==> !(Writer(actors'[i]) && Writer(actors'[j]))
  {
  }

  lemma StepKeeps(b: Baseline, s: Sys, a: Action)
    requires SysInv(b, s)
    ensures SysInv(b, Step(b, s, a))
  {
    if a.Move? && a.i < |s.actors| {
      var (shared', pc') := Next(b, s.shared, s.actors[a.i], a.choice);
      PatchNextKeeps(b, s.shared, s.actors[a.i], a.choice);
      OthersKeep(b, s, a.i, shared');
      HolderHolds(b, s);
      OneWriter(s, a.i, pc');
    } else if !a.Move? {
      ArriveKeeps(b, s, a);
    }
  }

  lemma {:induction false} Always(b: Baseline, spec: RunSpec, actions: seq<Action>)
    requires Phase4Spec(spec)
    ensures SysInv(b, Behave(b, spec, actions))
  {
    if actions == [] {
      CreateReplays(spec);
    } else {
      Always(b, spec, actions[..|actions| - 1]);
      StepKeeps(b, Behave(b, spec, actions[..|actions| - 1]), actions[|actions| - 1]);
    }
  }

  /**
   * Any interleaving of patch, reconcile and cancel operations with crashes, whatever the sandbox
   * prints: at most one receipt is ever recorded, it implies the artifact, and the artifact is the
   * hashed patch applied to the baseline; a succeeded run has that receipt, of passing tests.
   */
  lemma SucceededMeansVerified(b: Baseline, spec: RunSpec, actions: seq<Action>)
    requires Phase4Spec(spec)
    ensures var s := Behave(b, spec, actions).shared;
            && |s.run.receipts| <= 1
            && (s.run.state.status.Succeeded? ==> |s.run.receipts| == 1)
            && (|s.run.receipts| == 1 ==>
                  var x := s.run.receipts[0];
                  && s.artifact.Some?
                  && x.patchHash.of.PlainText? && Parse(x.patchHash.of.text).Ok? && Parse(x.patchHash.of.text).value.oldStart >= 1
                  && Applied(Parse(x.patchHash.of.text).value, ReadText(b.source)) == Ok(s.artifact.value)
                  && x.outputSourceHash == TextHash(s.artifact.value) && x.outputTreeHash == TreeHash(s.artifact.value, b.tests)
                  && (s.run.state.status.Succeeded? ==>
                        && x.testsPassed && x.exitCode == 0
                        && s.run.state.bestCandidateHash == Some(x.candidateHash)))
  {
    Always(b, spec, actions);
    StoredRunIsConsistent(Behave(b, spec, actions).shared.run);
  }
}

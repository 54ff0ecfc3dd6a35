/** The search result of an exclusively driven Phase 2 run. */
module BestScore {
  import opened Wrappers
  import opened Contracts
  import opened StateMachine
  import opened RunHistory
  import opened Ledger
  import opened Actors
  import opened Iteration
  import opened RunInvariants
  import opened ExclusiveDriver
  import opened CrashRecovery
  import Evaluator

  /** The specs phase2.py creates, up to their budgets: one score, minimised, strictly improving. */
  predicate Phase2Spec(spec: RunSpec) {
    && spec.comparison.Minimize? && spec.scoreKeys == [OPERATIONS] && Strict(spec)
    && forall p <- spec.correctnessPredicates :: p == STRATEGY_ALLOWED || p == OUTPUT_MATCHES
  }

  predicate HasScore(e: Evaluation) {
    OPERATIONS in e.scores
  }

  /** A verdict is right for the evaluations recorded before it. */
  predicate Judged(table: ScoreTable, before: seq<Evaluation>, e: Evaluation) {
    HasScore(e) && (e.eligible <==> e.scores[OPERATIONS] < BaselineScore(table, before))
  }

  function LastEligible(cs: seq<Candidate>, es: seq<Evaluation>): Option<Digest>
    requires |cs| == |es|
  {
    if es == [] then None
    else if es[|es| - 1].eligible then Some(cs[|cs| - 1].Identity())
    else LastEligible(cs[..|cs| - 1], es[..|es| - 1])
  }

  /** Every verdict is right, and every candidate names the last eligible one before it as its parent. */
  ghost predicate Lineage(table: ScoreTable, cs: seq<Candidate>, es: seq<Evaluation>) {
    |cs| == |es| &&
    (es != [] ==>
       var n := |es| - 1;
       && Lineage(table, cs[..n], es[..n])
       && Judged(table, es[..n], es[n])
       && cs[n].parent == LastEligible(cs[..n], es[..n]))
  }

  // ----- what a lineage is, as such -----

  lemma {:induction false} LineagePrefix(table: ScoreTable, cs: seq<Candidate>, es: seq<Evaluation>, k: nat)
    requires Lineage(table, cs, es) && k <= |es|
    ensures Lineage(table, cs[..k], es[..k])
  {
    if k < |es| {
      var n := |es| - 1;
      LineagePrefix(table, cs[..n], es[..n], k);
      assert cs[..n][..k] == cs[..k] && es[..n][..k] == es[..k];
    } else {
      assert cs[..k] == cs && es[..k] == es;
    }
  }

  /** The running baseline is the minimum of the table's baseline and every recorded score: none is below it, and one attains it. */
  lemma {:induction false} BaselineIsMinimum(table: ScoreTable, cs: seq<Candidate>, es: seq<Evaluation>, i: nat)
    requires Lineage(table, cs, es) && i <= |es|
    ensures BaselineScore(table, es) <= table[BASELINE]
    ensures i < |es| ==> HasScore(es[i]) && BaselineScore(table, es) <= es[i].scores[OPERATIONS]
    ensures BaselineScore(table, es) == table[BASELINE] ||
            exists k :: 0 <= k < |es| && ScoresAs(es[k], BaselineScore(table, es))
  {
    if es != [] {
      var n := |es| - 1;
      BaselineIsMinimum(table, cs[..n], es[..n], if i < n then i else n);
      assert i < n ==> es[..n][i] == es[i];
      if es[n].eligible {
        assert ScoresAs(es[n], BaselineScore(table, es));
      } else if k :| 0 <= k < n && ScoresAs(es[..n][k], BaselineScore(table, es[..n])) {
        assert ScoresAs(es[k], BaselineScore(table, es));
      }
    }
  }

  predicate ScoresAs(e: Evaluation, score: real) {
    OPERATIONS in e.scores && e.scores[OPERATIONS] == score
  }

  /** Eligible scores strictly decrease, starting below the table's baseline. */
  lemma EligibleScoresDecrease(table: ScoreTable, cs: seq<Candidate>, es: seq<Evaluation>, i: nat, j: nat)
    requires Lineage(table, cs, es) && i < j < |es| && es[i].eligible && es[j].eligible
    ensures HasScore(es[i]) && HasScore(es[j])
    ensures es[j].scores[OPERATIONS] < es[i].scores[OPERATIONS] < table[BASELINE]
  {
    JudgedThere(table, cs, es, i);
    JudgedThere(table, cs, es, j);
    BaselineIsMinimum(table, cs[..j], es[..j], i);
    BaselineIsMinimum(table, cs[..i], es[..i], 0);
    assert es[..j][i] == es[i];
  }

  lemma JudgedThere(table: ScoreTable, cs: seq<Candidate>, es: seq<Evaluation>, i: nat)
    requires Lineage(table, cs, es) && i < |es|
    ensures Lineage(table, cs[..i], es[..i]) && Judged(table, es[..i], es[i])
  {
    LineagePrefix(table, cs, es, i + 1);
    assert es[..i + 1][..i] == es[..i] && cs[..i + 1][..i] == cs[..i];
  }

  /** The last eligible candidate bears the running baseline as its score; without one it is the table's. */
  lemma {:induction false} LastEligibleBearsBaseline(table: ScoreTable, cs: seq<Candidate>, es: seq<Evaluation>)
    requires Lineage(table, cs, es)
    ensures match LastEligible(cs, es)
            case None => BaselineScore(table, es) == table[BASELINE] && forall e <- es :: !e.eligible
            case Some(h) =>
              exists i :: 0 <= i < |es| && BearsScore(cs[i], es[i], h, BaselineScore(table, es))
  {
    if es != [] {
      var n := |es| - 1;
      if es[n].eligible {
        assert BearsScore(cs[n], es[n], cs[n].Identity(), BaselineScore(table, es));
      } else {
        LastEligibleBearsBaseline(table, cs[..n], es[..n]);
        assert forall e <- es :: e in es[..n] || e == es[n];
        if LastEligible(cs, es).Some? {
          var h := LastEligible(cs, es).value;
          var i :| 0 <= i < n && BearsScore(cs[..n][i], es[..n][i], h, BaselineScore(table, es[..n]));
          assert BearsScore(cs[i], es[i], h, BaselineScore(table, es));
        }
      }
    }
  }

  predicate BearsScore(c: Candidate, e: Evaluation, h: Digest, score: real) {
    c.Identity() == h && e.eligible && OPERATIONS in e.scores && e.scores[OPERATIONS] == score
  }

  /** The candidates met by following parent links from h. */
  function Ancestry(h: Option<Digest>): seq<Candidate> {
    match h
    case None => []
    case Some(d) =>
      match d.of
      case CandidateText(c) => [c] + Ancestry(c.parent)
      case _ => []
  }

  /** The eligible candidates, latest first. */
  function EligibleLatestFirst(cs: seq<Candidate>, es: seq<Evaluation>): seq<Candidate>
    requires |cs| == |es|
  {
    if es == [] then []
    else
      (if es[|es| - 1].eligible then [cs[|cs| - 1]] else [])
      + EligibleLatestFirst(cs[..|cs| - 1], es[..|es| - 1])
  }

  lemma {:induction false} AncestryIsEligible(table: ScoreTable, cs: seq<Candidate>, es: seq<Evaluation>)
    requires Lineage(table, cs, es)
    ensures Ancestry(LastEligible(cs, es)) == EligibleLatestFirst(cs, es)
  {
    if es != [] {
      AncestryIsEligible(table, cs[..|cs| - 1], es[..|es| - 1]);
    }
  }

  // ----- the driver keeps a lineage -----

  /** The lineage of a run, and its best candidate among the pairs applied so far. */
  ghost predicate BestInv(table: ScoreTable, r: Run) {
    && Phase2Spec(r.spec) && Lineage(table, r.candidates, r.evaluations)
    && 0 <= Applied(r.log) <= |r.evaluations|
    && r.state.bestCandidateHash == LastEligible(r.candidates[..Applied(r.log)], r.evaluations[..Applied(r.log)])
  }

  /** The pair about to be recorded extends the lineage. */
  ghost predicate BestPc(table: ScoreTable, r: Run, pc: Pc) {
    pc.StepRecord? ==>
      && Judged(table, r.evaluations, pc.e)
      && pc.c.parent == r.state.bestCandidateHash
  }

  lemma JudgedByEvaluator(table: ScoreTable, r: Run, st: RunState, v: Variation, h: Digest)
    requires Phase2Spec(r.spec) && v.strategy in table
    ensures var e := Evaluator.Evaluate(r.spec, NewCandidate(r.spec, st, v, h),
                                        map[OPERATIONS := BaselineScore(table, r.evaluations)], NewOutcome(v, table[v.strategy]));
            e.Ok? && Judged(table, r.evaluations, e.value) && e.value.scores[OPERATIONS] == table[v.strategy]
  {
    var c, o := NewCandidate(r.spec, st, v, h), NewOutcome(v, table[v.strategy]);
    var baseline := map[OPERATIONS := BaselineScore(table, r.evaluations)];
    assert forall k <- Evaluator.SetOf(r.spec.scoreKeys) :: k == OPERATIONS;
    assert forall k <- Evaluator.SetOf(r.spec.correctnessPredicates) :: k in o.correctness;
    assert Evaluator.Evaluate(r.spec, c, baseline, o).Ok?;
    Evaluator.EvaluateDecides(r.spec, c, baseline, o);
    assert OPERATIONS in r.spec.scoreKeys;
  }

  lemma BestAfter(s: RunState, event: EventName, spec: RunSpec, candidate: Option<Digest>, cost: real)
    requires ApplyTransition(s, event, spec, candidate, cost).Ok?
    ensures ApplyTransition(s, event, spec, candidate, cost).value.bestCandidateHash ==
            if event.EvaluationEligible? then candidate else s.bestCandidateHash
  {
  }

  lemma BestKeptByOp(table: ScoreTable, r: Run, op: Op)
    requires BestInv(table, r) && AloneOp(r, op) && Try(r, op).Ok?
    requires op.Attempt? ==> Judged(table, r.evaluations, op.e) && op.c.parent == r.state.bestCandidateHash
    ensures BestInv(table, Exec(r, op))
  {
    match op
    case Commit(_, _, _, _) => BestKeptByCommit(table, r, op);
    case Note(event, payload) => AppliedAppend(r.log, EntryOf(event, r.state, payload));
    case Attempt(c, e) => BestKeptByAttempt(table, r, c, e);
    case _ =>
  }

  lemma BestKeptByCommit(table: ScoreTable, r: Run, op: Op)
    requires BestInv(table, r) && AloneOp(r, op) && op.Commit? && Try(r, op).Ok?
    ensures BestInv(table, Exec(r, op))
  {
    var r' := Exec(r, op);
    BestAfter(r.state, op.event, r.spec, op.candidate, op.cost);
    AppliedAppend(r.log, r'.log[|r.log|]);
    var n := Applied(r.log);
    if IsEvaluationEvent(op.event) {
      assert n + 1 == |r.evaluations|;
      assert r.candidates[..n + 1] == r.candidates && r.evaluations[..n + 1] == r.evaluations;
    }
  }

  lemma BestKeptByAttempt(table: ScoreTable, r: Run, c: Candidate, e: Evaluation)
    requires BestInv(table, r) && Surplus(r) == 0 && RecordAttempt(r, c, e).Ok?
    requires Judged(table, r.evaluations, e) && c.parent == r.state.bestCandidateHash
    ensures BestInv(table, RecordAttempt(r, c, e).value)
  {
    var n := |r.evaluations|;
    assert r.candidates[..n] == r.candidates && r.evaluations[..n] == r.evaluations;
    LineageAppend(table, r.candidates, r.evaluations, c, e);
    assert (r.candidates + [c])[..n] == r.candidates && (r.evaluations + [e])[..n] == r.evaluations;
  }

  lemma LineageAppend(table: ScoreTable, cs: seq<Candidate>, es: seq<Evaluation>, c: Candidate, e: Evaluation)
    requires Lineage(table, cs, es) && Judged(table, es, e) && c.parent == LastEligible(cs, es)
    ensures Lineage(table, cs + [c], es + [e])
  {
    assert (cs + [c])[..|cs|] == cs && (es + [e])[..|es|] == es;
  }

  lemma BestPcNext(table: ScoreTable, r: Run, pc: Pc, child: Child)
    requires Phase2Spec(r.spec) && (pc.StepLineage? ==> pc.st == r.state)
    ensures BestPc(table, r, Continue(table, r, pc, child))
  {
    if pc.StepLineage? {
      if pc.variation.strategy in table {
        JudgedByEvaluator(table, r, pc.st, pc.variation, pc.resultHash);
      }
    } else {
      OnlyLineageRecords(table, r, pc, child);
    }
  }

  lemma OnlyLineageRecords(table: ScoreTable, r: Run, pc: Pc, child: Child)
    requires !pc.StepLineage?
    ensures !Continue(table, r, pc, child).StepRecord?
  {
    if InStep(pc) {
      assert !ContinueStep(table, r, pc, child).StepRecord?;
    } else if InSupervise(pc) {
      assert !ContinueSupervise(r, pc, child).StepRecord?;
    } else if InRefresh(pc) {
      assert !ContinueRefresh(r, pc).StepRecord?;
    }
  }

  lemma AttemptOfPc(pc: Pc)
    ensures OpOf(pc).Attempt? ==> pc.StepRecord? && OpOf(pc) == Attempt(pc.c, pc.e)
    ensures pc.StepLineage? ==> OpOf(pc).Read?
  {
  }

  ghost predicate Searching(table: ScoreTable, x: Config) {
    Alone(x.run, x.pc) && BestInv(table, x.run) && BestPc(table, x.run, x.pc)
  }

  lemma SearchingNext(table: ScoreTable, x: Config, child: Child)
    requires Searching(table, x)
    ensures Searching(table, Stepper(table, child)(x))
  {
    var r, pc := x.run, x.pc;
    AloneNext(table, r, pc, child);
    if Try(r, OpOf(pc)).Ok? {
      AloneOpOf(r, pc);
      AttemptOfPc(pc);
      BestKeptByOp(table, r, OpOf(pc));
      BestPcNext(table, Exec(r, OpOf(pc)), pc, child);
    }
  }

  ghost function SearchingAt(table: ScoreTable): Config -> bool {
    (x: Config) => Searching(table, x)
  }

  lemma SearchingRunFor(table: ScoreTable, x: Config, child: Child, n: nat)
    requires Searching(table, x)
    ensures Searching(table, RunFor(table, x.run, x.pc, child, n))
  {
    var inv := SearchingAt(table);
    forall y: Config | inv(y) ensures inv(Stepper(table, child)(y)) {
      SearchingNext(table, y, child);
    }
    assert inv(x) && Config(x.run, x.pc) == x;
    IterateKeeps(Stepper(table, child), inv, x, n);
    assert inv(RunFor(table, x.run, x.pc, child, n));
  }

  ghost predicate Searched(table: ScoreTable, r: Run) {
    AtRest(r) && BestInv(table, r)
  }

  lemma SearchedPerform(table: ScoreTable, r: Run, op: Operation)
    requires Searched(table, r)
    ensures Searched(table, Perform(table, r, op))
  {
    if IsEntry(op.entry) {
      EntrySearches(table, r, op.entry);
      SearchingRunFor(table, Config(r, op.entry), op.child, op.steps);
    }
  }

  lemma EntrySearches(table: ScoreTable, r: Run, entry: Pc)
    requires Searched(table, r) && IsEntry(entry)
    ensures Searching(table, Config(r, entry))
  {
    EntryKnows(r, entry);
  }

  lemma EntryKnows(r: Run, entry: Pc)
    requires IsEntry(entry)
    ensures PcInv(r, entry) && ExPc(r, entry)
  {
  }

  lemma {:induction false} SearchedPerformAll(table: ScoreTable, r: Run, ops: seq<Operation>)
    requires Searched(table, r)
    ensures Searched(table, PerformAll(table, r, ops))
  {
    if ops != [] {
      SearchedPerformAll(table, r, ops[..|ops| - 1]);
      SearchedPerform(table, PerformAll(table, r, ops[..|ops| - 1]), ops[|ops| - 1]);
    }
  }

  lemma CreatedSearches(table: ScoreTable, spec: RunSpec)
    requires spec.WithinBounds() && Phase2Spec(spec)
    ensures BestInv(table, Create(spec)) && BestPc(table, Create(spec), NewApprove)
  {
    CreatedInformed(spec);
  }

  lemma DriveSearched(table: ScoreTable, spec: RunSpec, created: nat, ops: seq<Operation>)
    requires spec.WithinBounds() && spec.maxCostUsd > 0.0 && Phase2Spec(spec)
    ensures Searched(table, Drive(table, spec, created, ops))
  {
    CreatedAlone(spec);
    CreatedSearches(table, spec);
    var x := Config(Create(spec), NewApprove);
    assert Searching(table, x);
    SearchingRunFor(table, x, LaunchError, created);
    SearchedPerformAll(table, RunFor(table, x.run, x.pc, LaunchError, created).run, ops);
  }

  /**
   * The best candidate is minimal: if no recorded evaluation was eligible there is none and no score
   * beats the baseline; otherwise it names a recorded candidate whose score is the least of the
   * baseline and all recorded scores, and following parent links from it meets exactly the eligible
   * candidates, latest first.
   */
  ghost predicate Minimal(table: ScoreTable, r: Run) {
    var best := r.state.bestCandidateHash;
    var least := BaselineScore(table, r.evaluations);
    && |r.candidates| == |r.evaluations|
    && least <= table[BASELINE]
    && (forall e <- r.evaluations :: HasScore(e) && least <= e.scores[OPERATIONS])
    && (best.None? ==> least == table[BASELINE] && forall e <- r.evaluations :: !e.eligible)
    && (best.Some? ==> exists i :: 0 <= i < |r.evaluations| && BearsScore(r.candidates[i], r.evaluations[i], best.value, least))
    && Ancestry(best) == EligibleLatestFirst(r.candidates, r.evaluations)
  }

  lemma SearchedIsMinimal(table: ScoreTable, r: Run)
    requires BestInv(table, r) && Surplus(r) == 0
    ensures Minimal(table, r)
  {
    var n := |r.evaluations|;
    assert r.candidates[..n] == r.candidates && r.evaluations[..n] == r.evaluations;
    BaselineIsMinimum(table, r.candidates, r.evaluations, n);
    forall e <- r.evaluations ensures HasScore(e) && BaselineScore(table, r.evaluations) <= e.scores[OPERATIONS] {
      var i :| 0 <= i < n && r.evaluations[i] == e;
      BaselineIsMinimum(table, r.candidates, r.evaluations, i);
    }
    LastEligibleBearsBaseline(table, r.candidates, r.evaluations);
    AncestryIsEligible(table, r.candidates, r.evaluations);
  }

  /** The best candidate of a driven run is minimal whenever nothing recorded waits to be applied. */
  lemma BestCandidateIsMinimal(table: ScoreTable, spec: RunSpec, created: nat, ops: seq<Operation>)
    requires spec.WithinBounds() && spec.maxCostUsd > 0.0 && Phase2Spec(spec)
    requires Surplus(Drive(table, spec, created, ops)) == 0
    ensures Minimal(table, Drive(table, spec, created, ops))
  {
    DriveSearched(table, spec, created, ops);
    SearchedIsMinimal(table, Drive(table, spec, created, ops));
  }

  /** Eligible scores of a driven run strictly decrease, starting below the table's baseline. */
  lemma EligibleScoresOfRunDecrease(table: ScoreTable, spec: RunSpec, created: nat, ops: seq<Operation>, i: nat, j: nat)
    requires spec.WithinBounds() && spec.maxCostUsd > 0.0 && Phase2Spec(spec)
    requires var es := Drive(table, spec, created, ops).evaluations;
             i < j < |es| && es[i].eligible && es[j].eligible
    ensures var es := Drive(table, spec, created, ops).evaluations;
            && HasScore(es[i]) && HasScore(es[j])
            && es[j].scores[OPERATIONS] < es[i].scores[OPERATIONS] < table[BASELINE]
  {
    DriveSearched(table, spec, created, ops);
    var r := Drive(table, spec, created, ops);
    EligibleScoresDecrease(table, r.candidates, r.evaluations, i, j);
  }
}

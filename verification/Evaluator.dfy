/** The deterministic eligibility decision of evaluator.py. */
module Evaluator {
  import opened Wrappers
  import opened Contracts

  datatype Outcome = Outcome(correctness: map<string, bool>, scores: map<string, real>, evidence: Evidence)

  datatype EvaluationError = ForeignCandidate | NoParetoComparison | EmptyEvidence | MissingCorrectness | MissingScores

  function SetOf(names: seq<string>): set<string> {
    set n <- names
  }

  /** x is at least as good as y on one score. */
  predicate AtLeast(c: Comparison, x: real, y: real) {
    if c.Minimize? then x <= y else x >= y
  }

  predicate NonRegressing(spec: RunSpec, scores: map<string, real>, baseline: map<string, real>) {
    forall k <- spec.scoreKeys :: k in scores && k in baseline && AtLeast(spec.comparison, scores[k], baseline[k])
  }

  predicate Better(spec: RunSpec, scores: map<string, real>, baseline: map<string, real>) {
    exists k <- spec.scoreKeys :: k in scores && k in baseline && !AtLeast(spec.comparison, baseline[k], scores[k])
  }

  function Evaluate(spec: RunSpec, candidate: Candidate, baseline: map<string, real>, outcome: Outcome)
    : Result<Evaluation, EvaluationError>
  {
    if candidate.runSpecHash != SpecIdentity(spec) then Err(ForeignCandidate)
    else if spec.comparison.Pareto? then Err(NoParetoComparison)
    else if outcome.evidence.NoEvidence? then Err(EmptyEvidence)
    else if !(SetOf(spec.correctnessPredicates) <= outcome.correctness.Keys) then Err(MissingCorrectness)
    else if !(SetOf(spec.scoreKeys) <= outcome.scores.Keys * baseline.Keys) then Err(MissingScores)
    else
      var correct := forall k <- spec.correctnessPredicates :: k in outcome.correctness && outcome.correctness[k];
      var nonRegressing := NonRegressing(spec, outcome.scores, baseline);
      var better := Better(spec, outcome.scores, baseline);
      var eligible := correct && nonRegressing && (better || !Strict(spec));
      var reason :=
        if !correct then FailedCorrectness
        else if !nonRegressing then Regressed
        else if Strict(spec) && !better then NotStrictlyBetter
        else Reason.NonRegressing;
      Ok(Evaluation(candidate.Identity(), SpecIdentity(spec), spec.evaluatorId, correct,
                    map k <- SetOf(spec.scoreKeys) :: outcome.scores[k],
                    map k <- SetOf(spec.scoreKeys) :: baseline[k],
                    eligible, reason, Sha256(EvidenceText(outcome.evidence))))
  }

  /** The outcome has every required predicate, and it holds. */
  predicate Correct(spec: RunSpec, o: Outcome) {
    forall p <- spec.correctnessPredicates :: p in o.correctness && o.correctness[p]
  }

  /**
   * An eligible result is correct and non-regressing and, under strict improvement, better; the reason tells
   * which condition fails first; and the evaluation records just what it compared.
   */
  lemma EvaluateDecides(spec: RunSpec, c: Candidate, baseline: map<string, real>, o: Outcome)
    requires Evaluate(spec, c, baseline, o).Ok?
    ensures var e := Evaluate(spec, c, baseline, o).value;
            && e.candidateHash == c.Identity()
            && e.scores.Keys == SetOf(spec.scoreKeys) && e.baselineScores.Keys == SetOf(spec.scoreKeys)
            && var regresses := exists k <- spec.scoreKeys ::
                 if spec.comparison.Minimize? then e.scores[k] > e.baselineScores[k] else e.scores[k] < e.baselineScores[k];
               var differs := exists k <- spec.scoreKeys :: e.scores[k] != e.baselineScores[k];
            && (e.eligible <==> Correct(spec, o) && !regresses && (Strict(spec) ==> differs))
            && (e.correctnessPassed <==> Correct(spec, o))
            && (e.reason.FailedCorrectness? <==> !Correct(spec, o))
            && (e.reason.Regressed? <==> Correct(spec, o) && regresses)
            && (e.reason.NotStrictlyBetter? <==> Correct(spec, o) && !regresses && Strict(spec) && !differs)
            && (e.reason.NonRegressing? <==> e.eligible)
  {
    var e := Evaluate(spec, c, baseline, o).value;
    assert forall k <- spec.scoreKeys :: k in SetOf(spec.scoreKeys);
    assert forall k <- spec.scoreKeys :: e.scores[k] == o.scores[k] && e.baselineScores[k] == baseline[k];
  }

  /** Missing or foreign evidence fails closed; everything else is judged, and the record says of what. */
  lemma EvaluateRecords(spec: RunSpec, c: Candidate, baseline: map<string, real>, o: Outcome)
    ensures Evaluate(spec, c, baseline, o).Ok? <==>
            && c.runSpecHash == SpecIdentity(spec) && !spec.comparison.Pareto? && !o.evidence.NoEvidence?
            && (forall p <- spec.correctnessPredicates :: p in o.correctness)
            && (forall k <- spec.scoreKeys :: k in o.scores && k in baseline)
    ensures Evaluate(spec, c, baseline, o).Ok? ==>
              var e := Evaluate(spec, c, baseline, o).value;
              && e.candidateHash == c.Identity() && e.runSpecHash == c.runSpecHash && e.evaluatorId == spec.evaluatorId
              && e.evidenceHash == Sha256(EvidenceText(o.evidence))
              && (forall k <- spec.scoreKeys :: k in e.scores && e.scores[k] == o.scores[k])
              && (forall k <- spec.scoreKeys :: k in e.baselineScores && e.baselineScores[k] == baseline[k])
  {
    assert forall k <- spec.scoreKeys :: k in SetOf(spec.scoreKeys);
    assert forall p <- spec.correctnessPredicates :: p in SetOf(spec.correctnessPredicates);
  }

  /**
   * Eligibility is transitive: a result that beats an eligible result also beats that result's own
   * baseline, so judging every attempt against the latest eligible one loses nothing.
   */
  lemma EligibilityIsTransitive(spec: RunSpec, c: Candidate, c': Candidate, baseline: map<string, real>, o: Outcome, o': Outcome)
    requires Evaluate(spec, c, baseline, o).Ok? && Evaluate(spec, c, baseline, o).value.eligible
    requires var middle := Evaluate(spec, c, baseline, o).value.scores;
             Evaluate(spec, c', middle, o').Ok? && Evaluate(spec, c', middle, o').value.eligible
    ensures Evaluate(spec, c', baseline, o').Ok? && Evaluate(spec, c', baseline, o').value.eligible
  {
    var e := Evaluate(spec, c, baseline, o).value;
    ScoresOf(spec, c, baseline, o);
    ScoresOf(spec, c', e.scores, o');
    ScoresOf(spec, c', baseline, o');
    EvaluateDecides(spec, c, baseline, o);
    EvaluateDecides(spec, c', e.scores, o');
    EvaluateDecides(spec, c', baseline, o');
    BeatsTwice(spec, e, Evaluate(spec, c', e.scores, o').value, Evaluate(spec, c', baseline, o').value);
  }

  /** Which scores an evaluation compares: those of the outcome and those of the baseline. */
  lemma ScoresOf(spec: RunSpec, c: Candidate, baseline: map<string, real>, o: Outcome)
    requires c.runSpecHash == SpecIdentity(spec) && !spec.comparison.Pareto? && !o.evidence.NoEvidence?
    requires SetOf(spec.correctnessPredicates) <= o.correctness.Keys && SetOf(spec.scoreKeys) <= o.scores.Keys * baseline.Keys
    ensures Evaluate(spec, c, baseline, o).Ok?
    ensures var e := Evaluate(spec, c, baseline, o).value;
            && e.scores == (map k <- SetOf(spec.scoreKeys) :: o.scores[k])
            && e.baselineScores == (map k <- SetOf(spec.scoreKeys) :: baseline[k])
  {
  }

  predicate Scored(spec: RunSpec, e: Evaluation) {
    forall k <- spec.scoreKeys :: k in e.scores && k in e.baselineScores
  }

  predicate Beats(spec: RunSpec, e: Evaluation)
    requires Scored(spec, e)
  {
    && (forall k <- spec.scoreKeys :: AtLeast(spec.comparison, e.scores[k], e.baselineScores[k]))
    && (Strict(spec) ==> exists k <- spec.scoreKeys :: e.scores[k] != e.baselineScores[k])
  }

  /** e1 beats the scores of e, and e its own baseline; then e2, with the scores of e1 and the baseline of e, beats it too. */
  lemma BeatsTwice(spec: RunSpec, e: Evaluation, e1: Evaluation, e2: Evaluation)
    requires Scored(spec, e) && Scored(spec, e1) && Scored(spec, e2)
    requires Beats(spec, e) && Beats(spec, e1)
    requires e1.baselineScores == e.scores && e2.scores == e1.scores && e2.baselineScores == e.baselineScores
    ensures Beats(spec, e2)
  {
    forall k <- spec.scoreKeys ensures AtLeast(spec.comparison, e2.scores[k], e2.baselineScores[k]) {
      assert AtLeast(spec.comparison, e1.scores[k], e1.baselineScores[k]);
    }
    if Strict(spec) {
      var k :| k in spec.scoreKeys && e.scores[k] != e.baselineScores[k];
      assert e2.scores[k] != e2.baselineScores[k];
    }
  }

  /** Under strict improvement nothing is eligible against its own scores. */
  lemma StrictIsIrreflexive(spec: RunSpec, c: Candidate, o: Outcome)
    requires Strict(spec) && Evaluate(spec, c, o.scores, o).Ok?
    ensures !Evaluate(spec, c, o.scores, o).value.eligible
  {
    EvaluateDecides(spec, c, o.scores, o);
  }
}

/**
 * Runs that show why the hypotheses are there: with operations overlapping, or with
 * nothing to spend, evidence is recorded that is not applied when it should be.
 */
module Counterexamples {
  import opened Wrappers
  import opened Contracts
  import opened StateMachine
  import opened RunHistory
  import opened Ledger
  import opened LogReplay
  import opened Actors
  import opened RunInvariants
  import opened Interleaving
  import opened ExclusiveDriver
  import opened CrashRecovery
  import opened Discipline
  import opened BestScore
  import opened ProgramPoints
  import opened Completion
  import opened Progress
  import opened Iteration
  import Evaluator

  /** Some interleaving leads to s; if kept, one in which every action keeps the guard. */
  ghost predicate Reachable(table: ScoreTable, spec: RunSpec, kept: bool, s: Sys) {
    exists actions :: Behave(table, spec, actions) == s && (kept ==> Disciplined(table, spec, actions))
  }

  lemma StepReaches(table: ScoreTable, spec: RunSpec, kept: bool, s: Sys, a: Action)
    requires Reachable(table, spec, kept, s) && (kept ==> Guarded(s, a))
    ensures Reachable(table, spec, kept, Step(table, s, a))
  {
    var actions :| Behave(table, spec, actions) == s && (kept ==> Disciplined(table, spec, actions));
    Extended(table, spec, actions, a);
  }

  /** Each action of the tail but its first one keeps the guard. */
  ghost predicate OnlyFirstBreaks(table: ScoreTable, spec: RunSpec, actions: seq<Action>, tail: seq<Action>) {
    forall k :: 0 < k < |tail| ==> Guarded(Behave(table, spec, actions + tail[..k]), tail[k])
  }

  /**
   * Some interleaving leads to s0, guarded if kept, and the actions of the tail lead on to s, all
   * guarded but the first.
   */
  ghost predicate Follows(table: ScoreTable, spec: RunSpec, kept: bool, s0: Sys, tail: seq<Action>, s: Sys) {
    exists actions ::
      && Behave(table, spec, actions) == s0 && (kept ==> Disciplined(table, spec, actions))
      && Behave(table, spec, actions + tail) == s && OnlyFirstBreaks(table, spec, actions, tail)
  }

  lemma StepFollows(table: ScoreTable, spec: RunSpec, kept: bool, s0: Sys, tail: seq<Action>, s: Sys, a: Action)
    requires Follows(table, spec, kept, s0, tail, s) && (tail != [] ==> Guarded(s, a))
    ensures Follows(table, spec, kept, s0, tail + [a], Step(table, s, a))
  {
    var actions :|
      && Behave(table, spec, actions) == s0 && (kept ==> Disciplined(table, spec, actions))
      && Behave(table, spec, actions + tail) == s && OnlyFirstBreaks(table, spec, actions, tail);
    Extended(table, spec, actions + tail, a);
    assert actions + (tail + [a]) == actions + tail + [a];
    BreaksNoMore(table, spec, actions, tail, a);
  }

  lemma BreaksNoMore(table: ScoreTable, spec: RunSpec, actions: seq<Action>, tail: seq<Action>, a: Action)
    requires OnlyFirstBreaks(table, spec, actions, tail)
    requires tail != [] ==> Guarded(Behave(table, spec, actions + tail), a)
    ensures OnlyFirstBreaks(table, spec, actions, tail + [a])
  {
    hide Guarded, Behave;
    forall k | 0 < k < |tail + [a]| ensures Guarded(Behave(table, spec, actions + (tail + [a])[..k]), (tail + [a])[k]) {
      assert (tail + [a])[..k] == tail[..k];
      assert tail[..|tail|] == tail;
    }
  }

  lemma NothingFollows(table: ScoreTable, spec: RunSpec, kept: bool, s: Sys)
    requires Reachable(table, spec, kept, s)
    ensures Follows(table, spec, kept, s, [], s)
  {
    var actions :| Behave(table, spec, actions) == s && (kept ==> Disciplined(table, spec, actions));
    assert actions + [] == actions;
  }

  lemma FollowedIsReached(table: ScoreTable, spec: RunSpec, kept: bool, s0: Sys, tail: seq<Action>, s: Sys)
    requires Follows(table, spec, kept, s0, tail, s)
    ensures Reachable(table, spec, false, s)
  {
  }

  lemma StartReaches(table: ScoreTable, spec: RunSpec, kept: bool)
    ensures Reachable(table, spec, kept, Init(spec))
  {
    assert Behave(table, spec, []) == Init(spec) && Disciplined(table, spec, []);
  }

  lemma ReachableInv(table: ScoreTable, spec: RunSpec, kept: bool, s: Sys)
    requires spec.WithinBounds() && Reachable(table, spec, kept, s)
    ensures RunInv(s.run) && s.run.spec == spec && |s.run.advice| <= Supervisions(s.run)
  {
    var actions :| Behave(table, spec, actions) == s;
    Always(table, spec, actions);
  }

  /** Operation i makes its next store call. */
  lemma Moves(table: ScoreTable, spec: RunSpec, kept: bool, s: Sys, i: nat, child: Child, pc': Pc) returns (s': Sys)
    requires Reachable(table, spec, kept, s) && i < |s.actors| && (kept ==> !s.actors[i].RecLoad?)
    requires Try(s.run, OpOf(s.actors[i])).Ok? && Continue(table, Exec(s.run, OpOf(s.actors[i])), s.actors[i], child) == pc'
    ensures Reachable(table, spec, kept, s')
    ensures s'.run == Exec(s.run, OpOf(s.actors[i])) && s'.actors == s.actors[i := pc']
  {
    s' := Step(table, s, Move(i, child));
    StepReaches(table, spec, kept, s, Move(i, child));
  }

  /** The same as the next action of a tail. */
  lemma MovesOn(table: ScoreTable, spec: RunSpec, kept: bool, s0: Sys, tail: seq<Action>, s: Sys, i: nat, child: Child, pc': Pc)
    returns (s': Sys)
    requires Follows(table, spec, kept, s0, tail, s) && i < |s.actors| && (tail != [] ==> !s.actors[i].RecLoad?)
    requires Try(s.run, OpOf(s.actors[i])).Ok? && Continue(table, Exec(s.run, OpOf(s.actors[i])), s.actors[i], child) == pc'
    ensures Follows(table, spec, kept, s0, tail + [Move(i, child)], s')
    ensures s'.run == Exec(s.run, OpOf(s.actors[i])) && s'.actors == s.actors[i := pc']
  {
    s' := Step(table, s, Move(i, child));
    StepFollows(table, spec, kept, s0, tail, s, Move(i, child));
  }

  lemma Spawns(table: ScoreTable, spec: RunSpec, kept: bool, s: Sys, pc: Pc) returns (s': Sys)
    requires Reachable(table, spec, kept, s) && IsEntry(pc)
    ensures Reachable(table, spec, kept, s') && s'.run == s.run && s'.actors == s.actors + [pc]
  {
    s' := Step(table, s, Spawn(pc));
    StepReaches(table, spec, kept, s, Spawn(pc));
  }

  /** A child that proposes v. */
  function Proposes(v: Variation, h: Digest): Child {
    Report(true, true, Some(v), None, h)
  }

  lemma StartContinues(table: ScoreTable, r: Run, st: RunState, v: Variation, h: Digest)
    requires v.strategy in table
    ensures var child := Proposes(v, h);
            && Continue(table, r, StepLoad, child) == StepStart(r.state)
            && Continue(table, r, StepStart(st), child) == StepLaunch(r.state)
            && Continue(table, r, StepLaunch(st), child) == StepNoteResult(st, child)
            && Continue(table, r, StepNoteResult(st, child), child) == StepLineage(st, v, h)
  {
  }

  lemma StartOps(st: RunState, v: Variation, h: Digest)
    ensures OpOf(StepLoad).Read? && OpOf(StepLaunch(st)).Read? && OpOf(StepLineage(st, v, h)).Read?
    ensures OpOf(StepStart(st)) == Commit(StartStep, st.revision, None, 0.0)
    ensures OpOf(StepNoteResult(st, Proposes(v, h))) == Note(ChildResult, ChildReport(true, h))
  {
  }

  /** The verdict a step reaches on v. */
  function Pair(table: ScoreTable, r: Run, st: RunState, v: Variation, h: Digest): Result<(Candidate, Evaluation), Evaluator.EvaluationError>
    requires v.strategy in table
  {
    var c := NewCandidate(r.spec, st, v, h);
    var e :- Evaluator.Evaluate(r.spec, c, map[OPERATIONS := BaselineScore(table, r.evaluations)], NewOutcome(v, table[v.strategy]));
    Ok((c, e))
  }

  lemma PairRecorded(table: ScoreTable, r: Run, st: RunState, v: Variation, h: Digest)
    requires Phase2Spec(r.spec) && v.strategy in table
    ensures Pair(table, r, st, v, h).Ok?
    ensures var (c, e) := Pair(table, r, st, v, h).value;
            && e.candidateHash == c.Identity() && c.ordinal == st.stepsUsed + 1
            && (e.eligible <==> table[v.strategy] < BaselineScore(table, r.evaluations))
            && forall child :: Continue(table, r, StepLineage(st, v, h), child) == StepRecord(st, c, e)
  {
    JudgedByEvaluator(table, r, st, v, h);
    var c := NewCandidate(r.spec, st, v, h);
    Evaluator.EvaluateDecides(r.spec, c, map[OPERATIONS := BaselineScore(table, r.evaluations)], NewOutcome(v, table[v.strategy]));
  }

  /** What a commit of an operation leaves as it was. */
  ghost predicate SameEvidence(r: Run, r': Run) {
    && r'.spec == r.spec && r'.candidates == r.candidates && r'.evaluations == r.evaluations
    && Applied(r'.log) == Applied(r.log)
  }

  /** A commit with the current revision. */
  lemma Commits(r: Run, event: EventName) returns (r': Run)
    requires RunInv(r) && event in Allowed(r.state.status) && !event.Resume? && !IsEvaluationEvent(event)
    ensures r' == Exec(r, Commit(event, r.state.revision, None, 0.0)) && Try(r, Commit(event, r.state.revision, None, 0.0)).Ok?
    ensures ApplyTransition(r.state, event, r.spec, None, 0.0) == Ok(r'.state)
    ensures SameEvidence(r, r') && Replays(r') && History(r'.log) == History(r.log) + [Input(event, None, 0.0)]
  {
    CommitAccepted(r, event, None);
    r' := Exec(r, Commit(event, r.state.revision, None, 0.0));
    AppliedAppend(r.log, r'.log[|r.log|]);
    ExecReplays(r, Commit(event, r.state.revision, None, 0.0));
  }

  lemma StartMoves(s: RunState, spec: RunSpec, s': RunState)
    requires ApplyTransition(s, StartStep, spec, None, 0.0) == Ok(s') && Consistent(spec, s) && spec.WithinBounds()
    ensures spec.maxCostUsd > 0.0 ==> s' == s.(status := Running, revision := s.revision + 1)
    ensures spec.maxCostUsd == 0.0 ==> s'.status.BudgetExhausted?
  {
  }

  /** A step of a ready run, up to the launch of its child. */
  lemma StepBegins(table: ScoreTable, spec: RunSpec, kept: bool, s: Sys, i: nat, v: Variation, h: Digest) returns (s': Sys)
    requires spec.WithinBounds() && spec.maxCostUsd > 0.0 && Reachable(table, spec, kept, s) && v.strategy in table
    requires i < |s.actors| && s.actors[i].StepLoad? && s.run.state.status.Ready?
    ensures Reachable(table, spec, kept, s') && SameEvidence(s.run, s'.run)
    ensures s'.actors == s.actors[i := StepLaunch(s'.run.state)]
    ensures s'.run.state == s.run.state.(status := Running, revision := s.run.state.revision + 1)
    ensures History(s'.run.log) == History(s.run.log) + [Input(StartStep, None, 0.0)]
  {
    hide Reachable;
    ReachableInv(table, spec, kept, s);
    var r' := StartCommits(s.run);
    var s1 := StepLoads(table, spec, kept, s, i, v, h);
    s' := StepLaunchesChild(table, spec, kept, s1, i, s.run.state, r', v, h);
    assert s.actors[i := StepStart(s.run.state)][i := StepLaunch(r'.state)] == s.actors[i := StepLaunch(r'.state)];
  }

  lemma StartCommits(r: Run) returns (r': Run)
    requires RunInv(r) && r.state.status.Ready? && r.spec.maxCostUsd > 0.0
    ensures Try(r, Commit(StartStep, r.state.revision, None, 0.0)) == Ok(r') && SameEvidence(r, r')
    ensures r'.state == r.state.(status := Running, revision := r.state.revision + 1)
    ensures History(r'.log) == History(r.log) + [Input(StartStep, None, 0.0)]
  {
    StoredRunIsConsistent(r);
    r' := Commits(r, StartStep);
    StartMoves(r.state, r.spec, r'.state);
  }

  lemma StepLoads(table: ScoreTable, spec: RunSpec, kept: bool, s: Sys, i: nat, v: Variation, h: Digest) returns (s': Sys)
    requires Reachable(table, spec, kept, s) && i < |s.actors| && s.actors[i].StepLoad? && v.strategy in table
    ensures Reachable(table, spec, kept, s') && s'.run == s.run && s'.actors == s.actors[i := StepStart(s.run.state)]
  {
    StartContinues(table, s.run, s.run.state, v, h);
    StartOps(s.run.state, v, h);
    s' := Moves(table, spec, kept, s, i, Proposes(v, h), StepStart(s.run.state));
  }

  lemma StepLaunchesChild(table: ScoreTable, spec: RunSpec, kept: bool, s: Sys, i: nat, st: RunState, r': Run, v: Variation, h: Digest)
    returns (s': Sys)
    requires Reachable(table, spec, kept, s) && i < |s.actors| && s.actors[i] == StepStart(st) && v.strategy in table
    requires Try(s.run, Commit(StartStep, st.revision, None, 0.0)) == Ok(r')
    ensures Reachable(table, spec, kept, s') && s'.run == r' && s'.actors == s.actors[i := StepLaunch(r'.state)]
  {
    StartContinues(table, r', st, v, h);
    StartOps(st, v, h);
    s' := Moves(table, spec, kept, s, i, Proposes(v, h), StepLaunch(r'.state));
  }

  lemma NoteKeeps(r: Run, h: Digest)
    requires Replays(r)
    ensures var r' := Exec(r, Note(ChildResult, ChildReport(true, h)));
            SameEvidence(r, r') && r'.state == r.state && History(r'.log) == History(r.log)
  {
    ExecReplays(r, Note(ChildResult, ChildReport(true, h)));
    AppliedAppend(r.log, EntryOf(ChildResult, r.state, ChildReport(true, h)));
  }

  /** A step whose child proposes v, up to the recording of its verdict. */
  lemma StepJudges(table: ScoreTable, spec: RunSpec, kept: bool, s: Sys, i: nat, v: Variation, h: Digest)
    returns (s': Sys, c: Candidate, e: Evaluation)
    requires spec.WithinBounds() && Phase2Spec(spec) && Reachable(table, spec, kept, s) && v.strategy in table
    requires i < |s.actors| && s.actors[i] == StepLaunch(s.run.state)
    ensures Reachable(table, spec, kept, s') && SameEvidence(s.run, s'.run) && s'.run.state == s.run.state
    ensures s'.actors == s.actors[i := StepRecord(s.run.state, c, e)]
    ensures e.candidateHash == c.Identity() && c.ordinal == s.run.state.stepsUsed + 1
    ensures e.eligible <==> table[v.strategy] < BaselineScore(table, s.run.evaluations)
    ensures History(s'.run.log) == History(s.run.log)
  {
    hide Reachable, RunInv, BaselineScore, Phase2Spec, Exec;
    ReachableInv(table, spec, kept, s);
    NoteKeeps(s.run, h);
    s' := StepLaunched(table, spec, kept, s, i, v, h);
    s' := StepReports(table, spec, kept, s', i, s.run.state, v, h);
    s', c, e := StepEvaluates(table, spec, kept, s', i, s.run.state, v, h);
  }

  lemma StepLaunched(table: ScoreTable, spec: RunSpec, kept: bool, s: Sys, i: nat, v: Variation, h: Digest) returns (s': Sys)
    requires Reachable(table, spec, kept, s) && v.strategy in table && i < |s.actors| && s.actors[i] == StepLaunch(s.run.state)
    ensures Reachable(table, spec, kept, s') && s'.run == s.run
    ensures s'.actors == s.actors[i := StepNoteResult(s.run.state, Proposes(v, h))]
  {
    hide Reachable;
    StartContinues(table, s.run, s.run.state, v, h);
    StartOps(s.run.state, v, h);
    s' := Moves(table, spec, kept, s, i, Proposes(v, h), StepNoteResult(s.run.state, Proposes(v, h)));
  }

  lemma StepReports(table: ScoreTable, spec: RunSpec, kept: bool, s: Sys, i: nat, st: RunState, v: Variation, h: Digest) returns (s': Sys)
    requires Reachable(table, spec, kept, s) && v.strategy in table
    requires i < |s.actors| && s.actors[i] == StepNoteResult(st, Proposes(v, h))
    ensures Reachable(table, spec, kept, s') && s'.run == Exec(s.run, Note(ChildResult, ChildReport(true, h)))
    ensures s'.actors == s.actors[i := StepLineage(st, v, h)]
  {
    hide Reachable;
    StartContinues(table, Exec(s.run, Note(ChildResult, ChildReport(true, h))), st, v, h);
    StartOps(st, v, h);
    s' := Moves(table, spec, kept, s, i, Proposes(v, h), StepLineage(st, v, h));
  }

  lemma StepEvaluates(table: ScoreTable, spec: RunSpec, kept: bool, s: Sys, i: nat, st: RunState, v: Variation, h: Digest)
    returns (s': Sys, c: Candidate, e: Evaluation)
    requires Phase2Spec(s.run.spec) && Reachable(table, spec, kept, s) && v.strategy in table
    requires i < |s.actors| && s.actors[i] == StepLineage(st, v, h)
    ensures Reachable(table, spec, kept, s') && s'.run == s.run && s'.actors == s.actors[i := StepRecord(st, c, e)]
    ensures e.candidateHash == c.Identity() && c.ordinal == st.stepsUsed + 1
    ensures e.eligible <==> table[v.strategy] < BaselineScore(table, s.run.evaluations)
  {
    hide Reachable, Continue;
    c, e := PairContinues(table, s.run, st, v, h, Proposes(v, h));
    StartOps(st, v, h);
    s' := Moves(table, spec, kept, s, i, Proposes(v, h), StepRecord(st, c, e));
  }

  lemma PairContinues(table: ScoreTable, r: Run, st: RunState, v: Variation, h: Digest, child: Child) returns (c: Candidate, e: Evaluation)
    requires Phase2Spec(r.spec) && v.strategy in table
    ensures Continue(table, r, StepLineage(st, v, h), child) == StepRecord(st, c, e)
    ensures e.candidateHash == c.Identity() && c.ordinal == st.stepsUsed + 1
    ensures e.eligible <==> table[v.strategy] < BaselineScore(table, r.evaluations)
  {
    PairRecorded(table, r, st, v, h);
    var pair := Pair(table, r, st, v, h).value;
    c, e := pair.0, pair.1;
  }

  /** A step records its pair as the first of the run. */
  lemma RecordFollows(table: ScoreTable, spec: RunSpec, s0: Sys, tail: seq<Action>, s: Sys, i: nat, child: Child) returns (s': Sys)
    requires Follows(table, spec, true, s0, tail, s) && i < |s.actors| && s.actors[i].StepRecord?
    requires s.run.candidates == [] && s.run.evaluations == []
    ensures Follows(table, spec, true, s0, tail + [Move(i, child)], s')
    ensures s'.run == s.run.(candidates := [s.actors[i].c], evaluations := [s.actors[i].e])
  {
    var pc := s.actors[i];
    RecordsFirst(s.run, pc.c, pc.e);
    s' := MovesOn(table, spec, true, s0, tail, s, i, child, StepReady(pc.st, pc.c, pc.e));
  }

  lemma ReconcileContinues(table: ScoreTable, r: Run, st: RunState, child: Child)
    ensures InFlight(r.state) ==> Continue(table, r, RecLoad, child) == RecLineage(r.state)
    ensures Continue(table, r, RecLineage(st), child) == RecEvents(st, r.candidates, r.evaluations)
    ensures OpOf(RecLoad).Read? && OpOf(RecLineage(st)).Read? && OpOf(RecEvents(st, r.candidates, r.evaluations)).Read?
  {
  }

  /** Three calls of one operation in a row. */
  function Thrice(a: Action): seq<Action> {
    [] + [a] + [a] + [a]
  }

  lemma ReconcileLoads(table: ScoreTable, spec: RunSpec, kept: bool, s: Sys, i: nat, child: Child) returns (s': Sys)
    requires Reachable(table, spec, kept, s) && i < |s.actors| && s.actors[i].RecLoad? && s.run.state.status.Running?
    ensures Follows(table, spec, kept, s, [] + [Move(i, child)], s')
    ensures s'.run == s.run && s'.actors == s.actors[i := RecLineage(s.run.state)]
  {
    NothingFollows(table, spec, kept, s);
    ReconcileContinues(table, s.run, s.run.state, child);
    s' := MovesOn(table, spec, kept, s, [], s, i, child, RecLineage(s.run.state));
  }

  lemma ReconcileReadsLineage(table: ScoreTable, spec: RunSpec, kept: bool, s0: Sys, s: Sys, i: nat, child: Child) returns (s': Sys)
    requires Follows(table, spec, kept, s0, [] + [Move(i, child)], s)
    requires i < |s.actors| && s.actors[i] == RecLineage(s.run.state)
    ensures Follows(table, spec, kept, s0, [] + [Move(i, child)] + [Move(i, child)], s')
    ensures s'.run == s.run && s'.actors == s.actors[i := RecEvents(s.run.state, s.run.candidates, s.run.evaluations)]
  {
    ReconcileContinues(table, s.run, s.run.state, child);
    s' := MovesOn(table, spec, kept, s0, [] + [Move(i, child)], s, i, child, RecEvents(s.run.state, s.run.candidates, s.run.evaluations));
  }

  lemma ReconcileReadsEvents(table: ScoreTable, spec: RunSpec, kept: bool, s0: Sys, s: Sys, i: nat, child: Child, pc': Pc) returns (s': Sys)
    requires Follows(table, spec, kept, s0, [] + [Move(i, child)] + [Move(i, child)], s)
    requires i < |s.actors| && s.actors[i] == RecEvents(s.run.state, s.run.candidates, s.run.evaluations)
    requires Continue(table, s.run, RecEvents(s.run.state, s.run.candidates, s.run.evaluations), child) == pc'
    ensures Follows(table, spec, kept, s0, Thrice(Move(i, child)), s') && s'.run == s.run && s'.actors == s.actors[i := pc']
  {
    ReconcileContinues(table, s.run, s.run.state, child);
    s' := MovesOn(table, spec, kept, s0, [] + [Move(i, child)] + [Move(i, child)], s, i, child, pc');
  }

  /** A reconcile of an attempt in flight, up to what its evidence tells it to commit. */
  lemma ReconcileLooks(table: ScoreTable, spec: RunSpec, kept: bool, s: Sys, i: nat, child: Child, pc': Pc) returns (s': Sys)
    requires Reachable(table, spec, kept, s) && i < |s.actors| && s.actors[i].RecLoad? && s.run.state.status.Running?
    requires Continue(table, s.run, RecEvents(s.run.state, s.run.candidates, s.run.evaluations), child) == pc'
    ensures Follows(table, spec, kept, s, Thrice(Move(i, child)), s') && s'.run == s.run && s'.actors == s.actors[i := pc']
  {
    hide Reachable, Follows;
    s' := ReconcileLoads(table, spec, kept, s, i, child);
    s' := ReconcileReadsLineage(table, spec, kept, s, s', i, child);
    s' := ReconcileReadsEvents(table, spec, kept, s, s', i, child, pc');
    assert s'.actors == s.actors[i := pc'];
  }

  lemma EvidenceDecides(table: ScoreTable, r: Run, st: RunState, child: Child)
    requires st.status.Running?
    ensures r.evaluations == [] ==> Continue(table, r, RecEvents(st, r.candidates, r.evaluations), child) == RecMiss(st)
    ensures |r.candidates| == |r.evaluations| == 1 && Applied(r.log) == 0 ==>
              Continue(table, r, RecEvents(st, r.candidates, r.evaluations), child) == RecReady(st, r.candidates[0], r.evaluations[0])
  {
  }

  lemma InterruptContinues(table: ScoreTable, r: Run, st: RunState, child: Child)
    requires st.status.Running?
    ensures OpOf(RecMiss(st)) == Commit(Interrupt, st.revision, None, 0.0)
    ensures Continue(table, r, RecMiss(st), child) == RecNoteMiss(true)
  {
  }

  /** A reconcile that finds nothing recorded interrupts the attempt. */
  lemma ReconcileInterrupts(table: ScoreTable, spec: RunSpec, s: Sys, i: nat, child: Child) returns (s': Sys)
    requires spec.WithinBounds() && Reachable(table, spec, true, s)
    requires i < |s.actors| && s.actors[i].RecLoad? && s.run.state.status.Running? && s.run.evaluations == []
    ensures Follows(table, spec, true, s, Thrice(Move(i, child)) + [Move(i, child)], s')
    ensures SameEvidence(s.run, s'.run) && s'.actors == s.actors[i := RecNoteMiss(true)]
    ensures ApplyTransition(s.run.state, Interrupt, s.run.spec, None, 0.0) == Ok(s'.run.state)
    ensures History(s'.run.log) == History(s.run.log) + [Input(Interrupt, None, 0.0)]
  {
    hide Reachable, Follows;
    ReachableInv(table, spec, true, s);
    EvidenceDecides(table, s.run, s.run.state, child);
    var s1 := ReconcileLooks(table, spec, true, s, i, child, RecMiss(s.run.state));
    var r' := Commits(s.run, Interrupt);
    s' := InterruptFollows(table, spec, s, s1, i, child, r');
    assert s'.actors == s.actors[i := RecNoteMiss(true)];
  }

  lemma InterruptFollows(table: ScoreTable, spec: RunSpec, s0: Sys, s: Sys, i: nat, child: Child, r': Run) returns (s': Sys)
    requires Follows(table, spec, true, s0, Thrice(Move(i, child)), s) && i < |s.actors|
    requires s.actors[i] == RecMiss(s.run.state) && s.run.state.status.Running?
    requires Try(s.run, Commit(Interrupt, s.run.state.revision, None, 0.0)) == Ok(r')
    ensures Follows(table, spec, true, s0, Thrice(Move(i, child)) + [Move(i, child)], s')
    ensures s'.run == r' && s'.actors == s.actors[i := RecNoteMiss(true)]
  {
    InterruptContinues(table, r', s.run.state, child);
    s' := MovesOn(table, spec, true, s0, Thrice(Move(i, child)), s, i, child, RecNoteMiss(true));
  }

  lemma ApprovalCommits(spec: RunSpec) returns (r: Run)
    requires spec.WithinBounds()
    ensures Try(Create(spec), Commit(EventName.Approve, 0, None, 0.0)) == Ok(r)
    ensures r.state.status.Ready? && r.state.stepsUsed == 0 && r.state.consecutiveNoProgress == 0
    ensures r.state.costUsd == 0.0 && r.state.bestCandidateHash.None?
    ensures r.candidates == [] && r.evaluations == [] && Applied(r.log) == 0 && r.spec == spec
    ensures History(r.log) == [Input(EventName.Approve, None, 0.0)]
  {
    CreatedInformed(spec);
    r := Commits(Create(spec), EventName.Approve);
    CreateReplays(spec);
  }

  /** The run as create_run approved it. */
  lemma Approved(table: ScoreTable, spec: RunSpec, kept: bool, child: Child) returns (s: Sys)
    requires spec.WithinBounds()
    ensures Reachable(table, spec, kept, s) && |s.actors| == 1
    ensures Try(Create(spec), Commit(EventName.Approve, 0, None, 0.0)) == Ok(s.run)
  {
    hide Reachable, OpOf, Continue;
    StartReaches(table, spec, kept);
    var r := ApprovalCommits(spec);
    ApprovalContinues(table, r, child);
    s := Moves(table, spec, kept, Init(spec), 0, child, MemRun(Task(None, None, None)));
  }

  /** A step about to record its attempt, and a reconcile about to begin. */
  lemma StepMeetsReconcile(table: ScoreTable, spec: RunSpec, v: Variation, h: Digest) returns (s: Sys, c: Candidate, e: Evaluation)
    requires spec.WithinBounds() && spec.maxCostUsd > 0.0 && Phase2Spec(spec) && v.strategy in table
    ensures Reachable(table, spec, true, s) && Meeting(s, c, e)
    ensures e.eligible <==> table[v.strategy] < table[BASELINE]
  {
    hide Reachable;
    var child := Proposes(v, h);
    s := Approved(table, spec, true, child);
    var r := ApprovalCommits(spec);
    s := Spawns(table, spec, true, s, StepLoad);
    s := StepBegins(table, spec, true, s, 1, v, h);
    s, c, e := StepJudges(table, spec, true, s, 1, v, h);
    s := Spawns(table, spec, true, s, RecLoad);
  }

  /** The first attempt of a run is in the hands of actor 1, nothing is recorded, and actor 2 is a reconcile. */
  ghost predicate Meeting(s: Sys, c: Candidate, e: Evaluation) {
    && |s.actors| == 3 && s.actors[1] == StepRecord(s.run.state, c, e) && s.actors[2].RecLoad?
    && s.run.state.status.Running? && s.run.state.stepsUsed == 0 && s.run.state.consecutiveNoProgress == 0
    && s.run.state.bestCandidateHash.None? && s.run.state.costUsd == 0.0
    && s.run.candidates == [] && s.run.evaluations == [] && Applied(s.run.log) == 0 && c.ordinal == 1
    && History(s.run.log) == [Input(EventName.Approve, None, 0.0), Input(StartStep, None, 0.0)]
  }

  /** The reconcile makes its four calls, and then the step makes its next one. */
  function Overlap(child: Child): seq<Action> {
    Thrice(Move(2, child)) + [Move(2, child)] + [Move(1, child)]
  }

  lemma InterruptCloses(s: RunState, spec: RunSpec, s': RunState)
    requires ApplyTransition(s, Interrupt, spec, None, 0.0) == Ok(s') && spec.WithinBounds() && spec.maxCostUsd > 0.0
    requires s.stepsUsed == 0 && s.consecutiveNoProgress == 0 && s.costUsd == 0.0 && s.bestCandidateHash.None?
    ensures !InFlight(s') && s'.stepsUsed == 1 && s'.bestCandidateHash.None?
    ensures s'.status.Ready? <==> spec.maxSteps >= 2 && spec.noProgressLimit >= 2
    ensures s'.status.SupervisionRequired? <==> spec.maxSteps >= 2 && spec.noProgressLimit == 1
  {
  }

  /** The reconcile closes the attempt of the live step, and the step then records its evidence all the same. */
  lemma Interferes(table: ScoreTable, spec: RunSpec, s: Sys, c: Candidate, e: Evaluation, child: Child) returns (s': Sys)
    requires spec.WithinBounds() && spec.maxCostUsd > 0.0 && Reachable(table, spec, true, s) && Meeting(s, c, e)
    ensures Follows(table, spec, true, s, Overlap(child), s')
    ensures s'.run.candidates == [c] && s'.run.evaluations == [e] && Applied(s'.run.log) == 0
    ensures !InFlight(s'.run.state) && s'.run.state.stepsUsed == 1 && s'.run.state.bestCandidateHash.None?
    ensures s'.run.state.status.Ready? <==> spec.maxSteps >= 2 && spec.noProgressLimit >= 2
    ensures s'.run.state.status.SupervisionRequired? <==> spec.maxSteps >= 2 && spec.noProgressLimit == 1
    ensures History(s'.run.log) ==
            [Input(EventName.Approve, None, 0.0), Input(StartStep, None, 0.0), Input(Interrupt, None, 0.0)]
  {
    hide Reachable, Follows;
    ReachableInv(table, spec, true, s);
    var s1 := ReconcileInterrupts(table, spec, s, 2, child);
    InterruptCloses(s.run.state, spec, s1.run.state);
    s' := RecordFollows(table, spec, s, Thrice(Move(2, child)) + [Move(2, child)], s1, 1, child);
  }

  /**
   * The guard is needed. For every spec phase2.py creates, up to its budgets, that has something to
   * spend, some disciplined interleaving meets a live step where a reconcile may begin; if the
   * reconcile loads all the same, which is the only action to break the guard, and makes its three
   * other calls, then the next call of the step leaves an unapplied evaluation with nothing in flight.
   */
  lemma OverlapLeavesSurplus(table: ScoreTable, spec: RunSpec, v: Variation, h: Digest)
    requires spec.WithinBounds() && spec.maxCostUsd > 0.0 && Phase2Spec(spec) && v.strategy in table
    ensures exists actions ::
              && Disciplined(table, spec, actions)
              && (var s := Behave(table, spec, actions);
                  && |s.actors| == 3 && Live(s.actors[1]) && s.actors[2].RecLoad?)
              && OnlyFirstBreaks(table, spec, actions, Overlap(Proposes(v, h)))
              && (var r := Behave(table, spec, actions + Overlap(Proposes(v, h))).run;
                  !InFlight(r.state) && Surplus(r) == 1)
  {
    hide OnlyFirstBreaks;
    var s, c, e := StepMeetsReconcile(table, spec, v, h);
    var s' := Interferes(table, spec, s, c, e, Proposes(v, h));
    assert Surplus(s'.run) == 1;
    var actions :| Behave(table, spec, actions) == s && Disciplined(table, spec, actions)
                   && Behave(table, spec, actions + Overlap(Proposes(v, h))) == s'
                   && OnlyFirstBreaks(table, spec, actions, Overlap(Proposes(v, h)));
  }

  lemma ReadyMoves(s: RunState, spec: RunSpec, s': RunState)
    requires ApplyTransition(s, CandidateReady, spec, None, 0.0) == Ok(s')
    ensures s' == s.(status := Evaluating, revision := s.revision + 1)
  {
  }

  lemma ReadyCommits(r: Run) returns (r': Run)
    requires RunInv(r) && r.state.status.Running?
    ensures r' == Exec(r, Commit(CandidateReady, r.state.revision, None, 0.0))
    ensures Try(r, Commit(CandidateReady, r.state.revision, None, 0.0)).Ok? && SameEvidence(r, r')
    ensures r'.state == r.state.(status := Evaluating, revision := r.state.revision + 1)
    ensures History(r'.log) == History(r.log) + [Input(CandidateReady, None, 0.0)]
  {
    r' := Commits(r, CandidateReady);
    ReadyMoves(r.state, r.spec, r'.state);
  }

  lemma ReadyContinues(table: ScoreTable, r: Run, st: RunState, c: Candidate, e: Evaluation, child: Child)
    ensures Continue(table, r, RecReady(st, c, e), child) == RecApply(r.state, c, e)
    ensures OpOf(RecReady(st, c, e)) == Commit(CandidateReady, st.revision, None, 0.0)
  {
  }

  /** A reconcile that finds one recorded pair readies the attempt in flight for it. */
  lemma ReconcileReadies(table: ScoreTable, spec: RunSpec, s: Sys, i: nat, c: Candidate, e: Evaluation, child: Child) returns (s': Sys)
    requires spec.WithinBounds() && Reachable(table, spec, false, s)
    requires i < |s.actors| && s.actors[i].RecLoad? && s.run.state.status.Running?
    requires s.run.candidates == [c] && s.run.evaluations == [e] && Applied(s.run.log) == 0
    ensures Reachable(table, spec, false, s') && SameEvidence(s.run, s'.run)
    ensures |s'.actors| == |s.actors| && s'.actors[i] == RecApply(s'.run.state, c, e)
    ensures s'.run.state == s.run.state.(status := Evaluating, revision := s.run.state.revision + 1)
    ensures History(s'.run.log) == History(s.run.log) + [Input(CandidateReady, None, 0.0)]
  {
    hide Reachable, Follows, Continue;
    ReachableInv(table, spec, false, s);
    EvidenceDecides(table, s.run, s.run.state, child);
    var s1 := ReconcileLooks(table, spec, false, s, i, child, RecReady(s.run.state, c, e));
    FollowedIsReached(table, spec, false, s, Thrice(Move(i, child)), s1);
    var r' := ReadyCommits(s.run);
    s' := ReadyReaches(table, spec, s1, i, c, e, child, r');
  }

  lemma ReadyReaches(table: ScoreTable, spec: RunSpec, s: Sys, i: nat, c: Candidate, e: Evaluation, child: Child, r': Run) returns (s': Sys)
    requires Reachable(table, spec, false, s) && i < |s.actors| && s.actors[i] == RecReady(s.run.state, c, e)
    requires Try(s.run, Commit(CandidateReady, s.run.state.revision, None, 0.0)) == Ok(r')
    ensures Reachable(table, spec, false, s') && s'.run == r' && s'.actors == s.actors[i := RecApply(r'.state, c, e)]
  {
    hide Reachable;
    ReadyContinues(table, r', s.run.state, c, e, child);
    s' := Moves(table, spec, false, s, i, child, RecApply(r'.state, c, e));
  }

  /** And applies it. */
  lemma ReconcileCredits(table: ScoreTable, spec: RunSpec, s: Sys, i: nat, c: Candidate, e: Evaluation, child: Child) returns (s': Sys)
    requires spec.WithinBounds() && Reachable(table, spec, false, s) && e.eligible
    requires i < |s.actors| && s.actors[i] == RecApply(s.run.state, c, e) && s.run.state.status.Evaluating?
    ensures Reachable(table, spec, false, s') && s'.run.candidates == s.run.candidates && s'.run.evaluations == s.run.evaluations
    ensures s'.run.state.stepsUsed == s.run.state.stepsUsed + 1 && s'.run.state.bestCandidateHash == Some(c.Identity())
    ensures History(s'.run.log) == History(s.run.log) + [Input(EvaluationEligible, Some(c.Identity()), 0.0)]
  {
    hide Reachable;
    ReachableInv(table, spec, false, s);
    var op := Commit(EvaluationEligible, s.run.state.revision, Some(c.Identity()), 0.0);
    CreditCommits(s.run, c);
    CreditContinues(table, Exec(s.run, op), s.run.state, c, e, child);
    s' := Moves(table, spec, false, s, i, child, MemRun(Task(None, None, None)));
  }

  lemma CreditContinues(table: ScoreTable, r: Run, st: RunState, c: Candidate, e: Evaluation, child: Child)
    requires e.eligible
    ensures Continue(table, r, RecApply(st, c, e), child) == MemRun(Task(None, None, None))
    ensures OpOf(RecApply(st, c, e)) == Commit(EvaluationEligible, st.revision, Some(c.Identity()), 0.0)
  {
  }

  lemma CreditCommits(r: Run, c: Candidate)
    requires RunInv(r) && r.state.status.Evaluating?
    ensures var op := Commit(EvaluationEligible, r.state.revision, Some(c.Identity()), 0.0);
            var r' := Exec(r, op);
            && Try(r, op).Ok? && r'.candidates == r.candidates && r'.evaluations == r.evaluations
            && r'.state.stepsUsed == r.state.stepsUsed + 1 && r'.state.bestCandidateHash == Some(c.Identity())
            && History(r'.log) == History(r.log) + [Input(EvaluationEligible, Some(c.Identity()), 0.0)]
  {
    CommitAccepted(r, EvaluationEligible, Some(c.Identity()));
    ExecReplays(r, Commit(EvaluationEligible, r.state.revision, Some(c.Identity()), 0.0));
  }

  /** The first attempt of a run ends as interrupted; where that is one too many, a supervision follows. */
  function FirstAttemptLost(spec: RunSpec): seq<Input> {
    [Input(EventName.Approve, None, 0.0), Input(StartStep, None, 0.0), Input(Interrupt, None, 0.0)]
    + if spec.noProgressLimit == 1 then [Input(StartSupervisor, None, 0.0), Input(SupervisorApplied, None, 0.0)] else []
  }

  /** The first attempt was closed as interrupted, and a second attempt made its candidate c, the only one there is, the best. */
  ghost predicate Misattributed(r: Run, c: Candidate) {
    && r.candidates == [c] && c.ordinal == 1 && r.state.stepsUsed == 2 && r.state.bestCandidateHash == Some(c.Identity())
    && History(r.log) == FirstAttemptLost(r.spec) + [Input(StartStep, None, 0.0), Input(CandidateReady, None, 0.0),
                                                Input(EvaluationEligible, Some(c.Identity()), 0.0)]
  }

  // ----- a supervision in between -----

  /** Operation i makes n calls. */
  lemma {:induction false} MovesFor(table: ScoreTable, spec: RunSpec, s: Sys, i: nat, child: Child, n: nat) returns (s': Sys)
    requires Reachable(table, spec, false, s) && i < |s.actors|
    ensures Reachable(table, spec, false, s') && i < |s'.actors|
    ensures Config(s'.run, s'.actors[i]) == Iterate(Stepper(table, child), Config(s.run, s.actors[i]), n)
    decreases n
  {
    hide Reachable, Stepper;
    if n == 0 {
      s' := s;
    } else {
      var s1 := MovesOneCall(table, spec, s, i, child);
      s' := MovesFor(table, spec, s1, i, child, n - 1);
    }
  }

  lemma MovesOneCall(table: ScoreTable, spec: RunSpec, s: Sys, i: nat, child: Child) returns (s': Sys)
    requires Reachable(table, spec, false, s) && i < |s.actors|
    ensures Reachable(table, spec, false, s') && i < |s'.actors|
    ensures Config(s'.run, s'.actors[i]) == Stepper(table, child)(Config(s.run, s.actors[i]))
  {
    s' := Step(table, s, Move(i, child));
    hide Reachable, Next;
    StepReaches(table, spec, false, s, Move(i, child));
  }

  /** One more operation, to its end. */
  lemma Operates(table: ScoreTable, spec: RunSpec, s: Sys, pc: Pc, child: Child) returns (s': Sys)
    requires Reachable(table, spec, false, s) && IsEntry(pc)
    ensures Reachable(table, spec, false, s') && s'.run == Finish(table, s.run, pc, child)
  {
    hide Reachable, Iterate, Stepper;
    var s1 := Spawns(table, spec, false, s, pc);
    s' := MovesFor(table, spec, s1, |s.actors|, child, StepsLeft(pc));
  }

  /** A supervisor that answers. */
  function Advises(h: Digest): Child {
    Report(true, true, None, Some(Supervision(["look elsewhere"], [])), h)
  }

  lemma AdviceOps(st: RunState, m: Memory, a: Advice, h: Digest)
    ensures OpOf(SupStart(st, m)) == Commit(StartSupervisor, st.revision, None, 0.0)
    ensures OpOf(SupLaunch(st, m)).Read? && OpOf(SupRecord(st, a, h)) == Advise(a)
    ensures OpOf(SupApply(st, a, h)) == Commit(SupervisorApplied, st.revision, None, 0.0)
    ensures OpOf(SupNoteResult(a, h)) == Note(SupervisorResult, AdviceReport(true, h, a.Identity()))
  {
  }

  lemma AdviceContinues(table: ScoreTable, r: Run, pc: Pc, h: Digest)
    requires InSupervise(pc)
    ensures Continue(table, r, pc, Advises(h)) == ContinueSupervise(r, pc, Advises(h))
  {
    hide ContinueStep, ContinueSupervise, ContinueRefresh, ContinueOther;
  }

  lemma AdviceReads(table: ScoreTable, r: Run, h: Digest)
    requires r.advice == [] && r.state.status.SupervisionRequired?
    ensures OpOf(SupLoad).Read? && Continue(table, r, SupLoad, Advises(h)) == SupAdvice(r.state)
    ensures OpOf(SupAdvice(r.state)).Read? && Continue(table, r, SupAdvice(r.state), Advises(h)) == SupMemory(r.state)
    ensures OpOf(SupMemory(r.state)).Read?
    ensures r.memory.Some? ==> Continue(table, r, SupMemory(r.state), Advises(h)) == SupStart(r.state, r.memory.value)
  {
  }

  /** What an applied supervision makes of the run. */
  ghost predicate AdviceApplied(r: Run, r': Run) {
    && SameEvidence(r, r') && History(r'.log) == History(r.log) + [Input(StartSupervisor, None, 0.0), Input(SupervisorApplied, None, 0.0)]
    && r'.state == r.state.(status := Ready, revision := r.state.revision + 2, consecutiveNoProgress := 0)
  }

  lemma SupervisionMoves(s: RunState, spec: RunSpec, s1: RunState, s2: RunState)
    requires ApplyTransition(s, StartSupervisor, spec, None, 0.0) == Ok(s1)
    requires ApplyTransition(s1, SupervisorApplied, spec, None, 0.0) == Ok(s2)
    ensures s1.status.Supervising?
    ensures s2 == s.(status := Ready, revision := s.revision + 2, consecutiveNoProgress := 0)
  {
  }

  lemma AdviceStarts(r: Run) returns (r1: Run)
    requires RunInv(r) && r.state.status.SupervisionRequired?
    ensures Try(r, Commit(StartSupervisor, r.state.revision, None, 0.0)) == Ok(r1) && Replays(r1)
    ensures ApplyTransition(r.state, StartSupervisor, r.spec, None, 0.0) == Ok(r1.state) && r1.state.status.Supervising?
    ensures SameEvidence(r, r1) && r1.advice == r.advice && r1.memory == r.memory
    ensures History(r1.log) == History(r.log) + [Input(StartSupervisor, None, 0.0)]
  {
    r1 := Commits(r, StartSupervisor);
  }

  lemma AdviceStored(r: Run, a: Advice) returns (r1: Run)
    requires r.advice == [] && Replays(r)
    ensures Try(r, Advise(a)) == Ok(r1) && r1 == r.(advice := [a]) && Replays(r1)
  {
    r1 := Exec(r, Advise(a));
    ExecReplays(r, Advise(a));
    assert r.advice + [a] == [a];
  }

  lemma AdviceIsApplied(r: Run) returns (r1: Run)
    requires Replays(r) && r.spec.WithinBounds() && r.state.status.Supervising?
    ensures Try(r, Commit(SupervisorApplied, r.state.revision, None, 0.0)) == Ok(r1) && Replays(r1)
    ensures ApplyTransition(r.state, SupervisorApplied, r.spec, None, 0.0) == Ok(r1.state)
    ensures SameEvidence(r, r1) && r1.memory == r.memory
    ensures History(r1.log) == History(r.log) + [Input(SupervisorApplied, None, 0.0)]
  {
    StoredRunIsConsistent(r);
    r1 := Exec(r, Commit(SupervisorApplied, r.state.revision, None, 0.0));
    AppliedAppend(r.log, r1.log[|r.log|]);
    ExecReplays(r, Commit(SupervisorApplied, r.state.revision, None, 0.0));
  }

  lemma AdviceNoted(r: Run, payload: Payload) returns (r1: Run)
    requires Replays(r)
    ensures Try(r, Note(SupervisorResult, payload)) == Ok(r1) && SameEvidence(r, r1) && r1.memory == r.memory
    ensures r1.state == r.state && History(r1.log) == History(r.log)
  {
    r1 := Exec(r, Note(SupervisorResult, payload));
    ExecReplays(r, Note(SupervisorResult, payload));
    AppliedAppend(r.log, EntryOf(SupervisorResult, r.state, payload));
  }

  /** From its start a supervision whose child answers applies the answer. */
  lemma SupervisesFromStart(table: ScoreTable, r: Run, m: Memory, h: Digest) returns (end: Run)
    requires RunInv(r) && r.state.status.SupervisionRequired? && r.advice == []
    ensures Completes(table, r, SupStart(r.state, m), Advises(h), end) && AdviceApplied(r, end)
  {
    hide Completes, OpOf, Continue, RunInv, Fresh, Try, Replays, ApplyTransition;
    var a := NewAdvice(r.spec, m, Advises(h).supervision.value);
    var task := Task(None, Some(a.Identity()), None);
    SpecWithinBounds(r);
    var r1 := AdviceStarts(r);
    var r2 := AdviceStored(r1, a);
    var r3 := AdviceIsApplied(r2);
    var r4 := AdviceNoted(r3, AdviceReport(true, h, a.Identity()));
    end := Refreshed(r4, task);
    SupervisionMoves(r.state, r.spec, r1.state, r3.state);
    MemoryIsValid(r);
    SupervisionPath(table, r, m, a, h, r1, r2, r3, r4);
  }

  lemma SpecWithinBounds(r: Run)
    requires RunInv(r)
    ensures r.spec.WithinBounds()
  {
  }

  lemma AdvicePath(table: ScoreTable, st: RunState, m: Memory, a: Advice, h: Digest, r2: Run, r3: Run, r4: Run)
    requires Try(r2, Commit(SupervisorApplied, st.revision, None, 0.0)) == Ok(r3)
    requires Try(r3, Note(SupervisorResult, AdviceReport(true, h, a.Identity()))) == Ok(r4)
    requires r4.memory.Some? ==> r4.memory.value.Valid()
    ensures Completes(table, r2, SupApply(st, a, h), Advises(h), Refreshed(r4, Task(None, Some(a.Identity()), None)))
  {
    hide Completes, OpOf, Continue, Refreshed, Try;
    var task, child := Task(None, Some(a.Identity()), None), Advises(h);
    var end := Refreshed(r4, task);
    AdviceOps(st, m, a, h);
    AdviceContinues(table, r3, SupApply(st, a, h), h);
    AdviceContinues(table, r4, SupNoteResult(a, h), h);
    RefreshReturns(table, r4, task, child);
    Proceeds(table, r3, SupNoteResult(a, h), child, r4, MemRun(task), end);
    Proceeds(table, r2, SupApply(st, a, h), child, r3, SupNoteResult(a, h), end);
  }

  lemma SupervisionPath(table: ScoreTable, r: Run, m: Memory, a: Advice, h: Digest, r1: Run, r2: Run, r3: Run, r4: Run)
    requires Try(r, Commit(StartSupervisor, r.state.revision, None, 0.0)) == Ok(r1) && r1.spec == r.spec
    requires a == NewAdvice(r.spec, m, Advises(h).supervision.value) && Try(r1, Advise(a)) == Ok(r2) && r2.state == r1.state
    requires Try(r2, Commit(SupervisorApplied, r2.state.revision, None, 0.0)) == Ok(r3)
    requires Try(r3, Note(SupervisorResult, AdviceReport(true, h, a.Identity()))) == Ok(r4)
    requires r4.memory.Some? ==> r4.memory.value.Valid()
    ensures Completes(table, r, SupStart(r.state, m), Advises(h), Refreshed(r4, Task(None, Some(a.Identity()), None)))
  {
    hide Completes, OpOf, Continue, Refreshed, Try;
    var st, child := r1.state, Advises(h);
    var end := Refreshed(r4, Task(None, Some(a.Identity()), None));
    AdviceOps(r.state, m, a, h);
    AdviceOps(st, m, a, h);
    AdviceContinues(table, r1, SupStart(r.state, m), h);
    AdviceContinues(table, r1, SupLaunch(st, m), h);
    AdviceContinues(table, r2, SupRecord(st, a, h), h);
    ReadsReturn(r1);
    AdvicePath(table, st, m, a, h, r2, r3, r4);
    Proceeds(table, r1, SupRecord(st, a, h), child, r2, SupApply(st, a, h), end);
    Proceeds(table, r1, SupLaunch(st, m), child, r1, SupRecord(st, a, h), end);
    Proceeds(table, r, SupStart(r.state, m), child, r1, SupLaunch(st, m), end);
  }

  /** A supervise whose child answers. */
  lemma SupervisesWholly(table: ScoreTable, r: Run, h: Digest) returns (end: Run)
    requires RunInv(r) && r.state.status.SupervisionRequired? && r.advice == []
    ensures Completes(table, r, SupLoad, Advises(h), end) && AdviceApplied(r, end)
  {
    hide Completes, OpOf, Continue, RunInv, Fresh;
    AdviceReads(table, r, h);
    ReadsReturn(r);
    if r.memory.Some? {
      end := SupervisesFromStart(table, r, r.memory.value, h);
      Proceeds(table, r, SupMemory(r.state), Advises(h), r, SupStart(r.state, r.memory.value), end);
    } else {
      var task := Task(None, None, Some(r.state));
      RefreshedInformed(r, task);
      end := SupervisesFromStart(table, Refreshed(r, task), Fresh(r, task), h);
      MemoryFirst(table, r, SupMemory(r.state), Advises(h), end);
    }
    Proceeds(table, r, SupAdvice(r.state), Advises(h), r, SupMemory(r.state), end);
    Proceeds(table, r, SupLoad, Advises(h), r, SupAdvice(r.state), end);
  }

  lemma NoAdviceYet(h: seq<Input>)
    requires h == [Input(EventName.Approve, None, 0.0), Input(StartStep, None, 0.0), Input(Interrupt, None, 0.0)]
    ensures Count(h, Supervises) == 0
  {
    assert h[..2][..1] == h[..1] && h[..1][..0] == [];
    assert Count(h[..1], Supervises) == 0 && Count(h[..2], Supervises) == 0;
  }

  /** Where the interruption was one too many, a supervision makes the run ready again. */
  lemma SupervisesInBetween(table: ScoreTable, spec: RunSpec, s: Sys, h: Digest) returns (s': Sys)
    requires spec.WithinBounds() && Reachable(table, spec, false, s) && s.run.state.status.SupervisionRequired?
    requires History(s.run.log) == [Input(EventName.Approve, None, 0.0), Input(StartStep, None, 0.0), Input(Interrupt, None, 0.0)]
    ensures Reachable(table, spec, false, s') && AdviceApplied(s.run, s'.run)
  {
    hide Reachable, Finish, Returns;
    ReachableInv(table, spec, false, s);
    NoAdviceYet(History(s.run.log));
    var end := SupervisesWholly(table, s.run, h);
    s' := Operates(table, spec, s, SupLoad, Advises(h));
  }

  /** In either case the run is ready for a second attempt. */
  lemma ReadyAgain(table: ScoreTable, spec: RunSpec, s: Sys, h: Digest) returns (s': Sys)
    requires spec.WithinBounds() && Reachable(table, spec, false, s)
    requires if spec.noProgressLimit == 1 then s.run.state.status.SupervisionRequired? else s.run.state.status.Ready?
    requires History(s.run.log) == [Input(EventName.Approve, None, 0.0), Input(StartStep, None, 0.0), Input(Interrupt, None, 0.0)]
    ensures Reachable(table, spec, false, s') && SameEvidence(s.run, s'.run) && History(s'.run.log) == FirstAttemptLost(spec)
    ensures s'.run.state.status.Ready? && s'.run.state.stepsUsed == s.run.state.stepsUsed
  {
    hide Reachable;
    if spec.noProgressLimit == 1 {
      s' := SupervisesInBetween(table, spec, s, h);
    } else {
      s' := s;
    }
  }

  // ----- the second attempt -----

  /** Another step begins. */
  lemma SecondAttempt(table: ScoreTable, spec: RunSpec, s: Sys, v: Variation, h: Digest) returns (s': Sys)
    requires spec.WithinBounds() && spec.maxCostUsd > 0.0 && Reachable(table, spec, false, s) && v.strategy in table
    requires s.run.state.status.Ready?
    ensures Reachable(table, spec, false, s') && SameEvidence(s.run, s'.run)
    ensures s'.run.state == s.run.state.(status := Running, revision := s.run.state.revision + 1)
    ensures History(s'.run.log) == History(s.run.log) + [Input(StartStep, None, 0.0)]
  {
    hide Reachable;
    var s1 := Spawns(table, spec, false, s, StepLoad);
    s' := StepBegins(table, spec, false, s1, |s.actors|, v, h);
  }

  /** And another reconcile finds what the first step recorded. */
  lemma SecondReconcile(table: ScoreTable, spec: RunSpec, s: Sys, c: Candidate, e: Evaluation, child: Child) returns (s': Sys)
    requires spec.WithinBounds() && Reachable(table, spec, false, s) && s.run.state.status.Running? && e.eligible
    requires s.run.candidates == [c] && s.run.evaluations == [e] && Applied(s.run.log) == 0
    ensures Reachable(table, spec, false, s') && s'.run.candidates == [c]
    ensures s'.run.state.stepsUsed == s.run.state.stepsUsed + 1 && s'.run.state.bestCandidateHash == Some(c.Identity())
    ensures History(s'.run.log) == History(s.run.log) +
            [Input(CandidateReady, None, 0.0), Input(EvaluationEligible, Some(c.Identity()), 0.0)]
  {
    hide Reachable;
    var s1 := Spawns(table, spec, false, s, RecLoad);
    var s2 := ReconcileReadies(table, spec, s1, |s.actors|, c, e, child);
    s' := ReconcileCredits(table, spec, s2, |s.actors|, c, e, child);
  }

  lemma SecondIsCredited(table: ScoreTable, spec: RunSpec, s: Sys, c: Candidate, e: Evaluation, v: Variation, h: Digest) returns (s': Sys)
    requires spec.WithinBounds() && spec.maxCostUsd > 0.0 && Reachable(table, spec, false, s) && v.strategy in table
    requires s.run.candidates == [c] && s.run.evaluations == [e] && Applied(s.run.log) == 0 && e.eligible && c.ordinal == 1
    requires s.run.state.status.Ready? && s.run.state.stepsUsed == 1 && History(s.run.log) == FirstAttemptLost(spec)
    ensures Reachable(table, spec, false, s') && Misattributed(s'.run, c)
  {
    hide Reachable, FirstAttemptLost;
    var s1 := SecondAttempt(table, spec, s, v, h);
    s' := SecondReconcile(table, spec, s1, c, e, Proposes(v, h));
    ReachableInv(table, spec, false, s');
  }

  /** And a later reconcile credits it to another attempt, whenever there is another. */
  lemma OverlapMisattributes(table: ScoreTable, spec: RunSpec, v: Variation, h: Digest)
    requires spec.WithinBounds() && spec.maxCostUsd > 0.0 && Phase2Spec(spec) && spec.maxSteps >= 2
    requires v.strategy in table && table[v.strategy] < table[BASELINE]
    ensures exists actions, c :: Misattributed(Behave(table, spec, actions).run, c)
  {
    hide Follows, Misattributed, Phase2Spec, Meeting, SameEvidence, FirstAttemptLost;
    var s, c, e := StepMeetsReconcile(table, spec, v, h);
    var s1 := Interferes(table, spec, s, c, e, Proposes(v, h));
    FirstOrdinal(s, c, e);
    FollowedIsReached(table, spec, true, s, Overlap(Proposes(v, h)), s1);
    var s2 := ReadyAgain(table, spec, s1, h);
    EvidenceKept(s1.run, s2.run);
    var s3 := SecondIsCredited(table, spec, s2, c, e, v, h);
    var actions :| Behave(table, spec, actions) == s3;
  }

  lemma FirstOrdinal(s: Sys, c: Candidate, e: Evaluation)
    requires Meeting(s, c, e)
    ensures c.ordinal == 1
  {
  }

  lemma EvidenceKept(r: Run, r': Run)
    requires SameEvidence(r, r')
    ensures r'.spec == r.spec && r'.candidates == r.candidates && r'.evaluations == r.evaluations && Applied(r'.log) == Applied(r.log)
  {
  }

  // ----- nothing to spend -----

  lemma OneIteration<S>(step: S -> S, x: S)
    ensures Iterate(step, x, 1) == step(x)
  {
    assert Iterate(step, step(x), 0) == step(x);
  }

  lemma ThreeIterations<S>(step: S -> S, x0: S, x1: S, x2: S, x3: S)
    requires step(x0) == x1 && step(x1) == x2 && step(x2) == x3
    ensures Iterate(step, x0, 3) == x3 && Iterate(step, x0, 6) == Iterate(step, x3, 3)
  {
    assert Iterate(step, x0, 3) == Iterate(step, x1, 2) == Iterate(step, x2, 1) == Iterate(step, x3, 0);
    assert Iterate(step, x0, 6) == Iterate(step, x1, 5) == Iterate(step, x2, 4);
  }

  lemma Goes(table: ScoreTable, child: Child, r: Run, pc: Pc, op: Op, r': Run, pc': Pc)
    requires OpOf(pc) == op && Try(r, op) == Ok(r') && Continue(table, r', pc, child) == pc'
    ensures Stepper(table, child)(Config(r, pc)) == Config(r', pc')
  {
  }

  /** The start of a ready run that has nothing to spend exhausts it, and its child is launched all the same. */
  lemma ZeroBudgetStart(table: ScoreTable, r: Run, v: Variation, h: Digest) returns (r': Run)
    requires RunInv(r) && r.state.status.Ready? && r.spec.maxCostUsd == 0.0 && v.strategy in table
    ensures r'.state.status.BudgetExhausted? && SameEvidence(r, r') && Replays(r')
    ensures var step, x := Stepper(table, Proposes(v, h)), Config(r, StepLoad);
            Iterate(step, x, 6) == Iterate(step, Config(r', StepNoteResult(r'.state, Proposes(v, h))), 3)
  {
    var child := Proposes(v, h);
    StoredRunIsConsistent(r);
    r' := Commits(r, StartStep);
    StartMoves(r.state, r.spec, r'.state);
    var st := r'.state;
    StartOps(r.state, v, h);
    StartOps(st, v, h);
    StartContinues(table, r, r.state, v, h);
    StartContinues(table, r', r.state, v, h);
    StartContinues(table, r', st, v, h);
    Goes(table, child, r, StepLoad, Read, r, StepStart(r.state));
    Goes(table, child, r, StepStart(r.state), Commit(StartStep, r.state.revision, None, 0.0), r', StepLaunch(st));
    Goes(table, child, r', StepLaunch(st), Read, r', StepNoteResult(st, child));
    ThreeIterations(Stepper(table, child), Config(r, StepLoad), Config(r, StepStart(r.state)), Config(r', StepLaunch(st)),
                    Config(r', StepNoteResult(st, child)));
  }

  /** What that child proposed is judged and recorded. */
  lemma ZeroBudgetRecord(table: ScoreTable, r: Run, v: Variation, h: Digest)
    requires Replays(r) && Phase2Spec(r.spec) && v.strategy in table
    requires r.candidates == [] && r.evaluations == [] && Applied(r.log) == 0
    ensures var x := Iterate(Stepper(table, Proposes(v, h)), Config(r, StepNoteResult(r.state, Proposes(v, h))), 3);
            x.run.state == r.state && Surplus(x.run) == 1
  {
    var child, st, note := Proposes(v, h), r.state, Note(ChildResult, ChildReport(true, h));
    var r1 := Exec(r, note);
    NoteKeeps(r, h);
    PairRecorded(table, r1, st, v, h);
    var (c, e) := Pair(table, r1, st, v, h).value;
    var r2 := r1.(candidates := [c], evaluations := [e]);
    StartOps(st, v, h);
    StartContinues(table, r1, st, v, h);
    Goes(table, child, r, StepNoteResult(st, child), note, r1, StepLineage(st, v, h));
    Goes(table, child, r1, StepLineage(st, v, h), Read, r1, StepRecord(st, c, e));
    RecordGoes(table, child, r1, st, c, e);
    ThreeIterations(Stepper(table, child), Config(r, StepNoteResult(st, child)), Config(r1, StepLineage(st, v, h)),
                    Config(r1, StepRecord(st, c, e)), Config(r2, StepReady(st, c, e)));
  }

  lemma RecordGoes(table: ScoreTable, child: Child, r: Run, st: RunState, c: Candidate, e: Evaluation)
    requires r.candidates == [] && r.evaluations == []
    ensures Stepper(table, child)(Config(r, StepRecord(st, c, e))) ==
            Config(r.(candidates := [c], evaluations := [e]), StepReady(st, c, e))
  {
    RecordsFirst(r, c, e);
  }

  lemma RecordsFirst(r: Run, c: Candidate, e: Evaluation)
    requires r.candidates == [] && r.evaluations == []
    ensures Try(r, Attempt(c, e)) == Ok(r.(candidates := [c], evaluations := [e]))
  {
    assert r.candidates + [c] == [c] && r.evaluations + [e] == [e];
  }

  /** With a zero cost budget even an exclusively driven step leaves its evidence behind. */
  lemma ZeroBudgetLeavesSurplus(table: ScoreTable, spec: RunSpec, v: Variation, h: Digest)
    requires spec.WithinBounds() && spec.maxCostUsd == 0.0 && Phase2Spec(spec) && v.strategy in table
    ensures var r := Drive(table, spec, 1, [Operation(StepLoad, Proposes(v, h), 6)]);
            r.state.status.BudgetExhausted? && Surplus(r) == 1
  {
    var r := ApprovedRun(table, spec);
    var r' := ZeroBudgetStart(table, r, v, h);
    ZeroBudgetRecord(table, r', v, h);
    var op := Operation(StepLoad, Proposes(v, h), 6);
    assert [op][..0] == [] && PerformAll(table, r, []) == r;
  }

  /** Recorded evidence is applied in time, in order and once. */
  ghost predicate AppliedOnce(r: Run) {
    0 <= Surplus(r) <= (if InFlight(r.state) then 1 else 0) && Matched(r)
  }

  /** Of the specs phase2.py creates, up to their budgets, those with something to spend are exactly those applied once. */
  lemma AppliedOnceExactlyWithBudget(table: ScoreTable, spec: RunSpec)
    requires spec.WithinBounds() && Phase2Spec(spec)
    ensures (forall actions :: Disciplined(table, spec, actions) ==> AppliedOnce(Behave(table, spec, actions).run))
            <==> spec.maxCostUsd > 0.0
    ensures (forall created, ops :: AppliedOnce(Drive(table, spec, created, ops))) <==> spec.maxCostUsd > 0.0
  {
    if spec.maxCostUsd > 0.0 {
      forall actions | Disciplined(table, spec, actions) ensures AppliedOnce(Behave(table, spec, actions).run) {
        ExactlyOnceUnderDiscipline(table, spec, actions);
      }
      forall created, ops ensures AppliedOnce(Drive(table, spec, created, ops)) {
        ExactlyOnce(table, spec, created, ops);
      }
    } else {
      var v, h := Variation(BASELINE, "r"), SpecIdentity(spec);
      var ops := [Operation(StepLoad, Proposes(v, h), 6)];
      ZeroBudgetLeavesSurplus(table, spec, v, h);
      assert !AppliedOnce(Drive(table, spec, 1, ops));
      DriveIsDisciplined(table, spec, 1, ops);
    }
  }

  /** create_run, stopped after its approval. */
  lemma ApprovedRun(table: ScoreTable, spec: RunSpec) returns (r: Run)
    requires spec.WithinBounds()
    ensures r == RunFor(table, Create(spec), NewApprove, LaunchError, 1).run && RunInv(r) && r.spec == spec
    ensures r.state.status.Ready? && r.candidates == [] && r.evaluations == [] && Applied(r.log) == 0
  {
    r := ApprovalCommits(spec);
    Goes(table, LaunchError, Create(spec), NewApprove, Commit(EventName.Approve, 0, None, 0.0), r, MemRun(Task(None, None, None)));
    OneIteration(Stepper(table, LaunchError), Config(Create(spec), NewApprove));
    CreatedInformed(spec);
    InformedRunFor(table, Create(spec), NewApprove, LaunchError, 1);
  }
}

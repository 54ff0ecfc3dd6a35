/**
 * RunStore of storage.py: the tables of all runs together, each row naming its
 * run, updated in place. Every method is proved against the ledger of one run:
 * it does there what the ledger's step does, and nothing to any other run.
 */
module Store {
  import opened Wrappers
  import opened CanonicalValues
  import opened Contracts
  import opened StateMachine
  import opened Ledger

  datatype Row<T> = Row(runId: string, value: T)

  datatype RunRow = RunRow(specHash: Digest, spec: SpecDict, state: RunState)

  predicate SpecLoads(id: string, specHash: Digest, spec: SpecDict) {
    var loaded := SpecFromJson(spec);
    loaded.Ok? && loaded.value.runId == id && SpecIdentity(loaded.value) == specHash
  }

  ghost predicate Loads(runs: map<string, RunRow>) {
    forall id {:trigger runs[id]} :: id in runs ==> SpecLoads(id, runs[id].specHash, runs[id].spec)
  }

  /** The foreign key of a table. */
  ghost predicate Refer<T>(rows: seq<Row<T>>, ids: set<string>) {
    forall row <- rows :: row.runId in ids
  }

  /** The contents of the tables. */
  datatype Tables = Tables(
    runs: map<string, RunRow>,
    events: seq<Row<Entry>>,
    candidates: seq<Row<Candidate>>,
    evaluations: seq<Row<Evaluation>>,
    advice: seq<Row<Advice>>,
    memories: map<string, Memory>,
    receipts: seq<Row<Receipt>>)
  {
    /** Foreign keys hold, and every stored spec loads under its own key and hash. */
    ghost predicate Valid() {
      Loads(runs) && References()
    }

    ghost predicate References() {
      && memories.Keys <= runs.Keys
      && Refer(events, runs.Keys) && Refer(candidates, runs.Keys) && Refer(evaluations, runs.Keys)
      && Refer(advice, runs.Keys) && Refer(receipts, runs.Keys)
    }

    /** Every record is filed under the run it names. */
    ghost predicate Owned() {
      && (forall row <- candidates :: row.value.runId == row.runId)
      && (forall row <- evaluations :: OwnEvaluation(row.runId, row.value))
      && (forall row <- advice :: row.value.runId == row.runId)
      && (forall row <- receipts :: row.value.runId == row.runId)
    }

    static predicate OwnEvaluation(id: string, e: Evaluation) {
      e.candidateHash.of.CandidateText? && e.candidateHash.of.candidate.runId == id
    }

    /** The ledger of one run. */
    function View(id: string): Run
      requires id in runs && SpecLoads(id, runs[id].specHash, runs[id].spec)
    {
      Run(SpecFromJson(runs[id].spec).value, runs[id].state, Select(events, id), Select(candidates, id),
          Select(evaluations, id), Select(advice, id),
          if id in memories then Some(memories[id]) else None, Select(receipts, id))
    }

    predicate CandidateKey(h: Digest) {
      exists row <- candidates :: row.value.Identity() == h
    }

    predicate EvaluationKey(h: Digest) {
      exists row <- evaluations :: row.value.Identity() == h
    }

    predicate AdviceKey(h: Digest) {
      exists row <- advice :: row.value.Identity() == h
    }

    predicate ReceiptKey(h: Digest) {
      exists row <- receipts :: row.value.Identity() == h
    }
  }

  /** `SELECT ... WHERE run_id = ? ORDER BY rowid`. */
  function Select<T>(rows: seq<Row<T>>, id: string): seq<T> {
    if rows == [] then []
    else Select(rows[..|rows| - 1], id) + if rows[|rows| - 1].runId == id then [rows[|rows| - 1].value] else []
  }

  /** From t to t' the ledger of run id became run, and no other ledger changed. */
  ghost predicate Only(t: Tables, t': Tables, id: string, run: Run)
    requires t.Valid()
  {
    && t'.Valid() && t'.runs.Keys == t.runs.Keys && id in t.runs
    && t'.View(id) == run
    && forall other <- t.runs :: other != id ==> t'.View(other) == t.View(other)
  }

  /** From t to t' the ledger of run id took this step. */
  ghost predicate Took(t: Tables, t': Tables, id: string, op: Op)
    requires t.Valid() && id in t.runs
  {
    Only(t, t', id, Exec(t.View(id), op))
  }

  // ----- selections -----

  lemma SelectAppend<T>(rows: seq<Row<T>>, row: Row<T>)
    ensures forall id :: Select(rows + [row], id) == Select(rows, id) + if row.runId == id then [row.value] else []
  {
    assert (rows + [row])[..|rows|] == rows;
  }

  /** A selection holds exactly the values of the rows that name the run. */
  lemma {:induction false} SelectContains<T>(rows: seq<Row<T>>, id: string, v: T)
    ensures v in Select(rows, id) <==> Row(id, v) in rows
  {
    if rows != [] {
      var n := |rows| - 1;
      SelectContains(rows[..n], id, v);
      assert forall row :: row in rows <==> row in rows[..n] || row == rows[n];
    }
  }

  lemma {:induction false} SelectOfStranger<T>(rows: seq<Row<T>>, id: string)
    requires forall row <- rows :: row.runId != id
    ensures Select(rows, id) == []
  {
    if rows != [] {
      assert rows[|rows| - 1] in rows;
      SelectOfStranger(rows[..|rows| - 1], id);
    }
  }

  // ----- what the statements do to the tables -----

  /** spec is what the constructor makes of some raw fields. */
  ghost predicate Constructed(spec: RunSpec) {
    exists raw: RunSpec :: WellFormedFields(raw.evaluatorConfig) && MakeSpec(raw) == Ok(spec)
  }

  /** The row of a constructed spec loads again, as a spec with the same identity. */
  lemma ConstructedLoads(spec: RunSpec)
    requires Constructed(spec)
    ensures SpecFromJson(ToDict(spec)).Ok?
    ensures var loaded := SpecFromJson(ToDict(spec)).value;
            && SpecIdentity(loaded) == SpecIdentity(spec) && loaded.runId == spec.runId
            && (Strict(loaded) <==> Strict(spec))
  {
    var raw: RunSpec :| WellFormedFields(raw.evaluatorConfig) && MakeSpec(raw) == Ok(spec);
    SpecSurvivesStorage(raw);
  }

  /** The rows of run id are the same. */
  ghost predicate SameRows(t: Tables, t': Tables, id: string) {
    && id in t.runs && id in t'.runs && t'.runs[id] == t.runs[id]
    && Select(t'.events, id) == Select(t.events, id)
    && Select(t'.candidates, id) == Select(t.candidates, id)
    && Select(t'.evaluations, id) == Select(t.evaluations, id)
    && Select(t'.advice, id) == Select(t.advice, id)
    && Select(t'.receipts, id) == Select(t.receipts, id)
    && (id in t.memories <==> id in t'.memories) && (id in t.memories ==> t'.memories[id] == t.memories[id])
  }

  lemma SameRowsSameView(t: Tables, t': Tables, id: string)
    requires t.Valid() && t'.Valid() && SameRows(t, t', id)
    ensures t'.View(id) == t.View(id)
  {
  }

  lemma OthersSame(t: Tables, t': Tables, id: string, run: Run)
    requires t.Valid() && t'.Valid() && t'.runs.Keys == t.runs.Keys && id in t.runs
    requires t'.View(id) == run
    requires forall other :: other in t.runs && other != id ==> SameRows(t, t', other)
    ensures Only(t, t', id, run)
  {
    forall other <- t.runs | other != id ensures t'.View(other) == t.View(other) {
      SameRowsSameView(t, t', other);
    }
  }

  lemma CreateLoads(runs: map<string, RunRow>, spec: RunSpec, state: RunState)
    requires Loads(runs) && Constructed(spec)
    ensures Loads(runs[spec.runId := RunRow(SpecIdentity(spec), ToDict(spec), state)]) && SpecFromJson(ToDict(spec)).Ok?
  {
    ConstructedLoads(spec);
  }

  lemma CreateKeepsOthers(t: Tables, t': Tables, id: string, row: RunRow, entry: Entry)
    requires id !in t.runs && t' == t.(runs := t.runs[id := row], events := t.events + [Row(id, entry)])
    ensures t'.runs.Keys == t.runs.Keys + {id}
    ensures Select(t'.events, id) == Select(t.events, id) + [entry]
    ensures forall other :: other in t.runs ==> SameRows(t, t', other)
  {
    SelectAppend(t.events, Row(id, entry));
  }

  lemma CreateTables(t: Tables, t': Tables, spec: RunSpec, state: RunState, entry: Entry)
    requires t.Valid() && Constructed(spec) && spec.runId !in t.runs
    requires t' == t.(runs := t.runs[spec.runId := RunRow(SpecIdentity(spec), ToDict(spec), state)],
                      events := t.events + [Row(spec.runId, entry)])
    ensures t'.Valid() && t'.runs.Keys == t.runs.Keys + {spec.runId}
    ensures t'.View(spec.runId) == Run(SpecFromJson(ToDict(spec)).value, state, [entry], [], [], [], None, [])
    ensures forall other <- t.runs :: t'.View(other) == t.View(other)
  {
    CreateLoads(t.runs, spec, state);
    CreateKeepsOthers(t, t', spec.runId, t'.runs[spec.runId], entry);
    NewRunReferences(t, t', spec.runId, entry);
    StrangerView(t, t', spec.runId);
    forall other <- t.runs ensures t'.View(other) == t.View(other) {
      SameRowsSameView(t, t', other);
    }
  }

  lemma NewRunReferences(t: Tables, t': Tables, id: string, entry: Entry)
    requires t.References() && t'.runs.Keys == t.runs.Keys + {id}
    requires t' == t.(runs := t'.runs, events := t.events + [Row(id, entry)])
    ensures t'.References()
  {
  }

  /** From t to t' the ledger of spec was created, with the spec as it loads again, and no other ledger changed. */
  ghost predicate CreatedIn(t: Tables, t': Tables, spec: RunSpec)
    requires t.Valid()
  {
    && t'.Valid() && t'.runs.Keys == t.runs.Keys + {spec.runId}
    && SpecFromJson(ToDict(spec)).Ok?
    && t'.View(spec.runId) == Create(SpecFromJson(ToDict(spec)).value)
    && SpecIdentity(t'.View(spec.runId).spec) == SpecIdentity(spec)
    && forall other <- t.runs :: t'.View(other) == t.View(other)
  }

  /** A new row and its event are the created ledger, with the spec as it loads again. */
  lemma CreatedView(t: Tables, t': Tables, spec: RunSpec)
    requires t.Valid() && Constructed(spec) && spec.runId !in t.runs
    requires var state := NewState(SpecIdentity(spec));
             t' == t.(runs := t.runs[spec.runId := RunRow(SpecIdentity(spec), ToDict(spec), state)],
                      events := t.events + [Row(spec.runId, EntryOf(RunCreated, state, Creation(SpecIdentity(spec))))])
    ensures CreatedIn(t, t', spec)
  {
    var state := NewState(SpecIdentity(spec));
    CreateTables(t, t', spec, state, EntryOf(RunCreated, state, Creation(SpecIdentity(spec))));
    ConstructedLoads(spec);
  }

  /** A run that no row names has no rows. */
  lemma StrangerView(t: Tables, t': Tables, id: string)
    requires t.References() && id !in t.runs && t'.Valid() && id in t'.runs
    requires t' == t.(runs := t'.runs, events := t'.events)
    ensures t'.View(id) == Run(SpecFromJson(t'.runs[id].spec).value, t'.runs[id].state, Select(t'.events, id), [], [], [], None, [])
    ensures Select(t.events, id) == []
  {
    SelectOfStranger(t.events, id);
    SelectOfStranger(t.candidates, id);
    SelectOfStranger(t.evaluations, id);
    SelectOfStranger(t.advice, id);
    SelectOfStranger(t.receipts, id);
  }

  lemma StateLoads(runs: map<string, RunRow>, id: string, state: RunState)
    requires Loads(runs) && id in runs
    ensures Loads(runs[id := runs[id].(state := state)])
  {
  }

  lemma StateView(t: Tables, t': Tables, id: string, state: RunState)
    requires t.Valid() && id in t.runs && t' == t.(runs := t.runs[id := t.runs[id].(state := state)]) && Loads(t'.runs)
    ensures t'.View(id) == t.View(id).(state := state)
  {
  }

  lemma StateKeepsOthers(t: Tables, t': Tables, id: string, state: RunState)
    requires id in t.runs && t' == t.(runs := t.runs[id := t.runs[id].(state := state)])
    ensures t'.runs.Keys == t.runs.Keys
    ensures forall other :: other in t.runs && other != id ==> SameRows(t, t', other)
  {
  }

  lemma StateTables(t: Tables, t': Tables, id: string, state: RunState)
    requires t.Valid() && id in t.runs && t' == t.(runs := t.runs[id := t.runs[id].(state := state)])
    ensures Only(t, t', id, t.View(id).(state := state))
  {
    StateLoads(t.runs, id, state);
    StateKeepsOthers(t, t', id, state);
    StateView(t, t', id, state);
    OthersSame(t, t', id, t.View(id).(state := state));
  }

  lemma EventTables(t: Tables, id: string, entry: Entry)
    requires t.Valid() && id in t.runs
    ensures Only(t, t.(events := t.events + [Row(id, entry)]), id, t.View(id).(log := t.View(id).log + [entry]))
  {
    SelectAppend(t.events, Row(id, entry));
    OthersSame(t, t.(events := t.events + [Row(id, entry)]), id, t.View(id).(log := t.View(id).log + [entry]));
  }

  lemma OnlyTwice(t: Tables, t': Tables, t'': Tables, id: string, run: Run, run': Run)
    requires t.Valid() && Only(t, t', id, run) && Only(t', t'', id, run')
    ensures Only(t, t'', id, run')
  {
  }

  /** An accepted transition: the state is replaced and its event appended. */
  lemma TransitionTables(t: Tables, id: string, state: RunState, entry: Entry)
    requires t.Valid() && id in t.runs
    ensures var t' := t.(runs := t.runs[id := t.runs[id].(state := state)], events := t.events + [Row(id, entry)]);
            Only(t, t', id, t.View(id).(state := state, log := t.View(id).log + [entry]))
  {
    var middle := t.(runs := t.runs[id := t.runs[id].(state := state)]);
    StateTables(t, middle, id, state);
    EventTables(middle, id, entry);
    OnlyTwice(t, middle, middle.(events := middle.events + [Row(id, entry)]), id, t.View(id).(state := state),
              t.View(id).(state := state, log := t.View(id).log + [entry]));
  }

  lemma TransitionIsLedgerStep(t: Tables, id: string, event: EventName, candidate: Option<Digest>, cost: real, updated: RunState)
    requires t.Valid() && id in t.runs
    requires ApplyTransition(t.View(id).state, event, t.View(id).spec, candidate, cost) == Ok(updated)
    ensures var entry := EntryOf(event, updated, Change(candidate, cost));
            var expected := t.View(id).state.revision;
            var run := t.View(id).(state := updated, log := t.View(id).log + [entry]);
            && Transition(t.View(id), event, expected, candidate, cost) == Ok(run)
            && Exec(t.View(id), Commit(event, expected, candidate, cost)) == run
  {
  }

  lemma AcceptedTransition(t: Tables, t': Tables, id: string, event: EventName, candidate: Option<Digest>, cost: real, updated: RunState)
    requires t.Valid() && id in t.runs
    requires ApplyTransition(t.View(id).state, event, t.View(id).spec, candidate, cost) == Ok(updated)
    requires t' == t.(runs := t.runs[id := t.runs[id].(state := updated)],
                      events := t.events + [Row(id, EntryOf(event, updated, Change(candidate, cost)))])
    ensures Took(t, t', id, Commit(event, t.View(id).state.revision, candidate, cost))
    ensures StateOf(Transition(t.View(id), event, t.View(id).state.revision, candidate, cost)) == Ok(updated)
  {
    TransitionTables(t, id, updated, EntryOf(event, updated, Change(candidate, cost)));
    TransitionIsLedgerStep(t, id, event, candidate, cost, updated);
  }

  /** What a transition of the ledger returns to its caller. */
  function StateOf(r: Result<Run, StoreError>): Result<RunState, StoreError> {
    match r
    case Ok(run) => Ok(run.state)
    case Err(e) => Err(e)
  }

  lemma RefusedTransition(t: Tables, id: string, event: EventName, expected: nat, candidate: Option<Digest>, cost: real, e: StoreError)
    requires t.Valid() && id in t.runs && Transition(t.View(id), event, expected, candidate, cost) == Err(e)
    ensures Took(t, t, id, Commit(event, expected, candidate, cost))
  {
  }

  lemma CandidateTables(t: Tables, id: string, c: Candidate)
    requires t.Valid() && id in t.runs
    ensures Only(t, t.(candidates := t.candidates + [Row(id, c)]), id, t.View(id).(candidates := t.View(id).candidates + [c]))
  {
    SelectAppend(t.candidates, Row(id, c));
    OthersSame(t, t.(candidates := t.candidates + [Row(id, c)]), id, t.View(id).(candidates := t.View(id).candidates + [c]));
  }

  lemma EvaluationTables(t: Tables, id: string, e: Evaluation)
    requires t.Valid() && id in t.runs
    ensures Only(t, t.(evaluations := t.evaluations + [Row(id, e)]), id, t.View(id).(evaluations := t.View(id).evaluations + [e]))
  {
    SelectAppend(t.evaluations, Row(id, e));
    OthersSame(t, t.(evaluations := t.evaluations + [Row(id, e)]), id, t.View(id).(evaluations := t.View(id).evaluations + [e]));
  }

  /** Both rows of an attempt. */
  lemma AttemptTables(t: Tables, id: string, c: Candidate, e: Evaluation)
    requires t.Valid() && id in t.runs
    ensures var t' := t.(candidates := t.candidates + [Row(id, c)], evaluations := t.evaluations + [Row(id, e)]);
            Only(t, t', id, t.View(id).(candidates := t.View(id).candidates + [c], evaluations := t.View(id).evaluations + [e]))
  {
    var middle := t.(candidates := t.candidates + [Row(id, c)]);
    CandidateTables(t, id, c);
    EvaluationTables(middle, id, e);
    OnlyTwice(t, middle, middle.(evaluations := middle.evaluations + [Row(id, e)]), id, middle.View(id),
              middle.View(id).(evaluations := middle.View(id).evaluations + [e]));
  }

  lemma ReceiptTables(t: Tables, id: string, x: Receipt)
    requires t.Valid() && id in t.runs
    ensures var t' := t.(receipts := t.receipts + [Row(id, x)]);
            Only(t, t', id, t.View(id).(receipts := t.View(id).receipts + [x]))
  {
    SelectAppend(t.receipts, Row(id, x));
    OthersSame(t, t.(receipts := t.receipts + [Row(id, x)]), id, t.View(id).(receipts := t.View(id).receipts + [x]));
  }

  lemma AdviceTables(t: Tables, id: string, a: Advice)
    requires t.Valid() && id in t.runs
    ensures var t' := t.(advice := t.advice + [Row(id, a)]);
            Only(t, t', id, t.View(id).(advice := t.View(id).advice + [a]))
  {
    SelectAppend(t.advice, Row(id, a));
    OthersSame(t, t.(advice := t.advice + [Row(id, a)]), id, t.View(id).(advice := t.View(id).advice + [a]));
  }

  lemma MemoryTables(t: Tables, id: string, m: Memory)
    requires t.Valid() && id in t.runs
    ensures var t' := t.(memories := t.memories[id := m]);
            Only(t, t', id, t.View(id).(memory := Some(m)))
  {
  }

  // ----- primary keys range over all runs -----

  /** A filed record can only collide with itself, in its own run. */
  lemma OwnCandidateKey(t: Tables, id: string, c: Candidate)
    requires t.Valid() && t.Owned() && id in t.runs && c.runId == id
    ensures t.CandidateKey(c.Identity()) <==> CandidateTaken(t.View(id), c.Identity())
  {
    SelectContains(t.candidates, id, c);
    if t.CandidateKey(c.Identity()) {
      var row :| row in t.candidates && row.value.Identity() == c.Identity();
      assert row == Row(id, c);
    }
    if CandidateTaken(t.View(id), c.Identity()) {
      var c' :| c' in t.View(id).candidates && c'.Identity() == c.Identity();
      assert c' == c && Row(id, c).value.Identity() == c.Identity();
    }
  }

  lemma OwnEvaluationKey(t: Tables, id: string, e: Evaluation)
    requires t.Valid() && t.Owned() && id in t.runs && Tables.OwnEvaluation(id, e)
    ensures t.EvaluationKey(e.Identity()) <==> EvaluationTaken(t.View(id), e.Identity())
  {
    SelectContains(t.evaluations, id, e);
    if t.EvaluationKey(e.Identity()) {
      var row :| row in t.evaluations && row.value.Identity() == e.Identity();
      assert row == Row(id, e);
    }
    if EvaluationTaken(t.View(id), e.Identity()) {
      var e' :| e' in t.View(id).evaluations && e'.Identity() == e.Identity();
      assert e' == e && Row(id, e).value.Identity() == e.Identity();
    }
  }

  lemma OwnAdviceKey(t: Tables, id: string, a: Advice)
    requires t.Valid() && t.Owned() && id in t.runs && a.runId == id
    ensures t.AdviceKey(a.Identity()) <==> AdviceTaken(t.View(id), a.Identity())
  {
    SelectContains(t.advice, id, a);
    if t.AdviceKey(a.Identity()) {
      var row :| row in t.advice && row.value.Identity() == a.Identity();
      assert row == Row(id, a);
    }
    if AdviceTaken(t.View(id), a.Identity()) {
      var a' :| a' in t.View(id).advice && a'.Identity() == a.Identity();
      assert a' == a && Row(id, a).value.Identity() == a.Identity();
    }
  }

  lemma OwnReceiptKey(t: Tables, id: string, x: Receipt)
    requires t.Valid() && t.Owned() && id in t.runs && x.runId == id
    ensures t.ReceiptKey(x.Identity()) <==> ReceiptTaken(t.View(id), x.Identity())
  {
    SelectContains(t.receipts, id, x);
    if t.ReceiptKey(x.Identity()) {
      var row :| row in t.receipts && row.value.Identity() == x.Identity();
      assert row == Row(id, x);
    }
    if ReceiptTaken(t.View(id), x.Identity()) {
      var x' :| x' in t.View(id).receipts && x'.Identity() == x.Identity();
      assert x' == x && Row(id, x).value.Identity() == x.Identity();
    }
  }

  /** What record_attempt leaves of t: both rows, or t itself. */
  function AfterAttempt(t: Tables, id: string, c: Candidate, e: Evaluation): Tables {
    if t.CandidateKey(c.Identity()) || t.EvaluationKey(e.Identity()) || id !in t.runs then t
    else t.(candidates := t.candidates + [Row(id, c)], evaluations := t.evaluations + [Row(id, e)])
  }

  /** On properly filed tables record_attempt is the ledger's step, keys of other runs notwithstanding. */
  lemma AttemptIsLedgerStep(t: Tables, id: string, c: Candidate, e: Evaluation)
    requires t.Valid() && t.Owned() && id in t.runs && c.runId == id && e.candidateHash == c.Identity()
    ensures var t' := AfterAttempt(t, id, c, e);
            t'.Owned() && Took(t, t', id, Attempt(c, e))
    ensures !t.CandidateKey(c.Identity()) && !t.EvaluationKey(e.Identity()) <==> Try(t.View(id), Attempt(c, e)).Ok?
  {
    OwnCandidateKey(t, id, c);
    OwnEvaluationKey(t, id, e);
    AttemptTables(t, id, c, e);
  }

  /** All three rows of a sandbox attempt. */
  lemma SandboxAttemptTables(t: Tables, t': Tables, id: string, c: Candidate, e: Evaluation, x: Receipt)
    requires t.Valid() && id in t.runs
    requires t' == t.(candidates := t.candidates + [Row(id, c)], evaluations := t.evaluations + [Row(id, e)],
                      receipts := t.receipts + [Row(id, x)])
    ensures var run := t.View(id);
            Only(t, t', id, run.(candidates := run.candidates + [c], evaluations := run.evaluations + [e], receipts := run.receipts + [x]))
  {
    var run, middle := t.View(id), t.(candidates := t.candidates + [Row(id, c)], evaluations := t.evaluations + [Row(id, e)]);
    AttemptTables(t, id, c, e);
    ReceiptTables(middle, id, x);
    OnlyTwice(t, middle, t', id, middle.View(id), t'.View(id));
  }

  /** What record_sandbox_attempt leaves of t: all three rows, or t itself. */
  function AfterSandboxAttempt(t: Tables, id: string, c: Candidate, e: Evaluation, x: Receipt): Tables {
    if t.CandidateKey(c.Identity()) || t.EvaluationKey(e.Identity()) || t.ReceiptKey(x.Identity()) || id !in t.runs then t
    else t.(candidates := t.candidates + [Row(id, c)], evaluations := t.evaluations + [Row(id, e)],
            receipts := t.receipts + [Row(id, x)])
  }

  lemma SandboxAttemptOwned(t: Tables, id: string, c: Candidate, e: Evaluation, x: Receipt)
    requires t.Owned() && c.runId == id && e.candidateHash == c.Identity() && x.runId == id
    ensures AfterSandboxAttempt(t, id, c, e, x).Owned()
  {
  }

  lemma SandboxAttemptExec(run: Run, c: Candidate, e: Evaluation, x: Receipt)
    ensures var op, taken := SandboxAttempt(c, e, x),
                             CandidateTaken(run, c.Identity()) || EvaluationTaken(run, e.Identity()) || ReceiptTaken(run, x.Identity());
            && (Try(run, op).Ok? <==> !taken)
            && Exec(run, op) == if taken then run
                                else run.(candidates := run.candidates + [c], evaluations := run.evaluations + [e],
                                          receipts := run.receipts + [x])
  {
  }

  /** On properly filed tables record_sandbox_attempt is the ledger's step. */
  lemma SandboxAttemptIsLedgerStep(t: Tables, id: string, c: Candidate, e: Evaluation, x: Receipt)
    requires t.Valid() && t.Owned() && id in t.runs
    requires c.runId == id && e.candidateHash == c.Identity() && x.runId == id
    ensures var t' := AfterSandboxAttempt(t, id, c, e, x);
            t'.Owned() && Took(t, t', id, SandboxAttempt(c, e, x))
    ensures !t.CandidateKey(c.Identity()) && !t.EvaluationKey(e.Identity()) && !t.ReceiptKey(x.Identity())
            <==> Try(t.View(id), SandboxAttempt(c, e, x)).Ok?
  {
    OwnCandidateKey(t, id, c);
    OwnEvaluationKey(t, id, e);
    OwnReceiptKey(t, id, x);
    SandboxAttemptOwned(t, id, c, e, x);
    SandboxAttemptExec(t.View(id), c, e, x);
    hide Try, Exec, CandidateTaken, EvaluationTaken, ReceiptTaken;
    if !t.CandidateKey(c.Identity()) && !t.EvaluationKey(e.Identity()) && !t.ReceiptKey(x.Identity()) {
      SandboxAttemptTables(t, AfterSandboxAttempt(t, id, c, e, x), id, c, e, x);
    }
  }

  function AfterAdvice(t: Tables, id: string, a: Advice): Tables {
    if t.AdviceKey(a.Identity()) || id !in t.runs then t else t.(advice := t.advice + [Row(id, a)])
  }

  lemma AdviceIsLedgerStep(t: Tables, id: string, a: Advice)
    requires t.Valid() && t.Owned() && id in t.runs && a.runId == id
    ensures var t' := AfterAdvice(t, id, a);
            t'.Owned() && Took(t, t', id, Advise(a))
    ensures !t.AdviceKey(a.Identity()) <==> Try(t.View(id), Advise(a)).Ok?
  {
    OwnAdviceKey(t, id, a);
    AdviceTables(t, id, a);
  }

  /** An unknown run has no rows. */
  lemma Strangers(t: Tables, id: string)
    requires t.Valid()
    ensures id !in t.runs ==>
              && Select(t.events, id) == [] && Select(t.candidates, id) == [] && Select(t.evaluations, id) == []
              && Select(t.advice, id) == [] && id !in t.memories
  {
    if id !in t.runs {
      SelectOfStranger(t.events, id);
      SelectOfStranger(t.candidates, id);
      SelectOfStranger(t.evaluations, id);
      SelectOfStranger(t.advice, id);
    }
  }

  class RunStore {
    var runs: map<string, RunRow>
    var events: seq<Row<Entry>>
    var candidates: seq<Row<Candidate>>
    var evaluations: seq<Row<Evaluation>>
    var advice: seq<Row<Advice>>
    var memories: map<string, Memory>
    var receipts: seq<Row<Receipt>>

    constructor ()
      ensures Contents().Valid() && Contents().Owned() && runs == map[]
    {
      runs, memories := map[], map[];
      events, candidates, evaluations, advice, receipts := [], [], [], [], [];
    }

    function Contents(): Tables
      reads this
    {
      Tables(runs, events, candidates, evaluations, advice, memories, receipts)
    }

    // ----- runs -----

    method CreateRun(spec: RunSpec) returns (r: Result<RunState, StoreError>)
      requires Contents().Valid() && Constructed(spec)
      modifies this`runs, this`events
      ensures old(Contents()).Owned() ==> Contents().Owned()
      ensures r == if spec.runId in old(runs) then Err(DuplicateRun) else Ok(NewState(SpecIdentity(spec)))
      ensures r.Err? ==> Contents() == old(Contents())
      ensures r.Ok? ==> CreatedIn(old(Contents()), Contents(), spec)
    {
      var state := NewState(SpecIdentity(spec));
      if spec.runId in runs {
        return Err(DuplicateRun);
      }
      ghost var t := Contents();
      runs := runs[spec.runId := RunRow(SpecIdentity(spec), ToDict(spec), state)];
      AppendEvent(spec.runId, RunCreated, state, Creation(SpecIdentity(spec)));
      CreatedView(t, Contents(), spec);
      return Ok(state);
    }

    method AppendEvent(id: string, event: EventName, state: RunState, payload: Payload)
      modifies this`events
      ensures events == old(events) + [Row(id, EntryOf(event, state, payload))]
    {
      events := events + [Row(id, EntryOf(event, state, payload))];
    }

    method LoadRun(id: string) returns (r: Result<(RunSpec, RunState), StoreError>)
      requires Contents().Valid()
      ensures r == if id in runs then Ok((Contents().View(id).spec, Contents().View(id).state)) else Err(UnknownRun)
    {
      if id !in runs {
        return Err(UnknownRun);
      }
      var spec := SpecFromJson(runs[id].spec);
      if spec.Err? {
        return Err(BadStoredSpec);
      }
      return Ok((spec.value, runs[id].state));
    }

    method Transition(id: string, event: EventName, expected: nat, candidate: Option<Digest>, cost: real)
      returns (r: Result<RunState, StoreError>)
      requires Contents().Valid()
      modifies this`runs, this`events
      ensures old(Contents()).Owned() ==> Contents().Owned()
      ensures id !in old(runs) ==> r == Err(UnknownRun) && Contents() == old(Contents())
      ensures id in old(runs) ==>
                && Took(old(Contents()), Contents(), id, Commit(event, expected, candidate, cost))
                && r == StateOf(Ledger.Transition(old(Contents()).View(id), event, expected, candidate, cost))
    {
      hide ApplyTransition, SpecFromJson, Took;
      if id !in runs {
        return Err(UnknownRun);
      }
      ghost var t := Contents();
      var row := runs[id];
      var spec := SpecFromJson(row.spec);
      if spec.Err? {
        return Err(BadStoredSpec);
      }
      if row.state.revision != expected {
        RefusedTransition(t, id, event, expected, candidate, cost, RevisionMismatch);
        return Err(RevisionMismatch);
      }
      var updated := ApplyTransition(row.state, event, spec.value, candidate, cost);
      if updated.Err? {
        RefusedTransition(t, id, event, expected, candidate, cost, Refused(updated.error));
        return Err(Refused(updated.error));
      }
      runs := runs[id := row.(state := updated.value)];
      AppendEvent(id, event, updated.value, Change(candidate, cost));
      AcceptedTransition(t, Contents(), id, event, candidate, cost, updated.value);
      return Ok(updated.value);
    }

    // ----- events -----

    method Events(id: string) returns (log: seq<Entry>)
      requires Contents().Valid()
      ensures id !in runs ==> log == []
      ensures id in runs ==> log == Contents().View(id).log
    {
      Strangers(Contents(), id);
      return Select(events, id);
    }

    method RecordObservation(id: string, event: EventName, payload: Payload) returns (r: Result<(), StoreError>)
      requires Contents().Valid()
      modifies this`events
      ensures old(Contents()).Owned() ==> Contents().Owned()
      ensures id !in runs ==> r == Err(UnknownRun) && Contents() == old(Contents())
      ensures id in runs ==> r == Ok(()) && Took(old(Contents()), Contents(), id, Note(event, payload))
    {
      if id !in runs {
        return Err(UnknownRun);
      }
      ghost var t := Contents();
      AppendEvent(id, event, runs[id].state, payload);
      EventTables(t, id, EntryOf(event, runs[id].state, payload));
      return Ok(());
    }

    // ----- evidence -----

    /** Two inserts in one transaction: both rows or neither. */
    method RecordAttempt(id: string, c: Candidate, e: Evaluation) returns (r: Result<(), StoreError>)
      requires Contents().Valid()
      modifies this`candidates, this`evaluations
      ensures Contents() == AfterAttempt(old(Contents()), id, c, e)
      ensures r.Ok? <==> id in runs && !old(Contents()).CandidateKey(c.Identity()) && !old(Contents()).EvaluationKey(e.Identity())
    {
      if Contents().CandidateKey(c.Identity()) || Contents().EvaluationKey(e.Identity()) {
        return Err(DuplicateKey);
      }
      if id !in runs {
        return Err(UnknownRun);
      }
      candidates := candidates + [Row(id, c)];
      evaluations := evaluations + [Row(id, e)];
      return Ok(());
    }

    /** Three inserts in one transaction: all rows or none. */
    method RecordSandboxAttempt(id: string, c: Candidate, e: Evaluation, x: Receipt) returns (r: Result<(), StoreError>)
      requires Contents().Valid()
      modifies this`candidates, this`evaluations, this`receipts
      ensures Contents() == AfterSandboxAttempt(old(Contents()), id, c, e, x)
      ensures r.Ok? <==>
                && id in runs && !old(Contents()).CandidateKey(c.Identity()) && !old(Contents()).EvaluationKey(e.Identity())
                && !old(Contents()).ReceiptKey(x.Identity())
    {
      if Contents().CandidateKey(c.Identity()) || Contents().EvaluationKey(e.Identity()) || Contents().ReceiptKey(x.Identity()) {
        return Err(DuplicateKey);
      }
      if id !in runs {
        return Err(UnknownRun);
      }
      candidates := candidates + [Row(id, c)];
      evaluations := evaluations + [Row(id, e)];
      receipts := receipts + [Row(id, x)];
      return Ok(());
    }

    method Lineage(id: string) returns (cs: seq<Candidate>, es: seq<Evaluation>)
      requires Contents().Valid()
      ensures id !in runs ==> cs == [] && es == []
      ensures id in runs ==> cs == Contents().View(id).candidates && es == Contents().View(id).evaluations
    {
      Strangers(Contents(), id);
      return Select(candidates, id), Select(evaluations, id);
    }

    method RecordSupervisorAdvice(id: string, a: Advice) returns (r: Result<(), StoreError>)
      requires Contents().Valid()
      modifies this`advice
      ensures Contents() == AfterAdvice(old(Contents()), id, a)
      ensures r.Ok? <==> id in runs && !old(Contents()).AdviceKey(a.Identity())
    {
      if Contents().AdviceKey(a.Identity()) {
        return Err(DuplicateKey);
      }
      if id !in runs {
        return Err(UnknownRun);
      }
      advice := advice + [Row(id, a)];
      return Ok(());
    }

    method SupervisorAdvice(id: string) returns (rows: seq<Advice>)
      requires Contents().Valid()
      ensures id !in runs ==> rows == []
      ensures id in runs ==> rows == Contents().View(id).advice
    {
      Strangers(Contents(), id);
      return Select(advice, id);
    }

    // ----- memory -----

    method SaveMemory(id: string, m: Memory, expected: nat) returns (r: Result<(), StoreError>)
      requires Contents().Valid()
      modifies this`memories
      ensures old(Contents()).Owned() ==> Contents().Owned()
      ensures id !in runs ==> r.Err? && Contents() == old(Contents())
      ensures id in runs ==>
                && Took(old(Contents()), Contents(), id, Save(m, expected))
                && (r.Ok? <==> MemoryRevision(old(Contents()).View(id)) == expected == m.memoryRevision - 1)
    {
      hide SpecLoads;
      var current := if id in memories then memories[id].memoryRevision else 0;
      if current != expected {
        return Err(MemoryRevisionMismatch);
      }
      if m.memoryRevision != current + 1 {
        return Err(MemoryRevisionNotNext);
      }
      if id !in runs {
        return Err(UnknownRun);
      }
      ghost var t := Contents();
      memories := memories[id := m];
      MemoryTables(t, id, m);
      return Ok(());
    }

    method LoadMemory(id: string) returns (m: Option<Memory>)
      requires Contents().Valid()
      ensures id !in runs ==> m == None
      ensures id in runs ==> m == Contents().View(id).memory
    {
      return if id in memories then Some(memories[id]) else None;
    }
  }
}

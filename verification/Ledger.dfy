/**
 * One run in the tables of storage.py, and each `with connection` block as one
 * atomic step on it. The steps are stated on values here; RunStore performs them
 * in place for a store of many runs.
 */
module Ledger {
  import opened Wrappers
  import opened Contracts
  import opened StateMachine

  datatype Payload =
    | Creation(runSpecHash: Digest)
    | Change(candidateHash: Option<Digest>, costDelta: real)
    | Classification(text: string)
    | ChildReport(succeeded: bool, resultHash: Digest)
    | AdviceReport(succeeded: bool, resultHash: Digest, adviceHash: Digest)
    | SandboxReport(receiptHash: Digest, patchHash: Digest, outputTreeHash: Digest)

  datatype Entry = Entry(event: EventName, revision: nat, stateHash: Digest, payload: Payload)

  datatype Run = Run(
    spec: RunSpec,
    state: RunState,
    log: seq<Entry>,
    candidates: seq<Candidate>,
    evaluations: seq<Evaluation>,
    advice: seq<Advice>,
    memory: Option<Memory>,
    receipts: seq<Receipt>)

  datatype StoreError =
    | UnknownRun | DuplicateRun | BadStoredSpec
    | RevisionMismatch | Refused(reason: TransitionError)
    | DuplicateKey
    | MemoryRevisionMismatch | MemoryRevisionNotNext

  function StateHash(s: RunState): Digest {
    Sha256(StateText(s))
  }

  function EntryOf(event: EventName, s: RunState, payload: Payload): Entry {
    Entry(event, s.revision, StateHash(s), payload)
  }

  function Create(spec: RunSpec): Run {
    var s := NewState(SpecIdentity(spec));
    Run(spec, s, [EntryOf(RunCreated, s, Creation(SpecIdentity(spec)))], [], [], [], None, [])
  }

  /** Compare-and-swap on the revision; state and event are written together or not at all. */
  function Transition(r: Run, event: EventName, expected: nat, candidate: Option<Digest>, cost: real): Result<Run, StoreError> {
    if r.state.revision != expected then Err(RevisionMismatch)
    else match ApplyTransition(r.state, event, r.spec, candidate, cost)
      case Err(e) => Err(Refused(e))
      case Ok(s) => Ok(r.(state := s, log := r.log + [EntryOf(event, s, Change(candidate, cost))]))
  }

  /** Append evidence under the current revision without a state change. */
  function Observe(r: Run, event: EventName, payload: Payload): Run {
    r.(log := r.log + [EntryOf(event, r.state, payload)])
  }

  predicate CandidateTaken(r: Run, h: Digest) {
    exists c <- r.candidates :: c.Identity() == h
  }

  predicate EvaluationTaken(r: Run, h: Digest) {
    exists e <- r.evaluations :: e.Identity() == h
  }

  predicate AdviceTaken(r: Run, h: Digest) {
    exists a <- r.advice :: a.Identity() == h
  }

  predicate ReceiptTaken(r: Run, h: Digest) {
    exists x <- r.receipts :: x.Identity() == h
  }

  /** Candidate and evaluation in one transaction; neither compares a revision. */
  function RecordAttempt(r: Run, c: Candidate, e: Evaluation): Result<Run, StoreError> {
    if CandidateTaken(r, c.Identity()) || EvaluationTaken(r, e.Identity()) then Err(DuplicateKey)
    else Ok(r.(candidates := r.candidates + [c], evaluations := r.evaluations + [e]))
  }

  function RecordSandboxAttempt(r: Run, c: Candidate, e: Evaluation, x: Receipt): Result<Run, StoreError> {
    if ReceiptTaken(r, x.Identity()) then Err(DuplicateKey)
    else
      var r' :- RecordAttempt(r, c, e);
      Ok(r'.(receipts := r'.receipts + [x]))
  }

  function RecordAdvice(r: Run, a: Advice): Result<Run, StoreError> {
    if AdviceTaken(r, a.Identity()) then Err(DuplicateKey) else Ok(r.(advice := r.advice + [a]))
  }

  function MemoryRevision(r: Run): nat {
    if r.memory.None? then 0 else r.memory.value.memoryRevision
  }

  function SaveMemory(r: Run, m: Memory, expected: nat): Result<Run, StoreError> {
    if MemoryRevision(r) != expected then Err(MemoryRevisionMismatch)
    else if m.memoryRevision != expected + 1 then Err(MemoryRevisionNotNext)
    else Ok(r.(memory := Some(m)))
  }

  // ----- all steps a client of the store can take -----

  datatype Op =
    | Read
    | Commit(event: EventName, expected: nat, candidate: Option<Digest>, cost: real)
    | Note(event: EventName, payload: Payload)
    | Attempt(c: Candidate, e: Evaluation)
    | SandboxAttempt(c: Candidate, e: Evaluation, receipt: Receipt)
    | Advise(a: Advice)
    | Save(m: Memory, memoryRevision: nat)

  /** The step itself: a failed step is rolled back and leaves the run as it was. */
  function Try(r: Run, op: Op): Result<Run, StoreError> {
    match op
    case Read => Ok(r)
    case Commit(event, expected, candidate, cost) => Transition(r, event, expected, candidate, cost)
    case Note(event, payload) => Ok(Observe(r, event, payload))
    case Attempt(c, e) => RecordAttempt(r, c, e)
    case SandboxAttempt(c, e, x) => RecordSandboxAttempt(r, c, e, x)
    case Advise(a) => RecordAdvice(r, a)
    case Save(m, expected) => SaveMemory(r, m, expected)
  }

  function Exec(r: Run, op: Op): Run {
    match Try(r, op)
    case Ok(r') => r'
    case Err(_) => r
  }

  function ExecAll(r: Run, ops: seq<Op>): Run {
    if ops == [] then r else Exec(ExecAll(r, ops[..|ops| - 1]), ops[|ops| - 1])
  }

  /** Which log entries were written by transitions, in the order of the log; the first is the creation. */
  function TransitionMarks(r: Run, ops: seq<Op>): seq<bool> {
    if ops == [] then seq(|r.log|, _ => false)
    else
      var before := ExecAll(r, ops[..|ops| - 1]);
      var op := ops[|ops| - 1];
      var marks := TransitionMarks(r, ops[..|ops| - 1]);
      if op.Note? then marks + [false]
      else if op.Commit? && Try(before, op).Ok? then marks + [true]
      else marks
  }
}

/** The event log replays to the stored state, whatever clients do. */
module LogReplay {
  import opened Wrappers
  import opened Contracts
  import opened StateMachine
  import opened RunHistory
  import opened Ledger

  function InputOf(e: Entry): Input {
    match e.payload
    case Change(candidate, cost) => Input(e.event, candidate, cost)
    case _ => Input(e.event, None, 0.0)
  }

  /** The entries that are first at their revision, after the creation. */
  function History(log: seq<Entry>): seq<Input> {
    if |log| <= 1 then []
    else
      var n := |log| - 1;
      var h := History(log[..n]);
      if log[n].revision > log[n - 1].revision then h + [InputOf(log[n])] else h
  }

  /** Every prefix of the log replays to a state with the logged revision and hash; all of it to r.state. */
  predicate Replays(r: Run) {
    && r.log != []
    && r.log[0].event.RunCreated? && r.log[0].revision == 0
    && (forall k :: 1 <= k <= |r.log| ==> PrefixReplays(r, k))
    && Replay(r.spec, History(r.log)) == Ok(r.state)
  }

  predicate PrefixReplays(r: Run, k: nat)
    requires 1 <= k <= |r.log|
  {
    var s := Replay(r.spec, History(r.log[..k]));
    s.Ok? && r.log[k - 1].revision == s.value.revision && r.log[k - 1].stateHash == StateHash(s.value)
  }

  lemma CreateReplays(spec: RunSpec)
    ensures Replays(Create(spec)) && History(Create(spec).log) == []
  {
    var r := Create(spec);
    assert r.log[..1] == r.log;
  }

  lemma AppendReplays(r: Run, r': Run, e: Entry)
    requires Replays(r) && r' == r.(state := r'.state, log := r.log + [e])
    requires e.revision == r'.state.revision && e.stateHash == StateHash(r'.state)
    requires
      || (r'.state == r.state)
      || (ApplyTransition(r.state, InputOf(e).event, r.spec, InputOf(e).candidate, InputOf(e).cost) == Ok(r'.state)
          && r'.state.revision == r.state.revision + 1)
    ensures Replays(r')
    ensures History(r'.log) == if r'.state == r.state then History(r.log) else History(r.log) + [InputOf(e)]
  {
    RevisionsContiguousAtEnd(r);
    HistoryAppend(r.log, e);
    ReplayAppend(r.spec, History(r.log), InputOf(e), r.state);
    AppendedReplays(r, r', e);
  }

  lemma AppendedReplays(r: Run, r': Run, e: Entry)
    requires Replays(r) && r'.spec == r.spec && r'.log == r.log + [e]
    requires Replay(r'.spec, History(r'.log)) == Ok(r'.state)
    requires e.revision == r'.state.revision && e.stateHash == StateHash(r'.state)
    ensures Replays(r')
  {
    hide Replay, History, PrefixReplays;
    assert r'.log[0] == r.log[0];
    forall k | 1 <= k <= |r'.log| ensures PrefixReplays(r', k) {
      if k <= |r.log| {
        PrefixOfAppended(r, r', k);
      } else {
        WholeReplays(r');
      }
    }
  }

  /** The last entry of a log that replays to the state bears its revision and hash. */
  lemma WholeReplays(r: Run)
    requires r.log != [] && Replay(r.spec, History(r.log)) == Ok(r.state)
    requires r.log[|r.log| - 1].revision == r.state.revision && r.log[|r.log| - 1].stateHash == StateHash(r.state)
    ensures PrefixReplays(r, |r.log|)
  {
    assert r.log[..|r.log|] == r.log;
  }

  lemma ReplayAppend(spec: RunSpec, h: seq<Input>, x: Input, s: RunState)
    requires Replay(spec, h) == Ok(s)
    ensures Replay(spec, h + [x]) == ApplyTransition(s, x.event, spec, x.candidate, x.cost)
  {
    assert (h + [x])[..|h|] == h;
  }

  lemma HistoryAppend(log: seq<Entry>, e: Entry)
    requires log != []
    ensures History(log + [e]) == if e.revision > log[|log| - 1].revision then History(log) + [InputOf(e)] else History(log)
  {
    assert (log + [e])[..|log|] == log;
  }

  lemma PrefixOfAppended(r: Run, r': Run, k: nat)
    requires 1 <= k <= |r.log| && PrefixReplays(r, k) && r'.spec == r.spec && r.log <= r'.log
    ensures PrefixReplays(r', k)
  {
    assert r'.log[..k] == r.log[..k];
  }

  lemma TransitionAdvances(s: RunState, event: EventName, spec: RunSpec, candidate: Option<Digest>, cost: real)
    requires ApplyTransition(s, event, spec, candidate, cost).Ok?
    ensures ApplyTransition(s, event, spec, candidate, cost).value.revision == s.revision + 1
  {
  }

  lemma ExecReplays(r: Run, op: Op)
    requires Replays(r)
    ensures Replays(Exec(r, op))
    ensures Exec(r, op).spec == r.spec
    ensures History(Exec(r, op).log) ==
            if op.Commit? && Try(r, op).Ok? then History(r.log) + [Input(op.event, op.candidate, op.cost)]
            else History(r.log)
  {
    match op
    case Commit(event, expected, candidate, cost) =>
      if Try(r, op).Ok? {
        TransitionAdvances(r.state, event, r.spec, candidate, cost);
        var s := ApplyTransition(r.state, event, r.spec, candidate, cost).value;
        AppendReplays(r, Exec(r, op), EntryOf(event, s, Change(candidate, cost)));
      }
    case Note(event, payload) => AppendReplays(r, Exec(r, op), EntryOf(event, r.state, payload));
    case _ => SameLogReplays(r, Exec(r, op));
  }

  lemma SameLogReplays(r: Run, r': Run)
    requires Replays(r) && r'.log == r.log && r'.state == r.state && r'.spec == r.spec
    ensures Replays(r')
  {
    forall k | 1 <= k <= |r'.log| ensures PrefixReplays(r', k) {
      assert PrefixReplays(r, k);
    }
  }

  /** Any client, any steps: the log replays to the state. */
  lemma {:induction false} LogReplaysToState(spec: RunSpec, ops: seq<Op>)
    ensures Replays(ExecAll(Create(spec), ops))
    ensures ExecAll(Create(spec), ops).spec == spec
  {
    if ops == [] {
      CreateReplays(spec);
    } else {
      LogReplaysToState(spec, ops[..|ops| - 1]);
      ExecReplays(ExecAll(Create(spec), ops[..|ops| - 1]), ops[|ops| - 1]);
    }
  }

  /** What a replaying log tells of revisions: they start at 0, never fall, and rise by at most one. */
  lemma RevisionsContiguous(r: Run, i: nat)
    requires Replays(r) && 0 < i < |r.log|
    ensures r.log[i].revision == r.log[i - 1].revision || r.log[i].revision == r.log[i - 1].revision + 1
    ensures r.log[|r.log| - 1].revision == r.state.revision
  {
    hide Replay, Replays;
    RevisionCounts(r, i);
    RevisionCounts(r, i + 1);
    HistoryAppend(r.log[..i], r.log[i]);
    assert r.log[..i + 1] == r.log[..i] + [r.log[i]];
    RevisionsContiguousAtEnd(r);
  }

  /** The revision of an entry is the number of transitions logged by then. */
  lemma RevisionCounts(r: Run, k: nat)
    requires Replays(r) && 1 <= k <= |r.log|
    ensures r.log[k - 1].revision == |History(r.log[..k])|
  {
    assert PrefixReplays(r, k);
    ReplayRevision(r.spec, History(r.log[..k]));
  }

  lemma {:induction false} ReplayRevision(spec: RunSpec, h: seq<Input>)
    requires Replay(spec, h).Ok?
    ensures Replay(spec, h).value.revision == |h|
  {
    hide ApplyTransition;
    if h != [] {
      var x := h[|h| - 1];
      ReplayRevision(spec, h[..|h| - 1]);
      TransitionAdvances(Replay(spec, h[..|h| - 1]).value, x.event, spec, x.candidate, x.cost);
    }
  }

  lemma {:induction false} RevisionsNeverFall(r: Run, j: nat, i: nat)
    requires Replays(r) && j <= i < |r.log|
    ensures r.log[j].revision <= r.log[i].revision
  {
    if j < i {
      RevisionsNeverFall(r, j, i - 1);
      RevisionsContiguous(r, i);
    }
  }

  predicate FirstAtRevision(log: seq<Entry>, i: nat)
    requires i < |log|
  {
    forall j :: 0 <= j < i ==> log[j].revision < log[i].revision
  }

  lemma FirstAtRevisionOfPrefix(log: seq<Entry>, e: Entry, i: nat)
    requires i < |log|
    ensures FirstAtRevision(log + [e], i) <==> FirstAtRevision(log, i)
  {
    if FirstAtRevision(log + [e], i) {
      forall j | 0 <= j < i ensures log[j].revision < log[i].revision {
        assert (log + [e])[j].revision < (log + [e])[i].revision;
      }
    }
  }

  /** An entry is a transition exactly when it is the first at its revision. */
  lemma {:induction false} TransitionsAreFirstAtRevision(spec: RunSpec, ops: seq<Op>)
    ensures var r := ExecAll(Create(spec), ops);
            var marks := TransitionMarks(Create(spec), ops);
            && |marks| == |r.log|
            && forall i :: 0 < i < |r.log| ==>
                 (marks[i] <==> FirstAtRevision(r.log, i))
  {
    if ops != [] {
      var before := ExecAll(Create(spec), ops[..|ops| - 1]);
      var op := ops[|ops| - 1];
      var r := Exec(before, op);
      TransitionsAreFirstAtRevision(spec, ops[..|ops| - 1]);
      LogReplaysToState(spec, ops[..|ops| - 1]);
      var n := |before.log|;
      RevisionsContiguousAtEnd(before);
      forall j | 0 <= j < n ensures before.log[j].revision <= before.state.revision {
        RevisionsNeverFall(before, j, n - 1);
      }
      if op.Note? || (op.Commit? && Try(before, op).Ok?) {
        assert r.log == before.log + [r.log[n]];
        forall i | 0 <= i < n ensures FirstAtRevision(r.log, i) <==> FirstAtRevision(before.log, i) {
          FirstAtRevisionOfPrefix(before.log, r.log[n], i);
        }
        if op.Note? {
          assert !(r.log[n - 1].revision < r.log[n].revision);
        } else {
          TransitionAdvances(before.state, op.event, before.spec, op.candidate, op.cost);
        }
      } else {
        assert r.log == before.log;
      }
    }
  }

  lemma RevisionsContiguousAtEnd(r: Run)
    requires Replays(r)
    ensures r.log[|r.log| - 1].revision == r.state.revision
  {
    assert PrefixReplays(r, |r.log|);
    assert r.log[..|r.log|] == r.log;
  }

  predicate TransitionName(e: EventName) {
    exists status: Status :: e in Allowed(status)
  }

  /** Selecting the transitions of a log by event name instead. */
  function NamedHistory(log: seq<Entry>): seq<Input> {
    if |log| <= 1 then []
    else
      var e := log[|log| - 1];
      var h := NamedHistory(log[..|log| - 1]);
      if TransitionName(e.event) then h + [InputOf(e)] else h
  }

  /** Among the first k entries only those that raise the revision are named like transitions. */
  predicate NamesRise(log: seq<Entry>, k: nat)
    requires k <= |log|
  {
    forall i :: 0 < i < k && TransitionName(log[i].event) ==> log[i].revision > log[i - 1].revision
  }

  lemma NamesRiseNext(log: seq<Entry>, k: nat)
    requires 1 < k <= |log|
    ensures NamesRise(log, k) <==>
            NamesRise(log, k - 1) && (TransitionName(log[k - 1].event) ==> log[k - 1].revision > log[k - 2].revision)
  {
  }

  /** Selecting by name finds the true history exactly when no observation bears a transition's name. */
  lemma NamedHistoryFaithful(r: Run)
    requires Replays(r)
    ensures NamedHistory(r.log) == History(r.log) <==>
            forall i :: 0 < i < |r.log| && TransitionName(r.log[i].event) ==> r.log[i].revision > r.log[i - 1].revision
  {
    NamedHistoryOfPrefix(r, |r.log|);
    assert r.log[..|r.log|] == r.log;
  }

  lemma {:induction false} NamedHistoryOfPrefix(r: Run, k: nat)
    requires Replays(r) && 1 <= k <= |r.log|
    ensures |NamedHistory(r.log[..k])| >= |History(r.log[..k])|
    ensures NamedHistory(r.log[..k]) == History(r.log[..k]) <==> NamesRise(r.log, k)
  {
    hide Replays, NamedHistory, History, TransitionName, NamesRise, InputOf;
    if k > 1 {
      NamedHistoryOfPrefix(r, k - 1);
      RaisingEntryIsNamed(r, k);
      NamedHistoryOfNext(r.log, k);
      NamesRiseNext(r.log, k);
    } else {
      NoNamesRise(r.log);
    }
  }

  lemma NoNamesRise(log: seq<Entry>)
    requires log != []
    ensures NamedHistory(log[..1]) == History(log[..1]) == [] && NamesRise(log, 1)
  {
  }

  /** One more entry keeps the two histories equal exactly when it raises the revision if it is named like a transition. */
  lemma NamedHistoryOfNext(log: seq<Entry>, k: nat)
    requires 1 < k <= |log| && |NamedHistory(log[..k - 1])| >= |History(log[..k - 1])|
    requires log[k - 1].revision > log[k - 2].revision ==> TransitionName(log[k - 1].event)
    ensures |NamedHistory(log[..k])| >= |History(log[..k])|
    ensures NamedHistory(log[..k]) == History(log[..k]) <==>
            && NamedHistory(log[..k - 1]) == History(log[..k - 1])
            && (TransitionName(log[k - 1].event) ==> log[k - 1].revision > log[k - 2].revision)
  {
    hide TransitionName, InputOf;
    var h, g, x := NamedHistory(log[..k - 1]), History(log[..k - 1]), InputOf(log[k - 1]);
    assert log[..k][..k - 1] == log[..k - 1];
    SnocInjective(h, g, x);
  }

  lemma SnocInjective<T>(h: seq<T>, g: seq<T>, x: T)
    ensures h + [x] == g + [x] ==> h == g
  {
    if h + [x] == g + [x] {
      assert h == (h + [x])[..|h|] && g == (g + [x])[..|g|];
    }
  }

  lemma RaisingEntryIsNamed(r: Run, k: nat)
    requires Replays(r) && 1 < k <= |r.log|
    ensures r.log[k - 1].revision > r.log[k - 2].revision ==> TransitionName(r.log[k - 1].event)
  {
    hide Replays, TransitionName;
    if r.log[k - 1].revision > r.log[k - 2].revision {
      PrefixIsRun(r, k - 1);
      PrefixIsRun(r, k);
      SliceSnoc(r.log, k - 1);
      RaisingEntryIsAccepted(r.spec, r.log[..k - 1], r.log[k - 1]);
    }
  }

  lemma SliceSnoc<T>(s: seq<T>, i: nat)
    requires i < |s|
    ensures s[..i + 1] == s[..i] + [s[i]]
  {
  }

  lemma RaisingEntryIsAccepted(spec: RunSpec, log: seq<Entry>, e: Entry)
    requires log != [] && e.revision > log[|log| - 1].revision
    requires Replay(spec, History(log)).Ok? && Replay(spec, History(log + [e])).Ok?
    ensures TransitionName(e.event)
  {
    HistoryAppend(log, e);
    AcceptedIsAllowed(spec, History(log), InputOf(e));
  }

  lemma PrefixIsRun(r: Run, k: nat)
    requires Replays(r) && 1 <= k <= |r.log|
    ensures Replay(r.spec, History(r.log[..k])).Ok?
  {
    assert PrefixReplays(r, k);
  }

  lemma AcceptedIsAllowed(spec: RunSpec, h: seq<Input>, x: Input)
    requires Replay(spec, h).Ok? && Replay(spec, h + [x]).Ok?
    ensures TransitionName(x.event)
  {
    ReplayAppend(spec, h, x, Replay(spec, h).value);
  }

  /** A failed supervision logs its event twice, and the named history of that log is no run at all. */
  lemma NamedHistoryFails(r: Run, text: string)
    requires Replays(r) && r.spec.WithinBounds() && r.state.status.Supervising?
    requires NamedHistory(r.log) == History(r.log)
    ensures var failed := Exec(r, Commit(SupervisorFailed, r.state.revision, None, 0.0));
            var noted := Exec(failed, Note(SupervisorFailed, Classification(text)));
            && Replay(r.spec, History(noted.log)) == Ok(noted.state)
            && Replay(r.spec, NamedHistory(noted.log)) == Err(TerminalRun)
  {
    var commit, note := Commit(SupervisorFailed, r.state.revision, None, 0.0), Note(SupervisorFailed, Classification(text));
    var failed := Exec(r, commit);
    SupervisionEnds(r);
    ExecReplays(r, commit);
    ExecReplays(failed, note);
    TwiceNamed(r, failed, Exec(failed, note), EntryOf(SupervisorFailed, failed.state, Classification(text)));
  }

  /** The second of two entries with one transition's name is taken for a transition of a run that has ended. */
  lemma TwiceNamed(r: Run, failed: Run, noted: Run, e: Entry)
    requires r.log != [] && Replay(r.spec, NamedHistory(r.log)) == Ok(r.state) && failed.spec == r.spec
    requires failed.log == r.log + [EntryOf(SupervisorFailed, failed.state, Change(None, 0.0))]
    requires noted.log == failed.log + [e] && InputOf(e) == Input(SupervisorFailed, None, 0.0)
    requires ApplyTransition(r.state, SupervisorFailed, r.spec, None, 0.0) == Ok(failed.state)
    requires ApplyTransition(failed.state, SupervisorFailed, r.spec, None, 0.0) == Err(TerminalRun)
    ensures Replay(r.spec, NamedHistory(noted.log)) == Err(TerminalRun)
  {
    var h, x := NamedHistory(r.log), Input(SupervisorFailed, None, 0.0);
    assert SupervisorFailed in Allowed(Supervising) && TransitionName(SupervisorFailed);
    NamedHistoryAppend(r.log, failed.log);
    NamedHistoryAppend(failed.log, noted.log);
    ReplayAppend(r.spec, h, x, r.state);
    ReplayAppend(r.spec, h + [x], x, failed.state);
  }

  lemma NamedHistoryAppend(log: seq<Entry>, log': seq<Entry>)
    requires |log| >= 1 && |log'| == |log| + 1 && log'[..|log|] == log && TransitionName(log'[|log|].event)
    ensures NamedHistory(log') == NamedHistory(log) + [InputOf(log'[|log|])]
  {
  }

  lemma SupervisionEnds(r: Run)
    requires Replays(r) && r.spec.WithinBounds() && r.state.status.Supervising?
    ensures var failed := Try(r, Commit(SupervisorFailed, r.state.revision, None, 0.0));
            && failed.Ok? && failed.value.state.IsTerminal()
            && failed.value.log == r.log + [EntryOf(SupervisorFailed, failed.value.state, Change(None, 0.0))]
            && ApplyTransition(r.state, SupervisorFailed, r.spec, None, 0.0) == Ok(failed.value.state)
            && ApplyTransition(failed.value.state, SupervisorFailed, r.spec, None, 0.0) == Err(TerminalRun)
  {
    WholeRun(r.spec, History(r.log));
  }

  /** The guard on the identity of the RunSpec never refuses a transition of a stored run. */
  lemma IdentityGuardNeverFires(spec: RunSpec, ops: seq<Op>, event: EventName, candidate: Option<Digest>, cost: real)
    requires spec.WithinBounds()
    ensures var r := ExecAll(Create(spec), ops);
            r.state.runSpecHash == SpecIdentity(r.spec)
            && ApplyTransition(r.state, event, r.spec, candidate, cost) != Err(SpecMismatch)
  {
    hide ExecAll, Consistent, Replay;
    LogReplaysToState(spec, ops);
    WholeRun(spec, History(ExecAll(Create(spec), ops).log));
  }

  /** Everything proved of whole histories holds of every stored run. */
  lemma StoredRunIsConsistent(r: Run)
    requires Replays(r) && r.spec.WithinBounds()
    ensures Consistent(r.spec, r.state) && CountersTell(r.spec, History(r.log), r.state)
  {
    WholeRun(r.spec, History(r.log));
  }
}

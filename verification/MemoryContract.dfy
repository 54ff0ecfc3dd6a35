/** The continuation memory of phase2.py stays within its contract. */
module MemoryContract {
  import opened Wrappers
  import opened Contracts
  import opened Ledger
  import opened Actors

  lemma {:induction false} AllTextsAppend(items: seq<string>, s: string)
    requires Memory.AllTexts(items) && !Blank(s) && |s| <= 300
    ensures Memory.AllTexts(items + [s])
  {
    if items != [] {
      AllTextsAppend(items[1..], s);
      assert (items + [s])[1..] == items[1..] + [s];
    } else {
      assert items + [s] == [s];
    }
  }

  lemma {:induction false} AllTextsDrop(items: seq<string>, n: nat)
    requires Memory.AllTexts(items) && n <= |items|
    ensures Memory.AllTexts(items[n..])
  {
    if n > 0 {
      AllTextsDrop(items[1..], n - 1);
      assert items[1..][n - 1..] == items[n..];
    } else {
      assert items[n..] == items;
    }
  }

  /** A text that begins with something visible still does after truncation. */
  lemma TruncateSolid(s: string)
    requires Solid(s)
    ensures !Blank(Truncate(s)) && |Truncate(s)| <= 300
  {
    assert Truncate(s)[0] == s[0];
  }

  lemma FailuresWithinContract(previous: Option<Memory>, failure: Option<string>)
    requires previous.Some? ==> previous.value.Valid()
    requires failure.Some? ==> Solid(failure.value)
    ensures Memory.Texts(LastFive(Failures(previous, failure)))
  {
    var f := Failures(previous, failure);
    if failure.Some? {
      TruncateSolid(failure.value);
      AllTextsAppend(if previous.Some? then previous.value.recentFailureSignatures else [], Truncate(failure.value));
    }
    if |f| > 5 {
      AllTextsDrop(f, |f| - 5);
    }
  }

  lemma {:induction false} HypothesesWithinContract(cs: seq<Candidate>)
    ensures |Hypotheses(cs)| == |cs| && Memory.AllTexts(Hypotheses(cs))
  {
    if cs != [] {
      HypothesesWithinContract(cs[..|cs| - 1]);
      TruncateSolid(cs[|cs| - 1].hypothesis);
      AllTextsAppend(Hypotheses(cs[..|cs| - 1]), Truncate(cs[|cs| - 1].hypothesis));
    }
  }

  lemma {:induction false} HashCounts(cs: seq<Candidate>, es: seq<Evaluation>)
    ensures |CandidateHashes(cs)| == |cs| && |EvaluationHashes(es)| == |es|
    decreases |cs| + |es|
  {
    if cs != [] { HashCounts(cs[..|cs| - 1], es); }
    if es != [] { HashCounts(cs, es[..|es| - 1]); }
  }

  /** A refresh never fails validation, whatever the ledger holds, as long as its failure text is not blank. */
  lemma RefreshNeverFails(spec: RunSpec, task: Task, st: RunState, previous: Option<Memory>,
                          cs: seq<Candidate>, es: seq<Evaluation>, advice: seq<Advice>)
    requires previous.Some? ==> previous.value.Valid()
    requires task.failure.Some? ==> Solid(task.failure.value)
    ensures NextMemory(spec, task, st, previous, cs, es, advice).Valid()
  {
    FailuresWithinContract(previous, task.failure);
    HypothesesWithinContract(LastFive(cs));
    HashCounts(LastFive(cs), LastFive(es));
  }

  /** The window of a new failure is the window of all failures. */
  lemma LastFiveOfWindow(all: seq<string>, s: string)
    ensures LastFive(LastFive(all) + [s]) == LastFive(all + [s])
    ensures LastFive(LastFive(all)) == LastFive(all)
  {
  }

  // ----- what a record holds, item by item -----

  /** How many of n items a record keeps. */
  function Kept(n: nat): nat {
    if n < 5 then n else 5
  }

  /** t is s, or its first 300 characters. */
  predicate Shortens(t: string, s: string) {
    t <= s && (|t| == 300 || (|t| < 300 && t == s))
  }

  predicate ListsCandidates(items: seq<Digest>, cs: seq<Candidate>) {
    |items| == Kept(|cs|) && forall i :: 0 <= i < |items| ==> items[i] == Sha256(CandidateText(cs[|cs| - |items| + i]))
  }

  predicate ListsEvaluations(items: seq<Digest>, es: seq<Evaluation>) {
    |items| == Kept(|es|) && forall i :: 0 <= i < |items| ==> items[i] == Sha256(EvaluationText(es[|es| - |items| + i]))
  }

  predicate ListsHypotheses(items: seq<string>, cs: seq<Candidate>) {
    |items| == Kept(|cs|) && forall i :: 0 <= i < |items| ==> Shortens(items[i], cs[|cs| - |items| + i].hypothesis)
  }

  /** The end of the window before, followed by the failure if there is one. */
  predicate ListsFailures(items: seq<string>, before: seq<string>, failure: Option<string>) {
    var n := |before| + if failure.Some? && failure.value != "" then 1 else 0;
    && |items| == Kept(n)
    && forall i :: 0 <= i < |items| ==>
         var k := n - |items| + i; if k < |before| then items[i] == before[k] else Shortens(items[i], failure.value)
  }

  /** m is the record of a refresh that read these and was given this failure and this advice. */
  predicate Tells(m: Memory, spec: RunSpec, failure: Option<string>, advice: Option<Digest>, st: RunState, previous: Option<Memory>,
                  cs: seq<Candidate>, es: seq<Evaluation>, stored: seq<Advice>)
  {
    && m.runSpecHash == SpecIdentity(spec)
    && m.memoryRevision == (if previous.Some? then previous.value.memoryRevision else 0) + 1
    && m.runStatus == st.status && m.stateRevision == st.revision && m.bestCandidateHash == st.bestCandidateHash
    && ListsCandidates(m.recentCandidateHashes, cs) && ListsEvaluations(m.recentEvaluationHashes, es)
    && ListsHypotheses(m.triedHypotheses, cs)
    && ListsFailures(m.recentFailureSignatures, if previous.Some? then previous.value.recentFailureSignatures else [], failure)
    && m.supervisorAdviceHash == if advice.Some? || stored == [] then advice else Some(Sha256(AdviceText(stored[|stored| - 1])))
  }

  lemma {:induction false} CandidateAt(cs: seq<Candidate>, i: nat)
    requires i < |cs|
    ensures |CandidateHashes(cs)| == |cs| && CandidateHashes(cs)[i] == Sha256(CandidateText(cs[i]))
  {
    HashCounts(cs, []);
    if i < |cs| - 1 {
      CandidateAt(cs[..|cs| - 1], i);
    } else {
      HashCounts(cs[..|cs| - 1], []);
    }
  }

  lemma {:induction false} EvaluationAt(es: seq<Evaluation>, i: nat)
    requires i < |es|
    ensures |EvaluationHashes(es)| == |es| && EvaluationHashes(es)[i] == Sha256(EvaluationText(es[i]))
  {
    HashCounts([], es);
    if i < |es| - 1 {
      EvaluationAt(es[..|es| - 1], i);
    } else {
      HashCounts([], es[..|es| - 1]);
    }
  }

  lemma {:induction false} HypothesisAt(cs: seq<Candidate>, i: nat)
    requires i < |cs|
    ensures |Hypotheses(cs)| == |cs| && Shortens(Hypotheses(cs)[i], cs[i].hypothesis)
  {
    HypothesesWithinContract(cs);
    if i < |cs| - 1 {
      HypothesisAt(cs[..|cs| - 1], i);
    } else {
      HypothesesWithinContract(cs[..|cs| - 1]);
    }
  }

  lemma LastFiveAt<T>(s: seq<T>)
    ensures |LastFive(s)| == Kept(|s|) && forall i :: 0 <= i < |LastFive(s)| ==> LastFive(s)[i] == s[|s| - |LastFive(s)| + i]
  {
  }

  lemma CandidatesListed(cs: seq<Candidate>)
    ensures ListsCandidates(CandidateHashes(LastFive(cs)), cs)
  {
    hide LastFive, CandidateHashes;
    LastFiveAt(cs);
    HashCounts(LastFive(cs), []);
    forall i | 0 <= i < |LastFive(cs)| ensures CandidateHashes(LastFive(cs))[i] == Sha256(CandidateText(LastFive(cs)[i])) {
      CandidateAt(LastFive(cs), i);
    }
  }

  lemma EvaluationsListed(es: seq<Evaluation>)
    ensures ListsEvaluations(EvaluationHashes(LastFive(es)), es)
  {
    hide LastFive, EvaluationHashes;
    LastFiveAt(es);
    HashCounts([], LastFive(es));
    forall i | 0 <= i < |LastFive(es)| ensures EvaluationHashes(LastFive(es))[i] == Sha256(EvaluationText(LastFive(es)[i])) {
      EvaluationAt(LastFive(es), i);
    }
  }

  lemma HypothesesListed(cs: seq<Candidate>)
    ensures ListsHypotheses(Hypotheses(LastFive(cs)), cs)
  {
    hide LastFive, Hypotheses, Shortens, Memory.AllTexts;
    LastFiveAt(cs);
    HypothesesWithinContract(LastFive(cs));
    forall i | 0 <= i < |LastFive(cs)| ensures Shortens(Hypotheses(LastFive(cs))[i], LastFive(cs)[i].hypothesis) {
      HypothesisAt(LastFive(cs), i);
    }
  }

  lemma FailuresListed(previous: Option<Memory>, failure: Option<string>)
    ensures ListsFailures(LastFive(Failures(previous, failure)),
                          if previous.Some? then previous.value.recentFailureSignatures else [], failure)
  {
  }

  /**
   * The record that a refresh builds lists, oldest first, the identities of the last five candidates and
   * evaluations, their hypotheses cut to 300 characters, and the last five failures; the rest is the state's.
   */
  lemma NextMemoryTells(spec: RunSpec, task: Task, st: RunState, previous: Option<Memory>,
                        cs: seq<Candidate>, es: seq<Evaluation>, stored: seq<Advice>)
    ensures Tells(NextMemory(spec, task, st, previous, cs, es, stored), spec, task.failure, task.advice, st, previous, cs, es, stored)
  {
    hide ListsCandidates, ListsEvaluations, ListsHypotheses, ListsFailures;
    CandidatesListed(cs);
    EvaluationsListed(es);
    HypothesesListed(cs);
    FailuresListed(previous, task.failure);
  }
}

/** Repeating a deterministic step, and what an invariant and a rank say about it. */
module Iteration {

  function Iterate<S>(step: S -> S, s: S, n: nat): S {
    if n == 0 then s else Iterate(step, step(s), n - 1)
  }

  ghost predicate Kept<S(!new)>(step: S -> S, inv: S -> bool) {
    forall s :: inv(s) ==> inv(step(s))
  }

  /** The rank falls until it is 0, and steps at rank 0 change nothing. */
  ghost predicate Ranked<S(!new)>(step: S -> S, rank: S -> nat) {
    forall s :: if rank(s) == 0 then step(s) == s else rank(step(s)) < rank(s)
  }

  lemma {:induction false} IterateKeeps<S(!new)>(step: S -> S, inv: S -> bool, s: S, n: nat)
    requires Kept(step, inv) && inv(s)
    ensures inv(Iterate(step, s, n))
    decreases n
  {
    if n > 0 { IterateKeeps(step, inv, step(s), n - 1); }
  }

  lemma {:induction false} IterateStays<S(!new)>(step: S -> S, rank: S -> nat, s: S, n: nat)
    requires Ranked(step, rank) && rank(s) == 0
    ensures Iterate(step, s, n) == s
    decreases n
  {
    if n > 0 { IterateStays(step, rank, step(s), n - 1); }
  }

  /** rank(s) steps are enough to come to rest, and more change nothing. */
  lemma {:induction false} IterateRests<S(!new)>(step: S -> S, rank: S -> nat, s: S, n: nat)
    requires Ranked(step, rank) && n >= rank(s)
    ensures rank(Iterate(step, s, n)) == 0
    ensures Iterate(step, s, n) == Iterate(step, s, rank(s))
    decreases n
  {
    if rank(s) == 0 {
      IterateStays(step, rank, s, n);
    } else {
      IterateRests(step, rank, step(s), n - 1);
      IterateRests(step, rank, step(s), rank(s) - 1);
    }
  }

  /** Coming to rest after one step is coming to rest. */
  lemma FinishRested<S(!new)>(step: S -> S, rank: S -> nat, s: S)
    requires Ranked(step, rank) && rank(s) > 0
    ensures Iterate(step, step(s), rank(step(s))) == Iterate(step, s, rank(s))
  {
    IterateRests(step, rank, step(s), rank(s) - 1);
  }
}

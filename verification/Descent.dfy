/** Chains of steps that strictly decrease a measure while they keep an invariant. */
module Descent {

  ghost predicate Descends<S(!new)>(step: (S, S) -> bool, good: S -> bool, measure: S -> nat) {
    forall s, s' :: good(s) && step(s, s') ==> good(s') && measure(s') < measure(s)
  }

  ghost predicate Progresses<S(!new)>(step: (S, S) -> bool, good: S -> bool, done: S -> bool) {
    forall s :: good(s) && !done(s) ==> exists s' :: step(s, s')
  }

  ghost predicate Chain<S(!new)>(step: (S, S) -> bool, ss: seq<S>) {
    |ss| > 0 && forall k: nat :: k + 1 < |ss| ==> step(ss[k], ss[k + 1])
  }

  /** A chain from a good state is no longer than the measure allows. */
  lemma {:induction false} ChainDescends<S(!new)>(step: (S, S) -> bool, good: S -> bool, measure: S -> nat, ss: seq<S>, k: nat)
    requires Descends(step, good, measure) && Chain(step, ss) && good(ss[0]) && k < |ss|
    ensures good(ss[k]) && measure(ss[k]) + k <= measure(ss[0])
  {
    if k > 0 {
      ChainDescends(step, good, measure, ss, k - 1);
      assert step(ss[k - 1], ss[k - 1 + 1]);
    }
  }

  /** From every good state some chain ends in a finished one. */
  lemma {:induction false} ChainToDone<S(!new)>(step: (S, S) -> bool, good: S -> bool, done: S -> bool, measure: S -> nat, s: S) returns (ss: seq<S>)
    requires Descends(step, good, measure) && Progresses(step, good, done) && good(s)
    ensures Chain(step, ss) && ss[0] == s && done(ss[|ss| - 1]) && |ss| <= measure(s) + 1
    decreases measure(s)
  {
    ss := [s];
    if !done(s) {
      var s' :| step(s, s');
      var rest := ChainToDone(step, good, done, measure, s');
      ss := [s] + rest;
      forall k: nat | k + 1 < |ss|
        ensures step(ss[k], ss[k + 1])
      {
        if k > 0 {
          assert step(rest[k - 1], rest[k - 1 + 1]);
        }
      }
    }
  }
}

/** Runs of a labelled transition system, and the induction principle over them.
    Every protocol below is a type of states with an initial condition and a
    next-state relation, each step of which makes at most one shared access. */
module Runs {

  /** `ss` is a run: it starts in an initial state and every later state follows
      from the one before it. */
  ghost predicate Run<S>(init: S -> bool, next: (S, S) -> bool, ss: seq<S>) {
    && |ss| > 0
    && init(ss[0])
    && forall i, j :: 0 <= i && j == i + 1 < |ss| ==> next(ss[i], ss[j])
  }

  /** `inv` holds initially and every step keeps it. */
  ghost predicate Inductive<S(!new)>(init: S -> bool, next: (S, S) -> bool, inv: S -> bool) {
    && (forall s :: init(s) ==> inv(s))
    && (forall s, s' :: inv(s) && next(s, s') ==> inv(s'))
  }

  lemma {:induction false} InductiveHolds<S(!new)>(init: S -> bool, next: (S, S) -> bool, inv: S -> bool, ss: seq<S>,
      i: nat)
    requires Run(init, next, ss) && Inductive(init, next, inv) && i < |ss|
    ensures inv(ss[i])
  {
    if i == 0 {
    } else {
      InductiveHolds(init, next, inv, ss, i - 1);
    }
  }

  /** What `inv` and a step give of every step holds of each step of a run. */
  lemma EveryStep<S(!new)>(init: S -> bool, next: (S, S) -> bool, inv: S -> bool, rel: (S, S) -> bool, ss: seq<S>,
      i: nat)
    requires Run(init, next, ss) && 0 < i < |ss| && inv(ss[i - 1])
    requires forall s, s' :: inv(s) && next(s, s') ==> rel(s, s')
    ensures rel(ss[i - 1], ss[i])
  {
    assert next(ss[i - 1], ss[i]);
  }

  /** A stretch of a run: every state but the first follows from the one before it. */
  ghost predicate Path<S>(next: (S, S) -> bool, ss: seq<S>) {
    |ss| > 0 && forall i, j :: 0 <= i && j == i + 1 < |ss| ==> next(ss[i], ss[j])
  }

  lemma Prepend<S>(next: (S, S) -> bool, s: S, rest: seq<S>)
    requires Path(next, rest) && next(s, rest[0])
    ensures Path(next, [s] + rest)
    ensures ([s] + rest)[0] == s && ([s] + rest)[|rest|] == rest[|rest| - 1]
  {
    var ss := [s] + rest;
    forall i, j | 0 <= i && j == i + 1 < |ss| ensures next(ss[i], ss[j]) {
      if i > 0 {
        assert next(rest[i - 1], rest[i]);
      }
    }
  }
}

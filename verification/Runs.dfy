/** Runs of a step machine, and the one induction every machine of this project uses. */
module Runs {

  /** A finite run: it starts in an initial state and every two neighbours are one step apart. */
  ghost predicate IsRun<S(!new)>(init: S -> bool, next: (S, S) -> bool, run: seq<S>) {
    && |run| > 0
    && init(run[0])
    && forall i :: 0 < i < |run| ==> next(run[i - 1], run[i])
  }

  /** Some run ends in `s`. */
  ghost predicate Reachable<S(!new)>(init: S -> bool, next: (S, S) -> bool, s: S) {
    exists run :: IsRun(init, next, run) && run[|run| - 1] == s
  }

  lemma {:induction false} InvariantAlongRun<S(!new)>(
    init: S -> bool, next: (S, S) -> bool, inv: S -> bool, run: seq<S>, i: nat)
    requires IsRun(init, next, run) && i < |run|
    requires forall s :: init(s) ==> inv(s)
    requires forall s, t :: inv(s) && next(s, t) ==> inv(t)
    ensures inv(run[i])
    decreases i
  {
    if i == 0 {
    } else {
      InvariantAlongRun(init, next, inv, run, i - 1);
    }
  }

  /** An inductive predicate holds in every reachable state. */
  lemma InvariantHolds<S(!new)>(init: S -> bool, next: (S, S) -> bool, inv: S -> bool, s: S)
    requires Reachable(init, next, s)
    requires forall s :: init(s) ==> inv(s)
    requires forall s, t :: inv(s) && next(s, t) ==> inv(t)
    ensures inv(s)
  {
    var run :| IsRun(init, next, run) && run[|run| - 1] == s;
    InvariantAlongRun(init, next, inv, run, |run| - 1);
  }

  lemma InitialReachable<S(!new)>(init: S -> bool, next: (S, S) -> bool, s: S)
    requires init(s)
    ensures Reachable(init, next, s)
  {
    assert IsRun(init, next, [s]) && [s][|[s]| - 1] == s;
  }

  lemma NextReachable<S(!new)>(init: S -> bool, next: (S, S) -> bool, s: S, t: S)
    requires Reachable(init, next, s) && next(s, t)
    ensures Reachable(init, next, t)
  {
    var run :| IsRun(init, next, run) && run[|run| - 1] == s;
    var more := run + [t];
    assert IsRun(init, next, more) && more[|more| - 1] == t;
  }
}

/**
 Runs of a deterministic step function under a schedule of actions. The step function is a
 parameter, so the facts here are about schedules alone.
 */
module Runs {
  import opened Options

  /** The state after a schedule, or None when some action of it cannot be taken in its turn. */
  function Exec<S, A>(step: (S, A) -> Option<S>, s: S, acts: seq<A>): Option<S>
    decreases |acts|
  {
    if acts == [] then Some(s)
    else
      var before := Exec(step, s, acts[..|acts| - 1]);
      if before.Some? then step(before.value, acts[|acts| - 1]) else None
  }

  lemma {:induction false} ExecConcat<S, A>(step: (S, A) -> Option<S>, s: S, a: seq<A>, b: seq<A>)
    requires Exec(step, s, a).Some?
    ensures Exec(step, s, a + b) == Exec(step, Exec(step, s, a).value, b)
    decreases |b|
  {
    if b == [] {
      assert a + b == a;
    } else {
      assert (a + b)[..|a + b| - 1] == a + b[..|b| - 1];
      ExecConcat(step, s, a, b[..|b| - 1]);
    }
  }

  ghost predicate Kept<S(!new), A(!new)>(step: (S, A) -> Option<S>, inv: S -> bool) {
    forall s, a :: inv(s) && step(s, a).Some? ==> inv(step(s, a).value)
  }

  /** What every step keeps, every run keeps. */
  lemma {:induction false} Invariance<S(!new), A(!new)>(step: (S, A) -> Option<S>, inv: S -> bool, s: S, acts: seq<A>)
    requires Kept(step, inv) && inv(s) && Exec(step, s, acts).Some?
    ensures inv(Exec(step, s, acts).value)
    decreases |acts|
  {
    if acts != [] {
      Invariance(step, inv, s, acts[..|acts| - 1]);
    }
  }
}

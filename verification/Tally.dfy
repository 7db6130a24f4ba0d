/**
 Numbers added up over a sequence. The update lemma says what replacing one element does to a
 total, which is how one worker's step changes the whole pool.
 */
module Tally {

  ghost function Total<T>(xs: seq<T>, f: T -> nat): nat {
    if xs == [] then 0 else f(xs[0]) + Total(xs[1..], f)
  }

  lemma {:induction false} TotalUpdate<T>(xs: seq<T>, i: nat, x: T, f: T -> nat)
    requires i < |xs|
    ensures Total(xs[i := x], f) + f(xs[i]) == Total(xs, f) + f(x)
  {
    if i > 0 {
      assert xs[i := x][1..] == xs[1..][i - 1 := x];
      TotalUpdate(xs[1..], i - 1, x, f);
    } else {
      assert xs[i := x][1..] == xs[1..];
    }
  }

  lemma {:induction false} TotalConcat<T>(xs: seq<T>, ys: seq<T>, f: T -> nat)
    ensures Total(xs + ys, f) == Total(xs, f) + Total(ys, f)
  {
    if xs == [] {
      assert xs + ys == ys;
    } else {
      assert (xs + ys)[1..] == xs[1..] + ys;
      TotalConcat(xs[1..], ys, f);
    }
  }

  lemma TotalAppend<T>(xs: seq<T>, x: T, f: T -> nat)
    ensures Total(xs + [x], f) == Total(xs, f) + f(x)
  {
    TotalConcat(xs, [x], f);
  }

  lemma TotalHead<T>(xs: seq<T>, f: T -> nat)
    requires xs != []
    ensures Total(xs, f) == f(xs[0]) + Total(xs[1..], f)
  {}

  lemma {:induction false} TotalZero<T>(xs: seq<T>, f: T -> nat)
    ensures Total(xs, f) == 0 <==> forall x :: x in xs ==> f(x) == 0
  {
    if xs != [] {
      TotalZero(xs[1..], f);
      assert xs == [xs[0]] + xs[1..];
    }
  }

  function One(b: bool): nat { if b then 1 else 0 }

  /** Splitting off the first element does not change what a sequence holds. */
  lemma HeadCount<T>(xs: seq<T>, x: T)
    requires xs != []
    ensures multiset(xs)[x] == One(xs[0] == x) + multiset(xs[1..])[x]
  {
    assert xs == [xs[0]] + xs[1..];
  }

  lemma LastCount<T>(xs: seq<T>, y: T, x: T)
    ensures multiset(xs + [y])[x] == multiset(xs)[x] + One(y == x)
  {}

  lemma AddedCount<T>(xs: multiset<T>, y: T, x: T)
    ensures (xs + multiset{y})[x] == xs[x] + One(y == x)
  {}
}

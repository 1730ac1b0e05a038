/** Sums of an integer-valued measure over a sequence: every counter of the scheduler is compared with one. */
module Sums {

  function Sum<T>(xs: seq<T>, f: T -> int): int {
    if xs == [] then 0 else Sum(xs[..|xs| - 1], f) + f(xs[|xs| - 1])
  }

  function Indicator(b: bool): int {
    if b then 1 else 0
  }

  lemma SumSnoc<T>(xs: seq<T>, x: T, f: T -> int)
    ensures Sum(xs + [x], f) == Sum(xs, f) + f(x)
  {
    assert (xs + [x])[..|xs|] == xs;
  }

  lemma {:induction false} SumUpdate<T>(xs: seq<T>, i: nat, x: T, f: T -> int)
    requires i < |xs|
    ensures Sum(xs[i := x], f) == Sum(xs, f) - f(xs[i]) + f(x)
  {
    var n := |xs| - 1;
    if i == n {
      assert xs[i := x][..n] == xs[..n];
    } else {
      assert xs[i := x][..n] == xs[..n][i := x];
      SumUpdate(xs[..n], i, x, f);
    }
  }

  /** A sum of non-negative terms bounds each of them and is zero only when they all are. */
  lemma {:induction false} SumNonNegative<T>(xs: seq<T>, f: T -> int)
    requires forall i :: 0 <= i < |xs| ==> f(xs[i]) >= 0
    ensures forall i :: 0 <= i < |xs| ==> f(xs[i]) <= Sum(xs, f)
    ensures Sum(xs, f) >= 0
    ensures Sum(xs, f) == 0 ==> forall i :: 0 <= i < |xs| ==> f(xs[i]) == 0
  {
    if xs != [] {
      var ys := xs[..|xs| - 1];
      SumNonNegative(ys, f);
      forall i | 0 <= i < |xs|
        ensures f(xs[i]) <= Sum(xs, f)
        ensures Sum(xs, f) == 0 ==> f(xs[i]) == 0
      {
        if i < |ys| { assert ys[i] == xs[i]; }
      }
    }
  }

  lemma {:induction false} SumConstant<T>(xs: seq<T>, f: T -> int, k: int)
    requires forall i :: 0 <= i < |xs| ==> f(xs[i]) == k
    ensures Sum(xs, f) == k * |xs|
  {
    if xs != [] {
      SumConstant(xs[..|xs| - 1], f, k);
    }
  }

  lemma {:induction false} SumLe<T>(xs: seq<T>, f: T -> int, g: T -> int)
    requires forall i :: 0 <= i < |xs| ==> f(xs[i]) <= g(xs[i])
    ensures Sum(xs, f) <= Sum(xs, g)
  {
    if xs != [] {
      SumLe(xs[..|xs| - 1], f, g);
    }
  }

  /** Pointwise h == f + g lifts to sums. */
  lemma {:induction false} SumAdd<T>(xs: seq<T>, f: T -> int, g: T -> int, h: T -> int)
    requires forall i :: 0 <= i < |xs| ==> h(xs[i]) == f(xs[i]) + g(xs[i])
    ensures Sum(xs, h) == Sum(xs, f) + Sum(xs, g)
  {
    if xs != [] {
      SumAdd(xs[..|xs| - 1], f, g, h);
    }
  }

  /** A measure that is 1 at one index and 0 elsewhere sums to 1. */
  lemma SumSingle<T>(xs: seq<T>, f: T -> int, k: nat)
    requires k < |xs| && f(xs[k]) == 1
    requires forall i :: 0 <= i < |xs| && i != k ==> f(xs[i]) == 0
    ensures Sum(xs, f) == 1
  {
    SumSingleAt(xs, f, k);
  }

  lemma {:induction false} SumSingleAt<T>(xs: seq<T>, f: T -> int, k: nat)
    requires forall i :: 0 <= i < |xs| ==> f(xs[i]) == Indicator(i == k)
    ensures Sum(xs, f) == Indicator(k < |xs|)
  {
    if xs != [] { SumSingleAt(xs[..|xs| - 1], f, k); }
  }

  lemma {:induction false} SumConcat<T>(xs: seq<T>, ys: seq<T>, f: T -> int)
    ensures Sum(xs + ys, f) == Sum(xs, f) + Sum(ys, f)
  {
    if ys == [] {
      assert xs + ys == xs;
    } else {
      var n := |ys| - 1;
      assert (xs + ys)[..|xs| + n] == xs + ys[..n];
      SumConcat(xs, ys[..n], f);
    }
  }

  lemma SumTail<T>(xs: seq<T>, f: T -> int)
    requires xs != []
    ensures Sum(xs, f) == f(xs[0]) + Sum(xs[1..], f)
  {
    assert xs == [xs[0]] + xs[1..];
    SumConcat([xs[0]], xs[1..], f);
    assert Sum([xs[0]][..0], f) == 0;
  }
}

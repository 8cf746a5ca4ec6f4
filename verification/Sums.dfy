/** Sums over all threads or all nodes, for exact accounting. */
module Sums {
  ghost function Sum(xs: seq<int>): int {
    if xs == [] then 0 else xs[0] + Sum(xs[1..])
  }

  lemma {:induction false} SumUpdate(xs: seq<int>, i: nat, x: int)
    requires i < |xs|
    ensures Sum(xs[i := x]) == Sum(xs) - xs[i] + x
  {
    if i == 0 {
      assert xs[i := x][1..] == xs[1..];
    } else {
      assert xs[i := x][1..] == xs[1..][i - 1 := x];
      SumUpdate(xs[1..], i - 1, x);
    }
  }

  lemma {:induction false} SumAppend(xs: seq<int>, x: int)
    ensures Sum(xs + [x]) == Sum(xs) + x
  {
    if xs == [] {
      assert (xs + [x])[1..] == [];
    } else {
      assert (xs + [x])[1..] == xs[1..] + [x];
      SumAppend(xs[1..], x);
    }
  }

  lemma {:induction false} AllZero(xs: seq<int>)
    requires forall i :: 0 <= i < |xs| ==> xs[i] == 0
    ensures Sum(xs) == 0
  {
    if xs != [] { AllZero(xs[1..]); }
  }

  lemma {:induction false} SumNonNegative(xs: seq<int>)
    requires forall i :: 0 <= i < |xs| ==> 0 <= xs[i]
    ensures 0 <= Sum(xs)
  {
    if xs != [] { SumNonNegative(xs[1..]); }
  }

  /** In a sum of non-negative terms each term, and any two together, are a lower bound. */
  lemma {:induction false} SumBound(xs: seq<int>, i: nat, j: nat)
    requires i < |xs| && j < |xs| && forall k :: 0 <= k < |xs| ==> 0 <= xs[k]
    ensures xs[i] <= Sum(xs) && (i != j ==> xs[i] + xs[j] <= Sum(xs))
  {
    SumNonNegative(xs[1..]);
    if i > 0 && j > 0 {
      SumBound(xs[1..], i - 1, j - 1);
    } else if i > 0 {
      SumBound(xs[1..], i - 1, i - 1);
    } else if j > 0 {
      SumBound(xs[1..], j - 1, j - 1);
    }
  }
}

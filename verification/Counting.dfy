/**
 Sums of a weight over a sequence.

 Every concurrent model of this project keeps its threads in a sequence of program
 points. "How many threads hold this node", "how many items are promised" and the like
 are then sums of a weight over that sequence, and one atomic step changes one element.
 */
module Counting {

  /** The sum of `w` over the elements of `xs`. */
  function Sum<T>(xs: seq<T>, w: T -> int): int {
    if xs == [] then 0 else w(xs[0]) + Sum(xs[1..], w)
  }

  /** Replacing one element changes the sum by the difference of the two weights. */
  lemma {:induction false} SumUpdate<T>(xs: seq<T>, i: nat, v: T, w: T -> int)
    requires i < |xs|
    ensures Sum(xs[i := v], w) == Sum(xs, w) - w(xs[i]) + w(v)
  {
    if i == 0 {
      assert xs[i := v][1..] == xs[1..];
    } else {
      assert xs[i := v][1..] == xs[1..][i - 1 := v];
      SumUpdate(xs[1..], i - 1, v, w);
    }
  }

  /** A non-negative weight sums to at least the weight of any one element. */
  lemma {:induction false} SumAtLeast<T>(xs: seq<T>, i: nat, w: T -> int)
    requires i < |xs|
    requires forall k :: 0 <= k < |xs| ==> w(xs[k]) >= 0
    ensures Sum(xs, w) >= w(xs[i])
  {
    SumNonNegative(xs[1..], w);
    if i > 0 {
      SumAtLeast(xs[1..], i - 1, w);
    }
  }

  /** A non-negative weight has a non-negative sum. */
  lemma {:induction false} SumNonNegative<T>(xs: seq<T>, w: T -> int)
    requires forall k :: 0 <= k < |xs| ==> w(xs[k]) >= 0
    ensures Sum(xs, w) >= 0
  {
    if xs != [] {
      SumNonNegative(xs[1..], w);
    }
  }

  /** Two different elements contribute both of their weights. */
  lemma {:induction false} SumAtLeastTwo<T>(xs: seq<T>, i: nat, j: nat, w: T -> int)
    requires i < j < |xs|
    requires forall k :: 0 <= k < |xs| ==> w(xs[k]) >= 0
    ensures Sum(xs, w) >= w(xs[i]) + w(xs[j])
  {
    if i == 0 {
      SumAtLeast(xs[1..], j - 1, w);
    } else {
      SumAtLeastTwo(xs[1..], i - 1, j - 1, w);
    }
  }

  /** A weight that is nowhere positive has no positive sum. */
  lemma {:induction false} SumNotPositive<T>(xs: seq<T>, w: T -> int)
    requires forall k :: 0 <= k < |xs| ==> w(xs[k]) <= 0
    ensures Sum(xs, w) <= 0
  {
    if xs != [] {
      SumNotPositive(xs[1..], w);
    }
  }

  /** A positive sum has an element of positive weight. */
  lemma {:induction false} SumWitness<T>(xs: seq<T>, w: T -> int) returns (i: nat)
    requires Sum(xs, w) > 0
    ensures i < |xs| && w(xs[i]) > 0
  {
    if forall k :: 0 <= k < |xs| ==> w(xs[k]) <= 0 {
      SumNotPositive(xs, w);
    }
    i :| i < |xs| && w(xs[i]) > 0;
  }

  /** A weight of at most one sums to at most the length. */
  lemma {:induction false} SumAtMostLength<T>(xs: seq<T>, w: T -> int)
    requires forall k :: 0 <= k < |xs| ==> w(xs[k]) <= 1
    ensures Sum(xs, w) <= |xs|
  {
    if xs != [] {
      SumAtMostLength(xs[1..], w);
    }
  }

  /** Sums split over concatenation. */
  lemma {:induction false} SumConcat<T>(xs: seq<T>, ys: seq<T>, w: T -> int)
    ensures Sum(xs + ys, w) == Sum(xs, w) + Sum(ys, w)
  {
    if xs == [] {
      assert xs + ys == ys;
    } else {
      assert (xs + ys)[1..] == xs[1..] + ys;
      SumConcat(xs[1..], ys, w);
    }
  }

  /** A pointwise smaller weight has a smaller sum. */
  lemma {:induction false} SumMonotone<T>(xs: seq<T>, v: T -> int, w: T -> int)
    requires forall k :: 0 <= k < |xs| ==> v(xs[k]) <= w(xs[k])
    ensures Sum(xs, v) <= Sum(xs, w)
  {
    if xs != [] {
      SumMonotone(xs[1..], v, w);
    }
  }

  /** Two sequences compared element by element under one weight. */
  lemma {:induction false} SumPointwise<T>(xs: seq<T>, ys: seq<T>, w: T -> int)
    requires |xs| == |ys|
    requires forall k :: 0 <= k < |xs| ==> w(xs[k]) <= w(ys[k])
    ensures Sum(xs, w) <= Sum(ys, w)
  {
    if xs != [] {
      SumPointwise(xs[1..], ys[1..], w);
    }
  }

  /** The sum over a prefix that is longer by one. */
  lemma {:induction false} SumPrefixStep<T>(xs: seq<T>, k: nat, w: T -> int)
    requires k < |xs|
    ensures Sum(xs[..k + 1], w) == Sum(xs[..k], w) + w(xs[k])
  {
    assert xs[..k + 1] == xs[..k] + [xs[k]];
    SumConcat(xs[..k], [xs[k]], w);
  }
}

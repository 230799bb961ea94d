/**
 * `Series.rank(method='min')` over a column of numbers: equal values share
 * the smallest rank their group would occupy.
 */
module Ranking {

  /** How many entries of `xs` are strictly below `x`. */
  function CountBelow(xs: seq<real>, x: real): (n: nat)
    ensures n <= |xs|
  {
    if |xs| == 0 then 0 else (if xs[0] < x then 1 else 0) + CountBelow(xs[1..], x)
  }

  /** How many entries of `xs` are strictly above `x`. */
  function CountAbove(xs: seq<real>, x: real): (n: nat)
    ensures n <= |xs|
  {
    if |xs| == 0 then 0 else (if xs[0] > x then 1 else 0) + CountAbove(xs[1..], x)
  }

  /** How many entries of `xs` equal `x`. */
  function CountEqual(xs: seq<real>, x: real): (n: nat)
    ensures n <= |xs|
  {
    if |xs| == 0 then 0 else (if xs[0] == x then 1 else 0) + CountEqual(xs[1..], x)
  }

  /** `rank(ascending=True, method='min')`: the smallest value gets rank 1. */
  function RankAsc(xs: seq<real>, x: real): nat {
    1 + CountBelow(xs, x)
  }

  /** `rank(ascending=False, method='min')`: the largest value gets rank 1. */
  function RankDesc(xs: seq<real>, x: real): nat {
    1 + CountAbove(xs, x)
  }

  function Negate(xs: seq<real>): (ys: seq<real>)
    ensures |ys| == |xs|
    ensures forall i :: 0 <= i < |xs| ==> ys[i] == -xs[i]
  {
    seq(|xs|, i requires 0 <= i < |xs| => -xs[i])
  }

  /** Every entry is below, above or equal to `x`. */
  lemma {:induction false} CountsPartition(xs: seq<real>, x: real)
    ensures CountBelow(xs, x) + CountAbove(xs, x) + CountEqual(xs, x) == |xs|
  {
    if |xs| > 0 {
      CountsPartition(xs[1..], x);
    }
  }

  lemma {:induction false} CountEqualPositive(xs: seq<real>, x: real)
    requires x in xs
    ensures CountEqual(xs, x) >= 1
  {
    if xs[0] != x {
      assert x in xs[1..];
      CountEqualPositive(xs[1..], x);
    }
  }

  /** The rank of a value of the column lies between 1 and the column's length, both ways round. */
  lemma RankBounds(xs: seq<real>, x: real)
    requires x in xs
    ensures 1 <= RankAsc(xs, x) <= |xs|
    ensures 1 <= RankDesc(xs, x) <= |xs|
  {
    CountsPartition(xs, x);
    CountEqualPositive(xs, x);
  }

  /**
   * Ascending and descending ranks mirror each other: for a value that
   * occurs once, the ascending rank is `|xs| + 1` minus the descending one.
   */
  lemma RankMirror(xs: seq<real>, x: real)
    ensures RankAsc(xs, x) + RankDesc(xs, x) + CountEqual(xs, x) == |xs| + 2
  {
    CountsPartition(xs, x);
  }

  /** A larger value never counts fewer entries below it. */
  lemma {:induction false} CountBelowMonotone(xs: seq<real>, x: real, y: real)
    requires x <= y
    ensures CountBelow(xs, x) <= CountBelow(xs, y)
    ensures x < y && x in xs ==> CountBelow(xs, x) < CountBelow(xs, y)
  {
    if |xs| > 0 {
      CountBelowMonotone(xs[1..], x, y);
      if x < y && x in xs && xs[0] != x {
        assert x in xs[1..];
      }
    }
  }

  /** A larger value never counts more entries above it. */
  lemma {:induction false} CountAboveMonotone(xs: seq<real>, x: real, y: real)
    requires x <= y
    ensures CountAbove(xs, y) <= CountAbove(xs, x)
    ensures x < y && y in xs ==> CountAbove(xs, y) < CountAbove(xs, x)
  {
    if |xs| > 0 {
      CountAboveMonotone(xs[1..], x, y);
      if x < y && y in xs && xs[0] != y {
        assert y in xs[1..];
      }
    }
  }

  /**
   * Ranking preserves order: a larger value gets an ascending rank at least
   * as large and a descending rank at most as large, strictly so when the
   * values differ and the compared one occurs in the column.
   */
  lemma RankMonotone(xs: seq<real>, x: real, y: real)
    requires x <= y
    ensures RankAsc(xs, x) <= RankAsc(xs, y)
    ensures RankDesc(xs, y) <= RankDesc(xs, x)
    ensures x < y && x in xs ==> RankAsc(xs, x) < RankAsc(xs, y)
    ensures x < y && y in xs ==> RankDesc(xs, y) < RankDesc(xs, x)
  {
    CountBelowMonotone(xs, x, y);
    CountAboveMonotone(xs, x, y);
  }

  /** Rank 1 ascending is exactly a minimum of the column. */
  lemma {:induction false} RankAscOneIffMinimum(xs: seq<real>, x: real)
    ensures RankAsc(xs, x) == 1 <==> forall i :: 0 <= i < |xs| ==> x <= xs[i]
  {
    if |xs| > 0 {
      RankAscOneIffMinimum(xs[1..], x);
      assert forall i :: 0 < i < |xs| ==> xs[i] == xs[1..][i - 1];
    }
  }

  /** Rank 1 descending is exactly a maximum of the column. */
  lemma {:induction false} RankDescOneIffMaximum(xs: seq<real>, x: real)
    ensures RankDesc(xs, x) == 1 <==> forall i :: 0 <= i < |xs| ==> xs[i] <= x
  {
    if |xs| > 0 {
      RankDescOneIffMaximum(xs[1..], x);
      assert forall i :: 0 < i < |xs| ==> xs[i] == xs[1..][i - 1];
    }
  }

  /** Ranking descending is ranking the negated column ascending. */
  lemma {:induction false} RankDescIsNegatedAsc(xs: seq<real>, x: real)
    ensures RankDesc(xs, x) == RankAsc(Negate(xs), -x)
  {
    if |xs| > 0 {
      RankDescIsNegatedAsc(xs[1..], x);
      assert Negate(xs)[1..] == Negate(xs[1..]);
    }
  }

  /** In a one-entry column every rank is 1. */
  lemma RankSingleton(v: real, x: real)
    ensures RankAsc([v], x) == 1 <==> v >= x
    ensures RankDesc([v], x) == 1 <==> v <= x
  {
    assert [v][1..] == [];
  }
}

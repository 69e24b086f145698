/**
 * Totals and percentage shares of a list of values, as the chart screens
 * compute them with `reduce` and `value / total * 100`, and the running
 * totals of a table whose row `i` sums rows `0..i`.
 */
module Shares {

  /** `xs.reduce((acc, x) => acc + x, 0)`. */
  function Total(xs: seq<real>): real {
    if |xs| == 0 then 0.0 else xs[0] + Total(xs[1..])
  }

  /** The exact percentage of each value in `total`. */
  function PercentShares(xs: seq<real>, total: real): (r: seq<real>)
    requires total != 0.0
    ensures |r| == |xs| && forall i :: 0 <= i < |xs| ==> r[i] == xs[i] / total * 100.0
  {
    seq(|xs|, i requires 0 <= i < |xs| => xs[i] / total * 100.0)
  }

  /** Every value multiplied by `k`. */
  function Scale(xs: seq<real>, k: real): (r: seq<real>)
    ensures |r| == |xs| && forall i :: 0 <= i < |xs| ==> r[i] == xs[i] * k
  {
    seq(|xs|, i requires 0 <= i < |xs| => xs[i] * k)
  }

  /** Scaling every value scales the total. */
  lemma {:induction false} ScaleTotal(xs: seq<real>, k: real)
    ensures Total(Scale(xs, k)) == Total(xs) * k
    decreases |xs|
  {
    if |xs| > 0 {
      ScaleTotal(xs[1..], k);
      forall j | 0 <= j < |xs| - 1
        ensures Scale(xs, k)[1..][j] == Scale(xs[1..], k)[j]
      {
      }
      assert Scale(xs, k)[1..] == Scale(xs[1..], k);
      Distribute(xs[0], Total(xs[1..]), k);
    }
  }

  lemma Distribute(a: real, b: real, k: real)
    ensures (a + b) * k == a * k + b * k
  {
  }

  lemma DivTimes(a: real, t: real)
    requires t != 0.0
    ensures a / t * 100.0 == a * (100.0 / t)
  {
  }

  /** A percentage share is the value scaled by `100 / total`. */
  lemma SharesAreScaled(xs: seq<real>, total: real)
    requires total != 0.0
    ensures PercentShares(xs, total) == Scale(xs, 100.0 / total)
  {
    forall i | 0 <= i < |xs|
      ensures PercentShares(xs, total)[i] == Scale(xs, 100.0 / total)[i]
    {
      DivTimes(xs[i], total);
    }
  }

  /** The shares of all the values add up to the values' total, in percent of `total`. */
  lemma SharesTotal(xs: seq<real>, total: real)
    requires total != 0.0
    ensures Total(PercentShares(xs, total)) == Total(xs) * (100.0 / total)
  {
    SharesAreScaled(xs, total);
    ScaleTotal(xs, 100.0 / total);
  }

  /** Of a positive total, the shares add up to exactly one hundred. */
  lemma SharesMakeHundred(xs: seq<real>)
    requires Total(xs) > 0.0
    ensures Total(PercentShares(xs, Total(xs))) == 100.0
  {
    var t := Total(xs);
    SharesTotal(xs, t);
    assert t * (100.0 / t) == 100.0;
  }

  /** Values each within `e` of a reference add up to within `e` per value of the reference's total. */
  lemma {:induction false} TotalsClose(xs: seq<real>, ys: seq<real>, e: real)
    requires |xs| == |ys| && e >= 0.0
    requires forall i :: 0 <= i < |xs| ==> ys[i] - e <= xs[i] <= ys[i] + e
    ensures Total(ys) - e * |xs| as real <= Total(xs) <= Total(ys) + e * |xs| as real
    decreases |xs|
  {
    if |xs| > 0 {
      TotalsClose(xs[1..], ys[1..], e);
      var m := |xs[1..]| as real;
      assert e * |xs| as real == e * m + e;
      assert Total(xs) == xs[0] + Total(xs[1..]) && Total(ys) == ys[0] + Total(ys[1..]);
    }
  }

  /** A non-negative value is at most the total of the non-negative values it is among. */
  lemma {:induction false} ValueAtMostTotal(xs: seq<real>, i: nat)
    requires i < |xs| && forall j :: 0 <= j < |xs| ==> xs[j] >= 0.0
    ensures 0.0 <= xs[i] <= Total(xs)
    decreases |xs|
  {
    TotalNonNegative(xs[1..]);
    if i > 0 {
      ValueAtMostTotal(xs[1..], i - 1);
    }
  }

  lemma {:induction false} TotalNonNegative(xs: seq<real>)
    requires forall j :: 0 <= j < |xs| ==> xs[j] >= 0.0
    ensures Total(xs) >= 0.0
    decreases |xs|
  {
    if |xs| > 0 {
      TotalNonNegative(xs[1..]);
    }
  }

  /** Each share of non-negative values lies between zero and one hundred. */
  lemma ShareBounds(xs: seq<real>, i: nat)
    requires i < |xs| && forall j :: 0 <= j < |xs| ==> xs[j] >= 0.0
    requires Total(xs) > 0.0
    ensures 0.0 <= PercentShares(xs, Total(xs))[i] <= 100.0
  {
    ValueAtMostTotal(xs, i);
    ShareOfPart(xs[i], Total(xs));
  }

  /** A part of a positive whole is between none and all of it. */
  lemma ShareOfPart(a: real, t: real)
    requires 0.0 <= a <= t && t > 0.0
    ensures 0.0 <= a / t * 100.0 <= 100.0
  {
    var q := a / t;
    assert q * t == a;
  }

  /** `xs.reduce((acc, x) => acc + x, 0)` over counts. */
  function TotalInt(xs: seq<int>): int {
    if |xs| == 0 then 0 else TotalInt(xs[..|xs| - 1]) + xs[|xs| - 1]
  }

  /**
   * The running totals of a table: row `i` shows `rows.slice(0, i + 1)`
   * summed, computed in one pass.
   */
  method RunningTotals(rows: seq<int>) returns (acc: seq<int>)
    ensures |acc| == |rows|
    ensures forall i :: 0 <= i < |rows| ==> acc[i] == TotalInt(rows[..i + 1])
  {
    acc := [];
    var sum := 0;
    var i := 0;
    while i < |rows|
      invariant 0 <= i <= |rows|
      invariant |acc| == i
      invariant sum == TotalInt(rows[..i])
      invariant forall k :: 0 <= k < i ==> acc[k] == TotalInt(rows[..k + 1])
    {
      assert rows[..i + 1][..i] == rows[..i];
      sum := sum + rows[i];
      acc := acc + [sum];
      i := i + 1;
    }
  }

  /** With non-negative rows the running total never decreases. */
  lemma {:induction false} RunningTotalMonotone(rows: seq<int>, i: nat, j: nat)
    requires i <= j < |rows| && forall k :: 0 <= k < |rows| ==> rows[k] >= 0
    ensures TotalInt(rows[..i + 1]) <= TotalInt(rows[..j + 1])
    decreases j - i
  {
    if i < j {
      RunningTotalMonotone(rows, i, j - 1);
      assert rows[..j + 1][..j] == rows[..j];
    }
  }
}

/**
 * Arithmetic the aggregations share: guarded percentages, sums and means over the values
 * pandas keeps after dropping missing ones, minima and maxima, and clamping.
 * Values are exact reals; float rounding is not modelled.
 */
module Numeric {
  import opened Wrappers

  /** `part / whole * 100`, or 0 when `whole` is 0 (`calculate_win_percentage` and its copies). */
  function Percent(part: real, whole: real): (r: real)
    ensures whole == 0.0 ==> r == 0.0
    ensures 0.0 <= part <= whole ==> 0.0 <= r <= 100.0
  {
    if whole == 0.0 then 0.0 else part / whole * 100.0
  }

  /** The whole of a non-zero amount is 100 percent of it, and a larger part is a larger share. */
  lemma PercentMonotone(a: real, b: real, whole: real)
    requires whole > 0.0 && a <= b
    ensures Percent(a, whole) <= Percent(b, whole)
    ensures Percent(whole, whole) == 100.0
  {
    assert a / whole <= b / whole;
  }

  function Sum(xs: seq<real>): real
  {
    if |xs| == 0 then 0.0 else Sum(xs[..|xs| - 1]) + xs[|xs| - 1]
  }

  /** Every value in `[lo, hi]` puts the sum in `[n lo, n hi]`. */
  lemma {:induction false} SumBounds(xs: seq<real>, lo: real, hi: real)
    requires forall k :: 0 <= k < |xs| ==> lo <= xs[k] <= hi
    ensures |xs| as real * lo <= Sum(xs) <= |xs| as real * hi
  {
    if |xs| > 0 {
      SumBounds(xs[..|xs| - 1], lo, hi);
    }
  }

  /** `series.mean()` of a non-empty list: it lies between the smallest and the largest value. */
  function Mean(xs: seq<real>): (r: real)
    requires |xs| > 0
    ensures forall k :: 0 <= k < |xs| ==> MinOf(xs) <= xs[k] <= MaxOf(xs)
    ensures MinOf(xs) <= r <= MaxOf(xs)
  {
    SumBounds(xs, MinOf(xs), MaxOf(xs));
    DivideBounds(Sum(xs), |xs| as real, MinOf(xs), MaxOf(xs));
    Sum(xs) / |xs| as real
  }

  lemma DivideBounds(total: real, n: real, lo: real, hi: real)
    requires n > 0.0 && n * lo <= total <= n * hi
    ensures lo <= total / n <= hi
  {
    var q := total / n;
    assert total == n * q;
    assert q < lo ==> n * q < n * lo;
    assert q > hi ==> n * q > n * hi;
  }

  /** The smallest value of a non-empty list: below every value and equal to one. */
  function MinOf(xs: seq<real>): (r: real)
    requires |xs| > 0
    ensures forall k :: 0 <= k < |xs| ==> r <= xs[k]
    ensures exists k :: 0 <= k < |xs| && r == xs[k]
  {
    if |xs| == 1 then xs[0]
    else
      var m := MinOf(xs[..|xs| - 1]);
      if xs[|xs| - 1] < m then xs[|xs| - 1] else m
  }

  /** The largest value of a non-empty list: above every value and equal to one. */
  function MaxOf(xs: seq<real>): (r: real)
    requires |xs| > 0
    ensures forall k :: 0 <= k < |xs| ==> xs[k] <= r
    ensures exists k :: 0 <= k < |xs| && r == xs[k]
  {
    if |xs| == 1 then xs[0]
    else
      var m := MaxOf(xs[..|xs| - 1]);
      if xs[|xs| - 1] > m then xs[|xs| - 1] else m
  }

  /** The values that are present, in order: pandas' `dropna()`. */
  function Present(xs: seq<Option<real>>): (r: seq<real>)
    ensures |r| <= |xs|
    ensures forall v :: v in r <==> Some(v) in xs
  {
    if |xs| == 0 then []
    else
      var init := Present(xs[..|xs| - 1]);
      assert forall o :: o in xs <==> o in xs[..|xs| - 1] || o == xs[|xs| - 1];
      match xs[|xs| - 1]
      case None => init
      case Some(v) => init + [v]
  }

  /** `series.mean()`, which skips missing values and is missing when none is present. */
  function MeanPresent(xs: seq<Option<real>>): (r: Option<real>)
    ensures r.None? <==> (forall k :: 0 <= k < |xs| ==> xs[k].None?)
  {
    var p := Present(xs);
    if |p| == 0 then
      assert forall k :: 0 <= k < |xs| ==> xs[k] !in xs || xs[k].None?;
      None
    else
      assert p[0] in p;
      Some(Mean(p))
  }

  /** Division by a positive amount: the amount itself gives 1, and order is kept. */
  lemma DivideSelf(d: real)
    requires d > 0.0
    ensures d / d == 1.0 && 0.0 / d == 0.0
  {
  }

  lemma DivideMonotone(a: real, b: real, d: real)
    requires a <= b && d > 0.0
    ensures a / d <= b / d
  {
  }

  /** A part of a positive whole is a fraction in [0, 1], below 1 when the part is smaller. */
  lemma Unit(a: real, b: real)
    requires 0.0 <= a <= b && b > 0.0
    ensures 0.0 <= a / b <= 1.0
    ensures a < b ==> a / b < 1.0
  {
    DivideSelf(b);
    DivideMonotone(a, b, b);
    assert a < b ==> a / b < b / b;
  }

  /** `max(lo, min(hi, x))`. */
  function Clamp(x: real, lo: real, hi: real): (r: real)
    requires lo <= hi
    ensures lo <= r <= hi
    ensures lo <= x <= hi ==> r == x
  {
    if x < lo then lo else if x > hi then hi else x
  }

  function AsReals(xs: seq<nat>): (r: seq<real>)
    ensures |r| == |xs| && forall k :: 0 <= k < |xs| ==> r[k] == xs[k] as real
  {
    seq(|xs|, k requires 0 <= k < |xs| => xs[k] as real)
  }

  /** `np.mean(xs) if xs else np.nan` over counts: missing for an empty list. */
  function MeanOfNats(xs: seq<nat>): (r: Option<real>)
    ensures r.None? <==> |xs| == 0
    ensures r.Some? ==> MinOf(AsReals(xs)) <= r.value <= MaxOf(AsReals(xs)) && 0.0 <= r.value
  {
    if |xs| == 0 then None else Some(Mean(AsReals(xs)))
  }
}

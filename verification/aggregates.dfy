/**
 * The statistics the insight texts report, over exact reals. pandas returns
 * NaN for the mean and the maximum of an empty column; here that is None.
 * Rounding to two places and formatting are not modelled.
 */
module Aggregates {
  import opened Wrappers
  import opened Records

  function Sum(xs: seq<real>): real
  {
    if xs == [] then 0.0 else xs[0] + Sum(xs[1..])
  }

  /** `Series.mean()`: None (NaN) on an empty column; otherwise the value whose count-fold is the sum. */
  function Mean(xs: seq<real>): (m: Option<real>)
    ensures m.Some? <==> xs != []
    ensures m.Some? ==> m.value * (|xs| as real) == Sum(xs)
  {
    if xs == [] then None else Some(Sum(xs) / (|xs| as real))
  }

  /** `Series.max()`: None (NaN) on an empty column; otherwise a value of the column no value exceeds. */
  function Max(xs: seq<real>): (m: Option<real>)
    ensures m.Some? <==> xs != []
    ensures m.Some? ==> m.value in xs && forall x :: x in xs ==> x <= m.value
  {
    if xs == [] then None
    else
      assert xs == [xs[0]] + xs[1..];
      match Max(xs[1..])
      case None => Some(xs[0])
      case Some(rest) => Some(if xs[0] < rest then rest else xs[0])
  }

  /** The least value of a non-empty column; the dashboard never shows it, the bounds on the mean use it. */
  ghost function Min(xs: seq<real>): (m: real)
    requires xs != []
    ensures m in xs && forall x :: x in xs ==> m <= x
  {
    assert xs == [xs[0]] + xs[1..];
    if |xs| == 1 then xs[0]
    else var rest := Min(xs[1..]); if rest < xs[0] then rest else xs[0]
  }

  /** A sum of values that all lie in [lo, hi] lies in [n * lo, n * hi]. */
  lemma {:induction false} SumBetween(xs: seq<real>, lo: real, hi: real)
    requires forall i :: 0 <= i < |xs| ==> lo <= xs[i] <= hi
    ensures (|xs| as real) * lo <= Sum(xs) <= (|xs| as real) * hi
  {
    if xs != [] {
      var rest := xs[1..];
      assert forall i :: 0 <= i < |rest| ==> rest[i] == xs[i + 1];
      SumBetween(rest, lo, hi);
      OneMore(|rest| as real, lo);
      OneMore(|rest| as real, hi);
    }
  }

  /** One more value adds one more bound. */
  lemma OneMore(k: real, b: real)
    ensures (k + 1.0) * b == k * b + b
  {
  }

  /** The mean of a non-empty column lies between its least and its greatest value. */
  lemma MeanBetweenExtremes(xs: seq<real>)
    requires xs != []
    ensures Min(xs) <= Mean(xs).value <= Max(xs).value
  {
    var lo, hi := Min(xs), Max(xs).value;
    forall i | 0 <= i < |xs|
      ensures lo <= xs[i] <= hi
    {
      assert xs[i] in xs;
    }
    SumBetween(xs, lo, hi);
    DivideBounds(Sum(xs), |xs| as real, lo, hi);
  }

  /** Dividing n * lo <= s <= n * hi by a positive n. */
  lemma DivideBounds(s: real, n: real, lo: real, hi: real)
    requires n > 0.0 && n * lo <= s <= n * hi
    ensures lo <= s / n <= hi
  {
  }

  /** Rows whose Churn is not NaN: the rows `value_counts` counts. */
  function CountPresent(t: seq<Customer>): nat
  {
    if t == [] then 0 else (if t[0].churn.Some? then 1 else 0) + CountPresent(t[1..])
  }

  /** Rows whose Churn is "Yes"; never more than the rows with a Churn value. */
  function CountYes(t: seq<Customer>): (n: nat)
    ensures n <= CountPresent(t)
  {
    if t == [] then 0 else (if t[0].churn == Some("Yes") then 1 else 0) + CountYes(t[1..])
  }

  /**
   * Line 162 before rounding: `value_counts(normalize=True).get('Yes', 0) * 100`,
   * the percentage of "Yes" among the rows with a Churn value, 0 when no row
   * says "Yes" (in particular for an empty subset).
   */
  function ChurnRate(t: seq<Customer>): (r: real)
    ensures 0.0 <= r <= 100.0
    ensures CountYes(t) == 0 ==> r == 0.0
    ensures CountPresent(t) > 0 ==> r * (CountPresent(t) as real) == 100.0 * (CountYes(t) as real)
  {
    if CountYes(t) == 0 then 0.0
    else
      var y, p := CountYes(t) as real, CountPresent(t) as real;
      Percentage(y, p);
      100.0 * (y / p)
  }

  /** `y` out of `p` as a percentage lies between 0 and 100 and scales back to `y`. */
  lemma Percentage(y: real, p: real)
    requires 0.0 < y <= p
    ensures 0.0 <= 100.0 * (y / p) <= 100.0
    ensures 100.0 * (y / p) * p == 100.0 * y
  {
  }

  lemma WholeRatio(y: real, p: real)
    requires p > 0.0
    ensures 100.0 * (y / p) == 100.0 <==> y == p
  {
  }

  /** The rate is 100 exactly when there are Churn values and all of them are "Yes". */
  lemma ChurnRateFull(t: seq<Customer>)
    ensures ChurnRate(t) == 100.0 <==> CountPresent(t) > 0 && CountYes(t) == CountPresent(t)
  {
    var p, y := CountPresent(t) as real, CountYes(t) as real;
    if y > 0.0 {
      assert ChurnRate(t) == 100.0 * (y / p);
      WholeRatio(y, p);
    }
  }
}

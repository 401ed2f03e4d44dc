/**
 * Arithmetic over series of reals: sums, means, products and the
 * rolling mean of a fixed window, which is NaN until the window fills.
 */
module Series {
  import opened Values

  /** A rolling-window length; every window in the pipeline is positive. */
  type Period = p: nat | p > 0 witness 1

  function Sum(xs: seq<real>): real
  {
    if xs == [] then 0.0 else Sum(xs[..|xs| - 1]) + xs[|xs| - 1]
  }

  function Product(xs: seq<real>): real
  {
    if xs == [] then 1.0 else Product(xs[..|xs| - 1]) * xs[|xs| - 1]
  }

  function Mean(xs: seq<real>): real
    requires |xs| > 0
  {
    Sum(xs) / |xs| as real
  }

  /** The population variance (numpy's default, ddof = 0). */
  function Variance(xs: seq<real>): real
    requires |xs| > 0
  {
    var m := Mean(xs);
    Mean(seq(|xs|, i requires 0 <= i < |xs| => (xs[i] - m) * (xs[i] - m)))
  }

  lemma {:induction false} SumBounds(xs: seq<real>, lo: real, hi: real)
    requires forall i :: 0 <= i < |xs| ==> lo <= xs[i] <= hi
    ensures |xs| as real * lo <= Sum(xs) <= |xs| as real * hi
  {
    if xs != [] {
      SumBounds(xs[..|xs| - 1], lo, hi);
    }
  }

  lemma {:induction false} SumNonNegative(xs: seq<real>)
    requires forall i :: 0 <= i < |xs| ==> xs[i] >= 0.0
    ensures Sum(xs) >= 0.0
  {
    if xs != [] {
      SumNonNegative(xs[..|xs| - 1]);
    }
  }

  lemma {:induction false} MeanPositive(xs: seq<real>)
    requires |xs| > 0
    requires forall i :: 0 <= i < |xs| ==> xs[i] > 0.0
    ensures Mean(xs) > 0.0
  {
    SumNonNegative(xs[..|xs| - 1]);
    assert Sum(xs) > 0.0;
  }

  lemma SumAppend(xs: seq<real>, x: real)
    ensures Sum(xs + [x]) == Sum(xs) + x
  {
    assert (xs + [x])[..|xs|] == xs;
  }

  lemma {:induction false} ProductPositive(xs: seq<real>)
    requires forall i :: 0 <= i < |xs| ==> xs[i] > 0.0
    ensures Product(xs) > 0.0
  {
    if xs != [] {
      ProductPositive(xs[..|xs| - 1]);
      assert Product(xs) == Product(xs[..|xs| - 1]) * xs[|xs| - 1];
    }
  }

  /**
   * The mean of the `w` values ending at index `i` (pandas
   * `rolling(window=w).mean()` at row i): NaN while fewer than `w` values
   * are available.
   */
  function RollingMeanAt(xs: seq<real>, w: Period, i: nat): (r: Num)
    requires i < |xs|
    ensures r.NaN? <==> i + 1 < w
  {
    if i + 1 < w then NaN else Real(Mean(xs[i + 1 - w..i + 1]))
  }

  /** The whole rolling-mean column of a series. */
  function Rolling(xs: seq<real>, w: Period): (r: seq<Num>)
    ensures |r| == |xs|
    ensures forall i :: 0 <= i < |xs| ==> r[i] == RollingMeanAt(xs, w, i)
    ensures forall i :: 0 <= i < |xs| ==> (r[i].NaN? <==> i + 1 < w)
  {
    seq(|xs|, i requires 0 <= i < |xs| => RollingMeanAt(xs, w, i))
  }

  /** The mean of the last `w` values of a series that holds at least `w`. */
  function MeanOfLast(xs: seq<real>, w: Period): real
    requires |xs| >= w
  {
    Mean(xs[|xs| - w..])
  }
}

/**
 * Walk-forward optimization of the crossover strategy: the training and
 * test windows cut from the end of the series, the grid search for the
 * parameters with the best Sharpe value on the training window, the
 * out-of-sample statistics of those parameters on the test window, and the
 * bucketed BUY / SELL / HOLD recommendation with its confidence.
 */
module WalkForward {
  import opened Values
  import opened Series
  import opened Backtest

  /** The configured window lengths when none are given. */
  const DefaultTrainDays: nat := 30
  const DefaultTestDays: nat := 5

  // ---------------------------------------------------------------------
  // Windows
  // ---------------------------------------------------------------------

  /** A Python slice bound: negative counts from the end, both clamp to the length. */
  function SliceBound(n: nat, i: int): (b: nat)
    ensures b <= n
  {
    if i < 0 then (if n + i < 0 then 0 else n + i) else if i > n then n else i
  }

  /** Python's `xs[start:stop]`, with negative bounds counted from the end. */
  function PySlice<T>(xs: seq<T>, start: int, stop: int): seq<T>
  {
    var lo := SliceBound(|xs|, start);
    var hi := SliceBound(|xs|, stop);
    if lo < hi then xs[lo..hi] else []
  }

  /** `df.iloc[-(train + test):-test]`. */
  function TrainWindow(closes: seq<Price>, train: nat, test: nat): seq<Price>
  {
    PySlice(closes, -((train + test) as int), -(test as int))
  }

  /** `df.iloc[-test:]`. */
  function TestWindow(closes: seq<Price>, train: nat, test: nat): seq<Price>
  {
    PySlice(closes, -(test as int), |closes|)
  }

  /**
   * With a positive test length the training window is the `train` bars
   * just before the last `test` bars, and the two windows together are the
   * last `train + test` bars. With a zero test length `-0` is `0`: the
   * training window is empty and the test window is the whole series.
   */
  lemma WindowSplit(closes: seq<Price>, train: nat, test: nat)
    requires |closes| >= train + test
    ensures test > 0 ==>
      && TrainWindow(closes, train, test) == closes[|closes| - (train + test)..|closes| - test]
      && TestWindow(closes, train, test) == closes[|closes| - test..]
      && TrainWindow(closes, train, test) + TestWindow(closes, train, test) == closes[|closes| - (train + test)..]
    ensures test == 0 ==> TrainWindow(closes, train, test) == [] && TestWindow(closes, train, test) == closes
    ensures |TrainWindow(closes, train, test)| == (if test > 0 then train else 0)
    ensures |TestWindow(closes, train, test)| == (if test > 0 then test else |closes|)
  {
    var n := |closes|;
    if test > 0 {
      assert closes[n - (train + test)..n - test] + closes[n - test..] == closes[n - (train + test)..];
    }
  }

  // ---------------------------------------------------------------------
  // Grid search
  // ---------------------------------------------------------------------

  const FastPeriods: seq<Period> := [5, 10, 15, 20]
  const SlowPeriods: seq<Period> := [20, 30, 50]
  const RsiPeriods: seq<Period> := [7, 14, 21]

  /** The number of grid points visited by the three nested loops. */
  const GridSize: nat := 36

  /** The `k`-th grid point in loop order: fast outermost, RSI innermost; bands 30/70. */
  function Candidate(k: nat): (p: Params)
    requires k < GridSize
    ensures p.slowMa >= 20
    ensures p.rsiOversold == 30.0 && p.rsiOverbought == 70.0
  {
    Params(FastPeriods[k / 9], SlowPeriods[k / 3 % 3], RsiPeriods[k % 3], 30.0, 70.0)
  }

  /** Grid point `k` is the one the loops reach with indices `a`, `b`, `c`. */
  lemma CandidateAt(a: nat, b: nat, c: nat, k: nat)
    requires a < |FastPeriods| && b < |SlowPeriods| && c < |RsiPeriods|
    requires k == a * 9 + b * 3 + c
    ensures k < GridSize
    ensures Candidate(k) == Params(FastPeriods[a], SlowPeriods[b], RsiPeriods[c], 30.0, 70.0)
    ensures Skipped(k) <==> FastPeriods[a] >= SlowPeriods[b]
  {
    assert k / 9 == a;
    assert k / 3 == a * 3 + b;
    assert k / 3 % 3 == b;
    assert k % 3 == c;
  }

  /** The loop skips a grid point whose fast window is not shorter than its slow one. */
  predicate Skipped(k: nat)
    requires k < GridSize
  {
    Candidate(k).fastMa >= Candidate(k).slowMa
  }

  /** Only the three points with fast 20 and slow 20 are skipped. */
  lemma SkippedExactly(k: nat)
    requires k < GridSize
    ensures Skipped(k) <==> 27 <= k <= 29
  {
  }

  /** How many of the first `k` grid points are backtested. */
  function Evaluated(k: nat): (c: nat)
    requires k <= GridSize
    ensures c <= k
  {
    if k == 0 then 0 else Evaluated(k - 1) + (if Skipped(k - 1) then 0 else 1)
  }

  lemma {:induction false} EvaluatedCount(k: nat)
    requires k <= GridSize
    ensures Evaluated(k) == if k <= 27 then k else if k <= 30 then 27 else k - 3
  {
    if k > 0 {
      EvaluatedCount(k - 1);
      SkippedExactly(k - 1);
    }
  }

  /** The grid search backtests exactly 33 parameter sets. */
  lemma ThirtyThreeCandidates()
    ensures Evaluated(GridSize) == 33
  {
    EvaluatedCount(GridSize);
  }

  /** The Sharpe value of grid point `k` on the training window; None where the loop skips it. */
  function ScoreOf(train: seq<Price>, ratio: seq<real> -> real, k: nat): Option<real>
    requires k < GridSize
  {
    if Skipped(k) then None else Some(BacktestOf(train, Candidate(k), ratio).sharpe)
  }

  /** The scores of the whole grid, in loop order. */
  function Scores(train: seq<Price>, ratio: seq<real> -> real): (s: seq<Option<real>>)
    ensures |s| == GridSize
  {
    seq(GridSize, k requires 0 <= k < GridSize => ScoreOf(train, ratio, k))
  }

  lemma ScoreAt(train: seq<Price>, ratio: seq<real> -> real, k: nat)
    requires k < GridSize
    ensures Scores(train, ratio)[k] == ScoreOf(train, ratio, k)
  {
  }

  /** The best Sharpe value so far and the grid point that reached it. */
  datatype Best = Best(sharpe: real, choice: Option<nat>)

  /** The search state after the first `k` scores: it starts at -999 with nothing chosen. */
  function SearchUpTo(s: seq<Option<real>>, k: nat): Best
    requires k <= |s|
  {
    if k == 0 then Best(-999.0, None)
    else
      var b := SearchUpTo(s, k - 1);
      if s[k - 1].Some? && s[k - 1].value > b.sharpe then Best(s[k - 1].value, Some(k - 1))
      else b
  }

  /** Every evaluated score among the first `k` is at most `m`. */
  predicate AllAtMost(s: seq<Option<real>>, k: nat, m: real)
    requires k <= |s|
  {
    forall j :: 0 <= j < k && s[j].Some? ==> s[j].value <= m
  }

  /**
   * The search keeps the first score that is strictly greatest among those
   * above -999; nothing is chosen exactly when no evaluated score exceeds
   * -999.
   */
  lemma {:induction false} SearchArgmax(s: seq<Option<real>>, k: nat)
    requires k <= |s|
    ensures var b := SearchUpTo(s, k);
      && (b.choice.None? <==> AllAtMost(s, k, -999.0))
      && (b.choice.None? ==> b.sharpe == -999.0)
      && (b.choice.Some? ==>
            var c := b.choice.value;
            && c < k && s[c] == Some(b.sharpe) && b.sharpe > -999.0
            && AllAtMost(s, k, b.sharpe)
            && (forall j :: 0 <= j < c && s[j].Some? ==> s[j].value < b.sharpe))
  {
    if k > 0 {
      SearchArgmax(s, k - 1);
    }
  }

  /** The parameters the search settles on, or the defaults when nothing was chosen. */
  function OptimalParams(train: seq<Price>, ratio: seq<real> -> real): Params
  {
    var s := Scores(train, ratio);
    var b := SearchUpTo(s, |s|);
    if b.choice.Some? && b.choice.value < GridSize then Candidate(b.choice.value) else DefaultParams
  }

  /**
   * The chosen parameters are a grid point the loop does not skip: their
   * fast window is shorter than the slow one, the slow window is at least
   * 20 bars, and the RSI bands are 30/70.
   */
  lemma OptimalParamsShape(train: seq<Price>, ratio: seq<real> -> real)
    ensures var p := OptimalParams(train, ratio);
      p.fastMa < p.slowMa && p.slowMa >= 20 && p.rsiOversold == 30.0 && p.rsiOverbought == 70.0
  {
    var s := Scores(train, ratio);
    SearchArgmax(s, |s|);
    var b := SearchUpTo(s, |s|);
    if b.choice.Some? {
      assert s[b.choice.value].Some?;
    }
  }

  /** With an empty training window every backtest scores 0, so the first grid point wins. */
  lemma EmptyTrainingPicksFirst(ratio: seq<real> -> real)
    ensures OptimalParams([], ratio) == Params(5, 20, 7, 30.0, 70.0)
  {
    var s := Scores([], ratio);
    SearchArgmax(s, |s|);
    assert s[0] == Some(0.0);
  }

  /** The loops' record of the chosen parameters for a chosen grid point. */
  function ChosenParams(choice: Option<nat>): Option<Params>
  {
    if choice.Some? && choice.value < GridSize then Some(Candidate(choice.value)) else None
  }

  /**
   * One visit of the innermost loop body to a grid point it does not skip:
   * backtest it on the training window and keep it when its Sharpe value is
   * strictly greater than the best so far.
   */
  method TryCandidate(train: seq<Price>, ratio: seq<real> -> real, ghost k: nat, params: Params,
                      bestSharpe: real, bestParams: Option<Params>, ghost choice: Option<nat>)
    returns (newSharpe: real, newParams: Option<Params>, ghost newChoice: Option<nat>)
    requires k < GridSize && Candidate(k) == params && !Skipped(k)
    requires Best(bestSharpe, choice) == SearchUpTo(Scores(train, ratio), k)
    requires bestParams == ChosenParams(choice)
    ensures Best(newSharpe, newChoice) == SearchUpTo(Scores(train, ratio), k + 1)
    ensures newParams == ChosenParams(newChoice)
  {
    var results := BacktestStrategy(train, params, ratio);
    ScoreAt(train, ratio, k);
    if results.sharpe > bestSharpe {
      newSharpe, newParams, newChoice := results.sharpe, Some(params), Some(k);
    } else {
      newSharpe, newParams, newChoice := bestSharpe, bestParams, choice;
    }
  }

  /**
   * The innermost loop over the RSI periods for one fast/slow pair
   * (grid indices `a`, `b`), skipping the pair when fast >= slow.
   */
  method SearchRsiPeriods(train: seq<Price>, ratio: seq<real> -> real, a: nat, b: nat, ghost k: nat,
                          bestSharpe: real, bestParams: Option<Params>, ghost choice: Option<nat>)
    returns (newSharpe: real, newParams: Option<Params>, ghost newChoice: Option<nat>)
    requires a < |FastPeriods| && b < |SlowPeriods| && k == a * 9 + b * 3
    requires Best(bestSharpe, choice) == SearchUpTo(Scores(train, ratio), k)
    requires bestParams == ChosenParams(choice)
    ensures Best(newSharpe, newChoice) == SearchUpTo(Scores(train, ratio), k + 3)
    ensures newParams == ChosenParams(newChoice)
  {
    newSharpe, newParams, newChoice := bestSharpe, bestParams, choice;
    for c := 0 to |RsiPeriods|
      invariant Best(newSharpe, newChoice) == SearchUpTo(Scores(train, ratio), k + c)
      invariant newParams == ChosenParams(newChoice)
    {
      CandidateAt(a, b, c, k + c);
      var fast := FastPeriods[a];
      var slow := SlowPeriods[b];
      var rsiPeriod := RsiPeriods[c];
      if fast >= slow {
        ScoreAt(train, ratio, k + c);
        continue;
      }
      newSharpe, newParams, newChoice :=
        TryCandidate(train, ratio, k + c, Params(fast, slow, rsiPeriod, 30.0, 70.0), newSharpe, newParams, newChoice);
    }
  }

  /**
   * The nested grid loops: every fast/slow/RSI combination in order,
   * skipping fast >= slow, backtesting the rest on the training window and
   * keeping the parameters whenever the Sharpe value is strictly greater;
   * the defaults when no Sharpe value exceeds -999.
   */
  method OptimizeParameters(train: seq<Price>, ratio: seq<real> -> real) returns (best: Params)
    ensures best == OptimalParams(train, ratio)
  {
    var bestSharpe := -999.0;
    var bestParams: Option<Params> := None;
    ghost var choice: Option<nat> := None;
    ghost var k: nat := 0;
    for a := 0 to |FastPeriods|
      invariant k == a * 9
      invariant Best(bestSharpe, choice) == SearchUpTo(Scores(train, ratio), k)
      invariant bestParams == ChosenParams(choice)
    {
      for b := 0 to |SlowPeriods|
        invariant k == a * 9 + b * 3
        invariant Best(bestSharpe, choice) == SearchUpTo(Scores(train, ratio), k)
        invariant bestParams == ChosenParams(choice)
      {
        bestSharpe, bestParams, choice := SearchRsiPeriods(train, ratio, a, b, k, bestSharpe, bestParams, choice);
        k := k + 3;
      }
    }
    best := if bestParams.Some? then bestParams.value else DefaultParams;
  }

  // ---------------------------------------------------------------------
  // Out-of-sample statistics
  // ---------------------------------------------------------------------

  function CountPositive(rs: seq<real>): (c: nat)
    ensures c <= |rs|
  {
    if rs == [] then 0 else CountPositive(rs[..|rs| - 1]) + (if rs[|rs| - 1] > 0.0 then 1 else 0)
  }

  /** The fraction of trades with a positive return. */
  function WinRate(rs: seq<real>): (w: real)
    requires |rs| > 0
    ensures 0.0 <= w <= 1.0
  {
    CountPositive(rs) as real / |rs| as real
  }

  /** Compounded growth after each trade (`cumprod(1 + r)`). */
  function Cumulative(rs: seq<real>): (cs: seq<real>)
    ensures |cs| == |rs|
  {
    seq(|rs|, i requires 0 <= i < |rs| => Product(OnePlus(rs[..i + 1])))
  }

  /** `cumprod` starts with the first growth factor. */
  lemma {:induction false} CumulativeFirst(rs: seq<real>)
    requires |rs| > 0
    ensures Cumulative(rs)[0] == 1.0 + rs[0]
  {
    PrefixProduct(rs, 0);
    assert OnePlus(rs[..0]) == [];
  }

  /** `cumprod`: each later entry is the previous one times its own growth factor. */
  lemma {:induction false} CumulativeStep(rs: seq<real>, i: nat)
    requires 0 < i < |rs|
    ensures Cumulative(rs)[i] == Cumulative(rs)[i - 1] * (1.0 + rs[i])
  {
    var cs := Cumulative(rs);
    var now, before := OnePlus(rs[..i + 1]), OnePlus(rs[..i]);
    assert cs[i] == Product(now);
    assert cs[i - 1] == Product(before);
    PrefixProduct(rs, i);
    assert Product(now) == Product(before) * (1.0 + rs[i]);
  }

  /** The prefix product through `i` extends the one before `i` by the growth factor of `i`. */
  lemma {:induction false} PrefixProduct(rs: seq<real>, i: nat)
    requires i < |rs|
    ensures Product(OnePlus(rs[..i + 1])) == Product(OnePlus(rs[..i])) * (1.0 + rs[i])
  {
    var g := OnePlus(rs[..i + 1]);
    assert g[..|g| - 1] == OnePlus(rs[..i]);
  }

  /** The running peak of a series (`maximum.accumulate`) at index `i`. */
  function PeakAt(cs: seq<real>, i: nat): (m: real)
    requires i < |cs|
    ensures m >= cs[i]
    ensures forall j :: 0 <= j <= i ==> cs[j] <= m
    ensures exists j :: 0 <= j <= i && cs[j] == m
  {
    if i == 0 then cs[0] else Max(PeakAt(cs, i - 1), cs[i])
  }

  /** The drawdown from the running peak at each trade. */
  function Drawdowns(cs: seq<real>): (ds: seq<real>)
    requires forall i :: 0 <= i < |cs| ==> cs[i] > 0.0
    ensures |ds| == |cs|
    ensures forall i :: 0 <= i < |cs| ==> ds[i] == (cs[i] - PeakAt(cs, i)) / PeakAt(cs, i)
    ensures forall i :: 0 <= i < |cs| ==> -1.0 < ds[i] <= 0.0
  {
    var ds := seq(|cs|, i requires 0 <= i < |cs| => (cs[i] - PeakAt(cs, i)) / PeakAt(cs, i));
    forall i | 0 <= i < |cs| ensures -1.0 < ds[i] <= 0.0 {
      DrawdownBounds(cs[i], PeakAt(cs, i));
    }
    ds
  }

  function MinOf(xs: seq<real>): (m: real)
    requires |xs| > 0
    ensures m in xs
    ensures forall i :: 0 <= i < |xs| ==> m <= xs[i]
  {
    if |xs| == 1 then xs[0] else Min(MinOf(xs[..|xs| - 1]), xs[|xs| - 1])
  }

  lemma CumulativePositive(rs: seq<real>)
    requires forall i :: 0 <= i < |rs| ==> rs[i] > -1.0
    ensures forall i :: 0 <= i < |rs| ==> Cumulative(rs)[i] > 0.0
  {
    forall i | 0 <= i < |rs| ensures Cumulative(rs)[i] > 0.0 {
      ProductPositive(OnePlus(rs[..i + 1]));
    }
  }

  /**
   * The largest fall from a running peak, as a positive fraction. Every
   * trade loses less than everything, so it lies in [0, 1), and it is 0
   * exactly when the compounded growth never falls below its running peak.
   */
  function MaxDrawdown(rs: seq<real>): (d: real)
    requires |rs| > 0
    requires forall i :: 0 <= i < |rs| ==> rs[i] > -1.0
    ensures 0.0 <= d < 1.0
    ensures d == 0.0 <==> forall i :: 0 <= i < |rs| ==> Cumulative(rs)[i] >= PeakAt(Cumulative(rs), i)
  {
    CumulativePositive(rs);
    var cs := Cumulative(rs);
    var ds := Drawdowns(cs);
    forall i | 0 <= i < |cs| ensures ds[i] == 0.0 <==> cs[i] >= PeakAt(cs, i) {
      DrawdownZero(cs[i], PeakAt(cs, i));
    }
    MinZero(ds);
    Abs(MinOf(ds))
  }

  /** Over non-positive values the minimum is 0 iff every value is. */
  lemma MinZero(xs: seq<real>)
    requires |xs| > 0
    requires forall i :: 0 <= i < |xs| ==> xs[i] <= 0.0
    ensures MinOf(xs) == 0.0 <==> forall i :: 0 <= i < |xs| ==> xs[i] == 0.0
  {
  }

  lemma DrawdownZero(c: real, m: real)
    requires 0.0 < c <= m
    ensures (c - m) / m == 0.0 <==> c >= m
  {
    if (c - m) / m == 0.0 {
      assert c - m == ((c - m) / m) * m;
    }
  }

  lemma DrawdownBounds(c: real, m: real)
    requires 0.0 < c <= m
    ensures -1.0 < (c - m) / m <= 0.0
  {
    assert (c - m) / m == c / m - m / m;
    assert m / m == 1.0;
    assert c / m > 0.0;
    assert c / m <= m / m;
  }

  /** Trade returns are above -1: exits are at positive prices. */
  lemma ReturnsAboveMinusOne(trades: seq<Trade>)
    requires forall j :: 0 <= j < |trades| ==> trades[j].ret == TradeReturn(trades[j].entryPrice, trades[j].exitPrice)
    ensures forall i :: 0 <= i < |trades| ==> Returns(trades)[i] > -1.0
  {
  }

  lemma BacktestReturns(closes: seq<Price>, p: Params, ratio: seq<real> -> real)
    ensures forall i :: 0 <= i < |BacktestOf(closes, p, ratio).trades| ==>
      Returns(BacktestOf(closes, p, ratio).trades)[i] > -1.0
    ensures BacktestOf(closes, p, ratio).totalReturn > -1.0
  {
    var trades := BacktestOf(closes, p, ratio).trades;
    if |closes| >= p.slowMa && |closes| >= p.rsiPeriod {
      var signals := Signals(closes, p);
      SimulateConsistent(closes, signals, |closes|);
      forall j | 0 <= j < |trades|
        ensures trades[j].ret == TradeReturn(trades[j].entryPrice, trades[j].exitPrice)
      {
        assert TradeOf(closes, signals, |closes|, trades[j]);
      }
    }
    ReturnsAboveMinusOne(trades);
  }

  datatype Analysis = Analysis(
    expectedReturn: real, sharpe: real, winRate: real, maxDrawdown: real,
    avgReturn: real, optimalParams: Params, numTrades: nat)

  /**
   * Optimizes on the training window, backtests the chosen parameters on
   * the test window, and summarises the test trades; every statistic is 0
   * without a closed trade.
   */
  function WalkForwardAnalysis(closes: seq<Price>, train: nat, test: nat, ratio: seq<real> -> real): (a: Analysis)
    ensures a.optimalParams == OptimalParams(TrainWindow(closes, train, test), ratio)
    ensures a.numTrades == |BacktestOf(TestWindow(closes, train, test), a.optimalParams, ratio).trades|
    ensures a.numTrades == 0 ==>
      a.expectedReturn == 0.0 && a.sharpe == 0.0 && a.winRate == 0.0 && a.maxDrawdown == 0.0 && a.avgReturn == 0.0
    ensures var rs := Returns(BacktestOf(TestWindow(closes, train, test), a.optimalParams, ratio).trades);
      a.numTrades > 0 ==>
        && a.winRate == CountPositive(rs) as real / a.numTrades as real
        && a.expectedReturn == Mean(rs) && a.avgReturn == Mean(rs)
        && a.sharpe == SharpeOf(rs, ratio)
        && (forall i :: 0 <= i < |rs| ==> rs[i] > -1.0)
        && a.maxDrawdown == MaxDrawdown(rs)
  {
    var params := OptimalParams(TrainWindow(closes, train, test), ratio);
    var outOfSample := BacktestOf(TestWindow(closes, train, test), params, ratio);
    var rs := Returns(outOfSample.trades);
    if |rs| > 0 then
      BacktestReturns(TestWindow(closes, train, test), params, ratio);
      var expected := Mean(rs);
      Analysis(expected, SharpeOf(rs, ratio), WinRate(rs), MaxDrawdown(rs), expected, params, |rs|)
    else
      Analysis(0.0, 0.0, 0.0, 0.0, 0.0, params, 0)
  }

  /** The statistics are well-ranged: win rate in [0, 1], drawdown in [0, 1). */
  lemma AnalysisRanges(closes: seq<Price>, train: nat, test: nat, ratio: seq<real> -> real)
    ensures var a := WalkForwardAnalysis(closes, train, test, ratio);
      0.0 <= a.winRate <= 1.0 && 0.0 <= a.maxDrawdown < 1.0 && a.avgReturn == a.expectedReturn
  {
    var params := OptimalParams(TrainWindow(closes, train, test), ratio);
    var outOfSample := BacktestOf(TestWindow(closes, train, test), params, ratio);
    var rs := Returns(outOfSample.trades);
    if |rs| > 0 {
      BacktestReturns(TestWindow(closes, train, test), params, ratio);
    }
  }

  // ---------------------------------------------------------------------
  // Recommendation
  // ---------------------------------------------------------------------

  datatype Recommendation = Recommendation(action: Action, confidence: real)

  function SharpeFactor(sharpe: real): (f: real)
    ensures 0.2 <= f <= 1.0
    ensures sharpe > 2.0 ==> f == 1.0
    ensures 1.0 < sharpe <= 2.0 ==> f == 0.7
    ensures 0.5 < sharpe <= 1.0 ==> f == 0.5
    ensures sharpe <= 0.5 ==> f == 0.2
  {
    if sharpe > 2.0 then 1.0 else if sharpe > 1.0 then 0.7 else if sharpe > 0.5 then 0.5 else 0.2
  }

  function WinRateFactor(winRate: real): (f: real)
    ensures f <= 1.0
    ensures 0.0 <= winRate ==> 0.0 <= f
    ensures winRate >= 2.0 / 3.0 ==> f == 1.0
    ensures winRate < 2.0 / 3.0 ==> f == 1.5 * winRate
  {
    Min(winRate * 1.5, 1.0)
  }

  function DrawdownFactor(maxDrawdown: real): (f: real)
    ensures 0.5 <= f <= 1.0
    ensures maxDrawdown < 0.05 ==> f == 1.0
    ensures 0.05 <= maxDrawdown < 0.10 ==> f == 0.7
    ensures maxDrawdown >= 0.10 ==> f == 0.5
  {
    if maxDrawdown < 0.05 then 1.0 else if maxDrawdown < 0.10 then 0.7 else 0.5
  }

  /**
   * BUY on a good expected return, Sharpe and win rate; SELL on a bad one
   * of each; HOLD otherwise. The confidence is the mean of the Sharpe, win
   * rate and drawdown factors.
   */
  function GenerateRecommendation(sharpe: real, winRate: real, expectedReturn: real, maxDrawdown: real): (r: Recommendation)
    ensures r.action == Buy <==> expectedReturn > 0.02 && sharpe > 1.0 && winRate > 0.5
    ensures r.action == Sell <==> expectedReturn < -0.02 && sharpe < 0.0 && winRate < 0.4
    ensures r.confidence <= 1.0
    ensures 0.0 <= winRate ==> 0.7 / 3.0 <= r.confidence
    ensures r.confidence == (SharpeFactor(sharpe) + WinRateFactor(winRate) + DrawdownFactor(maxDrawdown)) / 3.0
  {
    var confidence := (SharpeFactor(sharpe) + WinRateFactor(winRate) + DrawdownFactor(maxDrawdown)) / 3.0;
    var action :=
      if expectedReturn > 0.02 && sharpe > 1.0 && winRate > 0.5 then Buy
      else if expectedReturn < -0.02 && sharpe < 0.0 && winRate < 0.4 then Sell
      else Hold;
    Recommendation(action, confidence)
  }

  // ---------------------------------------------------------------------
  // Entry point
  // ---------------------------------------------------------------------

  datatype OptimizeResult = OptimizeResult(
    recommendation: Action, confidence: real, expectedReturn: real, sharpe: real,
    winRate: real, maxDrawdown: Option<real>, avgReturn: Option<real>,
    optimalParams: Option<Params>)

  /** The answer for a missing series or one shorter than both windows. */
  const ShortInput := OptimizeResult(Hold, 0.0, 0.0, 0.0, 0.0, None, None, None)

  /** Walk-forward optimization of one series of closes. */
  function Optimize(closes: Option<seq<Price>>, train: nat, test: nat, ratio: seq<real> -> real): (r: OptimizeResult)
    ensures closes.None? || |closes.value| < train + test ==> r == ShortInput
    ensures 0.0 <= r.confidence <= 1.0
    ensures 0.0 <= r.winRate <= 1.0
    ensures r.maxDrawdown.Some? ==> 0.0 <= r.maxDrawdown.value < 1.0
    ensures r.recommendation == Buy ==> r.expectedReturn > 0.02 && r.sharpe > 1.0 && r.winRate > 0.5
    ensures r.recommendation == Sell ==> r.expectedReturn < -0.02 && r.sharpe < 0.0 && r.winRate < 0.4
    ensures r.optimalParams.Some? ==> r.optimalParams.value.fastMa < r.optimalParams.value.slowMa
    ensures closes.Some? && |closes.value| >= train + test ==>
      var a := WalkForwardAnalysis(closes.value, train, test, ratio);
      var g := GenerateRecommendation(a.sharpe, a.winRate, a.expectedReturn, a.maxDrawdown);
      && r.recommendation == g.action && r.confidence == g.confidence
      && r.expectedReturn == a.expectedReturn && r.sharpe == a.sharpe && r.winRate == a.winRate
      && r.maxDrawdown == Some(a.maxDrawdown) && r.avgReturn == Some(a.avgReturn)
      && r.optimalParams == Some(a.optimalParams)
  {
    if closes.None? || |closes.value| < train + test then ShortInput
    else
      var a := WalkForwardAnalysis(closes.value, train, test, ratio);
      AnalysisRanges(closes.value, train, test, ratio);
      OptimalParamsShape(TrainWindow(closes.value, train, test), ratio);
      var rec := GenerateRecommendation(a.sharpe, a.winRate, a.expectedReturn, a.maxDrawdown);
      OptimizeResult(rec.action, rec.confidence, a.expectedReturn, a.sharpe, a.winRate,
                     Some(a.maxDrawdown), Some(a.avgReturn), Some(a.optimalParams))
  }

  /**
   * A test window of 1 to 19 bars is shorter than every slow average the
   * search can choose, so the test backtest has no trade and the answer is
   * HOLD with confidence (0.2 + 0 + 1.0) / 3 = 0.4.
   */
  lemma ShortTestWindowHolds(closes: seq<Price>, train: nat, test: nat, ratio: seq<real> -> real)
    requires 0 < test < 20
    requires |closes| >= train + test
    ensures var r := Optimize(Some(closes), train, test, ratio);
      r.recommendation == Hold && r.confidence == 0.4
      && r.expectedReturn == 0.0 && r.sharpe == 0.0 && r.winRate == 0.0
  {
    var trainWindow := TrainWindow(closes, train, test);
    var testWindow := TestWindow(closes, train, test);
    WindowSplit(closes, train, test);
    OptimalParamsShape(trainWindow, ratio);
    var params := OptimalParams(trainWindow, ratio);
    ShortWindowNoTrades(testWindow, params, ratio);
  }
}

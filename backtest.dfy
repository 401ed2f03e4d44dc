/**
 * The moving-average crossover backtest of the walk-forward optimizer: the
 * fast and slow rolling means and the RSI over a window of closes, the
 * per-bar BUY (+1) / SELL (-1) / none (0) signal, the single-position trade
 * simulation and the statistics of the closed trades.
 *
 * The Sharpe ratio's `(mean / std) * sqrt(252)` is a parameter `ratio` of
 * the trade returns; it is consulted only where the code computes it, with
 * at least one trade and a positive standard deviation.
 */
module Backtest {
  import opened Values
  import opened Series

  /** Strategy parameters: the two moving-average windows, the RSI window and its bands. */
  datatype Params = Params(
    fastMa: Period, slowMa: Period, rsiPeriod: Period,
    rsiOversold: real, rsiOverbought: real)

  /** The parameters used when the grid search finds nothing. */
  const DefaultParams := Params(10, 30, 14, 30.0, 70.0)

  /** A closed round trip, by bar index within the backtested window. */
  datatype Trade = Trade(entryIndex: nat, exitIndex: nat, entryPrice: Price, exitPrice: Price, ret: real)

  datatype BacktestResult = BacktestResult(sharpe: real, trades: seq<Trade>, totalReturn: real)

  /** The signal column: +1 opens, -1 closes, 0 does nothing. */
  datatype Signal = Long | Short | Flat

  /** An open position: where it was entered and at what price. */
  datatype Position = Position(entryIndex: nat, entryPrice: Price)

  // ---------------------------------------------------------------------
  // Indicators and signals
  // ---------------------------------------------------------------------

  /**
   * The upward move into bar `i` (`delta.where(delta > 0, 0)`); the first
   * bar has no previous close and counts as 0.
   */
  function Gain(closes: seq<real>, i: nat): (g: real)
    requires i < |closes|
    ensures g >= 0.0
    ensures i > 0 && closes[i] > closes[i - 1] ==> g == closes[i] - closes[i - 1]
  {
    if i == 0 then 0.0
    else if closes[i] - closes[i - 1] > 0.0 then closes[i] - closes[i - 1] else 0.0
  }

  /** The downward move into bar `i`, as a non-negative amount. */
  function Loss(closes: seq<real>, i: nat): (l: real)
    requires i < |closes|
    ensures l >= 0.0
    ensures i > 0 && closes[i] < closes[i - 1] ==> l == closes[i - 1] - closes[i]
  {
    if i == 0 then 0.0
    else if closes[i] - closes[i - 1] < 0.0 then -(closes[i] - closes[i - 1]) else 0.0
  }

  function Gains(closes: seq<real>): (gs: seq<real>)
    ensures |gs| == |closes|
    ensures forall i :: 0 <= i < |closes| ==> gs[i] == Gain(closes, i)
    ensures forall i :: 0 <= i < |closes| ==> gs[i] >= 0.0
  {
    seq(|closes|, i requires 0 <= i < |closes| => Gain(closes, i))
  }

  function Losses(closes: seq<real>): (ls: seq<real>)
    ensures |ls| == |closes|
    ensures forall i :: 0 <= i < |closes| ==> ls[i] == Loss(closes, i)
    ensures forall i :: 0 <= i < |closes| ==> ls[i] >= 0.0
    ensures forall i :: 0 < i < |closes| ==> Gains(closes)[i] - ls[i] == closes[i] - closes[i - 1]
    ensures forall i :: 0 <= i < |closes| ==> Gains(closes)[i] == 0.0 || ls[i] == 0.0
  {
    seq(|closes|, i requires 0 <= i < |closes| => Loss(closes, i))
  }

  /**
   * RSI at bar `i`: `100 - 100 / (1 + gain / loss)` over the rolling means
   * of gains and losses, which is `100 * gain / (gain + loss)`. NaN while
   * the window fills, and NaN for a flat window (0 / 0); a window without
   * losses gives 100.
   */
  function RsiAt(closes: seq<real>, w: Period, i: nat): (r: Num)
    requires i < |closes|
    ensures i + 1 < w ==> r.NaN?
  {
    var g := RollingMeanAt(Gains(closes), w, i);
    var l := RollingMeanAt(Losses(closes), w, i);
    if g.NaN? || l.NaN? || g.v + l.v == 0.0 then NaN
    else Real(100.0 * g.v / (g.v + l.v))
  }

  /** The value of a rolling-mean column one bar back (`shift(1)`): NaN at the first bar. */
  function Previous(closes: seq<real>, w: Period, i: nat): (r: Num)
    requires i < |closes|
    ensures i == 0 ==> r.NaN?
  {
    if i == 0 then NaN else RollingMeanAt(closes, w, i - 1)
  }

  /** Fast above slow now and not above it one bar back. */
  predicate CrossesUp(closes: seq<real>, p: Params, i: nat)
    requires i < |closes|
  {
    Gt(RollingMeanAt(closes, p.fastMa, i), RollingMeanAt(closes, p.slowMa, i))
    && Le(Previous(closes, p.fastMa, i), Previous(closes, p.slowMa, i))
  }

  /** Fast below slow now and not below it one bar back. */
  predicate CrossesDown(closes: seq<real>, p: Params, i: nat)
    requires i < |closes|
  {
    Lt(RollingMeanAt(closes, p.fastMa, i), RollingMeanAt(closes, p.slowMa, i))
    && Ge(Previous(closes, p.fastMa, i), Previous(closes, p.slowMa, i))
  }

  /**
   * The signal at bar `i`. The BUY mask is written first and the SELL mask
   * second, so a bar matching both ends as SELL; the SELL mask is
   * `(down-cross & prev) | (rsi > overbought)`.
   */
  function SignalAt(closes: seq<real>, p: Params, i: nat): (s: Signal)
    requires i < |closes|
    ensures CrossesDown(closes, p, i) ==> s == Short
    ensures s == Long ==> CrossesUp(closes, p, i) && Lt(RsiAt(closes, p.rsiPeriod, i), Real(p.rsiOverbought))
  {
    var rsi := RsiAt(closes, p.rsiPeriod, i);
    var buy := CrossesUp(closes, p, i) && Lt(rsi, Real(p.rsiOverbought));
    var sell := CrossesDown(closes, p, i) || Gt(rsi, Real(p.rsiOverbought));
    if sell then Short else if buy then Long else Flat
  }

  function Signals(closes: seq<real>, p: Params): (s: seq<Signal>)
    ensures |s| == |closes|
    ensures forall i :: 0 <= i < |closes| ==> s[i] == SignalAt(closes, p, i)
    ensures forall i :: 0 <= i < |closes| ==>
      (s[i] == Short <==> CrossesDown(closes, p, i) || Gt(RsiAt(closes, p.rsiPeriod, i), Real(p.rsiOverbought)))
    ensures forall i :: 0 <= i < |closes| ==>
      (s[i] == Long <==>
         CrossesUp(closes, p, i) && Lt(RsiAt(closes, p.rsiPeriod, i), Real(p.rsiOverbought)) && !CrossesDown(closes, p, i))
  {
    seq(|closes|, i requires 0 <= i < |closes| => SignalAt(closes, p, i))
  }

  /**
   * The signal rule in full: SELL exactly on a downward crossover or an RSI
   * above the overbought band; BUY exactly on an upward crossover with the
   * RSI below the band and no SELL condition.
   */
  lemma SignalRule(closes: seq<real>, p: Params, i: nat)
    requires i < |closes|
    ensures SignalAt(closes, p, i) == Short <==>
      CrossesDown(closes, p, i) || Gt(RsiAt(closes, p.rsiPeriod, i), Real(p.rsiOverbought))
    ensures SignalAt(closes, p, i) == Long <==>
      CrossesUp(closes, p, i) && Lt(RsiAt(closes, p.rsiPeriod, i), Real(p.rsiOverbought))
      && !CrossesDown(closes, p, i)
  {
  }

  /**
   * A BUY needs both moving averages on this bar and the previous one, so
   * none can occur before bar `max(fast, slow)`; the first bar is never a
   * crossover.
   */
  lemma NoBuyBeforeWindowsFill(closes: seq<real>, p: Params, i: nat)
    requires i < |closes|
    requires i < p.fastMa || i < p.slowMa
    ensures SignalAt(closes, p, i) != Long
  {
    if i > 0 {
      assert RollingMeanAt(closes, p.fastMa, i - 1).NaN? || RollingMeanAt(closes, p.slowMa, i - 1).NaN?;
    }
  }

  /** The RSI is a percentage whenever it is a number. */
  lemma RsiRange(closes: seq<real>, w: Period, i: nat)
    requires i < |closes|
    ensures RsiAt(closes, w, i).Real? ==> 0.0 <= RsiAt(closes, w, i).v <= 100.0
  {
    var g := RollingMeanAt(Gains(closes), w, i);
    var l := RollingMeanAt(Losses(closes), w, i);
    if g.Real? && l.Real? && g.v + l.v != 0.0 {
      RollingMeanNonNegative(Gains(closes), w, i);
      RollingMeanNonNegative(Losses(closes), w, i);
      ShareOfTotal(g.v, l.v);
    }
  }

  lemma RollingMeanNonNegative(xs: seq<real>, w: Period, i: nat)
    requires i < |xs|
    requires forall k :: 0 <= k < |xs| ==> xs[k] >= 0.0
    ensures RollingMeanAt(xs, w, i).Real? ==> RollingMeanAt(xs, w, i).v >= 0.0
  {
    if i + 1 >= w {
      SumNonNegative(xs[i + 1 - w..i + 1]);
    }
  }

  lemma ShareOfTotal(g: real, l: real)
    requires g >= 0.0 && l >= 0.0 && g + l != 0.0
    ensures 0.0 <= 100.0 * g / (g + l) <= 100.0
  {
    assert 100.0 * g / (g + l) == 100.0 * (g / (g + l));
    assert g / (g + l) <= (g + l) / (g + l);
  }

  // ---------------------------------------------------------------------
  // Trade simulation
  // ---------------------------------------------------------------------

  /** The simulation state: the closed trades and the open position, if any. */
  datatype SimState = SimState(trades: seq<Trade>, position: Option<Position>)

  /** The return of a round trip, `(exit - entry) / entry`; above -1 since prices are positive. */
  function TradeReturn(entry: Price, exit: Price): (r: real)
    ensures r > -1.0
    ensures r > 0.0 <==> exit > entry
  {
    assert entry / entry == 1.0;
    assert (exit - entry) / entry == exit / entry - entry / entry;
    assert exit / entry > 0.0;
    (exit - entry) / entry
  }

  /**
   * One bar of the loop: +1 opens a position only when none is open, -1
   * closes one only when one is open, anything else leaves the state alone.
   */
  function Step(s: SimState, i: nat, signal: Signal, close: Price): SimState
  {
    if signal == Long && s.position.None? then
      SimState(s.trades, Some(Position(i, close)))
    else if signal == Short && s.position.Some? then
      var e := s.position.value;
      SimState(s.trades + [Trade(e.entryIndex, i, e.entryPrice, close, TradeReturn(e.entryPrice, close))], None)
    else s
  }

  /** The state after the first `n` bars. */
  function Simulate(closes: seq<Price>, signals: seq<Signal>, n: nat): SimState
    requires n <= |closes| == |signals|
  {
    if n == 0 then SimState([], None)
    else Step(Simulate(closes, signals, n - 1), n - 1, signals[n - 1], closes[n - 1])
  }

  /** No BUY signal strictly between bars `lo` and `hi`. */
  predicate NoBuyBetween(signals: seq<Signal>, lo: int, hi: int)
  {
    forall k :: lo < k < hi && 0 <= k < |signals| ==> signals[k] != Long
  }

  /** No SELL signal strictly between bars `lo` and `hi`. */
  predicate NoSellBetween(signals: seq<Signal>, lo: int, hi: int)
  {
    forall k :: lo < k < hi && 0 <= k < |signals| ==> signals[k] != Short
  }

  /**
   * A recorded trade within the first `n` bars: entered on a BUY, left on
   * the first SELL after it, at those bars' closes, with its return.
   */
  predicate TradeOf(closes: seq<Price>, signals: seq<Signal>, n: nat, t: Trade)
    requires n <= |closes| == |signals|
  {
    t.entryIndex < t.exitIndex < n
    && closes[t.entryIndex] == t.entryPrice && closes[t.exitIndex] == t.exitPrice
    && t.ret == TradeReturn(t.entryPrice, t.exitPrice)
    && signals[t.entryIndex] == Long && signals[t.exitIndex] == Short
    && NoSellBetween(signals, t.entryIndex, t.exitIndex)
  }

  /** The bar after which trade `j` may open: the previous trade's exit, or -1 for the first. */
  function Gap(trades: seq<Trade>, j: nat): int
    requires j <= |trades|
  {
    if j == 0 then -1 else trades[j - 1].exitIndex
  }

  /**
   * What the loop has done after `n` bars: trades in order, each opened by
   * the first BUY after the previous exit and closed by the first SELL
   * after its entry; then either no BUY since the last exit, or one open
   * position entered on the first BUY since it with no SELL after.
   */
  predicate Consistent(closes: seq<Price>, signals: seq<Signal>, n: nat, s: SimState)
    requires n <= |closes| == |signals|
  {
    (forall j :: 0 <= j < |s.trades| ==> TradeOf(closes, signals, n, s.trades[j]))
    && (forall j {:trigger Gap(s.trades, j)} :: 0 <= j < |s.trades| ==>
          Gap(s.trades, j) < s.trades[j].entryIndex
          && NoBuyBetween(signals, Gap(s.trades, j), s.trades[j].entryIndex))
    && match s.position
       case None => NoBuyBetween(signals, Gap(s.trades, |s.trades|), n)
       case Some(p) =>
         Gap(s.trades, |s.trades|) < p.entryIndex < n
         && closes[p.entryIndex] == p.entryPrice && signals[p.entryIndex] == Long
         && NoBuyBetween(signals, Gap(s.trades, |s.trades|), p.entryIndex)
         && NoSellBetween(signals, p.entryIndex, n)
  }

  lemma StepOpens(closes: seq<Price>, signals: seq<Signal>, n: nat, s: SimState)
    requires n < |closes| == |signals|
    requires Consistent(closes, signals, n, s)
    requires signals[n] == Long && s.position.None?
    ensures Consistent(closes, signals, n + 1, Step(s, n, signals[n], closes[n]))
  {
    TradesExtend(closes, signals, n, s.trades);
    assert Step(s, n, signals[n], closes[n]) == SimState(s.trades, Some(Position(n, closes[n])));
  }

  lemma StepCloses(closes: seq<Price>, signals: seq<Signal>, n: nat, s: SimState)
    requires n < |closes| == |signals|
    requires Consistent(closes, signals, n, s)
    requires signals[n] == Short && s.position.Some?
    ensures Consistent(closes, signals, n + 1, Step(s, n, signals[n], closes[n]))
  {
    var e := s.position.value;
    var t := Trade(e.entryIndex, n, e.entryPrice, closes[n], TradeReturn(e.entryPrice, closes[n]));
    var trades' := s.trades + [t];
    assert Step(s, n, signals[n], closes[n]) == SimState(trades', None);
    TradesExtend(closes, signals, n, s.trades);
    forall j | 0 <= j < |trades'| ensures TradeOf(closes, signals, n + 1, trades'[j]) {
      if j < |s.trades| {
        assert trades'[j] == s.trades[j];
      }
    }
    forall j | 0 <= j < |trades'|
      ensures Gap(trades', j) < trades'[j].entryIndex
      ensures NoBuyBetween(signals, Gap(trades', j), trades'[j].entryIndex)
    {
      assert Gap(trades', j) == Gap(s.trades, j);
      if j < |s.trades| {
        assert trades'[j] == s.trades[j];
      }
    }
    assert Gap(trades', |trades'|) == n;
  }

  lemma StepKeeps(closes: seq<Price>, signals: seq<Signal>, n: nat, s: SimState)
    requires n < |closes| == |signals|
    requires Consistent(closes, signals, n, s)
    requires !(signals[n] == Long && s.position.None?)
    requires !(signals[n] == Short && s.position.Some?)
    ensures Consistent(closes, signals, n + 1, Step(s, n, signals[n], closes[n]))
  {
    assert Step(s, n, signals[n], closes[n]) == s;
    TradesExtend(closes, signals, n, s.trades);
    match s.position
    case None =>
      assert NoBuyBetween(signals, Gap(s.trades, |s.trades|), n + 1);
    case Some(p) =>
      assert NoSellBetween(signals, p.entryIndex, n + 1);
  }

  /** Trades recorded within the first `n` bars stay recorded within the first `n + 1`. */
  lemma TradesExtend(closes: seq<Price>, signals: seq<Signal>, n: nat, trades: seq<Trade>)
    requires n < |closes| == |signals|
    requires forall j :: 0 <= j < |trades| ==> TradeOf(closes, signals, n, trades[j])
    ensures forall j :: 0 <= j < |trades| ==> TradeOf(closes, signals, n + 1, trades[j])
  {
  }

  /** One bar of the loop keeps its invariant. */
  lemma StepConsistent(closes: seq<Price>, signals: seq<Signal>, n: nat)
    requires n < |closes| == |signals|
    requires Consistent(closes, signals, n, Simulate(closes, signals, n))
    ensures Consistent(closes, signals, n + 1, Simulate(closes, signals, n + 1))
  {
    var s := Simulate(closes, signals, n);
    assert Simulate(closes, signals, n + 1) == Step(s, n, signals[n], closes[n]);
    if signals[n] == Long && s.position.None? {
      StepOpens(closes, signals, n, s);
    } else if signals[n] == Short && s.position.Some? {
      StepCloses(closes, signals, n, s);
    } else {
      StepKeeps(closes, signals, n, s);
    }
  }

  /** The loop's invariant holds after every prefix of the bars. */
  lemma {:induction false} SimulateConsistent(closes: seq<Price>, signals: seq<Signal>, n: nat)
    requires n <= |closes| == |signals|
    ensures Consistent(closes, signals, n, Simulate(closes, signals, n))
  {
    if n > 0 {
      SimulateConsistent(closes, signals, n - 1);
      StepConsistent(closes, signals, n - 1);
    }
  }

  /**
   * The recorded trades lie within the window, entry before exit, each
   * trade's exit before the next one's entry, with rets
   * `(exit - entry) / entry` at the closes of those bars.
   */
  lemma TradesWellFormed(closes: seq<Price>, signals: seq<Signal>)
    requires |closes| == |signals|
    ensures var trades := Simulate(closes, signals, |closes|).trades;
      && (forall j :: 0 <= j < |trades| ==>
            trades[j].entryIndex < trades[j].exitIndex < |closes|
            && trades[j].entryPrice == closes[trades[j].entryIndex]
            && trades[j].exitPrice == closes[trades[j].exitIndex]
            && trades[j].ret == (trades[j].exitPrice - trades[j].entryPrice) / trades[j].entryPrice)
      && (forall j :: 0 < j < |trades| ==> trades[j - 1].exitIndex < trades[j].entryIndex)
  {
    var s := Simulate(closes, signals, |closes|);
    SimulateConsistent(closes, signals, |closes|);
    forall j | 0 < j < |s.trades| ensures s.trades[j - 1].exitIndex < s.trades[j].entryIndex {
      assert Gap(s.trades, j) < s.trades[j].entryIndex;
    }
    forall j | 0 <= j < |s.trades|
      ensures s.trades[j].entryIndex < s.trades[j].exitIndex < |closes|
      ensures s.trades[j].entryPrice == closes[s.trades[j].entryIndex]
      ensures s.trades[j].exitPrice == closes[s.trades[j].exitIndex]
      ensures s.trades[j].ret == (s.trades[j].exitPrice - s.trades[j].entryPrice) / s.trades[j].entryPrice
    {
      assert TradeOf(closes, signals, |closes|, s.trades[j]);
    }
  }

  /** Without a BUY signal nothing is ever opened, so no trade is recorded. */
  lemma NoBuyNoTrades(closes: seq<Price>, signals: seq<Signal>, n: nat)
    requires n <= |closes| == |signals|
    requires forall k :: 0 <= k < n ==> signals[k] != Long
    ensures Simulate(closes, signals, n) == SimState([], None)
  {
    var s := Simulate(closes, signals, n);
    SimulateConsistent(closes, signals, n);
    assert |s.trades| > 0 ==> TradeOf(closes, signals, n, s.trades[0]);
    assert s.position.None?;
  }

  // ---------------------------------------------------------------------
  // Statistics
  // ---------------------------------------------------------------------

  function Returns(trades: seq<Trade>): (rs: seq<real>)
    ensures |rs| == |trades|
    ensures forall i :: 0 <= i < |trades| ==> rs[i] == trades[i].ret
  {
    seq(|trades|, i requires 0 <= i < |trades| => trades[i].ret)
  }

  /**
   * The Sharpe value of a list of trade rets: `ratio(rets)` with at
   * least one trade and a positive standard deviation, 0 otherwise.
   */
  function SharpeOf(rets: seq<real>, ratio: seq<real> -> real): (s: real)
    ensures |rets| == 0 ==> s == 0.0
    ensures |rets| > 0 && Variance(rets) > 0.0 ==> s == ratio(rets)
    ensures !(|rets| > 0 && Variance(rets) > 0.0) ==> s == 0.0
  {
    if |rets| > 0 && Variance(rets) > 0.0 then ratio(rets) else 0.0
  }

  function OnePlus(rets: seq<real>): (gs: seq<real>)
    ensures |gs| == |rets|
    ensures forall i :: 0 <= i < |rets| ==> gs[i] == 1.0 + rets[i]
    ensures (forall i :: 0 <= i < |rets| ==> rets[i] > -1.0) ==> forall i :: 0 <= i < |gs| ==> gs[i] > 0.0
  {
    seq(|rets|, i requires 0 <= i < |rets| => 1.0 + rets[i])
  }

  /**
   * The compounded return `prod(1 + r) - 1`, 0 with no trades; as no trade
   * loses everything, neither does the whole run.
   */
  function TotalReturn(rets: seq<real>): (t: real)
    ensures rets == [] ==> t == 0.0
    ensures (forall i :: 0 <= i < |rets| ==> rets[i] > -1.0) ==> t > -1.0
  {
    if |rets| > 0 then
      if forall i :: 0 <= i < |rets| ==> rets[i] > -1.0 then
        ProductPositive(OnePlus(rets));
        Product(OnePlus(rets)) - 1.0
      else
        Product(OnePlus(rets)) - 1.0
    else 0.0
  }

  /** The backtest of one parameter set over a window of closes. */
  function BacktestOf(closes: seq<Price>, p: Params, ratio: seq<real> -> real): BacktestResult
  {
    if |closes| < p.slowMa || |closes| < p.rsiPeriod then BacktestResult(0.0, [], 0.0)
    else
      var trades := Simulate(closes, Signals(closes, p), |closes|).trades;
      var rets := Returns(trades);
      BacktestResult(SharpeOf(rets, ratio), trades, TotalReturn(rets))
  }

  /**
   * Backtests one parameter set: the indicator columns, the signal column,
   * then one pass over the bars holding at most one position, recording a
   * trade at each close; a position still open at the end is dropped.
   */
  method BacktestStrategy(closes: seq<Price>, p: Params, ratio: seq<real> -> real) returns (r: BacktestResult)
    ensures r == BacktestOf(closes, p, ratio)
  {
    if |closes| < p.slowMa || |closes| < p.rsiPeriod {
      return BacktestResult(0.0, [], 0.0);
    }
    var trades := SimulateTrades(closes, Signals(closes, p));
    var rets := Returns(trades);
    if |trades| > 0 {
      r := BacktestResult(SharpeOf(rets, ratio), trades, Product(OnePlus(rets)) - 1.0);
    } else {
      r := BacktestResult(0.0, trades, 0.0);
    }
  }

  /**
   * The trade loop: one pass over the bars, opening on a BUY signal when
   * flat and closing on a SELL signal when long; a position still open at
   * the end is dropped.
   */
  method SimulateTrades(closes: seq<Price>, signals: seq<Signal>) returns (trades: seq<Trade>)
    requires |closes| == |signals|
    ensures trades == Simulate(closes, signals, |closes|).trades
  {
    trades := [];
    var position: Option<Position> := None;
    for i := 0 to |closes|
      invariant SimState(trades, position) == Simulate(closes, signals, i)
    {
      ghost var before := SimState(trades, position);
      if signals[i] == Long && position.None? {
        position := Some(Position(i, closes[i]));
      } else if signals[i] == Short && position.Some? {
        var exitPrice := closes[i];
        var entry := position.value;
        trades := trades + [Trade(entry.entryIndex, i, entry.entryPrice, exitPrice, TradeReturn(entry.entryPrice, exitPrice))];
        position := None;
      }
      assert SimState(trades, position) == Step(before, i, signals[i], closes[i]);
    }
  }

  /** A window shorter than the slow average or the RSI window is not traded. */
  lemma ShortWindowNoTrades(closes: seq<Price>, p: Params, ratio: seq<real> -> real)
    requires |closes| < p.slowMa || |closes| < p.rsiPeriod
    ensures BacktestOf(closes, p, ratio) == BacktestResult(0.0, [], 0.0)
  {
  }

  /** A window no longer than both moving averages has no BUY, hence no trade and zero statistics. */
  lemma NoTradesBeforeAveragesFill(closes: seq<Price>, p: Params, ratio: seq<real> -> real)
    requires |closes| <= p.slowMa || |closes| <= p.fastMa
    ensures BacktestOf(closes, p, ratio) == BacktestResult(0.0, [], 0.0)
  {
    if !(|closes| < p.slowMa || |closes| < p.rsiPeriod) {
      var signals := Signals(closes, p);
      forall k | 0 <= k < |closes| ensures signals[k] != Long {
        NoBuyBeforeWindowsFill(closes, p, k);
      }
      NoBuyNoTrades(closes, signals, |closes|);
    }
  }
}

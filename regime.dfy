/**
 * Regime classification: the indicator snapshot taken at the last bar of a
 * series, the weighted additive regime score in [-1, 1], the
 * BULLISH / BEARISH / SIDEWAYS label with its confidence, and the
 * ADX-based trend strength.
 *
 * The oscillators, MACD, ADX, ATR, Bollinger bands and the stochastic come
 * from a technical-analysis library; their values at the last bar are
 * inputs (`LibraryValues`). The simple moving averages, the Bollinger
 * middle band (the 20-bar SMA) and the volume average are rolling means
 * and are computed here.
 */
module Regime {
  import opened Values
  import opened Series

  /** One bar, reduced to the fields read outside the indicator library. */
  datatype Bar = Bar(close: Price, volume: nat)

  /** The keys of the indicator snapshot. */
  datatype Key =
    | Sma(period: nat)
    | Rsi | Macd | MacdSignal | MacdDiff
    | Adx | AdxPos | AdxNeg
    | Atr | AtrPct
    | BbPosition | BbWidth
    | StochK | StochD
    | VolumeSma | VolumeRatio

  /** A snapshot holds only the indicators the history is long enough for. */
  type Snapshot = map<Key, Num>

  /** The indicator library's values at the last bar. */
  datatype LibraryValues = LibraryValues(
    rsi: Num, macd: Num, macdSignal: Num, macdDiff: Num,
    adx: Num, adxPos: Num, adxNeg: Num, atr: Num,
    bbHigh: Num, bbLow: Num, stochK: Num, stochD: Num)

  datatype Regime = Bullish | Bearish | Sideways | Unknown | Error

  /** The indicator values reported with a classification (absent ones as 0). */
  datatype IndicatorSummary = IndicatorSummary(
    price: real, sma20: Num, sma50: Num, sma200: Num, rsi: Num, macd: Num,
    macdSignal: Num, adx: Num, atr: Num, bollingerPosition: Num)

  datatype RegimeResult = RegimeResult(
    regime: Regime, confidence: real, trendStrength: real, volatility: Num,
    indicators: Option<IndicatorSummary>)

  /** The moving-average periods used when none are configured. */
  const DefaultPeriods: seq<Period> := [20, 50, 200]

  /** The result for a missing or too short series (no indicators at all). */
  const Insufficient := RegimeResult(Unknown, 0.0, 0.0, Real(0.0), None)

  function Closes(bars: seq<Bar>): (cs: seq<real>)
    ensures |cs| == |bars|
    ensures forall i :: 0 <= i < |bars| ==> cs[i] == bars[i].close as real > 0.0
  {
    seq(|bars|, i requires 0 <= i < |bars| => bars[i].close as real)
  }

  function Volumes(bars: seq<Bar>): (vs: seq<real>)
    ensures |vs| == |bars|
    ensures forall i :: 0 <= i < |bars| ==> vs[i] == bars[i].volume as real >= 0.0
  {
    seq(|bars|, i requires 0 <= i < |bars| => bars[i].volume as real)
  }

  /** Python's `max` of the configured periods. */
  function MaxPeriod(periods: seq<Period>): (m: nat)
    requires |periods| > 0
    ensures m in periods
    ensures forall i :: 0 <= i < |periods| ==> periods[i] <= m
  {
    if |periods| == 1 then periods[0]
    else
      var m := MaxPeriod(periods[..|periods| - 1]);
      if periods[|periods| - 1] > m then periods[|periods| - 1] else m
  }

  // ---------------------------------------------------------------------
  // Indicator snapshot
  // ---------------------------------------------------------------------

  /** The moving-average keys a series of length `n` supports. */
  function SmaKeys(n: nat, periods: seq<Period>): set<Key>
  {
    set p: Period | p in periods && p <= n :: Sma(p)
  }

  /** Whether a series of length `n` holds enough history for key `k`. */
  predicate Available(n: nat, k: Key)
  {
    match k
    case Sma(p) => 0 < p <= n
    case Macd | MacdSignal | MacdDiff => n >= 26
    case BbPosition | BbWidth | VolumeSma | VolumeRatio => n >= 20
    case _ => n >= 14
  }

  /**
   * The library indicators in the order they are computed, each group with
   * the history length it needs.
   */
  const LibraryGroups: seq<(nat, set<Key>)> := [
    (14, {Rsi}),
    (26, {Macd, MacdSignal, MacdDiff}),
    (14, {Adx, AdxPos, AdxNeg}),
    (14, {Atr, AtrPct}),
    (20, {BbPosition, BbWidth}),
    (14, {StochK, StochD}),
    (20, {VolumeSma, VolumeRatio})]

  /** The keys present after the moving averages and the first `j` library groups. */
  function KeysAfter(n: nat, periods: seq<Period>, j: nat): (keys: set<Key>)
    requires j <= |LibraryGroups|
    ensures forall k :: k in keys ==> Available(n, k)
  {
    if j == 0 then SmaKeys(n, periods)
    else
      var (need, group) := LibraryGroups[j - 1];
      KeysAfter(n, periods, j - 1) + (if n >= need then group else {})
  }

  /** The keys present in the snapshot of a series of length `n`. */
  function KeysFor(n: nat, periods: seq<Period>): (keys: set<Key>)
    ensures forall k :: k in keys ==> Available(n, k)
  {
    KeysAfter(n, periods, |LibraryGroups|)
  }

  /**
   * Position of the last close within the Bollinger bands (0 at the lower
   * band, 1 at the upper band); 0.5 when the bands coincide.
   */
  function BollingerPosition(price: real, high: Num, low: Num): (r: Num)
    ensures !Ne(high, low) ==> r == Real(0.5)
  {
    if Ne(high, low) then Div(Sub(Real(price), low), Sub(high, low)) else Real(0.5)
  }

  /**
   * Width of the Bollinger bands as a percentage of the middle band (the
   * 20-bar mean of the closes, positive because every close is).
   */
  function BollingerWidth(closes: seq<real>, high: Num, low: Num): (r: Num)
    requires |closes| >= 20
    requires forall i :: 0 <= i < |closes| ==> closes[i] > 0.0
    ensures r.Real? <==> high.Real? && low.Real?
  {
    MeanPositive(closes[|closes| - 20..]);
    Scale(Div(Sub(high, low), Real(MeanOfLast(closes, 20))), 100.0)
  }

  function LastClose(bars: seq<Bar>): real
    requires |bars| > 0
  {
    bars[|bars| - 1].close as real
  }

  /** The value recorded under key `k` for a series with enough history. */
  function IndicatorValue(bars: seq<Bar>, lib: LibraryValues, k: Key): Num
    requires Available(|bars|, k)
  {
    match k
    case Sma(p) => Real(MeanOfLast(Closes(bars), p))
    case Rsi => lib.rsi
    case Macd => lib.macd
    case MacdSignal => lib.macdSignal
    case MacdDiff => lib.macdDiff
    case Adx => lib.adx
    case AdxPos => lib.adxPos
    case AdxNeg => lib.adxNeg
    case Atr => lib.atr
    case AtrPct => Scale(Div(lib.atr, Real(LastClose(bars))), 100.0)
    case BbPosition => BollingerPosition(LastClose(bars), lib.bbHigh, lib.bbLow)
    case BbWidth => BollingerWidth(Closes(bars), lib.bbHigh, lib.bbLow)
    case StochK => lib.stochK
    case StochD => lib.stochD
    case VolumeSma => Real(MeanOfLast(Volumes(bars), 20))
    case VolumeRatio =>
      // an all-zero volume window gives 0 / 0
      var avg := MeanOfLast(Volumes(bars), 20);
      if avg == 0.0 then NaN else Real(bars[|bars| - 1].volume as real / avg)
  }

  /** The entries of a snapshot for a set of keys the history supports. */
  function Entries(bars: seq<Bar>, lib: LibraryValues, keys: set<Key>): (m: Snapshot)
    requires forall k :: k in keys ==> Available(|bars|, k)
    ensures m.Keys == keys
  {
    map k | k in keys :: IndicatorValue(bars, lib, k)
  }

  lemma EntriesExtend(bars: seq<Bar>, lib: LibraryValues, keys: set<Key>, k: Key)
    requires forall k' :: k' in keys ==> Available(|bars|, k')
    requires Available(|bars|, k)
    ensures Entries(bars, lib, keys)[k := IndicatorValue(bars, lib, k)] == Entries(bars, lib, keys + {k})
  {
  }

  /** The indicator snapshot of a series: one entry per supported key. */
  function SnapshotOf(bars: seq<Bar>, periods: seq<Period>, lib: LibraryValues): Snapshot
  {
    Entries(bars, lib, KeysFor(|bars|, periods))
  }

  /** The library indicators a series of length `n` supports, by look-back. */
  function LibraryKeys(n: nat): set<Key>
  {
    (if n >= 14 then {Rsi, Adx, AdxPos, AdxNeg, Atr, AtrPct, StochK, StochD} else {})
    + (if n >= 20 then {BbPosition, BbWidth, VolumeSma, VolumeRatio} else {})
    + (if n >= 26 then {Macd, MacdSignal, MacdDiff} else {})
  }

  /** The staged key set is the moving averages plus the library keys. */
  lemma KeysForSplit(n: nat, periods: seq<Period>)
    ensures KeysFor(n, periods) == SmaKeys(n, periods) + LibraryKeys(n)
  {
    var g := LibraryGroups;
    SixGroups(n, periods);
    assert KeysFor(n, periods) == KeysAfter(n, periods, 6) + (if n >= 20 then g[6].1 else {});
  }

  lemma SixGroups(n: nat, periods: seq<Period>)
    ensures KeysAfter(n, periods, 6) == SmaKeys(n, periods)
      + (if n >= 14 then {Rsi, Adx, AdxPos, AdxNeg, Atr, AtrPct, StochK, StochD} else {})
      + (if n >= 20 then {BbPosition, BbWidth} else {})
      + (if n >= 26 then {Macd, MacdSignal, MacdDiff} else {})
  {
    var g := LibraryGroups;
    FirstGroups(n, periods);
    assert KeysAfter(n, periods, 5) == KeysAfter(n, periods, 4) + (if n >= 20 then g[4].1 else {});
    assert KeysAfter(n, periods, 6) == KeysAfter(n, periods, 5) + (if n >= 14 then g[5].1 else {});
  }

  lemma FirstGroups(n: nat, periods: seq<Period>)
    ensures KeysAfter(n, periods, 4) == SmaKeys(n, periods)
      + (if n >= 14 then {Rsi, Adx, AdxPos, AdxNeg, Atr, AtrPct} else {})
      + (if n >= 26 then {Macd, MacdSignal, MacdDiff} else {})
  {
    var g := LibraryGroups;
    assert KeysAfter(n, periods, 1) == SmaKeys(n, periods) + (if n >= 14 then g[0].1 else {});
    assert KeysAfter(n, periods, 2) == KeysAfter(n, periods, 1) + (if n >= 26 then g[1].1 else {});
    assert KeysAfter(n, periods, 3) == KeysAfter(n, periods, 2) + (if n >= 14 then g[2].1 else {});
    assert KeysAfter(n, periods, 4) == KeysAfter(n, periods, 3) + (if n >= 14 then g[3].1 else {});
  }

  /**
   * Which indicators a snapshot holds: a moving average for each configured
   * period the history covers, RSI, ADX, ATR and the stochastic from 14
   * bars, the Bollinger and volume indicators from 20, MACD from 26.
   */
  lemma SnapshotKeys(n: nat, periods: seq<Period>)
    ensures forall k :: k in KeysFor(n, periods) <==> Available(n, k) && (k.Sma? ==> k.period in periods)
  {
    KeysForSplit(n, periods);
    SmaKeysExact(n, periods);
    LibraryKeysExact(n);
  }

  lemma SmaKeysExact(n: nat, periods: seq<Period>)
    ensures forall k :: k in SmaKeys(n, periods) <==> k.Sma? && k.period in periods && 0 < k.period <= n
  {
    forall k: Key | k.Sma? && k.period in periods && 0 < k.period <= n
      ensures k in SmaKeys(n, periods)
    {
      var p: Period := k.period;
      assert k == Sma(p);
    }
  }

  lemma LibraryKeysExact(n: nat)
    ensures forall k :: k in LibraryKeys(n) <==> !k.Sma? && Available(n, k)
  {
  }

  /** The snapshot after the moving averages and the first `j` library groups. */
  function Stage(bars: seq<Bar>, periods: seq<Period>, lib: LibraryValues, j: nat): Snapshot
    requires j <= |LibraryGroups|
  {
    Entries(bars, lib, KeysAfter(|bars|, periods, j))
  }

  /**
   * Fills the snapshot key by key: one moving average per configured period
   * the history covers, then each library indicator whose look-back fits.
   */
  method CalculateIndicators(bars: seq<Bar>, periods: seq<Period>, lib: LibraryValues)
    returns (ind: Snapshot)
    ensures ind == SnapshotOf(bars, periods, lib)
    ensures forall k :: k in ind <==> Available(|bars|, k) && (k.Sma? ==> k.period in periods)
  {
    ind := AddMovingAverages(bars, periods, lib);
    ind := AddRsi(bars, periods, lib, ind);
    ind := AddMacd(bars, periods, lib, ind);
    ind := AddAdx(bars, periods, lib, ind);
    ind := AddAtr(bars, periods, lib, ind);
    ind := AddBollinger(bars, periods, lib, ind);
    ind := AddStochastic(bars, periods, lib, ind);
    ind := AddVolume(bars, periods, lib, ind);
    SnapshotKeys(|bars|, periods);
  }

  method AddMovingAverages(bars: seq<Bar>, periods: seq<Period>, lib: LibraryValues)
    returns (ind: Snapshot)
    ensures ind == Stage(bars, periods, lib, 0)
  {
    var n := |bars|;
    ind := map[];
    ghost var keys: set<Key> := {};
    var i := 0;
    while i < |periods|
      invariant 0 <= i <= |periods|
      invariant keys == SmaKeys(n, periods[..i])
      invariant forall k :: k in keys ==> Available(n, k)
      invariant ind == Entries(bars, lib, keys)
    {
      var p := periods[i];
      assert periods[..i + 1] == periods[..i] + [p];
      if n >= p {
        EntriesExtend(bars, lib, keys, Sma(p));
        ind := ind[Sma(p) := Real(MeanOfLast(Closes(bars), p))];
        keys := keys + {Sma(p)};
      }
      assert keys == SmaKeys(n, periods[..i + 1]);
      i := i + 1;
    }
    assert periods[..i] == periods;
  }

  method AddRsi(bars: seq<Bar>, periods: seq<Period>, lib: LibraryValues, ind: Snapshot)
    returns (r: Snapshot)
    requires ind == Stage(bars, periods, lib, 0)
    ensures r == Stage(bars, periods, lib, 1)
  {
    ghost var keys := KeysAfter(|bars|, periods, 0);
    r := ind;
    if |bars| >= 14 {
      EntriesExtend(bars, lib, keys, Rsi);
      r := r[Rsi := lib.rsi];
    }
  }

  method AddMacd(bars: seq<Bar>, periods: seq<Period>, lib: LibraryValues, ind: Snapshot)
    returns (r: Snapshot)
    requires ind == Stage(bars, periods, lib, 1)
    ensures r == Stage(bars, periods, lib, 2)
  {
    ghost var keys := KeysAfter(|bars|, periods, 1);
    r := ind;
    if |bars| >= 26 {
      EntriesExtend(bars, lib, keys, Macd);
      r := r[Macd := lib.macd];
      EntriesExtend(bars, lib, keys + {Macd}, MacdSignal);
      r := r[MacdSignal := lib.macdSignal];
      EntriesExtend(bars, lib, keys + {Macd, MacdSignal}, MacdDiff);
      r := r[MacdDiff := lib.macdDiff];
    }
  }

  method AddAdx(bars: seq<Bar>, periods: seq<Period>, lib: LibraryValues, ind: Snapshot)
    returns (r: Snapshot)
    requires ind == Stage(bars, periods, lib, 2)
    ensures r == Stage(bars, periods, lib, 3)
  {
    ghost var keys := KeysAfter(|bars|, periods, 2);
    r := ind;
    if |bars| >= 14 {
      EntriesExtend(bars, lib, keys, Adx);
      r := r[Adx := lib.adx];
      EntriesExtend(bars, lib, keys + {Adx}, AdxPos);
      r := r[AdxPos := lib.adxPos];
      EntriesExtend(bars, lib, keys + {Adx, AdxPos}, AdxNeg);
      r := r[AdxNeg := lib.adxNeg];
    }
  }

  method AddAtr(bars: seq<Bar>, periods: seq<Period>, lib: LibraryValues, ind: Snapshot)
    returns (r: Snapshot)
    requires ind == Stage(bars, periods, lib, 3)
    ensures r == Stage(bars, periods, lib, 4)
  {
    ghost var keys := KeysAfter(|bars|, periods, 3);
    r := ind;
    if |bars| >= 14 {
      EntriesExtend(bars, lib, keys, Atr);
      r := r[Atr := lib.atr];
      // ATR as a percentage of the last close
      EntriesExtend(bars, lib, keys + {Atr}, AtrPct);
      r := r[AtrPct := Scale(Div(r[Atr], Real(LastClose(bars))), 100.0)];
    }
  }

  method AddBollinger(bars: seq<Bar>, periods: seq<Period>, lib: LibraryValues, ind: Snapshot)
    returns (r: Snapshot)
    requires ind == Stage(bars, periods, lib, 4)
    ensures r == Stage(bars, periods, lib, 5)
  {
    ghost var keys := KeysAfter(|bars|, periods, 4);
    r := ind;
    if |bars| >= 20 {
      EntriesExtend(bars, lib, keys, BbPosition);
      r := r[BbPosition := BollingerPosition(LastClose(bars), lib.bbHigh, lib.bbLow)];
      EntriesExtend(bars, lib, keys + {BbPosition}, BbWidth);
      r := r[BbWidth := BollingerWidth(Closes(bars), lib.bbHigh, lib.bbLow)];
    }
  }

  method AddStochastic(bars: seq<Bar>, periods: seq<Period>, lib: LibraryValues, ind: Snapshot)
    returns (r: Snapshot)
    requires ind == Stage(bars, periods, lib, 5)
    ensures r == Stage(bars, periods, lib, 6)
  {
    ghost var keys := KeysAfter(|bars|, periods, 5);
    r := ind;
    if |bars| >= 14 {
      EntriesExtend(bars, lib, keys, StochK);
      r := r[StochK := lib.stochK];
      EntriesExtend(bars, lib, keys + {StochK}, StochD);
      r := r[StochD := lib.stochD];
    }
  }

  method AddVolume(bars: seq<Bar>, periods: seq<Period>, lib: LibraryValues, ind: Snapshot)
    returns (r: Snapshot)
    requires ind == Stage(bars, periods, lib, 6)
    ensures r == Stage(bars, periods, lib, 7)
  {
    ghost var keys := KeysAfter(|bars|, periods, 6);
    r := ind;
    if |bars| >= 20 {
      var avg := MeanOfLast(Volumes(bars), 20);
      EntriesExtend(bars, lib, keys, VolumeSma);
      r := r[VolumeSma := Real(avg)];
      EntriesExtend(bars, lib, keys + {VolumeSma}, VolumeRatio);
      // an all-zero volume window divides 0 by 0
      r := r[VolumeRatio := if avg == 0.0 then NaN else Real(bars[|bars| - 1].volume as real / avg)];
    }
  }

  // ---------------------------------------------------------------------
  // Regime score
  // ---------------------------------------------------------------------

  /** A snapshot lookup with the default used when the key is absent. */
  function Get(ind: Snapshot, k: Key, default: Num): (r: Num)
    ensures k !in ind ==> r == default
    ensures k in ind ==> r == ind[k]
  {
    if k in ind then ind[k] else default
  }

  /** One signal's contribution to the score and the weight it adds. */
  datatype Term = Term(contribution: real, weight: real)

  /** A term whose contribution is at most its weight in magnitude. */
  predicate Bounded(t: Term) { t.weight >= 0.0 && -t.weight <= t.contribution <= t.weight }

  /**
   * Moving-average alignment: +-1 (weight 1) for a full ordering of the 20,
   * 50 and 200-bar averages, +-0.5 (weight 0.5) when only the 20 against
   * the 50-bar average decides, nothing otherwise or when any is zero.
   */
  function SmaTerm(s20: Num, s50: Num, s200: Num): (t: Term)
    ensures Bounded(t)
    ensures t.contribution == t.weight || t.contribution == -t.weight
    ensures t.weight == 1.0 <==>
      Truthy(s20) && Truthy(s50) && Truthy(s200)
      && ((Gt(s20, s50) && Gt(s50, s200)) || (Lt(s20, s50) && Lt(s50, s200)))
    ensures t.weight == 0.5 <==>
      Truthy(s20) && Truthy(s50) && Truthy(s200)
      && !(Gt(s20, s50) && Gt(s50, s200)) && !(Lt(s20, s50) && Lt(s50, s200))
      && (Gt(s20, s50) || Lt(s20, s50))
    ensures t.contribution > 0.0 <==> Truthy(s20) && Truthy(s50) && Truthy(s200) && Gt(s20, s50)
    ensures t.contribution < 0.0 <==> Truthy(s20) && Truthy(s50) && Truthy(s200) && Lt(s20, s50)
  {
    if !(Truthy(s20) && Truthy(s50) && Truthy(s200)) then Term(0.0, 0.0)
    else if Gt(s20, s50) && Gt(s50, s200) then Term(1.0, 1.0)
    else if Lt(s20, s50) && Lt(s50, s200) then Term(-1.0, 1.0)
    else if Gt(s20, s50) then Term(0.5, 0.5)
    else if Lt(s20, s50) then Term(-0.5, 0.5)
    else Term(0.0, 0.0)
  }

  /**
   * RSI, weighted 0.3 whenever it is non-zero: above 70 (overbought) and in
   * [30, 40) (weak momentum) count against, (60, 70] (strong momentum) and
   * below 30 (oversold) count for.
   */
  function RsiTerm(rsi: Num): (t: Term)
    ensures Bounded(t)
    ensures t.weight == if Truthy(rsi) then 0.3 else 0.0
    ensures t.contribution == 0.3 <==>
      Truthy(rsi) && ((Gt(rsi, Real(60.0)) && !Gt(rsi, Real(70.0))) || Lt(rsi, Real(30.0)))
    ensures t.contribution == -0.3 <==>
      Truthy(rsi) && (Gt(rsi, Real(70.0)) || (!Lt(rsi, Real(30.0)) && Lt(rsi, Real(40.0))))
    ensures t.contribution == 0.0 || t.contribution == 0.3 || t.contribution == -0.3
  {
    if !Truthy(rsi) then Term(0.0, 0.0)
    else if Gt(rsi, Real(70.0)) then Term(-0.3, 0.3)
    else if Gt(rsi, Real(60.0)) then Term(0.3, 0.3)
    else if Lt(rsi, Real(30.0)) then Term(0.3, 0.3)
    else if Lt(rsi, Real(40.0)) then Term(-0.3, 0.3)
    else Term(0.0, 0.3)
  }

  /** MACD against its signal line, always weighted 0.4. */
  function MacdTerm(macd: Num, signal: Num): (t: Term)
    ensures Bounded(t)
    ensures t.weight == 0.4
    ensures t.contribution == 0.4 <==> Gt(macd, signal)
    ensures t.contribution == -0.4 <==> !Gt(macd, signal)
  {
    Term(if Gt(macd, signal) then 0.4 else -0.4, 0.4)
  }

  /** ADX above 25 with non-zero directional indices: +-0.5 by the dominant direction. */
  function AdxTerm(adx: Num, pos: Num, neg: Num): (t: Term)
    ensures Bounded(t)
    ensures t.weight == if Truthy(adx) && Truthy(pos) && Truthy(neg) && Gt(adx, Real(25.0)) then 0.5 else 0.0
    ensures t.contribution == 0.5 <==>
      Truthy(adx) && Truthy(pos) && Truthy(neg) && Gt(adx, Real(25.0)) && Gt(pos, neg)
    ensures t.contribution == -0.5 <==>
      Truthy(adx) && Truthy(pos) && Truthy(neg) && Gt(adx, Real(25.0)) && !Gt(pos, neg)
  {
    if Truthy(adx) && Truthy(pos) && Truthy(neg) && Gt(adx, Real(25.0)) then
      Term(if Gt(pos, neg) then 0.5 else -0.5, 0.5)
    else Term(0.0, 0.0)
  }

  /** Bollinger position: `(position - 0.5) * 0.4`; its weight 0.4 always counts. */
  function BollingerContribution(bb: Num): Num
  {
    Scale(Sub(bb, Real(0.5)), 0.4)
  }

  /** The snapshot's inputs to the score, each with the default used when absent. */
  datatype ScoreInputs = ScoreInputs(
    sma20: Num, sma50: Num, sma200: Num, rsi: Num, macd: Num, macdSignal: Num,
    adx: Num, adxPos: Num, adxNeg: Num, bbPosition: Num)

  function InputsOf(ind: Snapshot): ScoreInputs
  {
    ScoreInputs(
      Get(ind, Sma(20), Real(0.0)), Get(ind, Sma(50), Real(0.0)), Get(ind, Sma(200), Real(0.0)),
      Get(ind, Rsi, Real(50.0)), Get(ind, Macd, Real(0.0)), Get(ind, MacdSignal, Real(0.0)),
      Get(ind, Adx, Real(0.0)), Get(ind, AdxPos, Real(0.0)), Get(ind, AdxNeg, Real(0.0)),
      Get(ind, BbPosition, Real(0.5)))
  }

  /** A snapshot without MACD reads 0 against 0, which is no crossover: it counts -0.4 at weight 0.4. */
  lemma MissingMacdCountsBearish(ind: Snapshot)
    requires Macd !in ind && MacdSignal !in ind
    ensures var x := InputsOf(ind); MacdTerm(x.macd, x.macdSignal) == Term(-0.4, 0.4)
  {
  }

  /** The sum of the weights of the signals that took part (Bollinger's included). */
  function TotalWeight(x: ScoreInputs): (w: real)
    ensures w >= 0.8
  {
    SmaTerm(x.sma20, x.sma50, x.sma200).weight + RsiTerm(x.rsi).weight
    + MacdTerm(x.macd, x.macdSignal).weight + AdxTerm(x.adx, x.adxPos, x.adxNeg).weight + 0.4
  }

  /** The sum of all contributions; NaN exactly when the Bollinger position is NaN. */
  function RawScore(x: ScoreInputs): Num
  {
    var thresholded :=
      SmaTerm(x.sma20, x.sma50, x.sma200).contribution + RsiTerm(x.rsi).contribution
      + MacdTerm(x.macd, x.macdSignal).contribution + AdxTerm(x.adx, x.adxPos, x.adxNeg).contribution;
    Add(Real(thresholded), BollingerContribution(x.bbPosition))
  }

  /**
   * `max(-1.0, min(1.0, x))` on a float. A NaN argument yields 1.0: `min`
   * keeps its first argument because `NaN < 1.0` is false.
   */
  function ClampScore(x: Num): (s: real)
    ensures -1.0 <= s <= 1.0
    ensures x.Real? && -1.0 <= x.v <= 1.0 ==> s == x.v
    ensures x.NaN? ==> s == 1.0
  {
    if x.NaN? then 1.0 else Max(-1.0, Min(1.0, x.v))
  }

  /** The score normalised by the included weights, before clamping. */
  function NormalizedScore(x: ScoreInputs): Num
  {
    Div(RawScore(x), Real(TotalWeight(x)))
  }

  /** The regime score of a snapshot, in [-1, 1]. */
  function RegimeScore(ind: Snapshot): real
  {
    ClampScore(NormalizedScore(InputsOf(ind)))
  }

  /**
   * Accumulates the score signal by signal and the weights in a list, then
   * normalises by the summed weights and clamps to [-1, 1].
   */
  method CalculateRegimeScore(ind: Snapshot) returns (s: real)
    ensures s == RegimeScore(ind)
    ensures -1.0 <= s <= 1.0
  {
    var x := InputsOf(ind);
    var score, weights := ScoreAlignment(x.sma20, x.sma50, x.sma200);
    score, weights := ScoreRsi(x.rsi, score, weights);
    score, weights := ScoreMacd(x.macd, x.macdSignal, score, weights);
    score, weights := ScoreAdx(x.adx, x.adxPos, x.adxNeg, score, weights);

    // the Bollinger default is a number, never None: its weight always counts
    SumAppend(weights, 0.4);
    var total := Add(Real(score), BollingerContribution(x.bbPosition));
    weights := weights + [0.4];
    assert total == RawScore(x);
    assert Sum(weights) == TotalWeight(x);

    var totalWeight := if |weights| > 0 then Sum(weights) else 1.0;
    var normalized := if totalWeight > 0.0 then Div(total, Real(totalWeight)) else Real(0.0);
    s := ClampScore(normalized);
  }

  /** The moving-average alignment step of the score: starts the sum and the weights. */
  method ScoreAlignment(s20: Num, s50: Num, s200: Num) returns (score: real, weights: seq<real>)
    ensures score == SmaTerm(s20, s50, s200).contribution
    ensures Sum(weights) == SmaTerm(s20, s50, s200).weight
  {
    score := 0.0;
    weights := [];
    if Truthy(s20) && Truthy(s50) && Truthy(s200) {
      if Gt(s20, s50) && Gt(s50, s200) {
        score := score + 1.0;
        weights := weights + [1.0];
      } else if Lt(s20, s50) && Lt(s50, s200) {
        score := score - 1.0;
        weights := weights + [1.0];
      } else if Gt(s20, s50) {
        score := score + 0.5;
        weights := weights + [0.5];
      } else if Lt(s20, s50) {
        score := score - 0.5;
        weights := weights + [0.5];
      }
    }
  }

  /** The RSI step of the score. */
  method ScoreRsi(rsi: Num, score: real, weights: seq<real>) returns (score': real, weights': seq<real>)
    ensures score' == score + RsiTerm(rsi).contribution
    ensures Sum(weights') == Sum(weights) + RsiTerm(rsi).weight
  {
    score', weights' := score, weights;
    if Truthy(rsi) {
      if Gt(rsi, Real(70.0)) {
        score' := score' - 0.3;
      } else if Gt(rsi, Real(60.0)) {
        score' := score' + 0.3;
      } else if Lt(rsi, Real(30.0)) {
        score' := score' + 0.3;
      } else if Lt(rsi, Real(40.0)) {
        score' := score' - 0.3;
      }
      weights' := weights' + [0.3];
      SumAppend(weights, 0.3);
    }
  }

  /** The MACD step of the score; the MACD defaults are numbers, so it always counts. */
  method ScoreMacd(macd: Num, signal: Num, score: real, weights: seq<real>) returns (score': real, weights': seq<real>)
    ensures score' == score + MacdTerm(macd, signal).contribution
    ensures Sum(weights') == Sum(weights) + MacdTerm(macd, signal).weight
  {
    if Gt(macd, signal) {
      score' := score + 0.4;
    } else {
      score' := score - 0.4;
    }
    weights' := weights + [0.4];
    SumAppend(weights, 0.4);
  }

  /** The ADX step of the score. */
  method ScoreAdx(adx: Num, pos: Num, neg: Num, score: real, weights: seq<real>) returns (score': real, weights': seq<real>)
    ensures score' == score + AdxTerm(adx, pos, neg).contribution
    ensures Sum(weights') == Sum(weights) + AdxTerm(adx, pos, neg).weight
  {
    score', weights' := score, weights;
    if Truthy(adx) && Truthy(pos) && Truthy(neg) {
      if Gt(adx, Real(25.0)) {
        if Gt(pos, neg) {
          score' := score' + 0.5;
        } else {
          score' := score' - 0.5;
        }
        weights' := weights' + [0.5];
        SumAppend(weights, 0.5);
      }
    }
  }

  /** BULLISH above 0.3, BEARISH below -0.3, SIDEWAYS in between. */
  function RegimeLabel(score: real): (g: Regime)
    ensures g == Bullish <==> score > 0.3
    ensures g == Bearish <==> score < -0.3
    ensures g == Sideways <==> -0.3 <= score <= 0.3
  {
    if score > 0.3 then Bullish else if score < -0.3 then Bearish else Sideways
  }

  /**
   * Trend strength from ADX (0 when absent): ADX/25 below 25, 1.0 from 25
   * up (including `min(1, ADX/50)` from 50, which is 1.0 as well).
   */
  function TrendStrength(ind: Snapshot): (t: real)
    ensures t <= 1.0
    ensures !Truthy(Get(ind, Adx, Real(0.0))) ==> t == 0.0
    ensures Ge(Get(ind, Adx, Real(0.0)), Real(25.0)) ==> t == 1.0
    ensures !Lt(Get(ind, Adx, Real(0.0)), Real(0.0)) ==> t >= 0.0
    ensures var adx := Get(ind, Adx, Real(0.0));
      adx.Real? && adx.v != 0.0 && adx.v < 25.0 ==> t == adx.v / 25.0
    ensures Get(ind, Adx, Real(0.0)).NaN? ==> t == 1.0
  {
    var adx := Get(ind, Adx, Real(0.0));
    if !Truthy(adx) then 0.0
    else if Lt(adx, Real(25.0)) then adx.v / 25.0
    else if Lt(adx, Real(50.0)) then 1.0
    else if adx.NaN? then 1.0     // `min(1.0, NaN)` keeps 1.0
    else Min(1.0, adx.v / 50.0)
  }

  /** The indicator values reported with a classification. */
  function Summary(bars: seq<Bar>, ind: Snapshot): IndicatorSummary
    requires |bars| > 0
  {
    IndicatorSummary(
      LastClose(bars),
      Get(ind, Sma(20), Real(0.0)), Get(ind, Sma(50), Real(0.0)), Get(ind, Sma(200), Real(0.0)),
      Get(ind, Rsi, Real(0.0)), Get(ind, Macd, Real(0.0)), Get(ind, MacdSignal, Real(0.0)),
      Get(ind, Adx, Real(0.0)), Get(ind, Atr, Real(0.0)), Get(ind, BbPosition, Real(0.0)))
  }

  /**
   * Classifies a series: the UNKNOWN sentinel when the series is missing or
   * shorter than the longest moving average, otherwise the label of the
   * regime score with confidence |score| (at most 1).
   */
  method Analyze(bars: Option<seq<Bar>>, periods: seq<Period>, lib: LibraryValues)
    returns (r: RegimeResult)
    requires |periods| > 0
    ensures bars.None? || |bars.value| < MaxPeriod(periods) ==> r == Insufficient
    ensures bars.Some? && |bars.value| >= MaxPeriod(periods) ==>
      var ind := SnapshotOf(bars.value, periods, lib);
      var score := RegimeScore(ind);
      && r.regime == RegimeLabel(score)
      && r.confidence == Min(Abs(score), 1.0)
      && r.trendStrength == TrendStrength(ind)
      && r.volatility == Get(ind, AtrPct, Real(0.0))
      && r.indicators == Some(Summary(bars.value, ind))
    ensures 0.0 <= r.confidence <= 1.0
    ensures r.regime == Bullish ==> r.confidence > 0.3
    ensures r.regime == Bearish ==> r.confidence > 0.3
    ensures r.regime != Error
  {
    if bars.None? || |bars.value| < MaxPeriod(periods) {
      return Insufficient;
    }
    var ind := CalculateIndicators(bars.value, periods, lib);
    var score := CalculateRegimeScore(ind);
    var regime := if score > 0.3 then Bullish else if score < -0.3 then Bearish else Sideways;
    var confidence := Min(Abs(score), 1.0);
    var trend := TrendStrength(ind);
    var volatility := Get(ind, AtrPct, Real(0.0));
    r := RegimeResult(regime, confidence, trend, volatility, Some(Summary(bars.value, ind)));
  }

  // ---------------------------------------------------------------------
  // Properties of the score
  // ---------------------------------------------------------------------

  /**
   * When the last close lies within the Bollinger bands, every contribution
   * is at most its weight, so the normalised score is already in [-1, 1]
   * and the clamp changes nothing.
   */
  lemma ScoreWithinBandsNeedsNoClamp(ind: Snapshot)
    requires Get(ind, BbPosition, Real(0.5)).Real?
    requires 0.0 <= Get(ind, BbPosition, Real(0.5)).v <= 1.0
    ensures NormalizedScore(InputsOf(ind)).Real?
    ensures -1.0 <= NormalizedScore(InputsOf(ind)).v <= 1.0
    ensures RegimeScore(ind) == NormalizedScore(InputsOf(ind)).v
  {
    var x := InputsOf(ind);
    var w := TotalWeight(x);
    var bb := BollingerContribution(x.bbPosition);
    assert -0.2 <= bb.v <= 0.2;
    var raw := RawScore(x).v;
    assert -w <= raw <= w;
    DivWithin(raw, w);
  }

  lemma DivWithin(x: real, w: real)
    requires w > 0.0 && -w <= x <= w
    ensures -1.0 <= x / w <= 1.0
  {
  }

  /**
   * A NaN Bollinger position makes the whole sum NaN, and the clamp turns
   * NaN into 1.0: the series is labelled BULLISH with confidence 1.
   */
  lemma NaNBollingerReadsAsBullish(ind: Snapshot)
    requires BbPosition in ind && ind[BbPosition].NaN?
    ensures RegimeScore(ind) == 1.0
    ensures RegimeLabel(RegimeScore(ind)) == Bullish
  {
  }

  /**
   * Full bullish moving-average order, RSI 65, MACD above its signal, ADX 30
   * with the positive index dominant and Bollinger position 0.9 score
   * (1 + 0.3 + 0.4 + 0.5 + 0.16) / 2.6 = 2.36 / 2.6, which is BULLISH.
   */
  lemma BullishExample(ind: Snapshot, s20: real, s50: real, s200: real, macd: real, signal: real, pos: real, neg: real)
    requires s20 > s50 > s200 > 0.0
    requires macd > signal
    requires pos > neg > 0.0
    requires ind == map[Sma(20) := Real(s20), Sma(50) := Real(s50), Sma(200) := Real(s200),
                        Rsi := Real(65.0), Macd := Real(macd), MacdSignal := Real(signal),
                        Adx := Real(30.0), AdxPos := Real(pos), AdxNeg := Real(neg),
                        BbPosition := Real(0.9)]
    ensures RegimeScore(ind) == 2.36 / 2.6
    ensures RegimeLabel(RegimeScore(ind)) == Bullish
  {
    var x := InputsOf(ind);
    assert x == ScoreInputs(Real(s20), Real(s50), Real(s200), Real(65.0), Real(macd), Real(signal),
                            Real(30.0), Real(pos), Real(neg), Real(0.9));
    assert SmaTerm(x.sma20, x.sma50, x.sma200) == Term(1.0, 1.0);
    assert RsiTerm(x.rsi) == Term(0.3, 0.3);
    assert MacdTerm(x.macd, x.macdSignal) == Term(0.4, 0.4);
    assert AdxTerm(x.adx, x.adxPos, x.adxNeg) == Term(0.5, 0.5);
  }
}

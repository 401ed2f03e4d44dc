/**
 * The decision engine: turns the regime classification, the walk-forward
 * recommendation and the risk verdict of one symbol into scores in
 * [-1, 1], weighs them 0.4 / 0.4 / 0.2 into one combined score, picks
 * BUY / SELL / HOLD, lets an open position override that choice, and
 * explains the decision line by line. Over a portfolio it decides every
 * symbol and ranks the decisions by confidence.
 */
module DecisionEngine {
  import opened Values
  import Regime
  import WalkForward
  import opened Risk

  // ---------------------------------------------------------------------
  // Inputs as the engine reads them
  // ---------------------------------------------------------------------

  /** The fields of a regime analysis the engine reads; absent ones are UNKNOWN / 0. */
  datatype RegimeView = RegimeView(regime: Regime.Regime, confidence: real, trendStrength: real)

  /** The fields of a walk-forward result the engine reads; absent ones are HOLD / 0. */
  datatype WalkForwardView = WalkForwardView(recommendation: Action, confidence: real, expectedReturn: real, sharpe: real)

  const NoRegime := RegimeView(Regime.Unknown, 0.0, 0.0)
  const NoWalkForward := WalkForwardView(Hold, 0.0, 0.0, 0.0)

  function RegimeViewOf(r: Option<Regime.RegimeResult>): RegimeView
  {
    if r.Some? then RegimeView(r.value.regime, r.value.confidence, r.value.trendStrength) else NoRegime
  }

  function WalkForwardViewOf(r: Option<WalkForward.OptimizeResult>): WalkForwardView
  {
    if r.Some? then WalkForwardView(r.value.recommendation, r.value.confidence, r.value.expectedReturn, r.value.sharpe)
    else NoWalkForward
  }

  // ---------------------------------------------------------------------
  // Interpreting each analysis as a score
  // ---------------------------------------------------------------------

  /** BUY above 0.3, SELL below -0.3, HOLD in between. */
  function ActionFor(score: real): (a: Action)
    ensures a == Buy <==> score > 0.3
    ensures a == Sell <==> score < -0.3
  {
    if score > 0.3 then Buy else if score < -0.3 then Sell else Hold
  }

  datatype RegimeOpinion = RegimeOpinion(score: real, view: RegimeView, recommendation: Action)

  /** Bullish counts as confidence times trend strength, bearish as its negation, anything else as 0. */
  function InterpretRegime(a: RegimeView): (r: RegimeOpinion)
    ensures a.regime == Regime.Bullish ==> r.score == a.confidence * a.trendStrength
    ensures a.regime == Regime.Bearish ==> r.score == -(a.confidence * a.trendStrength)
    ensures a.regime != Regime.Bullish && a.regime != Regime.Bearish ==> r.score == 0.0
    ensures 0.0 <= a.confidence <= 1.0 && 0.0 <= a.trendStrength <= 1.0 ==> -1.0 <= r.score <= 1.0
    ensures r.recommendation == ActionFor(r.score) && r.view == a
  {
    var score :=
      if a.regime == Regime.Bullish then a.confidence * a.trendStrength
      else if a.regime == Regime.Bearish then -a.confidence * a.trendStrength
      else 0.0;
    if 0.0 <= a.confidence <= 1.0 && 0.0 <= a.trendStrength <= 1.0 then
      ProductWithinUnit(a.confidence, a.trendStrength);
      RegimeOpinion(score, a, ActionFor(score))
    else
      RegimeOpinion(score, a, ActionFor(score))
  }

  lemma ProductWithinUnit(x: real, y: real)
    requires 0.0 <= x <= 1.0 && 0.0 <= y <= 1.0
    ensures 0.0 <= x * y <= 1.0
  {
    assert x * y >= 0.0 by { assert 0.0 * y <= x * y; }
    calc {
      x * y;
    ==
      y - (1.0 - x) * y;
    <=  { assert (1.0 - x) * y >= 0.0 * y; }
      y;
    <=
      1.0;
    }
  }

  datatype WalkForwardOpinion = WalkForwardOpinion(score: real, view: WalkForwardView)

  /** Python's `max(-1, min(1, x))` on a number. */
  function Clamp(x: real): (c: real)
    ensures -1.0 <= c <= 1.0
    ensures -1.0 <= x <= 1.0 ==> c == x
    ensures x > 1.0 ==> c == 1.0
    ensures x < -1.0 ==> c == -1.0
  {
    Max(-1.0, Min(1.0, x))
  }

  /** The Sharpe adjustment of the walk-forward score: x1.2 above 1.5, x0.8 below 0.5, x1 between. */
  function SharpeBoost(sharpe: real): (f: real)
    ensures sharpe > 1.5 ==> f == 1.2
    ensures 0.5 <= sharpe <= 1.5 ==> f == 1.0
    ensures sharpe < 0.5 ==> f == 0.8
  {
    if sharpe > 1.5 then 1.2 else if sharpe < 0.5 then 0.8 else 1.0
  }

  /**
   * Plus or minus the confidence by recommendation (0 for HOLD), boosted
   * by 1.2 for a Sharpe value above 1.5 and damped by 0.8 below 0.5, then
   * clamped to [-1, 1].
   */
  function InterpretWalkForward(a: WalkForwardView): (r: WalkForwardOpinion)
    ensures -1.0 <= r.score <= 1.0 && r.view == a
    ensures r.score > 0.0 <==> (a.recommendation == Buy && a.confidence > 0.0) || (a.recommendation == Sell && a.confidence < 0.0)
    ensures r.score < 0.0 <==> (a.recommendation == Buy && a.confidence < 0.0) || (a.recommendation == Sell && a.confidence > 0.0)
    ensures a.recommendation == Hold ==> r.score == 0.0
    ensures a.recommendation == Buy ==> r.score == Clamp(a.confidence * SharpeBoost(a.sharpe))
    ensures a.recommendation == Sell ==> r.score == Clamp(-a.confidence * SharpeBoost(a.sharpe))
  {
    var base := if a.recommendation == Buy then a.confidence else if a.recommendation == Sell then -a.confidence else 0.0;
    WalkForwardOpinion(Clamp(base * SharpeBoost(a.sharpe)), a)
  }

  datatype RiskOpinion = RiskOpinion(score: real, approved: bool, warnings: seq<Message>, reason: Option<Message>)

  /** -1 when refused, -0.5 with more than two warnings, 0 with one or two, 0.5 when clear. */
  function InterpretRisk(e: Evaluation): (r: RiskOpinion)
    ensures r.score == -1.0 <==> !e.approved
    ensures e.approved ==> (r.score == 0.5 <==> e.warnings == [])
    ensures r.approved == e.approved && r.warnings == e.warnings && r.reason == e.reason
    ensures -1.0 <= r.score <= 0.5
    ensures e.approved && |e.warnings| > 2 ==> r.score == -0.5
    ensures e.approved && 1 <= |e.warnings| <= 2 ==> r.score == 0.0
  {
    var score :=
      if !e.approved then -1.0
      else if |e.warnings| > 2 then -0.5
      else if |e.warnings| > 0 then 0.0
      else 0.5;
    RiskOpinion(score, e.approved, e.warnings, e.reason)
  }

  // ---------------------------------------------------------------------
  // Combining and adjusting for an open position
  // ---------------------------------------------------------------------

  const RegimeWeight: real := 0.4
  const WalkForwardWeight: real := 0.4
  const RiskWeight: real := 0.2

  /**
   * The weighted sum of the three scores. With the regime and walk-forward
   * scores in [-1, 1] and the risk score in [-1, 0.5] it stays in
   * [-1, 0.9]: risk contributes at most 0.1.
   */
  function CombinedScore(regime: RegimeOpinion, wf: WalkForwardOpinion, risk: RiskOpinion): (s: real)
    ensures -1.0 <= regime.score <= 1.0 && -1.0 <= wf.score <= 1.0 && -1.0 <= risk.score <= 0.5 ==>
      -1.0 <= s <= 0.9
  {
    regime.score * RegimeWeight + wf.score * WalkForwardWeight + risk.score * RiskWeight
  }

  /** A refused trade costs 0.2, so BUY then needs the other two to add more than 0.5. */
  lemma RefusedNeedsStrongSignals(regime: RegimeOpinion, wf: WalkForwardOpinion, risk: RiskOpinion)
    requires !risk.approved && risk.score == -1.0
    ensures ActionFor(CombinedScore(regime, wf, risk)) == Buy <==> regime.score * 0.4 + wf.score * 0.4 > 0.5
  {
  }

  /**
   * The position override, first match wins: a gain above 10% is sold
   * (-0.7) on a bearish regime or a negative expected return; a loss beyond
   * 10% is sold (-0.8) when both analyses are bearish, or kept as a
   * weakened BUY (x0.7) when the regime is bullish and the action is BUY;
   * otherwise a BUY becomes HOLD at half the score, and anything else is
   * kept.
   */
  function AdjustForPosition(action: Action, score: real, position: Holding, regime: RegimeView, wf: WalkForwardView): (r: (Action, real))
    ensures var plpc := position.unrealizedPlpc;
      && (plpc > 0.10 && (regime.regime == Regime.Bearish || wf.expectedReturn < 0.0) ==> r == (Sell, -0.7))
      && (plpc < -0.10 && regime.regime == Regime.Bearish && wf.recommendation == Sell ==> r == (Sell, -0.8))
      && ((plpc < -0.10 && regime.regime == Regime.Bullish && action == Buy) ==> r == (Buy, score * 0.7))
    ensures var plpc := position.unrealizedPlpc;
      var overridden :=
        || (plpc > 0.10 && (regime.regime == Regime.Bearish || wf.expectedReturn < 0.0))
        || (plpc < -0.10 && regime.regime == Regime.Bearish && wf.recommendation == Sell)
        || (plpc < -0.10 && regime.regime == Regime.Bullish && action == Buy);
      && (!overridden && action == Buy ==> r == (Hold, score * 0.5))
      && (!overridden && action != Buy ==> r == (action, score))
  {
    var plpc := position.unrealizedPlpc;
    if plpc > 0.10 && (regime.regime == Regime.Bearish || wf.expectedReturn < 0.0) then (Sell, -0.7)
    else if plpc < -0.10 && regime.regime == Regime.Bearish && wf.recommendation == Sell then (Sell, -0.8)
    else if plpc < -0.10 && regime.regime == Regime.Bullish && action == Buy then (Buy, score * 0.7)
    else if action == Buy then (Hold, score * 0.5)
    else (action, score)
  }

  /**
   * The override never turns HOLD or SELL into BUY, a SELL stays a SELL,
   * and a BUY survives only as the weakened BUY on a losing position in a
   * bullish regime.
   */
  lemma AdjustmentDirections(action: Action, score: real, position: Holding, regime: RegimeView, wf: WalkForwardView)
    ensures var r := AdjustForPosition(action, score, position, regime, wf);
      && (r.0 == Buy ==> (action == Buy && r.1 == score * 0.7 && position.unrealizedPlpc < -0.10 && regime.regime == Regime.Bullish))
      && (action == Sell ==> r.0 == Sell)
      && (action == Hold ==> r.0 != Buy)
      && (action == Buy && r.0 == Hold ==> r.1 == score * 0.5)
      && (action == Buy && !(position.unrealizedPlpc < -0.10 && regime.regime == Regime.Bullish) && r.0 != Sell
          ==> r == (Hold, score * 0.5))
  {
  }

  // ---------------------------------------------------------------------
  // Reasoning
  // ---------------------------------------------------------------------

  /** One line of the explanation. */
  datatype ReasonLine =
    | RegimeSupports(confidence: real, trendStrength: real)
    | RegimeOpposes(confidence: real, trendStrength: real)
    | RegimeNeutral(regime: Regime.Regime, confidence: real)
    | WalkForwardBuy(expectedReturn: real, sharpe: real)
    | WalkForwardSell(expectedReturn: real, sharpe: real)
    | WalkForwardNoSignal(sharpe: real)
    | RiskFailed(reason: Option<Message>)
    | RiskPassedWithWarnings
    | WarningBullet(warning: Message)
    | RiskClear
    | Recommend(action: Action, confidence: real)
    | Inconclusive(action: Action)

  function RegimeLine(r: RegimeOpinion): ReasonLine
  {
    if r.view.regime == Regime.Bullish then RegimeSupports(r.view.confidence, r.view.trendStrength)
    else if r.view.regime == Regime.Bearish then RegimeOpposes(r.view.confidence, r.view.trendStrength)
    else RegimeNeutral(r.view.regime, r.view.confidence)
  }

  function WalkForwardLine(w: WalkForwardOpinion): ReasonLine
  {
    if w.view.recommendation == Buy then WalkForwardBuy(w.view.expectedReturn, w.view.sharpe)
    else if w.view.recommendation == Sell then WalkForwardSell(w.view.expectedReturn, w.view.sharpe)
    else WalkForwardNoSignal(w.view.sharpe)
  }

  /** The risk lines: the failure, or the warnings header and up to two warnings, or all clear. */
  function RiskLines(k: RiskOpinion): seq<ReasonLine>
  {
    if !k.approved then [RiskFailed(k.reason)]
    else if k.warnings != [] then
      var shown := if |k.warnings| <= 2 then k.warnings else k.warnings[..2];
      [RiskPassedWithWarnings] + seq(|shown|, i requires 0 <= i < |shown| => WarningBullet(shown[i]))
    else [RiskClear]
  }

  function FinalLine(action: Action, confidence: real): ReasonLine
  {
    if action == Buy || action == Sell then Recommend(action, confidence) else Inconclusive(action)
  }

  /** The explanation: regime, walk-forward, risk, then the recommendation. */
  function Reasoning(regime: RegimeOpinion, wf: WalkForwardOpinion, risk: RiskOpinion, action: Action, confidence: real): seq<ReasonLine>
  {
    [RegimeLine(regime), WalkForwardLine(wf)] + RiskLines(risk) + [FinalLine(action, confidence)]
  }

  /**
   * The explanation has four to six lines: regime first, walk-forward
   * second, the recommendation last, and between them the risk line plus
   * at most the first two warnings.
   */
  lemma ReasoningShape(regime: RegimeOpinion, wf: WalkForwardOpinion, risk: RiskOpinion, action: Action, confidence: real)
    ensures var r := Reasoning(regime, wf, risk, action, confidence);
      && 4 <= |r| <= 6
      && r[0] == RegimeLine(regime) && r[1] == WalkForwardLine(wf) && r[|r| - 1] == FinalLine(action, confidence)
      && (|r| > 4 <==> risk.approved && risk.warnings != [])
      && (risk.approved && risk.warnings != [] ==>
            |r| == 4 + (if |risk.warnings| < 2 then |risk.warnings| else 2)
            && forall i :: 3 <= i < |r| - 1 ==> r[i] == WarningBullet(risk.warnings[i - 3]))
  {
    var r := Reasoning(regime, wf, risk, action, confidence);
    if risk.approved && risk.warnings != [] {
      var lines := RiskLines(risk);
      assert r == [RegimeLine(regime), WalkForwardLine(wf)] + lines + [FinalLine(action, confidence)];
      forall i | 3 <= i < |r| - 1 ensures r[i] == WarningBullet(risk.warnings[i - 3]) {
        assert r[i] == lines[i - 2];
      }
    }
  }

  /** Appends the risk lines: the failure, or the warnings header and up to two warnings, or all clear. */
  method AppendRiskLines(head: seq<ReasonLine>, risk: RiskOpinion) returns (reasoning: seq<ReasonLine>)
    ensures reasoning == head + RiskLines(risk)
  {
    if !risk.approved {
      reasoning := head + [RiskFailed(risk.reason)];
    } else if risk.warnings != [] {
      reasoning := head + [RiskPassedWithWarnings];
      var shown := if |risk.warnings| <= 2 then risk.warnings else risk.warnings[..2];
      for i := 0 to |shown|
        invariant reasoning == head + [RiskPassedWithWarnings] + seq(i, j requires 0 <= j < i => WarningBullet(shown[j]))
      {
        reasoning := reasoning + [WarningBullet(shown[i])];
      }
    } else {
      reasoning := head + [RiskClear];
    }
  }

  /** Builds the explanation line by line, listing at most the first two warnings. */
  method GenerateReasoning(regime: RegimeOpinion, wf: WalkForwardOpinion, risk: RiskOpinion, action: Action, confidence: real)
    returns (reasoning: seq<ReasonLine>)
    ensures reasoning == Reasoning(regime, wf, risk, action, confidence)
  {
    var regimeLine;
    if regime.view.regime == Regime.Bullish {
      regimeLine := RegimeSupports(regime.view.confidence, regime.view.trendStrength);
    } else if regime.view.regime == Regime.Bearish {
      regimeLine := RegimeOpposes(regime.view.confidence, regime.view.trendStrength);
    } else {
      regimeLine := RegimeNeutral(regime.view.regime, regime.view.confidence);
    }

    var wfLine;
    if wf.view.recommendation == Buy {
      wfLine := WalkForwardBuy(wf.view.expectedReturn, wf.view.sharpe);
    } else if wf.view.recommendation == Sell {
      wfLine := WalkForwardSell(wf.view.expectedReturn, wf.view.sharpe);
    } else {
      wfLine := WalkForwardNoSignal(wf.view.sharpe);
    }

    var finalLine;
    if action == Buy || action == Sell {
      finalLine := Recommend(action, confidence);
    } else {
      finalLine := Inconclusive(action);
    }

    reasoning := AppendRiskLines([regimeLine, wfLine], risk);
    reasoning := reasoning + [finalLine];
  }

  // ---------------------------------------------------------------------
  // One decision
  // ---------------------------------------------------------------------

  datatype Decision = Decision(
    symbol: string, action: Action, confidence: real, combinedScore: real,
    positionSize: real, positionValue: real, reasoning: seq<ReasonLine>,
    regime: RegimeOpinion, walkForward: WalkForwardOpinion, risk: RiskOpinion,
    warnings: seq<Message>)

  /** The action and score before reasoning: thresholds, then the override when a position is held. */
  function Verdict(regime: RegimeView, wf: WalkForwardView, risk: Evaluation, position: Option<Holding>): (r: (Action, real))
    ensures position.None? ==> (r.0 == Buy <==> r.1 > 0.3) && (r.0 == Sell <==> r.1 < -0.3)
    ensures r.0 == Buy ==> r.1 > 0.0
    ensures r.0 == Sell ==> r.1 < 0.0
    ensures 0.0 <= regime.confidence <= 1.0 && 0.0 <= regime.trendStrength <= 1.0 ==> -1.0 <= r.1 <= 0.9
  {
    var score := CombinedScore(InterpretRegime(regime), InterpretWalkForward(wf), InterpretRisk(risk));
    if position.Some? then AdjustForPosition(ActionFor(score), score, position.value, regime, wf)
    else (ActionFor(score), score)
  }

  /** The decision for one symbol. */
  function DecisionOf(symbol: string, regime: RegimeView, wf: WalkForwardView, risk: Evaluation, position: Option<Holding>): (d: Decision)
    ensures d.symbol == symbol
    ensures (d.action, d.combinedScore) == Verdict(regime, wf, risk, position)
    ensures 0.0 <= d.confidence <= 1.0
    ensures d.confidence == Min(Abs(d.combinedScore), 1.0)
    ensures d.positionSize == risk.positionSize && d.positionValue == risk.positionValue && d.warnings == risk.warnings
    ensures 4 <= |d.reasoning| <= 6
  {
    var r := InterpretRegime(regime);
    var w := InterpretWalkForward(wf);
    var k := InterpretRisk(risk);
    var v := Verdict(regime, wf, risk, position);
    var confidence := Min(Abs(v.1), 1.0);
    ReasoningShape(r, w, k, v.0, confidence);
    Decision(symbol, v.0, confidence, v.1, risk.positionSize, risk.positionValue,
             Reasoning(r, w, k, v.0, confidence), r, w, k, risk.warnings)
  }

  /** Without a position the action is the threshold of the combined score, which lies in [-1, 0.9]. */
  lemma DecisionWithoutPosition(symbol: string, regime: RegimeView, wf: WalkForwardView, risk: Evaluation)
    requires 0.0 <= regime.confidence <= 1.0 && 0.0 <= regime.trendStrength <= 1.0
    ensures var d := DecisionOf(symbol, regime, wf, risk, None);
      && d.action == ActionFor(d.combinedScore)
      && -1.0 <= d.combinedScore <= 0.9
      && d.confidence == Abs(d.combinedScore)
  {
  }

  /** Makes the decision for one symbol, writing out its reasoning. */
  method MakeDecision(symbol: string, regime: RegimeView, wf: WalkForwardView, risk: Evaluation, position: Option<Holding>)
    returns (d: Decision)
    ensures d == DecisionOf(symbol, regime, wf, risk, position)
  {
    var regimeOpinion := InterpretRegime(regime);
    var wfOpinion := InterpretWalkForward(wf);
    var riskOpinion := InterpretRisk(risk);
    var score := CombinedScore(regimeOpinion, wfOpinion, riskOpinion);
    var action := ActionFor(score);
    if position.Some? {
      var adjusted := AdjustForPosition(action, score, position.value, regime, wf);
      action, score := adjusted.0, adjusted.1;
    }
    var confidence := Min(Abs(score), 1.0);
    var reasoning := GenerateReasoning(regimeOpinion, wfOpinion, riskOpinion, action, confidence);
    d := Decision(symbol, action, confidence, score, risk.positionSize, risk.positionValue,
                  reasoning, regimeOpinion, wfOpinion, riskOpinion, risk.warnings);
  }

  // ---------------------------------------------------------------------
  // Portfolio
  // ---------------------------------------------------------------------

  /** Inserts `d` after every decision at least as confident: a stable step of the descending sort. */
  function Insert(d: Decision, sorted: seq<Decision>): (r: seq<Decision>)
    ensures multiset(r) == multiset(sorted) + multiset{d}
    ensures |r| == |sorted| + 1
  {
    if sorted == [] then [d]
    else if sorted[0].confidence >= d.confidence then
      assert sorted == [sorted[0]] + sorted[1..];
      [sorted[0]] + Insert(d, sorted[1..])
    else [d] + sorted
  }

  /** `list.sort(key=confidence, reverse=True)`: a stable sort by descending confidence. */
  function SortByConfidence(ds: seq<Decision>): (r: seq<Decision>)
    ensures multiset(r) == multiset(ds)
    ensures |r| == |ds|
  {
    if ds == [] then []
    else
      assert ds == ds[..|ds| - 1] + [ds[|ds| - 1]];
      Insert(ds[|ds| - 1], SortByConfidence(ds[..|ds| - 1]))
  }

  predicate Descending(ds: seq<Decision>)
  {
    forall i, j :: 0 <= i < j < |ds| ==> ds[i].confidence >= ds[j].confidence
  }

  /** The decisions with exactly confidence `c`, in order. */
  function WithConfidence(ds: seq<Decision>, c: real): seq<Decision>
  {
    if ds == [] then []
    else WithConfidence(ds[..|ds| - 1], c) + (if ds[|ds| - 1].confidence == c then [ds[|ds| - 1]] else [])
  }

  lemma {:induction false} WithConfidenceFront(d: Decision, ds: seq<Decision>, c: real)
    ensures WithConfidence([d] + ds, c) == (if d.confidence == c then [d] else []) + WithConfidence(ds, c)
    decreases |ds|
  {
    if ds != [] {
      var init := ds[..|ds| - 1];
      assert ([d] + ds)[..|ds|] == [d] + init;
      WithConfidenceFront(d, init, c);
    } else {
      assert WithConfidence([d], c) == WithConfidence([], c) + (if d.confidence == c then [d] else []);
    }
  }

  lemma {:induction false} WithConfidenceNone(ds: seq<Decision>, c: real)
    requires forall i :: 0 <= i < |ds| ==> ds[i].confidence != c
    ensures WithConfidence(ds, c) == []
  {
    if ds != [] {
      WithConfidenceNone(ds[..|ds| - 1], c);
    }
  }

  lemma {:induction false} InsertDescending(d: Decision, sorted: seq<Decision>)
    requires Descending(sorted)
    ensures Descending(Insert(d, sorted))
    ensures Insert(d, sorted)[0] == d || Insert(d, sorted)[0] == sorted[0]
  {
    var r := Insert(d, sorted);
    if sorted == [] {
    } else if sorted[0].confidence >= d.confidence {
      var tail := sorted[1..];
      InsertDescending(d, tail);
      var rest := Insert(d, tail);
      assert r == [sorted[0]] + rest;
      forall i, j | 0 <= i < j < |r| ensures r[i].confidence >= r[j].confidence {
        if i == 0 && j > 1 {
          assert rest[0].confidence >= rest[j - 1].confidence;
        }
      }
    } else {
      assert r == [d] + sorted;
      forall i, j | 0 <= i < j < |r| ensures r[i].confidence >= r[j].confidence {
        if i == 0 && j > 1 {
          assert sorted[0].confidence >= sorted[j - 1].confidence;
        }
      }
    }
  }

  /** Inserting `d` puts it after the equally confident decisions already placed. */
  lemma {:induction false} InsertStable(d: Decision, sorted: seq<Decision>, c: real)
    requires Descending(sorted)
    ensures WithConfidence(Insert(d, sorted), c)
      == WithConfidence(sorted, c) + (if d.confidence == c then [d] else [])
  {
    if sorted == [] {
      assert WithConfidence([d], c) == WithConfidence([], c) + (if d.confidence == c then [d] else []);
    } else if sorted[0].confidence >= d.confidence {
      var tail := sorted[1..];
      assert Descending(tail) by {
        forall i, j | 0 <= i < j < |tail| ensures tail[i].confidence >= tail[j].confidence {
          assert tail[i] == sorted[i + 1] && tail[j] == sorted[j + 1];
        }
      }
      InsertStable(d, tail, c);
      InsertBehindStable(d, sorted, c);
    } else {
      InsertInFrontStable(d, sorted, c);
    }
  }

  /** Inserting behind the first decision: its place in the filter comes first. */
  lemma InsertBehindStable(d: Decision, sorted: seq<Decision>, c: real)
    requires sorted != [] && sorted[0].confidence >= d.confidence
    requires WithConfidence(Insert(d, sorted[1..]), c)
      == WithConfidence(sorted[1..], c) + (if d.confidence == c then [d] else [])
    ensures WithConfidence(Insert(d, sorted), c)
      == WithConfidence(sorted, c) + (if d.confidence == c then [d] else [])
  {
    var head, tail := sorted[0], sorted[1..];
    var mine := if d.confidence == c then [d] else [];
    var theirs := if head.confidence == c then [head] else [];
    assert sorted == [head] + tail;
    WithConfidenceFront(head, Insert(d, tail), c);
    WithConfidenceFront(head, tail, c);
    calc {
      WithConfidence(Insert(d, sorted), c);
      { assert Insert(d, sorted) == [head] + Insert(d, tail); }
      WithConfidence([head] + Insert(d, tail), c);
      theirs + (WithConfidence(tail, c) + mine);
      (theirs + WithConfidence(tail, c)) + mine;
      WithConfidence(sorted, c) + mine;
    }
  }

  /** Inserting in front of less confident decisions: none of them share its confidence. */
  lemma InsertInFrontStable(d: Decision, sorted: seq<Decision>, c: real)
    requires Descending(sorted)
    requires sorted != [] && sorted[0].confidence < d.confidence
    ensures WithConfidence(Insert(d, sorted), c)
      == WithConfidence(sorted, c) + (if d.confidence == c then [d] else [])
  {
    assert Insert(d, sorted) == [d] + sorted;
    WithConfidenceFront(d, sorted, c);
    if d.confidence == c {
      forall i | 0 <= i < |sorted| ensures sorted[i].confidence != c {
        assert sorted[0].confidence >= sorted[i].confidence;
      }
      WithConfidenceNone(sorted, c);
      assert [d] + [] == [] + [d];
    } else {
      assert [] + WithConfidence(sorted, c) == WithConfidence(sorted, c) + [];
    }
  }

  /**
   * The ranking is a permutation of the decisions, in non-increasing
   * confidence, and stable: decisions of equal confidence keep their
   * original order.
   */
  lemma {:induction false} SortByConfidenceCorrect(ds: seq<Decision>)
    ensures Descending(SortByConfidence(ds))
    ensures multiset(SortByConfidence(ds)) == multiset(ds)
    ensures forall c: real :: WithConfidence(SortByConfidence(ds), c) == WithConfidence(ds, c)
  {
    if ds != [] {
      var init := ds[..|ds| - 1];
      SortByConfidenceCorrect(init);
      InsertDescending(ds[|ds| - 1], SortByConfidence(init));
      forall c: real ensures WithConfidence(SortByConfidence(ds), c) == WithConfidence(ds, c) {
        InsertStable(ds[|ds| - 1], SortByConfidence(init), c);
      }
    }
  }

  /** The decisions with the given action, in order. */
  function WithAction(ds: seq<Decision>, a: Action): (r: seq<Decision>)
    ensures forall i :: 0 <= i < |r| ==> r[i].action == a && r[i] in ds
  {
    if ds == [] then []
    else
      var r := WithAction(ds[..|ds| - 1], a);
      assert forall x :: x in ds[..|ds| - 1] ==> x in ds;
      r + (if ds[|ds| - 1].action == a then [ds[|ds| - 1]] else [])
  }

  /** The filter drops no decision with the action: each occurs as often as in the input. */
  lemma {:induction false} WithActionCounts(ds: seq<Decision>, a: Action)
    ensures forall d :: multiset(WithAction(ds, a))[d] == if d.action == a then multiset(ds)[d] else 0
  {
    if ds != [] {
      WithActionCounts(ds[..|ds| - 1], a);
      assert ds == ds[..|ds| - 1] + [ds[|ds| - 1]];
    }
  }

  /** Filtering splits over concatenation, so the kept decisions stay in their order. */
  lemma {:induction false} WithActionAppend(xs: seq<Decision>, ys: seq<Decision>, a: Action)
    ensures WithAction(xs + ys, a) == WithAction(xs, a) + WithAction(ys, a)
  {
    if ys == [] {
      assert xs + ys == xs;
    } else {
      var zs, init, last := xs + ys, ys[..|ys| - 1], ys[|ys| - 1];
      var tail := if last.action == a then [last] else [];
      assert zs[..|zs| - 1] == xs + init && zs[|zs| - 1] == last;
      assert WithAction(zs, a) == WithAction(xs + init, a) + tail;
      assert WithAction(ys, a) == WithAction(init, a) + tail;
      WithActionAppend(xs, init, a);
    }
  }

  /** Every decision lands in exactly one of the BUY, SELL and HOLD lists. */
  lemma {:induction false} PartitionCounts(ds: seq<Decision>)
    ensures |WithAction(ds, Buy)| + |WithAction(ds, Sell)| + |WithAction(ds, Hold)| == |ds|
  {
    if ds != [] {
      PartitionCounts(ds[..|ds| - 1]);
    }
  }

  datatype PortfolioAnalysis = PortfolioAnalysis(
    all: seq<Decision>, buys: seq<Decision>, sells: seq<Decision>, holds: seq<Decision>,
    totalSymbols: nat, buySignals: nat, sellSignals: nat, holdSignals: nat,
    riskSummary: RiskSummary)

  /** The refusal used when a symbol has no price: no position is held in it. */
  const NoPrice := Evaluation(false, Some(NoCurrentPrice), [], 0.0, 0.0, map[])

  /**
   * The risk verdict for one symbol: the symbol's own price comes from the
   * held position, so a symbol not held (or held at a non-positive price)
   * is refused for lack of a price.
   */
  function RiskFor(config: RiskConfig, symbol: string, action: Action, account: Account, positions: seq<Holding>): Evaluation
  {
    var current := FindHolding(positions, symbol);
    var price := if current.Some? then current.value.currentPrice else 0.0;
    if price > 0.0 then EvaluationOf(config, symbol, action, account, positions, price) else NoPrice
  }

  /** The decision for one symbol of the portfolio. */
  function SymbolDecision(config: RiskConfig, symbol: string, regimes: map<string, RegimeView>,
                          wfs: map<string, WalkForwardView>, positions: seq<Holding>, account: Account): Decision
  {
    var regime := if symbol in regimes then regimes[symbol] else NoRegime;
    var wf := if symbol in wfs then wfs[symbol] else NoWalkForward;
    DecisionOf(symbol, regime, wf, RiskFor(config, symbol, wf.recommendation, account, positions),
               FindHolding(positions, symbol))
  }

  /**
   * The risk gate raises at most one warning per trade, so the "more than
   * two warnings" score of -0.5 never occurs in a portfolio analysis.
   */
  lemma PortfolioRiskScores(config: RiskConfig, symbol: string, action: Action, account: Account, positions: seq<Holding>)
    ensures var score := InterpretRisk(RiskFor(config, symbol, action, account, positions)).score;
      score == -1.0 || score == 0.0 || score == 0.5
  {
    var current := FindHolding(positions, symbol);
    if current.Some? && current.value.currentPrice > 0.0 {
      EvaluationWarnings(config, symbol, action, account, positions, current.value.currentPrice);
    }
  }

  /** A symbol not held is refused by the risk gate and scores -1 for risk. */
  lemma UnheldSymbolRefused(config: RiskConfig, symbol: string, regimes: map<string, RegimeView>,
                            wfs: map<string, WalkForwardView>, positions: seq<Holding>, account: Account)
    requires forall i :: 0 <= i < |positions| ==> positions[i].symbol != symbol
    ensures var d := SymbolDecision(config, symbol, regimes, wfs, positions, account);
      !d.risk.approved && d.risk.score == -1.0 && d.risk.reason == Some(NoCurrentPrice)
  {
  }

  /** One pass of the portfolio loop: look up the inputs, gate the trade on risk, decide. */
  method DecideSymbol(config: RiskConfig, symbol: string, regimes: map<string, RegimeView>,
                      wfs: map<string, WalkForwardView>, positions: seq<Holding>, account: Account)
    returns (decision: Decision)
    ensures decision == SymbolDecision(config, symbol, regimes, wfs, positions, account)
  {
    var current := FindHolding(positions, symbol);
    var price := if current.Some? then current.value.currentPrice else 0.0;
    var regime := if symbol in regimes then regimes[symbol] else NoRegime;
    var wf := if symbol in wfs then wfs[symbol] else NoWalkForward;
    var riskEval;
    if price > 0.0 {
      riskEval := EvaluateTrade(config, symbol, wf.recommendation, account, positions, price);
    } else {
      riskEval := NoPrice;
    }
    decision := MakeDecision(symbol, regime, wf, riskEval, current);
  }

  /** The portfolio loop: one decision per symbol, in the order of the symbols. */
  method DecideAll(config: RiskConfig, symbols: seq<string>, regimes: map<string, RegimeView>,
                   wfs: map<string, WalkForwardView>, positions: seq<Holding>, account: Account)
    returns (recommendations: seq<Decision>)
    ensures recommendations == seq(|symbols|, i requires 0 <= i < |symbols| =>
      SymbolDecision(config, symbols[i], regimes, wfs, positions, account))
  {
    recommendations := [];
    for i := 0 to |symbols|
      invariant recommendations == seq(i, j requires 0 <= j < i =>
        SymbolDecision(config, symbols[j], regimes, wfs, positions, account))
    {
      var decision := DecideSymbol(config, symbols[i], regimes, wfs, positions, account);
      recommendations := recommendations + [decision];
    }
  }

  /**
   * Decides every symbol in order, ranks the decisions by confidence and
   * splits them by action.
   */
  method AnalyzePortfolio(config: RiskConfig, symbols: seq<string>, regimes: map<string, RegimeView>,
                          wfs: map<string, WalkForwardView>, riskSummary: RiskSummary,
                          positions: seq<Holding>, account: Account)
    returns (p: PortfolioAnalysis)
    ensures |p.all| == |symbols| == p.totalSymbols
    ensures p.all == SortByConfidence(seq(|symbols|, i requires 0 <= i < |symbols| =>
      SymbolDecision(config, symbols[i], regimes, wfs, positions, account)))
    ensures p.buys == WithAction(p.all, Buy) && p.sells == WithAction(p.all, Sell) && p.holds == WithAction(p.all, Hold)
    ensures p.buySignals == |p.buys| && p.sellSignals == |p.sells| && p.holdSignals == |p.holds|
    ensures p.buySignals + p.sellSignals + p.holdSignals == p.totalSymbols
    ensures p.riskSummary == riskSummary
  {
    var recommendations := DecideAll(config, symbols, regimes, wfs, positions, account);
    recommendations := SortByConfidence(recommendations);
    var buys := WithAction(recommendations, Buy);
    var sells := WithAction(recommendations, Sell);
    var holds := WithAction(recommendations, Hold);
    PartitionCounts(recommendations);
    p := PortfolioAnalysis(recommendations, buys, sells, holds, |symbols|, |buys|, |sells|, |holds|, riskSummary);
  }
}

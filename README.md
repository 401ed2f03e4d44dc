# Trading decision pipeline, modelled in Dafny

This project models the analysis core of a stock-trading assistant. For each
symbol the assistant:

1. classifies the market **regime** (BULLISH, BEARISH, SIDEWAYS) from a
   snapshot of technical indicators (`regime.dfy`);
2. runs a **walk-forward optimisation** of a moving-average crossover and RSI
   strategy (`backtest.dfy`, `walk_forward.dfy`). It grid-searches the
   strategy's parameters on a training window, backtests the winner on the
   following test window, and turns the out-of-sample trades into a
   BUY/SELL/HOLD recommendation with a confidence;
3. passes the proposed trade through the **risk manager** (`risk.dfy`). The
   checks run in order: account balance, blocked account, pattern-day-trading
   limit, position sizing, held position for a sale, portfolio concentration
   and volatility. The risk manager also reports account-level warnings and a
   risk summary;
4. lets the **decision engine** (`decision.dfy`) weigh the three opinions
   0.4 / 0.4 / 0.2, threshold the combined score at ±0.3, let an open
   position override the action, and explain the decision. Over a portfolio
   it ranks the decisions by confidence with a stable sort.

Shared pieces:

- `values.dfy`: Python float semantics. A number is a real or NaN. Every
  comparison with NaN is false. NaN is truthy. `int()` truncates toward zero.
- `series.dfy`: sums, means and the pandas rolling mean, which is NaN until
  its window fills.

Pure Python code is modelled as functions. Code that builds its result step
by step is modelled as methods with loops. Each such method is proved equal
to a specification function, and the properties are lemmas about that
function. Examples: the indicator dictionary, the regime score accumulator,
the backtest simulation, the parameter grid search, the trade evaluation
with its early returns, the warning list, the reasoning lines and the
portfolio loop.

## Model

| member | source | states |
|---|---|---|
| Series.RollingMeanAt | backend/app/analysis/walk_forward.py:192-193 | A rolling mean is NaN exactly while fewer than `window` values are available. |
| Series.Rolling | backend/app/analysis/walk_forward.py:192-193 | The rolling column has one entry per row, and entry i is NaN exactly when fewer than `w` rows end at i. |
| Regime.MaxPeriod | backend/app/analysis/regime_switching.py:33 | The longest configured moving-average period is one of the periods and bounds them all. |
| Regime.KeysFor | backend/app/analysis/regime_switching.py:84-148 | Every indicator in the snapshot has enough history behind it. |
| Regime.SnapshotKeys | backend/app/analysis/regime_switching.py:84-148 | A key is in the snapshot iff the history covers its look-back: a configured SMA period; RSI, ADX, ATR and stochastic from 14 bars; Bollinger and volume from 20; MACD from 26. |
| Regime.SmaKeysExact | backend/app/analysis/regime_switching.py:92-94 | A moving average is recorded iff its period is configured and the history is at least that long. |
| Regime.LibraryKeysExact | backend/app/analysis/regime_switching.py:96-146 | The library indicators recorded are exactly those whose look-back fits. |
| Regime.BollingerPosition | backend/app/analysis/regime_switching.py:129-133 | When the bands are not different, the position is 0.5. |
| Regime.BollingerWidth | backend/app/analysis/regime_switching.py:135 | The band width is a number iff both bands are (the middle band of positive closes never divides by zero). |
| Regime.CalculateIndicators | backend/app/analysis/regime_switching.py:84-148 | Filling the dictionary stage by stage yields the snapshot, with exactly the keys the history supports. |
| Regime.AddMovingAverages | backend/app/analysis/regime_switching.py:91-94 | The loop over periods records the rolling mean of every period the history covers. |
| Regime.AddRsi | backend/app/analysis/regime_switching.py:96-98 | Adds RSI iff there are at least 14 bars. |
| Regime.AddMacd | backend/app/analysis/regime_switching.py:100-105 | Adds the three MACD values iff there are at least 26 bars. |
| Regime.AddAdx | backend/app/analysis/regime_switching.py:107-112 | Adds ADX and its two directional indices iff there are at least 14 bars. |
| Regime.AddAtr | backend/app/analysis/regime_switching.py:114-119 | Adds ATR and ATR as a percentage of the last close iff there are at least 14 bars. |
| Regime.AddBollinger | backend/app/analysis/regime_switching.py:121-135 | Adds the Bollinger position and width iff there are at least 20 bars. |
| Regime.AddStochastic | backend/app/analysis/regime_switching.py:137-141 | Adds the stochastic %K and %D iff there are at least 14 bars. |
| Regime.AddVolume | backend/app/analysis/regime_switching.py:143-146 | Adds the volume average and ratio iff there are at least 20 bars. |
| Regime.Get | backend/app/analysis/regime_switching.py:163-168 | A present indicator reads as its value; an absent one as the given default. |
| Regime.SmaTerm | backend/app/analysis/regime_switching.py:165-182 | With all three averages truthy: weight 1 for a full ordering of 20/50/200, 0.5 when only 20 against 50 decides, 0 otherwise; the contribution is ± the weight, positive iff SMA20 > SMA50 and negative iff SMA20 < SMA50. |
| Regime.RsiTerm | backend/app/analysis/regime_switching.py:184-195 | Weight 0.3 iff the RSI is truthy; +0.3 iff in (60, 70] or below 30; -0.3 iff above 70 or in [30, 40); otherwise 0. |
| Regime.MacdTerm | backend/app/analysis/regime_switching.py:197-205 | Weight 0.4 always; +0.4 iff MACD is above its signal line, -0.4 otherwise. |
| Regime.MissingMacdCountsBearish | backend/app/analysis/regime_switching.py:197-205 | A snapshot without MACD reads 0 against 0 and counts -0.4 at weight 0.4. |
| Regime.AdxTerm | backend/app/analysis/regime_switching.py:207-218 | Weight 0.5 iff ADX and both directional indices are truthy and ADX > 25, else 0; then +0.5 iff +DI > -DI and -0.5 otherwise. |
| Regime.TotalWeight | backend/app/analysis/regime_switching.py:228-229 | The summed weight is at least 0.8, since MACD and Bollinger always count, so the division is defined. |
| Regime.ClampScore | backend/app/analysis/regime_switching.py:231 | The clamp lands in [-1, 1], keeps in-range values, and turns NaN into 1.0. |
| Regime.CalculateRegimeScore | backend/app/analysis/regime_switching.py:150-231 | The step-by-step accumulation equals the regime score, which lies in [-1, 1]. |
| Regime.ScoreAlignment | backend/app/analysis/regime_switching.py:160-182 | Starts the score and weight list with the alignment term. |
| Regime.ScoreRsi | backend/app/analysis/regime_switching.py:184-195 | Adds the RSI contribution to the score and its weight to the list. |
| Regime.ScoreMacd | backend/app/analysis/regime_switching.py:197-205 | Adds the MACD contribution and weight. |
| Regime.ScoreAdx | backend/app/analysis/regime_switching.py:207-218 | Adds the ADX contribution and weight. |
| Regime.RegimeLabel | backend/app/analysis/regime_switching.py:49-54 | BULLISH iff score > 0.3, BEARISH iff < -0.3, SIDEWAYS iff in between. |
| Regime.TrendStrength | backend/app/analysis/regime_switching.py:233-259 | Trend strength is 0 without ADX, ADX/25 for 0 < ADX < 25, 1 from ADX 25 up and 1 for a NaN ADX; always at most 1, and non-negative for non-negative ADX. |
| Regime.Analyze | backend/app/analysis/regime_switching.py:23-82 | A missing or short series gives UNKNOWN with zeros. Otherwise: the label of the score, confidence = min(abs(score), 1) in [0, 1], BULLISH/BEARISH only with confidence > 0.3, volatility = ATR%. |
| Regime.ScoreWithinBandsNeedsNoClamp | backend/app/analysis/regime_switching.py:220-231 | With the close inside the bands, the normalised score is already in [-1, 1] and the clamp changes nothing. |
| Regime.NaNBollingerReadsAsBullish | backend/app/analysis/regime_switching.py:220-231 | A NaN Bollinger position makes the score 1.0, so the series reads BULLISH. |
| Regime.BullishExample | backend/app/analysis/regime_switching.py:160-231 | A concrete bullish snapshot scores 2.36 / 2.6 and is BULLISH. |
| Backtest.Gain | backend/app/analysis/walk_forward.py:196-197 | The gain is non-negative and equals the rise on an up bar. |
| Backtest.Loss | backend/app/analysis/walk_forward.py:196-198 | The loss is non-negative and equals the fall on a down bar. |
| Backtest.Gains | backend/app/analysis/walk_forward.py:197 | One gain per bar, each non-negative. |
| Backtest.RsiAt | backend/app/analysis/walk_forward.py:195-200 | RSI is NaN until the rolling window of gains and losses fills. |
| Backtest.Losses | backend/app/analysis/walk_forward.py:198 | One loss per bar, each non-negative; gain minus loss is the move into the bar, and at most one of the two is non-zero. |
| Backtest.Previous | backend/app/analysis/walk_forward.py:207 | The shifted moving average is NaN on the first bar. |
| Backtest.Signals | backend/app/analysis/walk_forward.py:202-213 | One signal per bar; each is SELL iff a downward cross or RSI above the overbought level, and BUY iff an upward cross with RSI below it and no downward cross. |
| Backtest.SignalAt | backend/app/analysis/walk_forward.py:202-213 | A downward cross always gives SELL; a BUY needs an upward cross with RSI below the overbought level. |
| Backtest.SignalRule | backend/app/analysis/walk_forward.py:205-213 | Sell iff a downward cross or RSI above the overbought level. Buy iff an upward cross with RSI below it and no downward cross; the sell mask is written second and wins. |
| Backtest.NoBuyBeforeWindowsFill | backend/app/analysis/walk_forward.py:192-208 | No buy signal before both moving-average windows fill. |
| Backtest.RsiRange | backend/app/analysis/walk_forward.py:195-200 | A defined RSI lies in [0, 100]. |
| Backtest.RollingMeanNonNegative | backend/app/analysis/walk_forward.py:197-198 | Rolling means of non-negative gains or losses are non-negative. |
| Backtest.TradeReturn | backend/app/analysis/walk_forward.py:229 | A long trade's return exceeds -1 and is positive iff the exit is above the entry. |
| Backtest.StepConsistent | backend/app/analysis/walk_forward.py:219-239 | Each further bar keeps the simulation consistent with the signals: every trade opens on the first BUY after the previous exit and closes on the first SELL after its entry. |
| Backtest.SimulateConsistent | backend/app/analysis/walk_forward.py:215-239 | The simulation's state is consistent after every prefix of the bars. |
| Backtest.TradesWellFormed | backend/app/analysis/walk_forward.py:215-239 | Each trade exits after it enters, at the closes of those bars, with return (exit - entry) / entry. Trades do not overlap. |
| Backtest.NoBuyNoTrades | backend/app/analysis/walk_forward.py:219-225 | Without a buy signal the simulation opens nothing and records no trades. |
| Backtest.SharpeOf | backend/app/analysis/walk_forward.py:242-250 | Sharpe is the annualised ratio when there are trades whose returns vary, and 0 in every other case. |
| Backtest.OnePlus | backend/app/analysis/walk_forward.py:247 | One growth factor per return, each positive when every return exceeds -1. |
| Backtest.TotalReturn | backend/app/analysis/walk_forward.py:246-249 | 0 without trades; when no trade loses everything, the compounded return exceeds -1. |
| Backtest.SimulateTrades | backend/app/analysis/walk_forward.py:215-239 | The imperative trade loop records exactly the simulation's closed trades. |
| Backtest.BacktestStrategy | backend/app/analysis/walk_forward.py:172-256 | The imperative backtest equals the backtest specification. |
| Backtest.ShortWindowNoTrades | backend/app/analysis/walk_forward.py:183-188 | Fewer bars than the slow MA or RSI period give Sharpe 0, no trades, total return 0. |
| Backtest.NoTradesBeforeAveragesFill | backend/app/analysis/walk_forward.py:192-213 | With no more bars than a moving-average window, no cross and hence no trade can happen. |
| WalkForward.WindowSplit | backend/app/analysis/walk_forward.py:78-82 | With test days > 0, the training and test windows are the last train + test rows split at the test boundary. With 0 test days, the training window is empty and the test window is the whole frame. |
| WalkForward.Candidate | backend/app/analysis/walk_forward.py:139-155 | Every grid candidate has slow MA ≥ 20 and RSI bands 30/70. |
| WalkForward.CandidateAt | backend/app/analysis/walk_forward.py:143-155 | The k-th candidate of the nested loops is (fast[a], slow[b], rsi[c]), and it is skipped iff fast ≥ slow. |
| WalkForward.SkippedExactly | backend/app/analysis/walk_forward.py:146-147 | Exactly candidates 27–29 (fast 20, slow 20) are skipped. |
| WalkForward.EvaluatedCount | backend/app/analysis/walk_forward.py:143-147 | The number of candidates evaluated before position k: k up to 27, then 27 through the skipped block, then k - 3. |
| WalkForward.ThirtyThreeCandidates | backend/app/analysis/walk_forward.py:139-147 | The grid search backtests 33 of the 36 combinations. |
| WalkForward.ScoreAt | backend/app/analysis/walk_forward.py:157-158 | The k-th score is the backtest Sharpe of the k-th candidate, or nothing if it is skipped. |
| WalkForward.SearchArgmax | backend/app/analysis/walk_forward.py:135-162 | The search keeps the first candidate with the highest Sharpe above -999. It keeps none iff no Sharpe exceeds -999. |
| WalkForward.OptimalParamsShape | backend/app/analysis/walk_forward.py:135-170 | The chosen parameters, including the fallback, always have fast < slow, slow ≥ 20 and bands 30/70. |
| WalkForward.EmptyTrainingPicksFirst | backend/app/analysis/walk_forward.py:135-170 | On an empty training window every Sharpe is 0 > -999, so the first candidate (5, 20, 7) wins. |
| WalkForward.TryCandidate | backend/app/analysis/walk_forward.py:157-162 | One backtest and strict-improvement update advances the search by one candidate. |
| WalkForward.SearchRsiPeriods | backend/app/analysis/walk_forward.py:145-162 | The innermost loop advances the search by three candidates. |
| WalkForward.OptimizeParameters | backend/app/analysis/walk_forward.py:124-170 | The nested grid search returns the argmax parameters, or the (10, 30, 14) fallback. |
| WalkForward.CountPositive | backend/app/analysis/walk_forward.py:93 | At most all returns are positive. |
| WalkForward.WinRate | backend/app/analysis/walk_forward.py:93 | The win rate lies in [0, 1]. |
| WalkForward.Cumulative | backend/app/analysis/walk_forward.py:96 | One cumulative product per return. |
| WalkForward.CumulativeFirst | backend/app/analysis/walk_forward.py:96 | `cumprod(1 + r)` starts with 1 + r0. |
| WalkForward.CumulativeStep | backend/app/analysis/walk_forward.py:96 | `cumprod(1 + r)`: each later entry is the previous one times 1 + r. |
| WalkForward.PeakAt | backend/app/analysis/walk_forward.py:97 | The running maximum bounds every value up to i and is one of them. |
| WalkForward.Drawdowns | backend/app/analysis/walk_forward.py:98 | One drawdown per value, each in (-1, 0] for positive values. |
| WalkForward.MinOf | backend/app/analysis/walk_forward.py:99 | The minimum is an element and bounds all elements. |
| WalkForward.CumulativePositive | backend/app/analysis/walk_forward.py:96 | Returns above -1 keep every cumulative product positive. |
| WalkForward.MaxDrawdown | backend/app/analysis/walk_forward.py:95-99 | The maximum drawdown lies in [0, 1), and is 0 iff the compounded growth never falls below its running peak. |
| WalkForward.ReturnsAboveMinusOne | backend/app/analysis/walk_forward.py:229 | Every long trade's return exceeds -1. |
| WalkForward.BacktestReturns | backend/app/analysis/walk_forward.py:215-249 | Every return of a backtest exceeds -1, and so does its total return. |
| WalkForward.AnalysisRanges | backend/app/analysis/walk_forward.py:63-122 | The out-of-sample win rate is in [0, 1], max drawdown is in [0, 1), and the average return is the expected return. |
| WalkForward.WalkForwardAnalysis | backend/app/analysis/walk_forward.py:63-122 | The parameters are the training window's optimum; the trade count is the number of test-window trades. Without one every statistic is 0. Otherwise, over the test returns: expected and average return are their mean, Sharpe is SharpeOf, the win rate is the fraction positive, and the drawdown is MaxDrawdown. |
| WalkForward.SharpeFactor | backend/app/analysis/walk_forward.py:276-284 | The Sharpe factor is 1 above 2, 0.7 in (1, 2], 0.5 in (0.5, 1] and 0.2 otherwise, so it lies in [0.2, 1]. |
| WalkForward.WinRateFactor | backend/app/analysis/walk_forward.py:286-287 | The win-rate factor is 1.5 times the win rate below 2/3 and 1 from 2/3 on: at most 1, and non-negative for a non-negative win rate. |
| WalkForward.DrawdownFactor | backend/app/analysis/walk_forward.py:289-295 | The drawdown factor is 1 below 5%, 0.7 from 5% to below 10% and 0.5 from 10% on, so it lies in [0.5, 1]. |
| WalkForward.GenerateRecommendation | backend/app/analysis/walk_forward.py:258-310 | BUY iff return > 2%, Sharpe > 1 and win rate > 0.5. SELL iff return < -2%, Sharpe < 0 and win rate < 0.4. Confidence is the mean of the Sharpe, win-rate and drawdown factors, so it is ≤ 1 and at least 0.7/3. |
| WalkForward.Optimize | backend/app/analysis/walk_forward.py:25-61 | Missing or short data gives HOLD with zeros. Otherwise the result is the walk-forward analysis's metrics and parameters, with the action and confidence of GenerateRecommendation on them; confidence and win rate are in [0, 1] and drawdown in [0, 1). |
| WalkForward.ShortTestWindowHolds | backend/app/analysis/walk_forward.py:78-104 | A test window shorter than every slow MA trades nothing, so the result is HOLD with confidence 0.4 and zero metrics. |
| Risk.FindHolding | backend/app/risk_manager.py:56 | Finds the first position in the symbol, and none iff no position has it. |
| Risk.LargestPosition | backend/app/risk_manager.py:345-346 | The largest market value bounds all positions and is one of them, or 0 when there are none. |
| Risk.CheckAccountBalance | backend/app/risk_manager.py:138-158 | Passes iff equity ≥ the minimum and cash ≥ 100; the equity failure is reported first. |
| Risk.CheckAccountBlocked | backend/app/risk_manager.py:160-177 | Passes iff neither trading nor the account is blocked; a trading block is reported first. |
| Risk.CheckPdtRules | backend/app/risk_manager.py:179-219 | Passes iff protection is off, equity ≥ 25000, or fewer than 3 day trades; near-limit is flagged at 2. |
| Risk.CalculatePositionSize | backend/app/risk_manager.py:221-267 | Buys the most whole shares that fit in 98% of min(remaining allocation, buying power), none at a non-positive price. Value = shares × price; percentage of equity (0 without equity). |
| Risk.SharesWithinBudget | backend/app/risk_manager.py:256-258 | `int(budget / price)` is the largest whole share count within a non-negative budget. |
| Risk.CheckPortfolioConcentration | backend/app/risk_manager.py:269-312 | Always passes. Messages: NoEquity iff equity is 0; high concentration iff more than 80% invested after a buy; many positions iff more than 15 otherwise. |
| Risk.CheckVolatilityRisk | backend/app/risk_manager.py:314-323 | The placeholder check passes with no warning. |
| Risk.Listed | backend/app/risk_manager.py:133-134 | The list is empty without a warning and exactly the warning otherwise. |
| Risk.EvaluateTrade | backend/app/risk_manager.py:25-136 | The imperative evaluation with early returns equals the evaluation specification. |
| Risk.EvaluationVerdict | backend/app/risk_manager.py:58-111 | Approved iff no check fails; the reason is the first failure in check order. |
| Risk.FirstFailure | backend/app/risk_manager.py:58-111 | A failed balance check is the reason; else a blocked account; else, for a BUY, the PDT check's own message, then insufficient buying power when sizing gives no shares; for a SELL of a symbol not held, the no-position reason naming it. No failure iff balance and blocking pass, a BUY also passes PDT and sizes above 0, and a SELL has a position. |
| Risk.EvaluationRecords | backend/app/risk_manager.py:58-131 | Each check is recorded iff evaluation reaches it: PDT and sizing only for BUY; concentration and volatility only when approved. |
| Risk.EvaluationSizes | backend/app/risk_manager.py:83-114 | Refusals size 0. An approved BUY sizes at least one share at shares × price. An approved SELL uses the held quantity and market value. |
| Risk.EvaluationWarnings | backend/app/risk_manager.py:101-134 | At most one warning: a large position iff an approved BUY exceeds 15% of equity. |
| Risk.RejectionReasons | backend/app/risk_manager.py:58-111 | The reason for low equity, low cash or a trading block. A checked SELL fails iff nothing is held, and a non-BUY/SELL passes iff balance and blocking pass. |
| Risk.SellIgnoresPdtAndSizing | backend/app/risk_manager.py:74-114 | A SELL of a held symbol on a healthy account passes regardless of day trades and buying power. |
| Risk.PdtLimitExample | backend/app/risk_manager.py:196-207 | A 20000 account with 3 day trades is refused for the PDT limit. |
| Risk.SizingExample | backend/app/risk_manager.py:240-263 | A 100000 account with 50000 buying power at price 100 buys 98 shares, 9800 in value, 9.8%. |
| Risk.AccountWarningsExact | backend/app/risk_manager.py:379-390 | PDT, low-cash and over-invested warnings each appear iff their condition holds; there are at most three and no loss warnings among them. |
| Risk.LossWarningsExact | backend/app/risk_manager.py:392-395 | A large-loss warning appears exactly for each position down more than 15%. |
| Risk.GenerateWarnings | backend/app/risk_manager.py:371-397 | The imperative warning list equals the account warnings followed by the loss warnings. |
| Risk.AppendLossWarnings | backend/app/risk_manager.py:393-395 | The loop appends the loss warnings in position order. |
| Risk.PdtStatus | backend/app/risk_manager.py:356-360 | The count is the account's; remaining is max(0, 3 - count); restricted iff equity < 25000 and 3 or more were used, and then none remain. |
| Risk.GetRiskSummary | backend/app/risk_manager.py:325-369 | Equity, cash and the largest position are the account's and the portfolio's; the summary counts the positions, bounds the largest, zeroes percentages without equity, and carries the PDT status and warnings. |
| DecisionEngine.ActionFor | backend/app/decision_engine.py:54-60 | BUY iff score > 0.3, SELL iff score < -0.3. |
| DecisionEngine.InterpretRegime | backend/app/decision_engine.py:104-124 | Bullish scores confidence × trend strength, bearish its negation, else 0. The score is in [-1, 1] for inputs in [0, 1], and recommends by ±0.3. |
| DecisionEngine.Clamp | backend/app/decision_engine.py:147 | `max(-1, min(1, x))` lies in [-1, 1] and keeps in-range values. |
| DecisionEngine.InterpretWalkForward | backend/app/decision_engine.py:126-155 | The score is ± the confidence by recommendation, ×1.2 for Sharpe > 1.5 and ×0.8 below 0.5, clamped to [-1, 1]; 0 for HOLD; positive iff a BUY with positive confidence or a SELL with negative. |
| DecisionEngine.InterpretRisk | backend/app/decision_engine.py:157-179 | -1 iff refused; when approved, -0.5 with more than two warnings, 0 with one or two, 0.5 iff none; always in [-1, 0.5]. |
| DecisionEngine.CombinedScore | backend/app/decision_engine.py:47-52 | With component scores in range, the 0.4/0.4/0.2 weighted score lies in [-1, 0.9]. |
| DecisionEngine.RefusedNeedsStrongSignals | backend/app/decision_engine.py:47-60 | A refused trade still ends BUY iff 0.4 × (regime + walk-forward) > 0.5. |
| DecisionEngine.AdjustForPosition | backend/app/decision_engine.py:190-230 | Take profit at -0.7 on gains > 10% with a bearish regime or negative return. Cut losses at -0.8 on losses > 10% with bearish regime and SELL. Average down at ×0.7 in a bullish BUY. Otherwise a BUY becomes HOLD at half the score and anything else is unchanged. |
| DecisionEngine.AdjustmentDirections | backend/app/decision_engine.py:202-230 | A held position never turns HOLD/SELL into BUY and keeps SELL; a BUY outside the bullish losing case that is not sold becomes HOLD at half the score. |
| DecisionEngine.Verdict | backend/app/decision_engine.py:42-70 | Without a position, BUY iff score > 0.3 and SELL iff < -0.3; a BUY always has a positive and a SELL a negative score; with regime inputs in [0, 1] the score lies in [-1, 0.9]. |
| DecisionEngine.ReasoningShape | backend/app/decision_engine.py:232-309 | The explanation has 4–6 lines: regime, walk-forward, the risk line plus at most the first two warnings, then the recommendation. |
| DecisionEngine.AppendRiskLines | backend/app/decision_engine.py:285-293 | The loop adds the failure, the warning header and up to two warnings, or the all-clear. |
| DecisionEngine.GenerateReasoning | backend/app/decision_engine.py:232-309 | The imperative explanation equals the reasoning specification. |
| DecisionEngine.DecisionOf | backend/app/decision_engine.py:21-102 | Action and score come from the thresholds and the position override. Confidence = min(abs(score), 1) in [0, 1]. Size, value and warnings come from the risk verdict. |
| DecisionEngine.DecisionWithoutPosition | backend/app/decision_engine.py:43-73 | Without a position the action is the threshold of the combined score in [-1, 0.9], with confidence abs(score). |
| DecisionEngine.MakeDecision | backend/app/decision_engine.py:21-102 | The imperative decision equals the decision specification. |
| DecisionEngine.Insert | backend/app/decision_engine.py:374-375 | Insertion adds exactly one element to the multiset. |
| DecisionEngine.SortByConfidence | backend/app/decision_engine.py:374-375 | Sorting permutes the decisions. |
| DecisionEngine.InsertDescending | backend/app/decision_engine.py:374-375 | Insertion keeps the list in non-increasing confidence. |
| DecisionEngine.InsertStable | backend/app/decision_engine.py:374-375 | Insertion places a decision after those of equal confidence. |
| DecisionEngine.SortByConfidenceCorrect | backend/app/decision_engine.py:374-375 | The ranking is a permutation in non-increasing confidence, and stable: equal confidences keep their order. |
| DecisionEngine.WithAction | backend/app/decision_engine.py:377-380 | Each partition holds only decisions of its action, drawn from the ranking. |
| DecisionEngine.WithActionCounts | backend/app/decision_engine.py:377-380 | A partition drops no decision of its action: each occurs as often as in the ranking. |
| DecisionEngine.WithActionAppend | backend/app/decision_engine.py:377-380 | Filtering splits over concatenation, so a partition keeps the ranking's order. |
| DecisionEngine.PartitionCounts | backend/app/decision_engine.py:377-392 | The BUY, SELL and HOLD counts add up to the number of decisions. |
| DecisionEngine.PortfolioRiskScores | backend/app/decision_engine.py:351-361 | In a portfolio analysis the risk score is -1, 0 or 0.5, never the -0.5 for more than two warnings, because the risk gate raises at most one. |
| DecisionEngine.UnheldSymbolRefused | backend/app/decision_engine.py:339-361 | A symbol with no position has no price, so its trade is refused and scores -1 for risk. |
| DecisionEngine.DecideSymbol | backend/app/decision_engine.py:339-372 | One loop pass looks up the inputs, gates on price, and decides as specified. |
| DecisionEngine.DecideAll | backend/app/decision_engine.py:339-372 | The loop appends exactly one decision per symbol, in the order of the symbols. |
| DecisionEngine.AnalyzePortfolio | backend/app/decision_engine.py:311-394 | Every symbol is decided; the list is the stable confidence ranking; the partitions are by action; the counts sum to the number of symbols. |

## Left out

- Rounding of reported values (`round(x, 3)` and similar) is not modelled.
  Confidences and scores are exact reals, so the portfolio ranking sorts by
  the unrounded confidence. Two confidences that differ only beyond the
  third decimal keep their original order in the code but may be swapped
  here.
- Message texts and their number formatting are not modelled. Each message
  is a datatype constructor carrying the values it would print.
- The indicator library's outputs are inputs to the model: RSI, MACD, ADX,
  ATR, Bollinger bands and the stochastic at the last bar. The moving
  averages, the Bollinger middle band and the volume average are computed.
- The Sharpe ratio `(mean / std) * sqrt(252)` is a function parameter,
  applied only when there are trades and their variance is positive.
  Irrational square roots and floating point are not modelled.
- `recent_performance` in the walk-forward result (the last five daily
  returns) is not modelled.
- `analyze_multiple` and `optimize_multiple` are not modelled. They only map
  the single-symbol analyses over a dictionary.
- Account and position values (`cash`, `equity`, `market_value`,
  `unrealized_plpc`, …) are modelled as reals, never NaN. Absent account
  fields are not modelled; every field is present.
- MaxPeriod and Analyze require at least one configured moving-average
  period. With an empty period list and a series present, the source raises
  `ValueError` from `max([])`. That exception is not modelled; the default
  configuration (20, 50, 200) always has periods.
- `Risk.CheckVolatilityRisk` models the placeholder as it is: it always
  passes with no warning.
- The broker client, market-data fetching, the web API, notifications and
  configuration loading are not part of this model.
- Some sources are written as one function but modelled as a chain of step
  methods, each proved against the same specification:
  `_calculate_indicators`, `_calculate_regime_score`, `_optimize_parameters`,
  `_generate_reasoning` and the body of the portfolio loop. The order of the
  steps is the source's.

Where the code and the design description differ, the model follows the
code:

- The RSI term's weight counts whenever the RSI value is truthy (non-zero or
  NaN), not merely whenever it is present.
- The grid search falls back to (10, 30, 14) only when no candidate's Sharpe
  exceeds -999, not whenever no backtest is profitable.

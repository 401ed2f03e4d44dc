/**
 * The risk gate in front of every order: account balance, blocked
 * account, pattern-day-trading (PDT) protection, position sizing and the
 * SELL-needs-a-position rule, checked in that order and stopping at the
 * first failure; then the concentration and volatility checks, which never
 * reject. Also the account-wide risk summary and its warning list.
 */
module Risk {
  import opened Values

  /** The configurable limits: share of equity per position, minimum equity, PDT protection. */
  datatype RiskConfig = RiskConfig(maxPositionSize: real, minAccountBalance: real, enablePdtProtection: bool)

  const DefaultConfig := RiskConfig(0.10, 1000.0, true)

  /** Equity below which the PDT day-trade limit applies. */
  const PdtEquityThreshold: real := 25000.0

  /** Day trades allowed in five business days under the PDT rule. */
  const PdtLimit: int := 3

  /**
   * The broker's account record; a field the broker omits stands at its
   * default (0 for amounts and counts, false for flags).
   */
  datatype Account = Account(
    cash: real, equity: real, buyingPower: real,
    tradingBlocked: bool, accountBlocked: bool,
    daytradeCount: int, patternDayTrader: bool)

  /** One open position as the broker reports it. */
  datatype Holding = Holding(
    symbol: string, qty: real, marketValue: real,
    unrealizedPl: real, unrealizedPlpc: real, currentPrice: real)

  /** The message of a check, and the reason of a rejection. */
  datatype Message =
    | EquityBelowMinimum(equity: real, minimum: real)
    | InsufficientCash(cash: real)
    | SufficientBalance(equity: real, cash: real)
    | BlockedFromTrading
    | Blocked
    | Active
    | PdtDisabled
    | PdtNotApplicable(equity: real)
    | PdtLimitReached(used: int)
    | PdtPassed(used: int, closeToLimit: bool)
    | InsufficientBuyingPower
    | NoPositionToSell(symbol: string)
    | NoEquity
    | HighConcentration(concentration: real)
    | ManyPositions(held: nat)
    | ConcentrationOk(concentration: real, held: nat)
    | VolatilityNotImplemented
    | LargePosition(percentage: real)
    | NoCurrentPrice

  datatype Check = Check(passed: bool, message: Message)

  /** The position-sizing breakdown. */
  datatype Sizing = Sizing(
    maxShares: int, positionValue: real, portfolioPercentage: real,
    maxPositionValue: real, currentExposure: real, remainingAllocation: real)

  /** The names under which the evaluation records each check it ran. */
  datatype CheckName = BalanceCheck | BlockedCheck | PdtCheck | SizingCheck | ConcentrationCheck | VolatilityCheck

  /** What the evaluation records for a check. */
  datatype Detail = Checked(check: Check) | Sized(sizing: Sizing) | Flagged(check: Check, warning: Option<Message>)

  /** The verdict on one proposed trade; `reason` is None for the empty reason. */
  datatype Evaluation = Evaluation(
    approved: bool, reason: Option<Message>, warnings: seq<Message>,
    positionSize: real, positionValue: real, checks: map<CheckName, Detail>)

  // ---------------------------------------------------------------------
  // Lookups and sums over the positions
  // ---------------------------------------------------------------------

  /** The first position held in `symbol`, if any. */
  function FindHolding(positions: seq<Holding>, symbol: string): (r: Option<Holding>)
    ensures r.None? <==> forall i :: 0 <= i < |positions| ==> positions[i].symbol != symbol
    ensures r.Some? ==> r.value.symbol == symbol
    ensures r.Some? ==> exists i :: 0 <= i < |positions| && positions[i] == r.value && forall j :: 0 <= j < i ==> positions[j].symbol != symbol
  {
    if positions == [] then None
    else if positions[0].symbol == symbol then Some(positions[0])
    else
      var r := FindHolding(positions[1..], symbol);
      if r.Some? then
        ghost var i :| 0 <= i < |positions[1..]| && positions[1..][i] == r.value
          && (forall j :: 0 <= j < i ==> positions[1..][j].symbol != symbol);
        assert positions[i + 1] == r.value;
        r
      else r
  }

  /** The total market value of the positions. */
  function Invested(positions: seq<Holding>): real
  {
    if positions == [] then 0.0 else Invested(positions[..|positions| - 1]) + positions[|positions| - 1].marketValue
  }

  /** The total unrealized profit or loss of the positions. */
  function UnrealizedPl(positions: seq<Holding>): real
  {
    if positions == [] then 0.0 else UnrealizedPl(positions[..|positions| - 1]) + positions[|positions| - 1].unrealizedPl
  }

  /** The largest market value among the positions, 0 with none. */
  function LargestPosition(positions: seq<Holding>): (m: real)
    ensures forall i :: 0 <= i < |positions| ==> positions[i].marketValue <= m
    ensures positions != [] ==> exists i :: 0 <= i < |positions| && positions[i].marketValue == m
    ensures positions == [] ==> m == 0.0
  {
    if |positions| <= 1 then (if positions == [] then 0.0 else positions[0].marketValue)
    else
      var m := LargestPosition(positions[..|positions| - 1]);
      assert forall i :: 0 <= i < |positions| - 1 ==> positions[..|positions| - 1][i] == positions[i];
      Max(m, positions[|positions| - 1].marketValue)
  }

  // ---------------------------------------------------------------------
  // The individual checks
  // ---------------------------------------------------------------------

  /** Equity must reach the configured minimum, and at least $100 must be in cash. */
  function CheckAccountBalance(config: RiskConfig, account: Account): (r: Check)
    ensures r.passed <==> account.equity >= config.minAccountBalance && account.cash >= 100.0
    ensures account.equity < config.minAccountBalance ==>
      r.message == EquityBelowMinimum(account.equity, config.minAccountBalance)
    ensures account.equity >= config.minAccountBalance && account.cash < 100.0 ==>
      r.message == InsufficientCash(account.cash)
  {
    if account.equity < config.minAccountBalance then Check(false, EquityBelowMinimum(account.equity, config.minAccountBalance))
    else if account.cash < 100.0 then Check(false, InsufficientCash(account.cash))
    else Check(true, SufficientBalance(account.equity, account.cash))
  }

  /** Neither trading nor the account may be blocked; trading is reported first. */
  function CheckAccountBlocked(account: Account): (r: Check)
    ensures r.passed <==> !account.tradingBlocked && !account.accountBlocked
    ensures account.tradingBlocked ==> r.message == BlockedFromTrading
    ensures !account.tradingBlocked && account.accountBlocked ==> r.message == Blocked
  {
    if account.tradingBlocked then Check(false, BlockedFromTrading)
    else if account.accountBlocked then Check(false, Blocked)
    else Check(true, Active)
  }

  /**
   * The PDT rule: with protection on and equity under $25,000, a fourth
   * day trade within the window is refused; two used trades pass with a
   * close-to-limit note.
   */
  function CheckPdtRules(config: RiskConfig, account: Account): (r: Check)
    ensures r.passed <==>
      !config.enablePdtProtection || account.equity >= PdtEquityThreshold || account.daytradeCount < PdtLimit
    ensures !r.passed ==> r.message == PdtLimitReached(account.daytradeCount)
    ensures r.message.PdtPassed? ==> r.message.closeToLimit == (account.daytradeCount >= 2)
  {
    if !config.enablePdtProtection then Check(true, PdtDisabled)
    else if account.equity >= PdtEquityThreshold then Check(true, PdtNotApplicable(account.equity))
    else if account.daytradeCount >= PdtLimit then Check(false, PdtLimitReached(account.daytradeCount))
    else Check(true, PdtPassed(account.daytradeCount, account.daytradeCount >= 2))
  }

  /** The exposure already held in `symbol`: its market value, or 0. */
  function CurrentExposure(positions: seq<Holding>, symbol: string): real
  {
    var h := FindHolding(positions, symbol);
    if h.Some? then h.value.marketValue else 0.0
  }

  /** 98% of what may still be put into `symbol`: the allocation left, capped by buying power. */
  function Budget(config: RiskConfig, account: Account, positions: seq<Holding>, symbol: string): real
  {
    Min(account.equity * config.maxPositionSize - CurrentExposure(positions, symbol), account.buyingPower) * 0.98
  }

  /**
   * The whole number of shares to buy: the budget divided by the price,
   * truncated toward zero, or 0 for a non-positive price.
   */
  function CalculatePositionSize(config: RiskConfig, account: Account, positions: seq<Holding>, price: real, symbol: string): (s: Sizing)
    ensures s.maxPositionValue == account.equity * config.maxPositionSize
    ensures s.remainingAllocation == s.maxPositionValue - CurrentExposure(positions, symbol)
    ensures price <= 0.0 ==> s.maxShares == 0
    ensures price > 0.0 && Budget(config, account, positions, symbol) >= 0.0 ==>
      0 <= s.maxShares && s.maxShares as real * price <= Budget(config, account, positions, symbol)
      < (s.maxShares + 1) as real * price
    ensures price > 0.0 && Budget(config, account, positions, symbol) < 0.0 ==> s.maxShares <= 0
    ensures s.positionValue == s.maxShares as real * price
    ensures s.portfolioPercentage == if account.equity > 0.0 then s.positionValue / account.equity else 0.0
  {
    var maxPositionValue := account.equity * config.maxPositionSize;
    var currentExposure := CurrentExposure(positions, symbol);
    var budget := Budget(config, account, positions, symbol);
    var maxShares := if price > 0.0 then Trunc(budget / price) else 0;
    var value := maxShares as real * price;
    var s := Sizing(maxShares, value, if account.equity > 0.0 then value / account.equity else 0.0,
                    maxPositionValue, currentExposure, maxPositionValue - currentExposure);
    if price > 0.0 then SharesWithinBudget(budget, price); s else s
  }

  /** Truncating `budget / price` gives the most whole shares the budget pays for. */
  lemma SharesWithinBudget(budget: real, price: real)
    requires price > 0.0
    ensures var n := Trunc(budget / price);
      && (budget >= 0.0 ==> 0 <= n && n as real * price <= budget < (n + 1) as real * price)
      && (budget < 0.0 ==> n <= 0)
  {
    var x := budget / price;
    var n := Trunc(x);
    if budget >= 0.0 {
      ScaleWithin(n as real, (n + 1) as real, x, price, budget);
    }
  }

  /** Scaling `lo <= x < hi` by a positive price keeps the order. */
  lemma ScaleWithin(lo: real, hi: real, x: real, price: real, budget: real)
    requires lo <= x < hi && price > 0.0 && x * price == budget
    ensures lo * price <= budget < hi * price
  {
    assert lo * price <= x * price < hi * price;
  }

  /** The number of positions after the trade: one more for a BUY into a new symbol. */
  function PositionCount(positions: seq<Holding>, symbol: string, action: Action): nat
  {
    |positions| + (if action == Buy && FindHolding(positions, symbol).None? then 1 else 0)
  }

  /** The invested share of equity after the trade (0 for non-positive equity). */
  function Concentration(account: Account, positions: seq<Holding>, action: Action, tradeValue: real): real
  {
    var total := Invested(positions) + (if action == Buy then tradeValue else 0.0);
    if account.equity > 0.0 then total / account.equity else 0.0
  }

  /**
   * Portfolio concentration: reported, never refused. Over 80% invested is
   * reported first, then more than 15 positions.
   */
  function CheckPortfolioConcentration(account: Account, positions: seq<Holding>, symbol: string, action: Action, tradeValue: real): (r: Check)
    ensures r.passed
    ensures account.equity == 0.0 <==> r.message == NoEquity
    ensures r.message.HighConcentration? <==>
      account.equity != 0.0 && Concentration(account, positions, action, tradeValue) > 0.80
    ensures r.message.ManyPositions? <==>
      account.equity != 0.0 && Concentration(account, positions, action, tradeValue) <= 0.80
      && PositionCount(positions, symbol, action) > 15
  {
    if account.equity == 0.0 then Check(true, NoEquity)
    else
      var concentration := Concentration(account, positions, action, tradeValue);
      if concentration > 0.80 then Check(true, HighConcentration(concentration))
      else
        var count := PositionCount(positions, symbol, action);
        if count > 15 then Check(true, ManyPositions(count))
        else Check(true, ConcentrationOk(concentration, count))
  }

  /** The volatility check is a placeholder: it always passes, with no warning. */
  function CheckVolatilityRisk(symbol: string, price: real): (r: Detail)
    ensures r.Flagged? && r.check.passed && r.warning.None?
  {
    Flagged(Check(true, VolatilityNotImplemented), None)
  }

  // ---------------------------------------------------------------------
  // Trade evaluation
  // ---------------------------------------------------------------------

  /**
   * The reason the gate refuses the trade: the first failing check in the
   * order balance, blocked, PDT (BUY only), then sizing for a BUY or the
   * held position for a SELL; None when the trade passes.
   */
  function FirstFailure(config: RiskConfig, symbol: string, action: Action, account: Account,
                        positions: seq<Holding>, price: real): (f: Option<Message>)
    ensures !CheckAccountBalance(config, account).passed ==> f == Some(CheckAccountBalance(config, account).message)
    ensures CheckAccountBalance(config, account).passed && !CheckAccountBlocked(account).passed ==>
      f == Some(CheckAccountBlocked(account).message)
    ensures f.None? <==>
      && CheckAccountBalance(config, account).passed
      && CheckAccountBlocked(account).passed
      && (action == Buy ==> CheckPdtRules(config, account).passed
                            && CalculatePositionSize(config, account, positions, price, symbol).maxShares > 0)
      && (action == Sell ==> FindHolding(positions, symbol).Some?)
    ensures (CheckAccountBalance(config, account).passed && CheckAccountBlocked(account).passed
             && action == Buy && !CheckPdtRules(config, account).passed) ==>
      f == Some(CheckPdtRules(config, account).message)
    ensures (CheckAccountBalance(config, account).passed && CheckAccountBlocked(account).passed
             && action == Buy && CheckPdtRules(config, account).passed
             && CalculatePositionSize(config, account, positions, price, symbol).maxShares <= 0) ==>
      f == Some(InsufficientBuyingPower)
    ensures (CheckAccountBalance(config, account).passed && CheckAccountBlocked(account).passed
             && action == Sell && FindHolding(positions, symbol).None?) ==>
      f == Some(NoPositionToSell(symbol))
  {
    var balance := CheckAccountBalance(config, account);
    var blocked := CheckAccountBlocked(account);
    var pdt := CheckPdtRules(config, account);
    if !balance.passed then Some(balance.message)
    else if !blocked.passed then Some(blocked.message)
    else if action == Buy && !pdt.passed then Some(pdt.message)
    else if action == Buy && CalculatePositionSize(config, account, positions, price, symbol).maxShares <= 0 then
      Some(InsufficientBuyingPower)
    else if action == Sell && FindHolding(positions, symbol).None? then Some(NoPositionToSell(symbol))
    else None
  }

  /** The warning a check raised, as a list of at most one. */
  function Listed(warning: Option<Message>): (w: seq<Message>)
    ensures |w| <= 1 && (w != [] <==> warning.Some?)
    ensures warning.Some? ==> w == [warning.value]
    ensures forall m :: m in w <==> warning == Some(m)
  {
    if warning.Some? then [warning.value] else []
  }

  /** A refusal: the reason, no warnings, nothing sized, the checks run so far. */
  function Refused(reason: Message, checks: map<CheckName, Detail>): Evaluation
  {
    Evaluation(false, Some(reason), [], 0.0, 0.0, checks)
  }

  /** The two closing checks of an approved trade, which may only add warnings. */
  function Approved(account: Account, positions: seq<Holding>, symbol: string, action: Action, price: real,
                    size: real, value: real, warnings: seq<Message>, checks: map<CheckName, Detail>): Evaluation
  {
    var concentration := CheckPortfolioConcentration(account, positions, symbol, action, value);
    var afterConcentration := if !concentration.passed then warnings + [concentration.message] else warnings;
    var volatility := CheckVolatilityRisk(symbol, price);
    Evaluation(true, None, afterConcentration + Listed(volatility.warning), size, value,
               checks[ConcentrationCheck := Checked(concentration)][VolatilityCheck := volatility])
  }

  /** The BUY-only stages after the account checks: PDT, then sizing. */
  function BuyEvaluation(config: RiskConfig, symbol: string, account: Account, positions: seq<Holding>,
                         price: real, checks: map<CheckName, Detail>): Evaluation
  {
    var pdt := CheckPdtRules(config, account);
    var withPdt := checks[PdtCheck := Checked(pdt)];
    if !pdt.passed then Refused(pdt.message, withPdt)
    else
      var sizing := CalculatePositionSize(config, account, positions, price, symbol);
      var withSizing := withPdt[SizingCheck := Sized(sizing)];
      if sizing.maxShares <= 0 then Refused(InsufficientBuyingPower, withSizing)
      else
        var warnings := if sizing.portfolioPercentage > 0.15 then [LargePosition(sizing.portfolioPercentage)] else [];
        Approved(account, positions, symbol, Buy, price, sizing.maxShares as real, sizing.positionValue, warnings, withSizing)
  }

  /** The evaluation of one proposed trade, stage by stage. */
  function EvaluationOf(config: RiskConfig, symbol: string, action: Action, account: Account,
                        positions: seq<Holding>, price: real): Evaluation
  {
    var balance := CheckAccountBalance(config, account);
    var withBalance := map[BalanceCheck := Checked(balance)];
    if !balance.passed then Refused(balance.message, withBalance)
    else
      var blocked := CheckAccountBlocked(account);
      var withBlocked := withBalance[BlockedCheck := Checked(blocked)];
      if !blocked.passed then Refused(blocked.message, withBlocked)
      else if action == Buy then BuyEvaluation(config, symbol, account, positions, price, withBlocked)
      else if action == Sell then
        var current := FindHolding(positions, symbol);
        if current.None? then Refused(NoPositionToSell(symbol), withBlocked)
        else Approved(account, positions, symbol, Sell, price, current.value.qty, current.value.marketValue, [], withBlocked)
      else Approved(account, positions, symbol, Hold, price, 0.0, 0.0, [], withBlocked)
  }

  /**
   * Evaluates one proposed trade, recording each check it runs and
   * returning at the first failure.
   */
  method EvaluateTrade(config: RiskConfig, symbol: string, action: Action, account: Account,
                       positions: seq<Holding>, price: real) returns (r: Evaluation)
    ensures r == EvaluationOf(config, symbol, action, account, positions, price)
  {
    r := Evaluation(true, None, [], 0.0, 0.0, map[]);
    var current := FindHolding(positions, symbol);

    var balance := CheckAccountBalance(config, account);
    r := r.(checks := r.checks[BalanceCheck := Checked(balance)]);
    if !balance.passed {
      r := r.(approved := false, reason := Some(balance.message));
      return;
    }

    var blocked := CheckAccountBlocked(account);
    r := r.(checks := r.checks[BlockedCheck := Checked(blocked)]);
    if !blocked.passed {
      r := r.(approved := false, reason := Some(blocked.message));
      return;
    }

    if action == Buy {
      var pdt := CheckPdtRules(config, account);
      r := r.(checks := r.checks[PdtCheck := Checked(pdt)]);
      if !pdt.passed {
        r := r.(approved := false, reason := Some(pdt.message));
        return;
      }
    }

    if action == Buy {
      var sizing := CalculatePositionSize(config, account, positions, price, symbol);
      r := r.(checks := r.checks[SizingCheck := Sized(sizing)]);
      if sizing.maxShares <= 0 {
        r := r.(approved := false, reason := Some(InsufficientBuyingPower));
        return;
      }
      r := r.(positionSize := sizing.maxShares as real, positionValue := sizing.positionValue);
      if sizing.portfolioPercentage > 0.15 {
        r := r.(warnings := r.warnings + [LargePosition(sizing.portfolioPercentage)]);
      }
    } else if action == Sell {
      if current.None? {
        r := r.(approved := false, reason := Some(NoPositionToSell(symbol)));
        return;
      }
      r := r.(positionSize := current.value.qty, positionValue := current.value.marketValue);
    }

    var concentration := CheckPortfolioConcentration(account, positions, symbol, action, r.positionValue);
    r := r.(checks := r.checks[ConcentrationCheck := Checked(concentration)]);
    if !concentration.passed {
      r := r.(warnings := r.warnings + [concentration.message]);
    }

    var volatility := CheckVolatilityRisk(symbol, price);
    r := r.(checks := r.checks[VolatilityCheck := volatility]);
    r := r.(warnings := r.warnings + Listed(volatility.warning));
  }

  /**
   * The trade is approved exactly when no check fails, and a refusal gives
   * the first failing check's message as its reason.
   */
  lemma EvaluationVerdict(config: RiskConfig, symbol: string, action: Action, account: Account,
                          positions: seq<Holding>, price: real)
    ensures var r := EvaluationOf(config, symbol, action, account, positions, price);
      && (r.approved <==> FirstFailure(config, symbol, action, account, positions, price).None?)
      && r.reason == FirstFailure(config, symbol, action, account, positions, price)
  {
  }

  /** A check is recorded exactly when every earlier check passed: nothing after a failure runs. */
  lemma EvaluationRecords(config: RiskConfig, symbol: string, action: Action, account: Account,
                          positions: seq<Holding>, price: real)
    ensures var r := EvaluationOf(config, symbol, action, account, positions, price);
      var balance := CheckAccountBalance(config, account).passed;
      var blocked := CheckAccountBlocked(account).passed;
      && r.checks.Keys <= {BalanceCheck, BlockedCheck, PdtCheck, SizingCheck, ConcentrationCheck, VolatilityCheck}
      && BalanceCheck in r.checks && r.checks[BalanceCheck] == Checked(CheckAccountBalance(config, account))
      && (BlockedCheck in r.checks <==> balance)
      && (PdtCheck in r.checks <==> balance && blocked && action == Buy)
      && (SizingCheck in r.checks <==> balance && blocked && action == Buy && CheckPdtRules(config, account).passed)
      && (ConcentrationCheck in r.checks <==> r.approved)
      && (VolatilityCheck in r.checks <==> r.approved)
  {
  }

  /**
   * What an evaluation sizes: nothing when refused; at least one whole
   * share worth `shares * price` for an approved BUY; the held quantity and
   * value for an approved SELL; nothing for any other action.
   */
  lemma EvaluationSizes(config: RiskConfig, symbol: string, action: Action, account: Account,
                        positions: seq<Holding>, price: real)
    ensures var r := EvaluationOf(config, symbol, action, account, positions, price);
      && (!r.approved ==> r.positionSize == 0.0 && r.positionValue == 0.0)
      && (r.approved && action == Buy ==>
            var s := CalculatePositionSize(config, account, positions, price, symbol);
            r.positionSize == s.maxShares as real >= 1.0 && r.positionValue == r.positionSize * price)
      && (r.approved && action == Sell ==>
            var h := FindHolding(positions, symbol);
            h.Some? && r.positionSize == h.value.qty && r.positionValue == h.value.marketValue)
      && (r.approved && action == Hold ==> r.positionSize == 0.0 && r.positionValue == 0.0)
  {
  }

  /**
   * The concentration and volatility checks never add a warning, so the
   * only possible warning is the large-position one of an approved BUY
   * worth more than 15% of equity.
   */
  lemma EvaluationWarnings(config: RiskConfig, symbol: string, action: Action, account: Account,
                           positions: seq<Holding>, price: real)
    ensures var r := EvaluationOf(config, symbol, action, account, positions, price);
      var s := CalculatePositionSize(config, account, positions, price, symbol);
      && |r.warnings| <= 1
      && (r.warnings != [] <==> r.approved && action == Buy && s.portfolioPercentage > 0.15)
      && (r.warnings != [] ==> r.warnings == [LargePosition(s.portfolioPercentage)])
  {
  }

  /** The balance and block checks refuse with their own messages, balance first; a SELL that passes both
      is refused exactly when nothing is held, and a HOLD is refused only by those two checks. */
  lemma RejectionReasons(config: RiskConfig, symbol: string, action: Action, account: Account,
                         positions: seq<Holding>, price: real)
    ensures var f := FirstFailure(config, symbol, action, account, positions, price);
      && (account.equity < config.minAccountBalance ==>
            f == Some(EquityBelowMinimum(account.equity, config.minAccountBalance)))
      && (account.equity >= config.minAccountBalance && account.cash < 100.0 ==>
            f == Some(InsufficientCash(account.cash)))
      && (CheckAccountBalance(config, account).passed && account.tradingBlocked ==> f == Some(BlockedFromTrading))
      && (action == Sell && CheckAccountBalance(config, account).passed && CheckAccountBlocked(account).passed ==>
            (f.Some? <==> FindHolding(positions, symbol).None?))
      && (action == Hold ==>
            (f.None? <==> CheckAccountBalance(config, account).passed && CheckAccountBlocked(account).passed))
  {
  }

  /** A SELL is never refused for PDT or buying power: only balance, blocks, or having nothing to sell. */
  lemma SellIgnoresPdtAndSizing(config: RiskConfig, symbol: string, account: Account, positions: seq<Holding>, price: real)
    requires FindHolding(positions, symbol).Some?
    requires CheckAccountBalance(config, account).passed && !account.tradingBlocked && !account.accountBlocked
    ensures FirstFailure(config, symbol, Sell, account, positions, price).None?
  {
  }

  /** Equity $20,000 with three day trades used: a BUY is refused by the PDT rule. */
  lemma PdtLimitExample(symbol: string, positions: seq<Holding>, price: real)
    ensures var account := Account(5000.0, 20000.0, 20000.0, false, false, 3, false);
      FirstFailure(DefaultConfig, symbol, Buy, account, positions, price) == Some(PdtLimitReached(3))
  {
  }

  /** $100,000 equity at 10% per position, $50,000 buying power, a $100 share: 98 shares. */
  lemma SizingExample(symbol: string)
    ensures var account := Account(50000.0, 100000.0, 50000.0, false, false, 0, false);
      var s := CalculatePositionSize(DefaultConfig, account, [], 100.0, symbol);
      s.maxShares == 98 && s.positionValue == 9800.0 && s.portfolioPercentage == 0.098
  {
    var account := Account(50000.0, 100000.0, 50000.0, false, false, 0, false);
    assert Budget(DefaultConfig, account, [], symbol) == 9800.0;
    assert 9800.0 / 100.0 == 98.0;
  }

  // ---------------------------------------------------------------------
  // Risk summary and warnings
  // ---------------------------------------------------------------------

  /** The account-wide warnings. */
  datatype RiskWarning =
    | PdtWarning(count: int)
    | LowCash(cash: real)
    | Overinvested(percentage: real)
    | LargeLoss(symbol: string, plpc: real)

  /** The warnings about the account as a whole, in the order PDT, cash, concentration. */
  function AccountWarnings(account: Account, positions: seq<Holding>): seq<RiskWarning>
  {
    var equity := account.equity;
    var pdt := if equity < PdtEquityThreshold && account.daytradeCount >= 2 then [PdtWarning(account.daytradeCount)] else [];
    var cash := if account.cash < 500.0 then [LowCash(account.cash)] else [];
    var total := Invested(positions);
    var concentrated := if equity > 0.0 && total / equity > 0.90 then [Overinvested(total / equity * 100.0)] else [];
    pdt + cash + concentrated
  }

  /**
   * Each account warning appears exactly when its condition holds: PDT
   * with two day trades used under $25,000, cash under $500, more than 90%
   * of equity invested.
   */
  lemma AccountWarningsExact(account: Account, positions: seq<Holding>)
    ensures var w := AccountWarnings(account, positions);
      && (PdtWarning(account.daytradeCount) in w <==> account.equity < PdtEquityThreshold && account.daytradeCount >= 2)
      && (LowCash(account.cash) in w <==> account.cash < 500.0)
      && ((exists p :: Overinvested(p) in w) <==> account.equity > 0.0 && Invested(positions) / account.equity > 0.90)
      && (forall x :: x in w ==> !x.LargeLoss?)
      && |w| <= 3
  {
    var w := AccountWarnings(account, positions);
    if account.equity > 0.0 && Invested(positions) / account.equity > 0.90 {
      assert Overinvested(Invested(positions) / account.equity * 100.0) in w;
    }
  }

  /** One large-loss warning per position down more than 15%, in position order. */
  function LossWarnings(positions: seq<Holding>): seq<RiskWarning>
  {
    if positions == [] then []
    else
      var p := positions[|positions| - 1];
      LossWarnings(positions[..|positions| - 1]) + (if p.unrealizedPlpc < -0.15 then [LargeLoss(p.symbol, p.unrealizedPlpc)] else [])
  }

  /** The large-loss warnings are exactly the positions down more than 15%. */
  lemma {:induction false} LossWarningsExact(positions: seq<Holding>)
    ensures forall x :: x in LossWarnings(positions) <==>
      exists i :: 0 <= i < |positions| && positions[i].unrealizedPlpc < -0.15
        && x == LargeLoss(positions[i].symbol, positions[i].unrealizedPlpc)
    ensures |LossWarnings(positions)| <= |positions|
  {
    if positions != [] {
      var init := positions[..|positions| - 1];
      LossWarningsExact(init);
      forall x ensures x in LossWarnings(positions) <==>
        exists i :: 0 <= i < |positions| && positions[i].unrealizedPlpc < -0.15
          && x == LargeLoss(positions[i].symbol, positions[i].unrealizedPlpc)
      {
        if x in LossWarnings(init) {
          var i :| 0 <= i < |init| && init[i].unrealizedPlpc < -0.15
            && x == LargeLoss(init[i].symbol, init[i].unrealizedPlpc);
          assert positions[i] == init[i];
        }
        if exists i :: 0 <= i < |positions| && positions[i].unrealizedPlpc < -0.15
            && x == LargeLoss(positions[i].symbol, positions[i].unrealizedPlpc) {
          var i :| 0 <= i < |positions| && positions[i].unrealizedPlpc < -0.15
            && x == LargeLoss(positions[i].symbol, positions[i].unrealizedPlpc);
          if i < |init| {
            assert init[i] == positions[i];
          }
        }
      }
    }
  }

  /** The full warning list: the account warnings, then one per large loss. */
  function Warnings(account: Account, positions: seq<Holding>): seq<RiskWarning>
  {
    AccountWarnings(account, positions) + LossWarnings(positions)
  }

  /**
   * Builds the warning list step by step: the three account warnings in
   * order, then a pass over the positions appending each large loss.
   */
  method GenerateWarnings(account: Account, positions: seq<Holding>) returns (w: seq<RiskWarning>)
    ensures w == Warnings(account, positions)
  {
    w := [];
    var equity := account.equity;
    if equity < PdtEquityThreshold && account.daytradeCount >= 2 {
      w := w + [PdtWarning(account.daytradeCount)];
    }
    if account.cash < 500.0 {
      w := w + [LowCash(account.cash)];
    }
    var total := Invested(positions);
    if equity > 0.0 && total / equity > 0.90 {
      w := w + [Overinvested(total / equity * 100.0)];
    }
    assert w == AccountWarnings(account, positions);
    w := AppendLossWarnings(w, positions);
  }

  /** The pass over the positions, appending one warning per large loss. */
  method AppendLossWarnings(w0: seq<RiskWarning>, positions: seq<Holding>) returns (w: seq<RiskWarning>)
    ensures w == w0 + LossWarnings(positions)
  {
    w := w0;
    for i := 0 to |positions|
      invariant w == w0 + LossWarnings(positions[..i])
    {
      assert positions[..i + 1][..i] == positions[..i];
      if positions[i].unrealizedPlpc < -0.15 {
        w := w + [LargeLoss(positions[i].symbol, positions[i].unrealizedPlpc)];
      }
    }
    assert positions[..|positions|] == positions;
  }

  datatype PdtSummary = PdtSummary(daytradeCount: int, remainingDaytrades: int, pdtRestricted: bool)

  datatype RiskSummary = RiskSummary(
    equity: real, cash: real, invested: real, investedPercentage: real,
    pdt: PdtSummary,
    numPositions: nat, totalUnrealizedPl: real, totalUnrealizedPlPct: real,
    largestPositionValue: real, largestPositionPct: real,
    warnings: seq<RiskWarning>)

  /** The PDT block of the summary: day trades left and whether new day trades are barred. */
  function PdtStatus(account: Account): (p: PdtSummary)
    ensures p.remainingDaytrades >= 0
    ensures p.daytradeCount == account.daytradeCount
    ensures p.remainingDaytrades == (if account.daytradeCount >= PdtLimit then 0 else PdtLimit - account.daytradeCount)
    ensures p.daytradeCount < PdtLimit ==> p.remainingDaytrades + p.daytradeCount == PdtLimit
    ensures p.pdtRestricted <==> account.equity < PdtEquityThreshold && account.daytradeCount >= PdtLimit
    ensures p.pdtRestricted ==> p.remainingDaytrades == 0
  {
    var count := account.daytradeCount;
    PdtSummary(count, if 0 >= PdtLimit - count then 0 else PdtLimit - count,
               account.equity < PdtEquityThreshold && count >= PdtLimit)
  }

  /** The account, PDT and portfolio figures plus the warnings. */
  function GetRiskSummary(account: Account, positions: seq<Holding>): (s: RiskSummary)
    ensures s.pdt == PdtStatus(account)
    ensures s.equity == account.equity && s.cash == account.cash
    ensures s.largestPositionValue == LargestPosition(positions)
    ensures s.numPositions == |positions|
    ensures forall i :: 0 <= i < |positions| ==> positions[i].marketValue <= s.largestPositionValue
    ensures s.equity <= 0.0 ==> s.investedPercentage == 0.0 && s.largestPositionPct == 0.0
    ensures s.warnings == Warnings(account, positions)
  {
    var equity := account.equity;
    var invested := Invested(positions);
    var pl := UnrealizedPl(positions);
    var largest := LargestPosition(positions);
    RiskSummary(
      equity, account.cash, invested, if equity > 0.0 then invested / equity * 100.0 else 0.0,
      PdtStatus(account),
      |positions|, pl, if invested - pl > 0.0 then pl / (invested - pl) * 100.0 else 0.0,
      largest, if equity > 0.0 then largest / equity * 100.0 else 0.0,
      Warnings(account, positions))
  }
}

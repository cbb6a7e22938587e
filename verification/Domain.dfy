/**
Value objects of the simulation. Money amounts are integer counts of money
quanta (10^-money_precision), quantities integer counts of quantity units
(10^-quantity_precision), and prices positive reals in quanta per unit.
*/
module Domain {
  import opened Options
  import opened Rounding

  // ---------- configuration ----------

  datatype Config = Config(
    initialCash: int,
    feeBps: real,
    minimumFee: real,
    slippageBps: real,
    maxPosition: real,
    maxTotalExposure: real,
    maxOrderNotional: real,
    maxDailyLoss: real,
    maxDrawdown: real,
    maxOpenPositions: int,
    warmupBars: nat,
    dataAgeSeconds: nat,
    tradingEnabled: bool,
    killSwitchActive: bool,
    quantityPrecision: nat,
    moneyPrecision: nat,
    historyLimit: nat)

  predicate IsFraction(x: real) { 0.0 <= x <= 1.0 }

  /** The checks a configuration object makes when it is built. */
  predicate ValidConfig(cfg: Config) {
    && cfg.initialCash > 0
    && cfg.feeBps >= 0.0 && cfg.minimumFee >= 0.0
    && 0.0 <= cfg.slippageBps < 10000.0
    && IsFraction(cfg.maxPosition) && IsFraction(cfg.maxTotalExposure)
    && IsFraction(cfg.maxOrderNotional)
    && IsFraction(cfg.maxDailyLoss) && IsFraction(cfg.maxDrawdown)
    && cfg.maxPosition <= cfg.maxTotalExposure
    && cfg.maxOpenPositions >= 1
    && cfg.quantityPrecision <= 12
    && 8 <= cfg.moneyPrecision <= 12
    && cfg.historyLimit >= 1
  }

  datatype Policy = Policy(
    maxAssetWeight: real,
    maxTotalGrossExposure: real,
    maxOrderNotionalWeight: real,
    maxDailyLoss: real,
    maxDrawdown: real,
    maxDataAgeSeconds: nat,
    maxOpenPositions: int,
    allowedSymbols: seq<string>)

  /** The stricter of the policy and the configuration, limit by limit. */
  function EffectivePolicy(policy: Policy, cfg: Config): Policy {
    policy.(
      maxAssetWeight := Min(policy.maxAssetWeight, cfg.maxPosition),
      maxTotalGrossExposure := Min(policy.maxTotalGrossExposure, cfg.maxTotalExposure),
      maxOrderNotionalWeight := Min(policy.maxOrderNotionalWeight, cfg.maxOrderNotional),
      maxDailyLoss := Min(policy.maxDailyLoss, cfg.maxDailyLoss),
      maxDrawdown := Min(policy.maxDrawdown, cfg.maxDrawdown),
      maxOpenPositions := if policy.maxOpenPositions <= cfg.maxOpenPositions
                          then policy.maxOpenPositions else cfg.maxOpenPositions)
  }

  // ---------- prices, costs and marks ----------

  datatype Side = Buy | Sell

  function ExecutionPrice(reference: real, side: Side, slippageBps: real): real {
    var slippage := slippageBps / 10000.0;
    match side
    case Buy => Product(reference, 1.0 + slippage)
    case Sell => Product(reference, 1.0 - slippage)
  }

  function TradeFee(notional: real, cfg: Config): real {
    Max(Product(notional, cfg.feeBps / 10000.0), cfg.minimumFee)
  }

  function MarketValue(quantity: int, price: real): int {
    RoundHalfEven(Times(quantity, price))
  }

  // ---------- market data and signals ----------

  datatype Bar = Bar(
    timestamp: int, symbol: string, open: Option<real>, close: real, timeframeSeconds: int)

  const SECONDS_PER_DAY := 86400

  function UtcDate(timestamp: int): int { timestamp / SECONDS_PER_DAY }

  datatype Signal = Signal(timestamp: int, symbol: string, targetWeight: real, strategyName: string)

  predicate ValidSignal(signal: Signal) { IsFraction(signal.targetWeight) }

  // ---------- risk reasons ----------

  datatype Reason =
    | InvalidPortfolio | InvalidOrder | EquityNonPositive | StartOfDayEquityInvalid
    | PeakEquityInvalid | NotionalNonPositive | GrossExposureNegative | DataAgeNegative
    | TradingDisabled | KillSwitch | LiveTradingDisabled | InvalidSymbol | InvalidData
    | StaleData | NonPositivePrice | InvalidQuantity | InsufficientCash | Shorting | Leverage
    | MaxOrderNotional | MaxPosition | MaxTotalExposure | MaxOpenPositions | DuplicateIntent
    | DailyLoss | MaxDrawdown | Halted | ProjectedEquityNonPositive

  datatype RiskDecision = RiskDecision(approved: bool, reasons: seq<Reason>)

  // ---------- orders and their records ----------

  /** The tuple an intent identifier's text encodes; the weight is printed with twelve decimals. */
  datatype IntentId = IntentId(signalDate: int, symbol: string, weightText: int, executionTimestamp: int)

  datatype OrderIntent = OrderIntent(
    id: IntentId,
    signalTimestamp: int,
    executionTimestamp: int,
    symbol: string,
    side: Side,
    quantity: int,
    referencePrice: real,
    executionPrice: real,
    estimatedFee: int,
    targetWeight: real)

  datatype DecisionRecord = DecisionRecord(
    timestamp: int, decision: RiskDecision, intent: Option<IntentId>)

  datatype Fill = Fill(
    intent: IntentId,
    timestamp: int,
    symbol: string,
    side: Side,
    quantity: int,
    referencePrice: real,
    executionPrice: real,
    fee: int,
    slippageCost: int)

  datatype Trade = Trade(
    fill: Fill,
    signalTimestamp: int,
    averageCostAfter: real,
    realizedPnlDelta: int,
    resultingCash: int,
    resultingQuantity: int,
    targetWeight: real)

  datatype HaltState = HaltState(active: bool, timestamp: Option<int>, reasons: seq<Reason>)

  const NOT_HALTED := HaltState(false, None, [])

  datatype EquityPoint = EquityPoint(
    timestamp: int,
    close: real,
    cash: int,
    quantity: int,
    averageCost: real,
    positionMarketValue: int,
    equity: int,
    startOfDayEquity: int,
    dailyPnl: int,
    peakEquity: int,
    exposure: real,
    realizedPnl: int,
    unrealizedPnl: int,
    cumulativeFees: int,
    cumulativeSlippage: int,
    drawdown: real,
    halt: HaltState,
    targetWeightForNextBar: real)

  /** Everything a simulation records. */
  datatype Journal = Journal(
    history: seq<Bar>,
    curve: seq<EquityPoint>,
    intents: seq<OrderIntent>,
    decisions: seq<DecisionRecord>,
    fills: seq<Fill>,
    trades: seq<Trade>)
}

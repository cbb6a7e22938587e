/**
The fail-closed risk checks every simulated order and every portfolio mark goes
through. Checks append to a list of reasons; a decision is approved exactly when
the list stays empty.
*/
module RiskPolicy {
  import opened Domain
  import opened Options
  import opened Rounding

  // ---------- tolerances ----------

  const RISK_EPSILON: real := 0.000000001

  /** The absolute tolerance, counted in steps of 10^-precision. */
  function Epsilon(precision: nat): (e: real)
    ensures e > 0.0
  {
    PowerOfTen(precision) as real * RISK_EPSILON
  }

  predicate Matches(left: real, right: real, epsilon: real) {
    Abs(left - right) <= Max(epsilon, Abs(right) * 0.000000000001)
  }

  function RoundMoney(x: real): real { RoundHalfEven(x) as real }

  // ---------- inputs ----------

  datatype Snapshot = Snapshot(
    equity: real,
    startOfDayEquity: real,
    peakEquity: real,
    dailyPnl: real,
    tradingEnabled: bool,
    killSwitchActive: bool,
    cash: Option<real>,
    openPositions: int,
    halted: bool)

  datatype Order = Order(
    symbol: string,
    side: Side,
    quantity: real,
    referencePrice: real,
    executionPrice: real,
    notional: real,
    estimatedFee: real,
    cashRequired: Option<real>,
    availableCash: Option<real>,
    currentQuantity: real,
    currentSymbolExposure: real,
    currentTotalGrossExposure: real,
    resultingSymbolExposure: real,
    resultingTotalGrossExposure: real,
    resultingQuantity: real,
    moneyPrecision: nat,
    quantityPrecision: nat,
    dataAgeSeconds: int,
    openPositions: int,
    intent: Option<IntentId>,
    lastIntent: Option<IntentId>,
    dataValid: bool,
    reducesRisk: bool,
    isLiveOrder: bool)

  // ---------- reason lists ----------

  function Flag(reasons: seq<Reason>, violated: bool, reason: Reason): seq<Reason> {
    if violated then reasons + [reason] else reasons
  }

  lemma FlagsNothing()
    ensures forall found: seq<Reason>, violated, reason ::
      Flag(found, violated, reason) == [] <==> found == [] && !violated
  {
  }

  /** First occurrences only, in order. */
  function Unique(reasons: seq<Reason>): (unique: seq<Reason>)
    ensures forall x :: x in unique <==> x in reasons
    ensures forall i, j :: 0 <= i < j < |unique| ==> unique[i] != unique[j]
    ensures unique == [] <==> reasons == []
  {
    if reasons == [] then []
    else
      var front := Unique(reasons[..|reasons| - 1]);
      var last := reasons[|reasons| - 1];
      assert reasons == reasons[..|reasons| - 1] + [last];
      if last in front then front else front + [last]
  }

  function Decide(reasons: seq<Reason>): (decision: RiskDecision)
    ensures decision.approved <==> reasons == []
    ensures forall x :: x in decision.reasons <==> x in reasons
    ensures forall i, j :: 0 <= i < j < |decision.reasons| ==> decision.reasons[i] != decision.reasons[j]
  {
    RiskDecision(reasons == [], Unique(reasons))
  }

  /** The place of a reason's first occurrence. */
  function FirstOf(reasons: seq<Reason>, x: Reason): (k: nat)
    requires x in reasons
    ensures k < |reasons| && reasons[k] == x && x !in reasons[..k]
  {
    if reasons[0] == x then 0
    else
      assert reasons == [reasons[0]] + reasons[1..];
      1 + FirstOf(reasons[1..], x)
  }

  /** A decision lists its reasons in the order in which they were first found. */
  lemma {:induction false} DecideKeepsOrder(reasons: seq<Reason>, i: nat, j: nat)
    requires i < j < |Decide(reasons).reasons|
    ensures FirstOf(reasons, Decide(reasons).reasons[i]) < FirstOf(reasons, Decide(reasons).reasons[j])
    decreases |reasons|
  {
    var front, last := reasons[..|reasons| - 1], reasons[|reasons| - 1];
    assert reasons == front + [last];
    var unique := Unique(reasons);
    if j < |Unique(front)| {
      DecideKeepsOrder(front, i, j);
      FirstInFront(front, last, unique[j]);
    }
    FirstInFront(front, last, unique[i]);
  }

  lemma {:induction false} FirstInFront(front: seq<Reason>, last: Reason, x: Reason)
    requires x in front
    ensures x in front + [last] && FirstOf(front + [last], x) == FirstOf(front, x)
  {
    if front[0] != x {
      assert front == [front[0]] + front[1..];
      assert (front + [last])[1..] == front[1..] + [last];
      FirstInFront(front[1..], last, x);
    }
  }

  // ---------- portfolio checks ----------

  function PortfolioReasons(p: Snapshot, epsilon: real, found: seq<Reason>): seq<Reason> {
    var r := Flag(found, p.equity <= 0.0, EquityNonPositive);
    var r := Flag(r, p.startOfDayEquity <= 0.0, StartOfDayEquityInvalid);
    var r := Flag(r, p.peakEquity <= 0.0, PeakEquityInvalid);
    var r := Flag(r, !Matches(p.dailyPnl, p.equity - p.startOfDayEquity, epsilon), InvalidPortfolio);
    var r := Flag(r, p.cash.None? || p.cash.value < 0.0, InvalidPortfolio);
    var r := Flag(r, p.openPositions < 0, InvalidPortfolio);
    var r := Flag(r, !p.tradingEnabled, TradingDisabled);
    var r := Flag(r, p.killSwitchActive, KillSwitch);
    Flag(r, p.halted, Halted)
  }

  function DailyLossPct(p: Snapshot): real
    requires p.startOfDayEquity > 0.0
  {
    Ratio(Max(0.0, -(p.equity - p.startOfDayEquity)), p.startOfDayEquity)
  }

  function DrawdownPct(p: Snapshot): real
    requires p.peakEquity > 0.0
  {
    Ratio(Max(0.0, p.peakEquity - p.equity), p.peakEquity)
  }

  function LossReasons(policy: Policy, p: Snapshot, found: seq<Reason>): seq<Reason> {
    var r := Flag(found,
      p.startOfDayEquity > 0.0 && DailyLossPct(p) >= policy.maxDailyLoss, DailyLoss);
    Flag(r, p.peakEquity > 0.0 && DrawdownPct(p) >= policy.maxDrawdown, MaxDrawdown)
  }

  function PortfolioDecision(policy: Policy, p: Snapshot, epsilon: real): RiskDecision {
    Decide(LossReasons(policy, p, PortfolioReasons(p, epsilon, [])))
  }

  // ---------- order checks ----------

  predicate QuantityValid(o: Order) { o.quantity > 0.0 }
  predicate PricesValid(o: Order) { o.referencePrice > 0.0 && o.executionPrice > 0.0 }
  predicate FeeValid(o: Order) { o.estimatedFee >= 0.0 }
  predicate CurrentExposureValid(o: Order) { o.currentSymbolExposure >= 0.0 }
  predicate CurrentTotalValid(o: Order) { o.currentTotalGrossExposure >= 0.0 }
  predicate CurrentQuantityValid(o: Order) { o.currentQuantity >= 0.0 }
  predicate MoneyPrecisionValid(o: Order) { 8 <= o.moneyPrecision <= 12 }
  predicate CashValid(p: Snapshot) { p.cash.Some? && p.cash.value >= 0.0 }

  /** Checks of single fields. */
  function FieldReasons(policy: Policy, o: Order, p: Snapshot, found: seq<Reason>): seq<Reason> {
    var money, units := Epsilon(o.moneyPrecision), Epsilon(o.quantityPrecision);
    var r := Flag(found, o.symbol == "" || o.symbol !in policy.allowedSymbols, InvalidSymbol);
    var r := Flag(r, !o.dataValid, InvalidData);
    var r := Flag(r, o.isLiveOrder, LiveTradingDisabled);
    var r := Flag(r, !QuantityValid(o), InvalidQuantity);
    var r := Flag(r, !PricesValid(o), NonPositivePrice);
    var r := Flag(r, o.notional <= 0.0, NotionalNonPositive);
    var r := Flag(r, !FeeValid(o) || !CurrentExposureValid(o) || !CurrentTotalValid(o)
                     || !CurrentQuantityValid(o), InvalidOrder);
    var r := Flag(r, o.resultingTotalGrossExposure < 0.0, GrossExposureNegative);
    var r := Flag(r, o.resultingQuantity < -units, Shorting);
    var r := Flag(r, o.resultingSymbolExposure < -money, Shorting);
    var r := Flag(r, !MoneyPrecisionValid(o), InvalidOrder);
    var r := if o.dataAgeSeconds < 0 then r + [DataAgeNegative]
             else Flag(r, o.dataAgeSeconds > policy.maxDataAgeSeconds, StaleData);
    var r := Flag(r, o.openPositions < 0 || o.openPositions != p.openPositions, InvalidPortfolio);
    Flag(r, o.intent.Some? && o.intent == o.lastIntent, DuplicateIntent)
  }

  /** Checks that prices, quantities and the symbol's exposure agree with each other. */
  function SymbolReasons(o: Order, found: seq<Reason>): seq<Reason> {
    var money, units := Epsilon(o.moneyPrecision), Epsilon(o.quantityPrecision);
    var priced := QuantityValid(o) && PricesValid(o);
    var r := Flag(found, priced && !Matches(o.notional, Product(o.quantity, o.executionPrice), money), InvalidOrder);
    var r := Flag(r, priced && o.side == Buy && o.executionPrice < o.referencePrice, InvalidOrder);
    var r := Flag(r, priced && o.side == Sell && o.executionPrice > o.referencePrice, InvalidOrder);
    var r := Flag(r, o.referencePrice > 0.0
      && !Matches(o.resultingSymbolExposure, Product(o.resultingQuantity, o.referencePrice), money), InvalidOrder);
    var r := Flag(r, CurrentQuantityValid(o) && o.referencePrice > 0.0 && CurrentExposureValid(o)
      && !Matches(o.currentSymbolExposure, Product(o.currentQuantity, o.referencePrice), money), InvalidOrder);
    Flag(r, CurrentQuantityValid(o) && QuantityValid(o)
      && !Matches(o.resultingQuantity,
                  o.currentQuantity + (if o.side == Buy then o.quantity else -o.quantity), units), InvalidOrder)
  }

  /** Checks that totals, cash and equity agree with the symbol's exposure and the portfolio. */
  function TotalReasons(o: Order, p: Snapshot, found: seq<Reason>): seq<Reason> {
    var money := Epsilon(o.moneyPrecision);
    var r := Flag(found, CurrentTotalValid(o) && CurrentExposureValid(o)
      && !Matches(o.resultingTotalGrossExposure,
                  o.currentTotalGrossExposure - o.currentSymbolExposure + Abs(o.resultingSymbolExposure), money),
      InvalidOrder);
    var r := Flag(r, CurrentTotalValid(o) && CurrentExposureValid(o)
      && o.currentTotalGrossExposure + money < o.currentSymbolExposure, InvalidOrder);
    var r := Flag(r, o.resultingTotalGrossExposure + money < Abs(o.resultingSymbolExposure), InvalidOrder);
    var r := Flag(r, o.availableCash.Some?
      && (|| o.availableCash.value < 0.0
          || (CashValid(p) && !Matches(o.availableCash.value, p.cash.value, money))), InvalidPortfolio);
    Flag(r, CashValid(p) && MoneyPrecisionValid(o) && CurrentTotalValid(o)
      && !Matches(p.equity, RoundMoney(p.cash.value + RoundMoney(o.currentTotalGrossExposure)), money),
      InvalidPortfolio)
  }

  /** Checks that the projections of the order agree with each other. */
  function ConsistencyReasons(o: Order, p: Snapshot, found: seq<Reason>): seq<Reason> {
    TotalReasons(o, p, SymbolReasons(o, found))
  }

  predicate CanProject(o: Order, p: Snapshot) {
    QuantityValid(o) && PricesValid(o) && FeeValid(o) && CashValid(p) && MoneyPrecisionValid(o)
  }

  function CashNotional(o: Order): real { RoundMoney(Product(o.quantity, o.executionPrice)) }

  function ProjectedCash(o: Order, p: Snapshot): real
    requires CanProject(o, p)
  {
    RoundMoney(if o.side == Buy then p.cash.value - (CashNotional(o) + o.estimatedFee)
               else p.cash.value + CashNotional(o) - o.estimatedFee)
  }

  function ProjectedEquity(o: Order, p: Snapshot): real
    requires CanProject(o, p)
  {
    RoundMoney(ProjectedCash(o, p) + RoundMoney(o.resultingTotalGrossExposure))
  }

  function ProjectionReasons(o: Order, p: Snapshot, found: seq<Reason>): seq<Reason> {
    if !CanProject(o, p) then found
    else
      var r := Flag(found, o.side == Buy && CashNotional(o) <= 0.0, InvalidOrder);
      var r := Flag(r, o.side == Buy && o.cashRequired.Some?
        && !Matches(o.cashRequired.value, CashNotional(o) + o.estimatedFee, Epsilon(o.moneyPrecision)),
        InvalidOrder);
      var r := Flag(r, o.side == Sell && o.cashRequired.Some?, InvalidOrder);
      var r := Flag(r, ProjectedCash(o, p) < 0.0, InsufficientCash);
      Flag(r, ProjectedEquity(o, p) <= 0.0, ProjectedEquityNonPositive)
  }

  predicate ActuallyReducesRisk(o: Order) {
    && o.side == Sell
    && CurrentExposureValid(o) && CurrentTotalValid(o)
    && o.resultingQuantity >= 0.0
    && o.resultingSymbolExposure < o.currentSymbolExposure - Epsilon(o.moneyPrecision)
    && o.resultingTotalGrossExposure < o.currentTotalGrossExposure - Epsilon(o.moneyPrecision)
  }

  function WeightReasons(
    policy: Policy, orderWeight: real, assetWeight: real, totalWeight: real, found: seq<Reason>): seq<Reason>
  {
    var r := Flag(found, orderWeight - policy.maxOrderNotionalWeight > RISK_EPSILON, MaxOrderNotional);
    var r := Flag(r, assetWeight - policy.maxAssetWeight > RISK_EPSILON, MaxPosition);
    var r := Flag(r, totalWeight - policy.maxTotalGrossExposure > RISK_EPSILON, MaxTotalExposure);
    Flag(r, totalWeight - 1.0 > RISK_EPSILON, Leverage)
  }

  /** Exposure and order-size limits; an order proven to reduce risk is not held to them. */
  function LimitReasons(policy: Policy, o: Order, p: Snapshot, found: seq<Reason>): seq<Reason> {
    var r := Flag(found, o.reducesRisk && !ActuallyReducesRisk(o), InvalidOrder);
    if p.equity > 0.0 && CanProject(o, p) && ProjectedEquity(o, p) > 0.0 && !ActuallyReducesRisk(o) then
      WeightReasons(policy, Ratio(Product(o.quantity, o.executionPrice), p.equity),
                    Ratio(RoundMoney(Abs(o.resultingSymbolExposure)), ProjectedEquity(o, p)),
                    Ratio(RoundMoney(o.resultingTotalGrossExposure), ProjectedEquity(o, p)), r)
    else r
  }

  predicate OpensNewPosition(o: Order) {
    && CurrentExposureValid(o)
    && o.currentSymbolExposure <= Epsilon(o.moneyPrecision)
    && o.resultingSymbolExposure > Epsilon(o.moneyPrecision)
  }

  function OrderReasons(policy: Policy, o: Order, p: Snapshot): seq<Reason> {
    var r := PortfolioReasons(p, Epsilon(o.moneyPrecision), []);
    var r := FieldReasons(policy, o, p, r);
    var r := ConsistencyReasons(o, p, r);
    var r := ProjectionReasons(o, p, r);
    var r := LimitReasons(policy, o, p, r);
    var r := Flag(r, OpensNewPosition(o) && p.openPositions >= policy.maxOpenPositions, MaxOpenPositions);
    LossReasons(policy, p, r)
  }

  function OrderDecision(policy: Policy, o: Order, p: Snapshot): RiskDecision {
    Decide(OrderReasons(policy, o, p))
  }
}

/**
Why the policy refuses: for any request and any portfolio, each reason is reported exactly
when its own condition is broken, and nothing else is.
*/
module RiskReasons {
  import opened Domain
  import opened Options
  import opened RiskPolicy
  import opened Rounding

  // ---------- conditions, reason by reason ----------

  /** Equal up to an absolute slack, or to 1e-12 of the second amount. */
  predicate Agree(a: real, b: real, slack: real) {
    var distance := if a >= b then a - b else b - a;
    var size := if b >= 0.0 then b else -b;
    distance <= slack || distance <= size * 0.000000000001
  }

  /** A billionth, counted in steps of 10^-precision. */
  function Slack(precision: nat): real { PowerOfTen(precision) as real * 0.000000001 }

  function Quanta(x: real): real { RoundHalfEven(x) as real }

  function Size(x: real): real { if x >= 0.0 then x else -x }

  predicate PortfolioBroken(p: Snapshot, slack: real, reason: Reason) {
    match reason
    case EquityNonPositive => p.equity <= 0.0
    case StartOfDayEquityInvalid => p.startOfDayEquity <= 0.0
    case PeakEquityInvalid => p.peakEquity <= 0.0
    case InvalidPortfolio =>
      || !Agree(p.dailyPnl, p.equity - p.startOfDayEquity, slack)
      || p.cash.None? || p.cash.value < 0.0 || p.openPositions < 0
    case TradingDisabled => !p.tradingEnabled
    case KillSwitch => p.killSwitchActive
    case Halted => p.halted
    case _ => false
  }

  predicate LossBroken(policy: Policy, p: Snapshot, reason: Reason) {
    match reason
    case DailyLoss =>
      p.startOfDayEquity > 0.0
      && Ratio(if p.equity <= p.startOfDayEquity then p.startOfDayEquity - p.equity else 0.0, p.startOfDayEquity)
         >= policy.maxDailyLoss
    case MaxDrawdown =>
      p.peakEquity > 0.0
      && Ratio(if p.equity <= p.peakEquity then p.peakEquity - p.equity else 0.0, p.peakEquity) >= policy.maxDrawdown
    case _ => false
  }

  predicate FieldBroken(policy: Policy, o: Order, p: Snapshot, reason: Reason) {
    match reason
    case InvalidSymbol => o.symbol == "" || o.symbol !in policy.allowedSymbols
    case InvalidData => !o.dataValid
    case LiveTradingDisabled => o.isLiveOrder
    case InvalidQuantity => o.quantity <= 0.0
    case NonPositivePrice => o.referencePrice <= 0.0 || o.executionPrice <= 0.0
    case NotionalNonPositive => o.notional <= 0.0
    case InvalidOrder =>
      || o.estimatedFee < 0.0 || o.currentSymbolExposure < 0.0 || o.currentTotalGrossExposure < 0.0
      || o.currentQuantity < 0.0 || o.moneyPrecision < 8 || o.moneyPrecision > 12
    case GrossExposureNegative => o.resultingTotalGrossExposure < 0.0
    case Shorting =>
      o.resultingQuantity < -Slack(o.quantityPrecision) || o.resultingSymbolExposure < -Slack(o.moneyPrecision)
    case DataAgeNegative => o.dataAgeSeconds < 0
    case StaleData => o.dataAgeSeconds >= 0 && o.dataAgeSeconds > policy.maxDataAgeSeconds
    case InvalidPortfolio => o.openPositions < 0 || o.openPositions != p.openPositions
    case DuplicateIntent => o.intent.Some? && o.intent == o.lastIntent
    case _ => false
  }

  /** Prices, quantities and exposures of the order contradict each other. */
  predicate SymbolContradicts(o: Order) {
    var money, units := Slack(o.moneyPrecision), Slack(o.quantityPrecision);
    var priced := o.quantity > 0.0 && o.referencePrice > 0.0 && o.executionPrice > 0.0;
    || (priced && !Agree(o.notional, Product(o.quantity, o.executionPrice), money))
    || (priced && o.side == Buy && o.executionPrice < o.referencePrice)
    || (priced && o.side == Sell && o.executionPrice > o.referencePrice)
    || (o.referencePrice > 0.0
        && !Agree(o.resultingSymbolExposure, Product(o.resultingQuantity, o.referencePrice), money))
    || (o.currentQuantity >= 0.0 && o.referencePrice > 0.0 && o.currentSymbolExposure >= 0.0
        && !Agree(o.currentSymbolExposure, Product(o.currentQuantity, o.referencePrice), money))
    || (o.currentQuantity >= 0.0 && o.quantity > 0.0
        && !Agree(o.resultingQuantity,
                  if o.side == Buy then o.currentQuantity + o.quantity else o.currentQuantity - o.quantity, units))
  }

  /** Total exposures contradict those of the symbol. */
  predicate TotalContradicts(o: Order) {
    var money := Slack(o.moneyPrecision);
    var known := o.currentTotalGrossExposure >= 0.0 && o.currentSymbolExposure >= 0.0;
    || (known && !Agree(o.resultingTotalGrossExposure,
                        o.currentTotalGrossExposure - o.currentSymbolExposure + Size(o.resultingSymbolExposure), money))
    || (known && o.currentTotalGrossExposure + money < o.currentSymbolExposure)
    || o.resultingTotalGrossExposure + money < Size(o.resultingSymbolExposure)
  }

  predicate Solvent(p: Snapshot) { p.cash.Some? && p.cash.value >= 0.0 }

  /** Cash and equity of the request contradict the portfolio. */
  predicate PortfolioContradicts(o: Order, p: Snapshot) {
    var money := Slack(o.moneyPrecision);
    || (o.availableCash.Some?
        && (o.availableCash.value < 0.0 || (Solvent(p) && !Agree(o.availableCash.value, p.cash.value, money))))
    || (Solvent(p) && 8 <= o.moneyPrecision <= 12 && o.currentTotalGrossExposure >= 0.0
        && !Agree(p.equity, Quanta(p.cash.value + Quanta(o.currentTotalGrossExposure)), money))
  }

  /** Enough is known to say what the order leaves. */
  predicate Foreseeable(o: Order, p: Snapshot) {
    && o.quantity > 0.0 && o.referencePrice > 0.0 && o.executionPrice > 0.0 && o.estimatedFee >= 0.0
    && Solvent(p) && 8 <= o.moneyPrecision <= 12
  }

  function Paid(o: Order): real { Quanta(Product(o.quantity, o.executionPrice)) }

  function CashLeft(o: Order, p: Snapshot): real
    requires p.cash.Some?
  {
    Quanta(if o.side == Buy then p.cash.value - (Paid(o) + o.estimatedFee) else p.cash.value + Paid(o) - o.estimatedFee)
  }

  function EquityLeft(o: Order, p: Snapshot): real
    requires p.cash.Some?
  {
    Quanta(CashLeft(o, p) + Quanta(o.resultingTotalGrossExposure))
  }

  /** A sale that lowers both exposures by more than the slack and leaves no short. */
  predicate Reduces(o: Order) {
    && o.side == Sell && o.currentSymbolExposure >= 0.0 && o.currentTotalGrossExposure >= 0.0
    && o.resultingQuantity >= 0.0
    && o.currentSymbolExposure - o.resultingSymbolExposure > Slack(o.moneyPrecision)
    && o.currentTotalGrossExposure - o.resultingTotalGrossExposure > Slack(o.moneyPrecision)
  }

  predicate OutcomeBroken(o: Order, p: Snapshot, reason: Reason) {
    Foreseeable(o, p) &&
    match reason
    case InvalidOrder =>
      || (o.side == Buy && Paid(o) <= 0.0)
      || (o.side == Buy && o.cashRequired.Some?
          && !Agree(o.cashRequired.value, Paid(o) + o.estimatedFee, Slack(o.moneyPrecision)))
      || (o.side == Sell && o.cashRequired.Some?)
    case InsufficientCash => CashLeft(o, p) < 0.0
    case ProjectedEquityNonPositive => EquityLeft(o, p) <= 0.0
    case _ => false
  }

  /** The caps apply to any order that does not reduce risk, once its outcome can be weighed. */
  predicate CapBroken(policy: Policy, o: Order, p: Snapshot, reason: Reason) {
    && p.equity > 0.0 && Foreseeable(o, p) && EquityLeft(o, p) > 0.0 && !Reduces(o)
    && var total := Ratio(Quanta(o.resultingTotalGrossExposure), EquityLeft(o, p));
       match reason
       case MaxOrderNotional =>
         Ratio(Product(o.quantity, o.executionPrice), p.equity) > policy.maxOrderNotionalWeight + 0.000000001
       case MaxPosition =>
         Ratio(Quanta(Size(o.resultingSymbolExposure)), EquityLeft(o, p)) > policy.maxAssetWeight + 0.000000001
       case MaxTotalExposure => total > policy.maxTotalGrossExposure + 0.000000001
       case Leverage => total > 1.0 + 0.000000001
       case _ => false
  }

  predicate PositionBroken(policy: Policy, o: Order, p: Snapshot) {
    && 0.0 <= o.currentSymbolExposure <= Slack(o.moneyPrecision)
    && o.resultingSymbolExposure > Slack(o.moneyPrecision)
    && p.openPositions >= policy.maxOpenPositions
  }

  /** Whether a reason applies to a request. */
  predicate Broken(policy: Policy, o: Order, p: Snapshot, reason: Reason) {
    || PortfolioBroken(p, Slack(o.moneyPrecision), reason)
    || FieldBroken(policy, o, p, reason)
    || (reason == InvalidOrder && (SymbolContradicts(o) || TotalContradicts(o)))
    || (reason == InvalidPortfolio && PortfolioContradicts(o, p))
    || OutcomeBroken(o, p, reason)
    || (reason == InvalidOrder && o.reducesRisk && !Reduces(o))
    || CapBroken(policy, o, p, reason)
    || (reason == MaxOpenPositions && PositionBroken(policy, o, p))
    || LossBroken(policy, p, reason)
  }

  // ---------- stage by stage ----------

  lemma Flagged(found: seq<Reason>, violated: bool, reason: Reason, x: Reason)
    ensures x in Flag(found, violated, reason) <==> x in found || (violated && x == reason)
  {
  }

  lemma MatchesAgrees(a: real, b: real, precision: nat)
    ensures Epsilon(precision) == Slack(precision)
    ensures Matches(a, b, Epsilon(precision)) <==> Agree(a, b, Slack(precision))
  {
  }

  lemma PortfolioStage(p: Snapshot, precision: nat, found: seq<Reason>, x: Reason)
    ensures x in PortfolioReasons(p, Epsilon(precision), found)
       <==> x in found || PortfolioBroken(p, Slack(precision), x)
  {
    MatchesAgrees(p.dailyPnl, p.equity - p.startOfDayEquity, precision);
    hide Matches, Epsilon, Slack, Agree;
    FlaggedAnywhere(x);
    hide Flag;
  }

  lemma LossStage(policy: Policy, p: Snapshot, found: seq<Reason>, x: Reason)
    ensures x in LossReasons(policy, p, found) <==> x in found || LossBroken(policy, p, x)
  {
    hide Ratio;
    FlaggedAnywhere(x);
    hide Flag;
  }

  /** The checks of single fields, in the policy's terms. */
  predicate FieldViolated(policy: Policy, o: Order, p: Snapshot, x: Reason) {
    || ((o.symbol == "" || o.symbol !in policy.allowedSymbols) && x == InvalidSymbol)
    || (!o.dataValid && x == InvalidData)
    || (o.isLiveOrder && x == LiveTradingDisabled)
    || (!QuantityValid(o) && x == InvalidQuantity)
    || (!PricesValid(o) && x == NonPositivePrice)
    || (o.notional <= 0.0 && x == NotionalNonPositive)
    || ((!FeeValid(o) || !CurrentExposureValid(o) || !CurrentTotalValid(o) || !CurrentQuantityValid(o))
        && x == InvalidOrder)
    || (o.resultingTotalGrossExposure < 0.0 && x == GrossExposureNegative)
    || (o.resultingQuantity < -Epsilon(o.quantityPrecision) && x == Shorting)
    || (o.resultingSymbolExposure < -Epsilon(o.moneyPrecision) && x == Shorting)
    || (!MoneyPrecisionValid(o) && x == InvalidOrder)
    || (o.dataAgeSeconds < 0 && x == DataAgeNegative)
    || (o.dataAgeSeconds >= 0 && o.dataAgeSeconds > policy.maxDataAgeSeconds && x == StaleData)
    || ((o.openPositions < 0 || o.openPositions != p.openPositions) && x == InvalidPortfolio)
    || (o.intent.Some? && o.intent == o.lastIntent && x == DuplicateIntent)
  }

  lemma FieldChain(policy: Policy, o: Order, p: Snapshot, found: seq<Reason>, x: Reason)
    ensures x in FieldReasons(policy, o, p, found) <==> x in found || FieldViolated(policy, o, p, x)
  {
    hide Epsilon, QuantityValid, PricesValid, FeeValid, CurrentExposureValid, CurrentTotalValid, CurrentQuantityValid,
      MoneyPrecisionValid;
    FlaggedAnywhere(x);
    hide Flag;
  }

  /** Membership through any number of flags, for one reason. */
  lemma FlaggedAnywhere(x: Reason)
    ensures forall found: seq<Reason>, violated, reason ::
      x in Flag(found, violated, reason) <==> x in found || (violated && x == reason)
    ensures forall found: seq<Reason>, reason :: x in found + [reason] <==> x in found || x == reason
  {
  }

  lemma FieldStage(policy: Policy, o: Order, p: Snapshot, found: seq<Reason>, x: Reason)
    ensures x in FieldReasons(policy, o, p, found) <==> x in found || FieldBroken(policy, o, p, x)
  {
    hide FieldReasons;
    FieldChain(policy, o, p, found, x);
    MatchesAgrees(0.0, 0.0, o.moneyPrecision);
    MatchesAgrees(0.0, 0.0, o.quantityPrecision);
    hide FieldViolated, FieldBroken, Epsilon, Slack;
    FieldsAgree(policy, o, p, x);
  }

  lemma FieldsAgree(policy: Policy, o: Order, p: Snapshot, x: Reason)
    requires Epsilon(o.moneyPrecision) == Slack(o.moneyPrecision)
    requires Epsilon(o.quantityPrecision) == Slack(o.quantityPrecision)
    ensures FieldViolated(policy, o, p, x) <==> FieldBroken(policy, o, p, x)
  {
    hide Epsilon, Slack;
    match x
    case _ =>
  }

  lemma SymbolStage(o: Order, found: seq<Reason>, x: Reason)
    ensures x in SymbolReasons(o, found) <==> x in found || (x == InvalidOrder && SymbolContradicts(o))
  {
    MatchesAgrees(o.notional, Product(o.quantity, o.executionPrice), o.moneyPrecision);
    MatchesAgrees(o.resultingSymbolExposure, Product(o.resultingQuantity, o.referencePrice), o.moneyPrecision);
    MatchesAgrees(o.currentSymbolExposure, Product(o.currentQuantity, o.referencePrice), o.moneyPrecision);
    MatchesAgrees(o.resultingQuantity, o.currentQuantity + (if o.side == Buy then o.quantity else -o.quantity),
                  o.quantityPrecision);
    hide Matches, Epsilon, Slack, Agree, Product;
    FlaggedAnywhere(x);
    hide Flag;
  }

  /** The policy's own comparisons of totals, and of cash and equity. */
  predicate TotalsViolated(o: Order) {
    var money := Epsilon(o.moneyPrecision);
    || (CurrentTotalValid(o) && CurrentExposureValid(o)
        && !Matches(o.resultingTotalGrossExposure,
                    o.currentTotalGrossExposure - o.currentSymbolExposure + Abs(o.resultingSymbolExposure), money))
    || (CurrentTotalValid(o) && CurrentExposureValid(o)
        && o.currentTotalGrossExposure + money < o.currentSymbolExposure)
    || o.resultingTotalGrossExposure + money < Abs(o.resultingSymbolExposure)
  }

  predicate AmountsViolated(o: Order, p: Snapshot) {
    var money := Epsilon(o.moneyPrecision);
    || (o.availableCash.Some?
        && (|| o.availableCash.value < 0.0
            || (CashValid(p) && !Matches(o.availableCash.value, p.cash.value, money))))
    || (CashValid(p) && MoneyPrecisionValid(o) && CurrentTotalValid(o)
        && !Matches(p.equity, RoundMoney(p.cash.value + RoundMoney(o.currentTotalGrossExposure)), money))
  }

  lemma TotalChain(o: Order, p: Snapshot, found: seq<Reason>, x: Reason)
    ensures x in TotalReasons(o, p, found) <==>
      || x in found
      || (x == InvalidOrder && TotalsViolated(o))
      || (x == InvalidPortfolio && AmountsViolated(o, p))
  {
    hide Epsilon, Matches, RoundMoney, Abs, MoneyPrecisionValid, CurrentTotalValid, CurrentExposureValid;
    FlaggedAnywhere(x);
    hide Flag;
  }

  lemma TotalsAgree(o: Order)
    ensures TotalsViolated(o) <==> TotalContradicts(o)
  {
    assert Size(o.resultingSymbolExposure) == Abs(o.resultingSymbolExposure);
    MatchesAgrees(o.resultingTotalGrossExposure,
      o.currentTotalGrossExposure - o.currentSymbolExposure + Abs(o.resultingSymbolExposure), o.moneyPrecision);
    hide Matches, Epsilon, Slack, Agree, Size, Abs;
  }

  lemma AmountsAgree(o: Order, p: Snapshot)
    ensures AmountsViolated(o, p) <==> PortfolioContradicts(o, p)
  {
    if p.cash.Some? {
      if o.availableCash.Some? {
        MatchesAgrees(o.availableCash.value, p.cash.value, o.moneyPrecision);
      }
      MatchesAgrees(p.equity, Quanta(p.cash.value + Quanta(o.currentTotalGrossExposure)), o.moneyPrecision);
    }
    hide Matches, Epsilon, Slack, Agree, RoundHalfEven;
  }

  lemma TotalStage(o: Order, p: Snapshot, found: seq<Reason>, x: Reason)
    ensures x in TotalReasons(o, p, found) <==>
      || x in found
      || (x == InvalidOrder && TotalContradicts(o))
      || (x == InvalidPortfolio && PortfolioContradicts(o, p))
  {
    hide TotalReasons, TotalsViolated, TotalContradicts, AmountsViolated, PortfolioContradicts;
    TotalChain(o, p, found, x);
    TotalsAgree(o);
    AmountsAgree(o, p);
  }

  lemma Outcomes(o: Order, p: Snapshot)
    ensures CanProject(o, p) <==> Foreseeable(o, p)
    ensures CanProject(o, p) ==>
      CashNotional(o) == Paid(o) && ProjectedCash(o, p) == CashLeft(o, p) && ProjectedEquity(o, p) == EquityLeft(o, p)
    ensures ActuallyReducesRisk(o) <==> Reduces(o)
  {
    hide RoundHalfEven, PowerOfTen;
  }

  lemma OutcomeChain(o: Order, p: Snapshot, found: seq<Reason>, x: Reason)
    ensures x in ProjectionReasons(o, p, found) <==>
      || x in found
      || (CanProject(o, p)
          && (|| (o.side == Buy && CashNotional(o) <= 0.0 && x == InvalidOrder)
              || (o.side == Buy && o.cashRequired.Some?
                  && !Matches(o.cashRequired.value, CashNotional(o) + o.estimatedFee, Epsilon(o.moneyPrecision))
                  && x == InvalidOrder)
              || (o.side == Sell && o.cashRequired.Some? && x == InvalidOrder)
              || (ProjectedCash(o, p) < 0.0 && x == InsufficientCash)
              || (ProjectedEquity(o, p) <= 0.0 && x == ProjectedEquityNonPositive)))
  {
    hide Epsilon, Matches, CashNotional, ProjectedCash, ProjectedEquity, CanProject;
    FlaggedAnywhere(x);
    hide Flag;
  }

  lemma OutcomeStage(o: Order, p: Snapshot, found: seq<Reason>, x: Reason)
    ensures x in ProjectionReasons(o, p, found) <==> x in found || OutcomeBroken(o, p, x)
  {
    hide ProjectionReasons, Matches, Epsilon, Slack, Agree, Paid, CashLeft, EquityLeft, CashNotional, ProjectedCash,
      ProjectedEquity, CanProject, Foreseeable;
    OutcomeChain(o, p, found, x);
    Outcomes(o, p);
    if o.cashRequired.Some? {
      MatchesAgrees(o.cashRequired.value, Paid(o) + o.estimatedFee, o.moneyPrecision);
    }
  }

  lemma WeightStage(
    policy: Policy, orderWeight: real, assetWeight: real, totalWeight: real, found: seq<Reason>, x: Reason)
    ensures x in WeightReasons(policy, orderWeight, assetWeight, totalWeight, found) <==>
      || x in found
      || (x == MaxOrderNotional && orderWeight > policy.maxOrderNotionalWeight + 0.000000001)
      || (x == MaxPosition && assetWeight > policy.maxAssetWeight + 0.000000001)
      || (x == MaxTotalExposure && totalWeight > policy.maxTotalGrossExposure + 0.000000001)
      || (x == Leverage && totalWeight > 1.0 + 0.000000001)
  {
    FlaggedAnywhere(x);
    hide Flag;
  }

  lemma CapStage(policy: Policy, o: Order, p: Snapshot, found: seq<Reason>, x: Reason)
    ensures x in LimitReasons(policy, o, p, found) <==>
      x in found || (x == InvalidOrder && o.reducesRisk && !Reduces(o)) || CapBroken(policy, o, p, x)
  {
    hide LimitReasons, Flag, CapBroken, Reduces, ActuallyReducesRisk;
    Outcomes(o, p);
    CapsAgree(policy, o, p, x);
    var v := o.reducesRisk && !ActuallyReducesRisk(o);
    Flagged(found, v, InvalidOrder, x);
    CapChain(policy, o, p, found, x);
  }

  /** A cap is exceeded, in the policy's terms. */
  predicate CapViolated(policy: Policy, o: Order, p: Snapshot, x: Reason) {
    && p.equity > 0.0 && CanProject(o, p) && ProjectedEquity(o, p) > 0.0 && !ActuallyReducesRisk(o)
    && var order := Ratio(Product(o.quantity, o.executionPrice), p.equity);
       var asset := Ratio(RoundMoney(Abs(o.resultingSymbolExposure)), ProjectedEquity(o, p));
       var total := Ratio(RoundMoney(o.resultingTotalGrossExposure), ProjectedEquity(o, p));
       || (x == MaxOrderNotional && order > policy.maxOrderNotionalWeight + 0.000000001)
       || (x == MaxPosition && asset > policy.maxAssetWeight + 0.000000001)
       || (x == MaxTotalExposure && total > policy.maxTotalGrossExposure + 0.000000001)
       || (x == Leverage && total > 1.0 + 0.000000001)
  }

  lemma CapChain(policy: Policy, o: Order, p: Snapshot, found: seq<Reason>, x: Reason)
    ensures x in LimitReasons(policy, o, p, found) <==>
      x in Flag(found, o.reducesRisk && !ActuallyReducesRisk(o), InvalidOrder) || CapViolated(policy, o, p, x)
  {
    hide Flag, ProjectedEquity, CanProject, Ratio, Product, RoundMoney, ActuallyReducesRisk, Abs, WeightReasons;
    if p.equity > 0.0 && CanProject(o, p) && ProjectedEquity(o, p) > 0.0 && !ActuallyReducesRisk(o) {
      WeightStage(policy, Ratio(Product(o.quantity, o.executionPrice), p.equity),
                  Ratio(RoundMoney(Abs(o.resultingSymbolExposure)), ProjectedEquity(o, p)),
                  Ratio(RoundMoney(o.resultingTotalGrossExposure), ProjectedEquity(o, p)),
                  Flag(found, o.reducesRisk && !ActuallyReducesRisk(o), InvalidOrder), x);
    }
  }

  lemma CapsAgree(policy: Policy, o: Order, p: Snapshot, x: Reason)
    ensures CapViolated(policy, o, p, x) <==> CapBroken(policy, o, p, x)
  {
    Outcomes(o, p);
    assert Size(o.resultingSymbolExposure) == Abs(o.resultingSymbolExposure);
    hide EquityLeft, ProjectedEquity, CanProject, Foreseeable, Ratio, Product, RoundHalfEven, ActuallyReducesRisk,
      Reduces, Size, Abs;
  }

  lemma PositionStage(policy: Policy, o: Order, p: Snapshot)
    ensures OpensNewPosition(o) && p.openPositions >= policy.maxOpenPositions <==> PositionBroken(policy, o, p)
  {
  }

  /** An order is refused for a reason exactly if that reason applies to it. */
  lemma ReportedIffBroken(policy: Policy, o: Order, p: Snapshot, reason: Reason)
    ensures reason in OrderDecision(policy, o, p).reasons <==> Broken(policy, o, p, reason)
  {
    hide PortfolioReasons, FieldReasons, SymbolReasons, TotalReasons, ProjectionReasons, LimitReasons, LossReasons,
         Flag,
      PortfolioBroken, FieldBroken, SymbolContradicts, TotalContradicts, PortfolioContradicts, OutcomeBroken, CapBroken,
      PositionBroken, LossBroken, OpensNewPosition, Reduces, Epsilon, Slack, Unique;
    var r1 := PortfolioReasons(p, Epsilon(o.moneyPrecision), []);
    var r2 := FieldReasons(policy, o, p, r1);
    var r3 := SymbolReasons(o, r2);
    var r4 := TotalReasons(o, p, r3);
    var r5 := ProjectionReasons(o, p, r4);
    var r6 := LimitReasons(policy, o, p, r5);
    var r7 := Flag(r6, OpensNewPosition(o) && p.openPositions >= policy.maxOpenPositions, MaxOpenPositions);
    PortfolioStage(p, o.moneyPrecision, [], reason);
    FieldStage(policy, o, p, r1, reason);
    SymbolStage(o, r2, reason);
    TotalStage(o, p, r3, reason);
    OutcomeStage(o, p, r4, reason);
    CapStage(policy, o, p, r5, reason);
    PositionStage(policy, o, p);
    Flagged(r6, OpensNewPosition(o) && p.openPositions >= policy.maxOpenPositions, MaxOpenPositions, reason);
    LossStage(policy, p, r7, reason);
    assert OrderReasons(policy, o, p) == LossReasons(policy, p, r7);
  }

  /** And approved exactly if none does. */
  lemma ApprovedIffUnbroken(policy: Policy, o: Order, p: Snapshot)
    ensures OrderDecision(policy, o, p).approved <==> forall reason :: !Broken(policy, o, p, reason)
  {
    hide Broken, OrderReasons, Unique;
    forall reason
      ensures reason in OrderDecision(policy, o, p).reasons <==> Broken(policy, o, p, reason)
    {
      ReportedIffBroken(policy, o, p, reason);
    }
    var decision := OrderDecision(policy, o, p);
    if decision.reasons != [] {
      assert decision.reasons[0] in decision.reasons;
    }
  }

  /** A portfolio is stopped for a reason exactly if that reason applies to it. */
  lemma StoppedIffBroken(policy: Policy, p: Snapshot, precision: nat, reason: Reason)
    ensures reason in PortfolioDecision(policy, p, Epsilon(precision)).reasons
       <==> PortfolioBroken(p, Slack(precision), reason) || LossBroken(policy, p, reason)
    ensures PortfolioDecision(policy, p, Epsilon(precision)).approved
       <==> PortfolioDecision(policy, p, Epsilon(precision)).reasons == []
  {
    hide PortfolioReasons, LossReasons, PortfolioBroken, LossBroken, Epsilon, Slack, Unique;
    PortfolioStage(p, precision, [], reason);
    LossStage(policy, p, PortfolioReasons(p, Epsilon(precision), []), reason);
  }
}

/**
The risk evaluation as the engine calls it: one list of reasons, appended to
check by check, turned into a decision at the end.
*/
module RiskEvaluation {
  import opened Domain
  import opened RiskPolicy
  import opened Rounding

  class ReasonLog {
    var reasons: seq<Reason>

    constructor ()
      ensures reasons == []
    {
      reasons := [];
    }

    method Add(reason: Reason)
      modifies this
      ensures reasons == old(reasons) + [reason]
    {
      reasons := reasons + [reason];
    }

    method AddIf(violated: bool, reason: Reason)
      modifies this
      ensures reasons == Flag(old(reasons), violated, reason)
    {
      if violated {
        Add(reason);
      }
    }

    /** First occurrences only, in order. */
    method Decision() returns (decision: RiskDecision)
      ensures decision == Decide(reasons)
    {
      var unique: seq<Reason> := [];
      var i := 0;
      while i < |reasons|
        invariant 0 <= i <= |reasons|
        invariant unique == Unique(reasons[..i])
      {
        assert reasons[..i + 1][..i] == reasons[..i];
        if reasons[i] !in unique {
          unique := unique + [reasons[i]];
        }
        i := i + 1;
      }
      assert reasons[..i] == reasons;
      decision := RiskDecision(reasons == [], unique);
    }
  }

  method ValidatePortfolio(p: Snapshot, epsilon: real, log: ReasonLog)
    modifies log
    ensures log.reasons == PortfolioReasons(p, epsilon, old(log.reasons))
  {
    hide Matches, Flag;
    log.AddIf(p.equity <= 0.0, EquityNonPositive);
    log.AddIf(p.startOfDayEquity <= 0.0, StartOfDayEquityInvalid);
    log.AddIf(p.peakEquity <= 0.0, PeakEquityInvalid);
    log.AddIf(!Matches(p.dailyPnl, p.equity - p.startOfDayEquity, epsilon), InvalidPortfolio);
    log.AddIf(p.cash.None? || p.cash.value < 0.0, InvalidPortfolio);
    log.AddIf(p.openPositions < 0, InvalidPortfolio);
    log.AddIf(!p.tradingEnabled, TradingDisabled);
    log.AddIf(p.killSwitchActive, KillSwitch);
    log.AddIf(p.halted, Halted);
  }

  method EvaluateLossLimits(policy: Policy, p: Snapshot, log: ReasonLog)
    modifies log
    ensures log.reasons == LossReasons(policy, p, old(log.reasons))
  {
    hide Flag, Ratio, Max;
    log.AddIf(p.startOfDayEquity > 0.0 && DailyLossPct(p) >= policy.maxDailyLoss, DailyLoss);
    log.AddIf(p.peakEquity > 0.0 && DrawdownPct(p) >= policy.maxDrawdown, MaxDrawdown);
  }

  method EvaluatePortfolioHalt(policy: Policy, p: Snapshot, epsilon: real) returns (decision: RiskDecision)
    ensures decision == PortfolioDecision(policy, p, epsilon)
  {
    hide PortfolioReasons, LossReasons, Decide;
    var log := new ReasonLog();
    ValidatePortfolio(p, epsilon, log);
    EvaluateLossLimits(policy, p, log);
    decision := log.Decision();
  }

  method CheckFields(policy: Policy, o: Order, p: Snapshot, log: ReasonLog)
    modifies log
    ensures log.reasons == FieldReasons(policy, o, p, old(log.reasons))
  {
    hide Flag, Epsilon;
    var money, units := Epsilon(o.moneyPrecision), Epsilon(o.quantityPrecision);
    log.AddIf(o.symbol == "" || o.symbol !in policy.allowedSymbols, InvalidSymbol);
    log.AddIf(!o.dataValid, InvalidData);
    log.AddIf(o.isLiveOrder, LiveTradingDisabled);
    log.AddIf(!QuantityValid(o), InvalidQuantity);
    log.AddIf(!PricesValid(o), NonPositivePrice);
    log.AddIf(o.notional <= 0.0, NotionalNonPositive);
    log.AddIf(!FeeValid(o) || !CurrentExposureValid(o) || !CurrentTotalValid(o)
              || !CurrentQuantityValid(o), InvalidOrder);
    log.AddIf(o.resultingTotalGrossExposure < 0.0, GrossExposureNegative);
    log.AddIf(o.resultingQuantity < -units, Shorting);
    log.AddIf(o.resultingSymbolExposure < -money, Shorting);
    log.AddIf(!MoneyPrecisionValid(o), InvalidOrder);
    if o.dataAgeSeconds < 0 {
      log.Add(DataAgeNegative);
    } else {
      log.AddIf(o.dataAgeSeconds > policy.maxDataAgeSeconds, StaleData);
    }
    log.AddIf(o.openPositions < 0 || o.openPositions != p.openPositions, InvalidPortfolio);
    log.AddIf(o.intent.Some? && o.intent == o.lastIntent, DuplicateIntent);
  }

  method CheckSymbol(o: Order, log: ReasonLog)
    modifies log
    ensures log.reasons == SymbolReasons(o, old(log.reasons))
  {
    hide Flag, Epsilon, Matches, Product, RoundMoney, Abs;
    var money, units := Epsilon(o.moneyPrecision), Epsilon(o.quantityPrecision);
    var priced := QuantityValid(o) && PricesValid(o);
    log.AddIf(priced && !Matches(o.notional, Product(o.quantity, o.executionPrice), money), InvalidOrder);
    log.AddIf(priced && o.side == Buy && o.executionPrice < o.referencePrice, InvalidOrder);
    log.AddIf(priced && o.side == Sell && o.executionPrice > o.referencePrice, InvalidOrder);
    log.AddIf(o.referencePrice > 0.0
      && !Matches(o.resultingSymbolExposure, Product(o.resultingQuantity, o.referencePrice), money), InvalidOrder);
    log.AddIf(CurrentQuantityValid(o) && o.referencePrice > 0.0 && CurrentExposureValid(o)
      && !Matches(o.currentSymbolExposure, Product(o.currentQuantity, o.referencePrice), money), InvalidOrder);
    log.AddIf(CurrentQuantityValid(o) && QuantityValid(o)
      && !Matches(o.resultingQuantity,
                  o.currentQuantity + (if o.side == Buy then o.quantity else -o.quantity), units), InvalidOrder);
  }

  method CheckTotals(o: Order, p: Snapshot, log: ReasonLog)
    modifies log
    ensures log.reasons == TotalReasons(o, p, old(log.reasons))
  {
    hide Flag, Epsilon, Matches, Product, RoundMoney, Abs;
    var money := Epsilon(o.moneyPrecision);
    log.AddIf(CurrentTotalValid(o) && CurrentExposureValid(o)
      && !Matches(o.resultingTotalGrossExposure,
                  o.currentTotalGrossExposure - o.currentSymbolExposure + Abs(o.resultingSymbolExposure), money),
      InvalidOrder);
    log.AddIf(CurrentTotalValid(o) && CurrentExposureValid(o)
      && o.currentTotalGrossExposure + money < o.currentSymbolExposure, InvalidOrder);
    log.AddIf(o.resultingTotalGrossExposure + money < Abs(o.resultingSymbolExposure), InvalidOrder);
    log.AddIf(o.availableCash.Some?
      && (|| o.availableCash.value < 0.0
          || (CashValid(p) && !Matches(o.availableCash.value, p.cash.value, money))), InvalidPortfolio);
    log.AddIf(CashValid(p) && MoneyPrecisionValid(o) && CurrentTotalValid(o)
      && !Matches(p.equity, RoundMoney(p.cash.value + RoundMoney(o.currentTotalGrossExposure)), money),
      InvalidPortfolio);
  }

  method CheckConsistency(o: Order, p: Snapshot, log: ReasonLog)
    modifies log
    ensures log.reasons == ConsistencyReasons(o, p, old(log.reasons))
  {
    hide SymbolReasons, TotalReasons;
    CheckSymbol(o, log);
    CheckTotals(o, p, log);
  }

  method CheckProjection(o: Order, p: Snapshot, log: ReasonLog)
    modifies log
    ensures log.reasons == ProjectionReasons(o, p, old(log.reasons))
  {
    hide Flag, Epsilon, Matches, CashNotional, ProjectedCash, ProjectedEquity;
    if CanProject(o, p) {
      hide CanProject;
      log.AddIf(o.side == Buy && CashNotional(o) <= 0.0, InvalidOrder);
      log.AddIf(o.side == Buy && o.cashRequired.Some?
        && !Matches(o.cashRequired.value, CashNotional(o) + o.estimatedFee, Epsilon(o.moneyPrecision)),
        InvalidOrder);
      log.AddIf(o.side == Sell && o.cashRequired.Some?, InvalidOrder);
      log.AddIf(ProjectedCash(o, p) < 0.0, InsufficientCash);
      log.AddIf(ProjectedEquity(o, p) <= 0.0, ProjectedEquityNonPositive);
    }
  }

  method CheckLimits(policy: Policy, o: Order, p: Snapshot, log: ReasonLog)
    modifies log
    ensures log.reasons == LimitReasons(policy, o, p, old(log.reasons))
  {
    hide Flag, ProjectedEquity, ActuallyReducesRisk, CanProject;
    log.AddIf(o.reducesRisk && !ActuallyReducesRisk(o), InvalidOrder);
    if p.equity > 0.0 && CanProject(o, p) && ProjectedEquity(o, p) > 0.0 && !ActuallyReducesRisk(o) {
      var orderWeight := Ratio(Product(o.quantity, o.executionPrice), p.equity);
      var assetWeight := Ratio(RoundMoney(Abs(o.resultingSymbolExposure)), ProjectedEquity(o, p));
      var totalWeight := Ratio(RoundMoney(o.resultingTotalGrossExposure), ProjectedEquity(o, p));
      hide Product, RoundMoney, Ratio, Abs;
      log.AddIf(orderWeight - policy.maxOrderNotionalWeight > RISK_EPSILON, MaxOrderNotional);
      log.AddIf(assetWeight - policy.maxAssetWeight > RISK_EPSILON, MaxPosition);
      log.AddIf(totalWeight - policy.maxTotalGrossExposure > RISK_EPSILON, MaxTotalExposure);
      log.AddIf(totalWeight - 1.0 > RISK_EPSILON, Leverage);
    }
  }

  /** Evaluates an order intent; every failing check appends its reason. */
  method EvaluateOrder(policy: Policy, o: Order, p: Snapshot) returns (decision: RiskDecision)
    ensures decision == OrderDecision(policy, o, p)
  {
    hide PortfolioReasons, FieldReasons, ConsistencyReasons, ProjectionReasons, LimitReasons, LossReasons,
      Decide, Flag, OpensNewPosition, Epsilon;
    var log := new ReasonLog();
    ValidatePortfolio(p, Epsilon(o.moneyPrecision), log);
    CheckFields(policy, o, p, log);
    CheckConsistency(o, p, log);
    CheckProjection(o, p, log);
    CheckLimits(policy, o, p, log);
    log.AddIf(OpensNewPosition(o) && p.openPositions >= policy.maxOpenPositions, MaxOpenPositions);
    EvaluateLossLimits(policy, p, log);
    decision := log.Decision();
  }
}

/**
What approval means for any request whatsoever, and why replacing a policy by a
stricter one, as the engine does, can only turn approvals into rejections.
*/
module RiskStrictness {
  import opened Domain
  import opened RiskPolicy
  import opened Rounding

  // Every stage only adds reasons, whatever was found before it.

  lemma PortfolioStage(p: Snapshot, epsilon: real)
    ensures PortfolioReasons(p, epsilon, []) == [] <==>
      && p.equity > 0.0 && p.startOfDayEquity > 0.0 && p.peakEquity > 0.0
      && Matches(p.dailyPnl, p.equity - p.startOfDayEquity, epsilon)
      && CashValid(p) && p.openPositions >= 0
      && p.tradingEnabled && !p.killSwitchActive && !p.halted
  {
    FlagsNothing();
    hide Flag, Matches;
  }

  predicate FieldsFine(policy: Policy, o: Order, p: Snapshot) {
    && o.symbol != "" && o.symbol in policy.allowedSymbols
    && o.dataValid && !o.isLiveOrder
    && QuantityValid(o) && PricesValid(o) && o.notional > 0.0
    && FeeValid(o) && CurrentExposureValid(o) && CurrentTotalValid(o) && CurrentQuantityValid(o)
    && o.resultingTotalGrossExposure >= 0.0
    && o.resultingQuantity >= -Epsilon(o.quantityPrecision)
    && o.resultingSymbolExposure >= -Epsilon(o.moneyPrecision)
    && MoneyPrecisionValid(o)
    && 0 <= o.dataAgeSeconds <= policy.maxDataAgeSeconds
    && o.openPositions >= 0 && o.openPositions == p.openPositions
    && (o.intent.Some? ==> o.intent != o.lastIntent)
  }

  lemma FieldStage(policy: Policy, o: Order, p: Snapshot, found: seq<Reason>)
    ensures FieldReasons(policy, o, p, found) == [] <==> found == [] && FieldsFine(policy, o, p)
  {
    FlagsNothing();
    hide Flag, Epsilon;
  }

  lemma ConsistencyStage(o: Order, p: Snapshot, found: seq<Reason>)
    ensures ConsistencyReasons(o, p, found) == [] <==> found == [] && ConsistencyReasons(o, p, []) == []
    ensures ConsistencyReasons(o, p, found) == [] && QuantityValid(o) && CurrentQuantityValid(o) ==>
      Matches(o.resultingQuantity,
              o.currentQuantity + (if o.side == Buy then o.quantity else -o.quantity), Epsilon(o.quantityPrecision))
  {
    FlagsNothing();
    hide Flag, Epsilon, Matches, Product, RoundMoney;
  }

  lemma ProjectionStage(o: Order, p: Snapshot, found: seq<Reason>)
    ensures ProjectionReasons(o, p, found) == [] <==> found == [] && ProjectionReasons(o, p, []) == []
    ensures ProjectionReasons(o, p, found) == [] && CanProject(o, p) ==>
      ProjectedCash(o, p) >= 0.0 && ProjectedEquity(o, p) > 0.0
  {
    FlagsNothing();
    hide Flag, Epsilon, Matches, ProjectedCash, ProjectedEquity, CashNotional;
  }

  /** The three exposure limits, the order cap and the leverage limit, for an order that does not reduce risk. */
  predicate WeightsWithin(policy: Policy, o: Order, p: Snapshot)
    requires CanProject(o, p) && p.equity > 0.0 && ProjectedEquity(o, p) > 0.0
  {
    var total := Ratio(RoundMoney(o.resultingTotalGrossExposure), ProjectedEquity(o, p));
    && Ratio(Product(o.quantity, o.executionPrice), p.equity) <= policy.maxOrderNotionalWeight + RISK_EPSILON
    && Ratio(RoundMoney(Abs(o.resultingSymbolExposure)), ProjectedEquity(o, p)) <= policy.maxAssetWeight + RISK_EPSILON
    && total <= policy.maxTotalGrossExposure + RISK_EPSILON
    && total <= 1.0 + RISK_EPSILON
  }

  lemma LimitStage(policy: Policy, o: Order, p: Snapshot, found: seq<Reason>)
    requires CanProject(o, p) && p.equity > 0.0 && ProjectedEquity(o, p) > 0.0
    ensures LimitReasons(policy, o, p, found) == [] <==>
      && found == [] && (o.reducesRisk ==> ActuallyReducesRisk(o))
      && (ActuallyReducesRisk(o) || WeightsWithin(policy, o, p))
  {
    FlagsNothing();
    hide Flag, Ratio, Product, RoundMoney, ProjectedEquity, ActuallyReducesRisk;
  }

  lemma LossStage(policy: Policy, p: Snapshot, found: seq<Reason>)
    requires p.startOfDayEquity > 0.0 && p.peakEquity > 0.0
    ensures LossReasons(policy, p, found) == [] <==>
      found == [] && DailyLossPct(p) < policy.maxDailyLoss && DrawdownPct(p) < policy.maxDrawdown
  {
    FlagsNothing();
    hide Flag, DailyLossPct, DrawdownPct;
  }

  /** No stage takes a reason back. */
  lemma ReasonsOnlyGrow(policy: Policy, o: Order, p: Snapshot)
    requires OrderReasons(policy, o, p) == []
    ensures PortfolioReasons(p, Epsilon(o.moneyPrecision), []) == []
    ensures FieldReasons(policy, o, p, []) == [] && ConsistencyReasons(o, p, []) == []
    ensures ProjectionReasons(o, p, []) == [] && LimitReasons(policy, o, p, []) == []
    ensures !(OpensNewPosition(o) && p.openPositions >= policy.maxOpenPositions)
    ensures LossReasons(policy, p, []) == []
  {
    FlagsNothing();
    var first := PortfolioReasons(p, Epsilon(o.moneyPrecision), []);
    var second := FieldReasons(policy, o, p, first);
    var third := ConsistencyReasons(o, p, second);
    var fourth := ProjectionReasons(o, p, third);
    FieldStage(policy, o, p, first);
    ConsistencyStage(o, p, second);
    ProjectionStage(o, p, third);
    LimitOnlyAdds(policy, o, p, fourth);
    hide Flag, PortfolioReasons, FieldReasons, ConsistencyReasons, ProjectionReasons, LimitReasons,
      OpensNewPosition, DailyLossPct, DrawdownPct, Epsilon;
  }

  lemma LimitOnlyAdds(policy: Policy, o: Order, p: Snapshot, found: seq<Reason>)
    ensures LimitReasons(policy, o, p, found) == [] ==> found == []
  {
    FlagsNothing();
    hide Flag, Ratio, Product, RoundMoney, ProjectedEquity, ActuallyReducesRisk;
  }

  /**
  Approval is fail-closed: whatever request is put to the policy, an approval means a
  live, solvent, unhalted portfolio, fresh data, a fill that leaves cash and equity,
  no short, and, unless the order provably reduces risk, every cap respected.
  */
  lemma ApprovalIsFailClosed(policy: Policy, o: Order, p: Snapshot)
    requires OrderDecision(policy, o, p).approved
    ensures p.equity > 0.0 && p.tradingEnabled && !p.killSwitchActive && !p.halted
    ensures FieldsFine(policy, o, p) && CanProject(o, p)
    ensures ProjectedCash(o, p) >= 0.0 && ProjectedEquity(o, p) > 0.0
    ensures Matches(o.resultingQuantity,
      o.currentQuantity + (if o.side == Buy then o.quantity else -o.quantity), Epsilon(o.quantityPrecision))
    ensures o.side == Buy ==> WeightsWithin(policy, o, p)
    ensures !ActuallyReducesRisk(o) ==> WeightsWithin(policy, o, p)
    ensures p.startOfDayEquity > 0.0 && DailyLossPct(p) < policy.maxDailyLoss
    ensures p.peakEquity > 0.0 && DrawdownPct(p) < policy.maxDrawdown
  {
    ReasonsOnlyGrow(policy, o, p);
    hide Flag, OrderReasons, PortfolioReasons, FieldReasons, ConsistencyReasons, ProjectionReasons,
      LimitReasons, LossReasons, Epsilon, Matches, Ratio, Product, RoundMoney, ProjectedCash,
      ProjectedEquity, WeightsWithin, DailyLossPct, DrawdownPct;
    PortfolioStage(p, Epsilon(o.moneyPrecision));
    FieldStage(policy, o, p, []);
    ConsistencyStage(o, p, []);
    ProjectionStage(o, p, []);
    LimitStage(policy, o, p, []);
    LossStage(policy, p, []);
  }

  // ---------- stricter policies ----------

  predicate Stricter(strict: Policy, lax: Policy) {
    && strict.maxAssetWeight <= lax.maxAssetWeight
    && strict.maxTotalGrossExposure <= lax.maxTotalGrossExposure
    && strict.maxOrderNotionalWeight <= lax.maxOrderNotionalWeight
    && strict.maxDailyLoss <= lax.maxDailyLoss
    && strict.maxDrawdown <= lax.maxDrawdown
    && strict.maxDataAgeSeconds <= lax.maxDataAgeSeconds
    && strict.maxOpenPositions <= lax.maxOpenPositions
    && forall symbol | symbol in strict.allowedSymbols :: symbol in lax.allowedSymbols
  }

  /** A stricter policy never approves what a laxer one rejects. */
  lemma StricterApprovesLess(strict: Policy, lax: Policy, o: Order, p: Snapshot)
    requires Stricter(strict, lax) && OrderDecision(strict, o, p).approved
    ensures OrderDecision(lax, o, p).approved
  {
    ReasonsOnlyGrow(strict, o, p);
    ApprovalIsFailClosed(strict, o, p);
    hide Flag, PortfolioReasons, FieldReasons, ConsistencyReasons, ProjectionReasons, LimitReasons, LossReasons,
      OpensNewPosition, Epsilon, Matches, Ratio, Product, RoundMoney, ProjectedCash, ProjectedEquity,
      DailyLossPct, DrawdownPct, ActuallyReducesRisk;
    FieldStage(lax, o, p, []);
    LimitStage(strict, o, p, []);
    LimitStage(lax, o, p, []);
    LossStage(lax, p, []);
    assert Flag([], false, MaxOpenPositions) == [] by { FlagsNothing(); }
  }

  /** The engine's own policy is stricter than the one it was given and than its configuration's limits. */
  lemma EffectiveIsStricter(policy: Policy, cfg: Config)
    ensures Stricter(EffectivePolicy(policy, cfg), policy)
    ensures var e := EffectivePolicy(policy, cfg);
      && e.maxAssetWeight <= cfg.maxPosition && e.maxTotalGrossExposure <= cfg.maxTotalExposure
      && e.maxOrderNotionalWeight <= cfg.maxOrderNotional
      && e.maxDailyLoss <= cfg.maxDailyLoss && e.maxDrawdown <= cfg.maxDrawdown
      && e.maxOpenPositions <= cfg.maxOpenPositions
  {
  }

  /** And no stricter than that: whatever is stricter than both is stricter than it. */
  lemma EffectiveIsNoStricter(policy: Policy, cfg: Config, other: Policy)
    requires Stricter(other, policy)
    requires other.maxAssetWeight <= cfg.maxPosition && other.maxTotalGrossExposure <= cfg.maxTotalExposure
    requires other.maxOrderNotionalWeight <= cfg.maxOrderNotional
    requires other.maxDailyLoss <= cfg.maxDailyLoss && other.maxDrawdown <= cfg.maxDrawdown
    requires other.maxOpenPositions <= cfg.maxOpenPositions
    ensures Stricter(other, EffectivePolicy(policy, cfg))
  {
  }

  /** Whatever the engine approves, the policy it was given approves as well. */
  lemma EngineApprovalIsPolicyApproval(policy: Policy, cfg: Config, o: Order, p: Snapshot)
    requires OrderDecision(EffectivePolicy(policy, cfg), o, p).approved
    ensures OrderDecision(policy, o, p).approved
  {
    EffectiveIsStricter(policy, cfg);
    StricterApprovesLess(EffectivePolicy(policy, cfg), policy, o, p);
  }
}

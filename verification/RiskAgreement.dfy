/**
Where sizing meets the risk policy: the exact list of reasons the policy can give
for an order the engine builds, and the approval of every buy the sizing search
proposes for a target within the effective caps.
*/
module RiskAgreement {
  import opened Domain
  import opened Options
  import opened RiskPolicy
  import opened Rounding
  import RiskReasons
  import SizingTheorems
  import opened EngineSpec

  /** The situation in which the engine submits an order: a marked, unhalted book and a non-zero trade. */
  ghost predicate OrderContext(s: State, bar: Bar, id: IntentId, e: Execution, equity: int) {
    && ValidConfig(s.setup.cfg)
    && s.book.cash >= 0 && s.book.quantity >= 0
    && e.reference > 0.0
    && equity == EquityAt(s.book, e.reference)
    && HaltDecision(s, equity).approved
    && s.lastIntent != Some(id)
    && e.quantity > 0
    && e == ExecutionOf(s.setup.cfg, if e.side == Buy then e.quantity else -e.quantity, e.reference)
    && (e.side == Sell ==> e.quantity <= s.book.quantity)
  }

  function ResultingQuantity(book: Book, e: Execution): int {
    if e.side == Buy then book.quantity + e.quantity else book.quantity - e.quantity
  }

  /** Cash and equity the fill would leave, as the policy projects them. */
  function CashAfter(book: Book, e: Execution): int {
    if e.side == Buy then book.cash - e.cashNotional - e.fee else book.cash + e.cashNotional - e.fee
  }

  function ValueAfter(book: Book, e: Execution): int {
    MarketValue(ResultingQuantity(book, e), e.reference)
  }

  function EquityAfter(book: Book, e: Execution): int {
    CashAfter(book, e) + ValueAfter(book, e)
  }

  /** A sale that lowers the exposure by more than the policy's absolute tolerance. */
  predicate SaleIsRecognised(cfg: Config, e: Execution) {
    e.side == Sell && Times(e.quantity, e.reference) > Epsilon(cfg.moneyPrecision)
  }

  /** The reasons an engine-built order can still receive, in the policy's order. */
  function PossibleReasons(s: State, bar: Bar, e: Execution, equity: int): seq<Reason>
    requires equity > 0
  {
    var policy, cfg := s.setup.policy, s.setup.cfg;
    var r := Flag([], bar.symbol == "" || bar.symbol !in policy.allowedSymbols, InvalidSymbol);
    var r := Flag(r, cfg.dataAgeSeconds > policy.maxDataAgeSeconds, StaleData);
    var r := Flag(r, e.side == Buy && e.cashNotional <= 0, InvalidOrder);
    var r := Flag(r, CashAfter(s.book, e) < 0, InsufficientCash);
    var r := Flag(r, EquityAfter(s.book, e) <= 0, ProjectedEquityNonPositive);
    var r := Flag(r, e.side == Sell && !SaleIsRecognised(cfg, e), InvalidOrder);
    var r :=
      if EquityAfter(s.book, e) > 0 && !SaleIsRecognised(cfg, e) then
        var weight := Ratio(ValueAfter(s.book, e) as real, EquityAfter(s.book, e) as real);
        WeightReasons(policy, Ratio(e.notional, equity as real), weight, weight, r)
      else r;
    Flag(r,
      && Times(s.book.quantity, e.reference) <= Epsilon(cfg.moneyPrecision)
      && Times(ResultingQuantity(s.book, e), e.reference) > Epsilon(cfg.moneyPrecision)
      && (if s.book.quantity > 0 then 1 else 0) >= policy.maxOpenPositions, MaxOpenPositions)
  }

  // ---------- the halt check before an order ----------

  lemma TinyEquityBelowOne()
    ensures TinyEquity(8) < 1.0
  {
    assert PowerOfTen(2) == 100;
    assert PowerOfTen(4) == 10000;
    assert PowerOfTen(6) == 1000000;
    assert PowerOfTen(8) == 100000000;
  }

  /** An engine that is enabled and not halted halts exactly for lost equity or a tripped limit. */
  lemma HaltExactly(s: State, equity: int)
    requires s.setup.cfg.tradingEnabled && !s.setup.cfg.killSwitchActive && !s.halt.active
    requires s.book.cash >= 0 && s.book.quantity >= 0 && s.setup.cfg.moneyPrecision == 8
    requires s.marks.startOfDay > 0 && s.marks.peak > 0
    ensures var snapshot := SnapshotAt(s, equity);
      && snapshot.startOfDayEquity > 0.0 && snapshot.peakEquity > 0.0
      && (HaltDecision(s, equity).approved <==>
            && equity > 0
            && DailyLossPct(snapshot) < s.setup.policy.maxDailyLoss
            && DrawdownPct(snapshot) < s.setup.policy.maxDrawdown)
  {
    TinyEquityBelowOne();
    hide TinyEquity, Ratio, Epsilon;
  }

  // ---------- the engine's request is consistent ----------

  lemma ExecutionShape(s: State, bar: Bar, id: IntentId, e: Execution, equity: int)
    requires OrderContext(s, bar, id, e, equity)
    ensures e.price > 0.0 && e.fee >= 0 && e.notional > 0.0
    ensures e.notional == Product(e.quantity as real, e.price)
    ensures e.cashNotional == RoundHalfEven(e.notional)
    ensures if e.side == Buy then e.price >= e.reference else e.price <= e.reference
  {
    hide HaltDecision, MarketValue, RoundHalfEven, EquityAt, ExecutionPrice, TradeFee;
    SizingTheorems.SlippedPrice(e.reference, s.setup.cfg.slippageBps);
    TimesMonotone(1, e.quantity, e.price);
    TimesAdds(0, 0, e.price);
    SizingTheorems.FeeMonotone(s.setup.cfg, e.notional, e.notional);
  }

  /** A halt check that passed leaves the portfolio and loss checks of an order silent. */
  lemma PassedHaltCheckIsSilent(s: State, equity: int, found: seq<Reason>)
    requires HaltDecision(s, equity).approved
    ensures equity > 0
    ensures PortfolioReasons(SnapshotAt(s, equity), Epsilon(s.setup.cfg.moneyPrecision), []) == []
    ensures LossReasons(s.setup.policy, SnapshotAt(s, equity), found) == found
  {
    hide SnapshotAt, Matches, DailyLossPct, DrawdownPct, Epsilon;
    var p := SnapshotAt(s, equity);
    var portfolio := PortfolioReasons(p, Epsilon(s.setup.cfg.moneyPrecision), []);
    assert LossReasons(s.setup.policy, p, portfolio) == [];
    assert p.equity > 0.0;
    assert p.equity == equity as real by { SnapshotEquity(s, equity); }
  }

  lemma SnapshotEquity(s: State, equity: int)
    ensures SnapshotAt(s, equity).equity == equity as real
  {
  }

  lemma MatchesItself(x: real, epsilon: real)
    requires epsilon > 0.0
    ensures Matches(x, x, epsilon)
  {
  }

  /** Single fields that can raise no reason, whatever the policy. */
  predicate SoundFields(o: Order, p: Snapshot) {
    && o.dataValid && !o.isLiveOrder
    && QuantityValid(o) && PricesValid(o) && o.notional > 0.0
    && FeeValid(o) && CurrentExposureValid(o) && CurrentTotalValid(o) && CurrentQuantityValid(o)
    && o.resultingTotalGrossExposure >= 0.0 && o.resultingQuantity >= 0.0 && o.resultingSymbolExposure >= 0.0
    && MoneyPrecisionValid(o)
    && o.dataAgeSeconds >= 0
    && o.openPositions >= 0 && o.openPositions == p.openPositions
    && (o.intent.Some? ==> o.intent != o.lastIntent)
  }

  lemma SoundFieldsAreSilent(policy: Policy, o: Order, p: Snapshot)
    requires SoundFields(o, p)
    ensures FieldReasons(policy, o, p, [])
         == Flag(Flag([], o.symbol == "" || o.symbol !in policy.allowedSymbols, InvalidSymbol),
                 o.dataAgeSeconds > policy.maxDataAgeSeconds, StaleData)
  {
    hide Epsilon;
  }

  lemma OrderHasSoundFields(s: State, bar: Bar, id: IntentId, e: Execution, equity: int)
    requires OrderContext(s, bar, id, e, equity)
    ensures SoundFields(OrderOf(s, bar, id, e), SnapshotAt(s, equity))
  {
    hide Times, HaltDecision, ExecutionOf, Epsilon, EquityAt;
    ExecutionShape(s, bar, id, e, equity);
    TimesMonotone(0, s.book.quantity, e.reference);
    TimesMonotone(0, ResultingQuantity(s.book, e), e.reference);
    TimesAdds(0, 0, e.reference);
  }

  lemma FieldsOfOrder(s: State, bar: Bar, id: IntentId, e: Execution, equity: int)
    requires OrderContext(s, bar, id, e, equity)
    ensures FieldReasons(s.setup.policy, OrderOf(s, bar, id, e), SnapshotAt(s, equity), [])
         == Flag(Flag([], bar.symbol == "" || bar.symbol !in s.setup.policy.allowedSymbols, InvalidSymbol),
                 s.setup.cfg.dataAgeSeconds > s.setup.policy.maxDataAgeSeconds, StaleData)
  {
    hide SoundFields, FieldReasons, OrderContext, Flag, SnapshotAt;
    OrderHasSoundFields(s, bar, id, e, equity);
    SoundFieldsAreSilent(s.setup.policy, OrderOf(s, bar, id, e), SnapshotAt(s, equity));
  }

  /** Projections that agree exactly, not merely within tolerance. */
  predicate ExactProjections(o: Order, p: Snapshot) {
    && o.notional == Product(o.quantity, o.executionPrice)
    && (if o.side == Buy then o.executionPrice >= o.referencePrice else o.executionPrice <= o.referencePrice)
    && o.resultingSymbolExposure == Product(o.resultingQuantity, o.referencePrice)
    && o.currentSymbolExposure == Product(o.currentQuantity, o.referencePrice)
    && o.resultingQuantity == o.currentQuantity + (if o.side == Buy then o.quantity else -o.quantity)
    && o.resultingSymbolExposure >= 0.0
    && o.resultingTotalGrossExposure == o.resultingSymbolExposure
    && o.currentTotalGrossExposure == o.currentSymbolExposure
    && o.availableCash.Some? && o.availableCash == p.cash && o.availableCash.value >= 0.0
    && p.equity == RoundMoney(o.availableCash.value + RoundMoney(o.currentTotalGrossExposure))
  }

  lemma ExactProjectionsAreSilent(o: Order, p: Snapshot, found: seq<Reason>)
    requires ExactProjections(o, p)
    ensures ConsistencyReasons(o, p, found) == found
  {
    hide Matches, Epsilon, RoundMoney, Product;
    var money, units := Epsilon(o.moneyPrecision), Epsilon(o.quantityPrecision);
    MatchesItself(o.notional, money);
    MatchesItself(o.resultingSymbolExposure, money);
    MatchesItself(o.currentSymbolExposure, money);
    MatchesItself(o.resultingQuantity, units);
    MatchesItself(o.availableCash.value, money);
    MatchesItself(p.equity, money);
  }

  lemma OrderIsExact(s: State, bar: Bar, id: IntentId, e: Execution, equity: int)
    requires OrderContext(s, bar, id, e, equity)
    ensures ExactProjections(OrderOf(s, bar, id, e), SnapshotAt(s, equity))
  {
    hide Product, HaltDecision, ExecutionOf, RoundMoney, EquityAt;
    ExecutionShape(s, bar, id, e, equity);
    TimesMonotone(0, ResultingQuantity(s.book, e), e.reference);
    TimesAdds(0, 0, e.reference);
    EquityIsExact(s.book, e.reference);
  }

  /** Equity built from a rounded value is itself on the grid. */
  lemma EquityIsExact(book: Book, price: real)
    ensures RoundMoney(book.cash as real + RoundMoney(Times(book.quantity, price)))
         == EquityAt(book, price) as real
  {
    hide Times, RoundHalfEven;
    RoundFixesGrid(EquityAt(book, price));
    assert book.cash as real + RoundMoney(Times(book.quantity, price)) == EquityAt(book, price) as real;
  }

  lemma CashOfOrder(s: State, bar: Bar, id: IntentId, e: Execution, equity: int)
    requires OrderContext(s, bar, id, e, equity)
    ensures var o, p := OrderOf(s, bar, id, e), SnapshotAt(s, equity);
      && CanProject(o, p)
      && CashNotional(o) == e.cashNotional as real
      && ProjectedCash(o, p) == CashAfter(s.book, e) as real
  {
    hide HaltDecision, ExecutionOf, Product, RoundHalfEven, EquityAt;
    ExecutionShape(s, bar, id, e, equity);
    RoundFixesGrid(CashAfter(s.book, e));
    var o, p := OrderOf(s, bar, id, e), SnapshotAt(s, equity);
    assert CanProject(o, p);
    assert CashNotional(o) == e.cashNotional as real;
  }

  lemma ValueOfOrder(s: State, bar: Bar, id: IntentId, e: Execution, equity: int)
    requires OrderContext(s, bar, id, e, equity)
    ensures var o := OrderOf(s, bar, id, e);
      && RoundMoney(o.resultingTotalGrossExposure) == ValueAfter(s.book, e) as real
      && RoundMoney(Abs(o.resultingSymbolExposure)) == ValueAfter(s.book, e) as real
  {
    hide HaltDecision, ExecutionOf, Product, RoundHalfEven, EquityAt;
    TimesMonotone(0, ResultingQuantity(s.book, e), e.reference);
    TimesAdds(0, 0, e.reference);
  }

  lemma FlagUnviolated()
    ensures forall found: seq<Reason>, reason: Reason :: Flag(found, false, reason) == found
  {
  }

  /** The policy's projection of cash and equity is the one the fill will realise. */
  lemma ProjectionOfOrder(s: State, bar: Bar, id: IntentId, e: Execution, equity: int, found: seq<Reason>)
    requires OrderContext(s, bar, id, e, equity)
    ensures var o, p := OrderOf(s, bar, id, e), SnapshotAt(s, equity);
      && CanProject(o, p)
      && CashNotional(o) == e.cashNotional as real
      && ProjectedCash(o, p) == CashAfter(s.book, e) as real
      && RoundMoney(o.resultingTotalGrossExposure) == ValueAfter(s.book, e) as real
      && RoundMoney(Abs(o.resultingSymbolExposure)) == ValueAfter(s.book, e) as real
      && ProjectedEquity(o, p) == EquityAfter(s.book, e) as real
      && ProjectionReasons(o, p, found)
         == Flag(Flag(Flag(found, e.side == Buy && e.cashNotional <= 0, InvalidOrder),
                      CashAfter(s.book, e) < 0, InsufficientCash),
                 EquityAfter(s.book, e) <= 0, ProjectedEquityNonPositive)
  {
    hide OrderContext, Epsilon, Product, Times, RoundHalfEven, Matches, CashNotional, ProjectedCash, CanProject,
      CashAfter, ValueAfter, SnapshotAt, Flag, Abs;
    CashOfOrder(s, bar, id, e, equity);
    ValueOfOrder(s, bar, id, e, equity);
    RoundFixesGrid(EquityAfter(s.book, e));
    MatchesItself((e.cashNotional + e.fee) as real, Epsilon(s.setup.cfg.moneyPrecision));
    FlagUnviolated();
    var o := OrderOf(s, bar, id, e);
    assert ProjectedEquity(o, SnapshotAt(s, equity)) == EquityAfter(s.book, e) as real;
  }

  lemma SaleRecognition(s: State, bar: Bar, id: IntentId, e: Execution, equity: int)
    requires OrderContext(s, bar, id, e, equity)
    ensures var o := OrderOf(s, bar, id, e);
      && ActuallyReducesRisk(o) == SaleIsRecognised(s.setup.cfg, e)
      && o.reducesRisk == (e.side == Sell)
  {
    hide Times, HaltDecision, ExecutionOf, Epsilon, EquityAt;
    ExecutionShape(s, bar, id, e, equity);
    TimesMonotone(0, ResultingQuantity(s.book, e), e.reference);
    TimesMonotone(1, e.quantity, e.reference);
    TimesMonotone(0, s.book.quantity, e.reference);
    TimesAdds(ResultingQuantity(s.book, e), e.quantity, e.reference);
    TimesAdds(0, 0, e.reference);
  }

  lemma LimitsUnfold(policy: Policy, o: Order, p: Snapshot, found: seq<Reason>, orderWeight: real, weight: real)
    requires p.equity > 0.0 && CanProject(o, p) && ProjectedEquity(o, p) > 0.0
    requires orderWeight == Ratio(Product(o.quantity, o.executionPrice), p.equity)
    requires weight == Ratio(RoundMoney(Abs(o.resultingSymbolExposure)), ProjectedEquity(o, p))
    requires weight == Ratio(RoundMoney(o.resultingTotalGrossExposure), ProjectedEquity(o, p))
    ensures LimitReasons(policy, o, p, found)
      == (var r := Flag(found, o.reducesRisk && !ActuallyReducesRisk(o), InvalidOrder);
          if ActuallyReducesRisk(o) then r else WeightReasons(policy, orderWeight, weight, weight, r))
  {
  }

  lemma LimitsOfOrder(s: State, bar: Bar, id: IntentId, e: Execution, equity: int, found: seq<Reason>)
    requires OrderContext(s, bar, id, e, equity)
    requires equity > 0
    ensures LimitReasons(s.setup.policy, OrderOf(s, bar, id, e), SnapshotAt(s, equity), found)
      == (var policy, cfg := s.setup.policy, s.setup.cfg;
          var r := Flag(found, e.side == Sell && !SaleIsRecognised(cfg, e), InvalidOrder);
          if EquityAfter(s.book, e) > 0 && !SaleIsRecognised(cfg, e) then
            var weight := Ratio(ValueAfter(s.book, e) as real, EquityAfter(s.book, e) as real);
            WeightReasons(policy, Ratio(e.notional, equity as real), weight, weight, r)
          else r)
  {
    hide Times, HaltDecision, ExecutionOf, Epsilon, EquityAt, RoundMoney, ActuallyReducesRisk, WeightReasons, Ratio,
      SaleIsRecognised, EquityAfter, ValueAfter, ProjectedEquity, CanProject;
    ExecutionShape(s, bar, id, e, equity);
    SaleRecognition(s, bar, id, e, equity);
    ProjectionOfOrder(s, bar, id, e, equity, found);
    SnapshotEquity(s, equity);
    var o, p := OrderOf(s, bar, id, e), SnapshotAt(s, equity);
    assert Product(o.quantity, o.executionPrice) == e.notional && p.equity == equity as real;
    if EquityAfter(s.book, e) > 0 {
      LimitsUnfold(s.setup.policy, o, p, found, Ratio(e.notional, equity as real),
                   Ratio(ValueAfter(s.book, e) as real, EquityAfter(s.book, e) as real));
    }
  }

  /**
  The policy's verdict on an engine-built order, reason by reason. In particular the
  duplicate-intent, halt, kill-switch, daily-loss, drawdown, portfolio and live-trading
  reasons cannot appear.
  */
  lemma OrderReasonsExact(s: State, bar: Bar, id: IntentId, e: Execution, equity: int)
    requires OrderContext(s, bar, id, e, equity)
    ensures equity > 0
    ensures OrderReasons(s.setup.policy, OrderOf(s, bar, id, e), SnapshotAt(s, equity))
         == PossibleReasons(s, bar, e, equity)
  {
    hide FieldReasons, ConsistencyReasons, ProjectionReasons, LimitReasons, PortfolioReasons,
      LossReasons, OrderContext, Times, Epsilon, SaleIsRecognised, EquityAfter, ValueAfter, OrderOf, SnapshotAt,
      OpensNewPosition, WeightReasons, Ratio, CashAfter, CanProject, HaltDecision;
    var policy, o, p := s.setup.policy, OrderOf(s, bar, id, e), SnapshotAt(s, equity);
    OrderWasChecked(s, bar, id, e, equity);
    PassedHaltCheckIsSilent(s, equity, PossibleReasons(s, bar, e, equity));
    FieldsOfOrder(s, bar, id, e, equity);
    var fields := FieldReasons(policy, o, p, []);
    ConsistencySilent(s, bar, id, e, equity, fields);
    ProjectionOfOrder(s, bar, id, e, equity, fields);
    var projected := ProjectionReasons(o, p, fields);
    LimitsOfOrder(s, bar, id, e, equity, projected);
    OpeningOfOrder(s, bar, id, e, equity);
  }

  lemma OrderWasChecked(s: State, bar: Bar, id: IntentId, e: Execution, equity: int)
    requires OrderContext(s, bar, id, e, equity)
    ensures HaltDecision(s, equity).approved && equity > 0
    ensures OrderOf(s, bar, id, e).moneyPrecision == s.setup.cfg.moneyPrecision
  {
    hide HaltDecision, ExecutionOf, EquityAt;
    PassedHaltCheckIsSilent(s, equity, []);
  }

  lemma ConsistencySilent(s: State, bar: Bar, id: IntentId, e: Execution, equity: int, found: seq<Reason>)
    requires OrderContext(s, bar, id, e, equity)
    ensures ConsistencyReasons(OrderOf(s, bar, id, e), SnapshotAt(s, equity), found) == found
  {
    hide ConsistencyReasons;
    OrderIsExact(s, bar, id, e, equity);
    ExactProjectionsAreSilent(OrderOf(s, bar, id, e), SnapshotAt(s, equity), found);
  }

  lemma OpeningOfOrder(s: State, bar: Bar, id: IntentId, e: Execution, equity: int)
    requires OrderContext(s, bar, id, e, equity)
    ensures var o, p := OrderOf(s, bar, id, e), SnapshotAt(s, equity);
      (OpensNewPosition(o) && p.openPositions >= s.setup.policy.maxOpenPositions) <==>
        && Times(s.book.quantity, e.reference) <= Epsilon(s.setup.cfg.moneyPrecision)
        && Times(ResultingQuantity(s.book, e), e.reference) > Epsilon(s.setup.cfg.moneyPrecision)
        && (if s.book.quantity > 0 then 1 else 0) >= s.setup.policy.maxOpenPositions
  {
    hide Times, HaltDecision, ExecutionOf, Epsilon, EquityAt;
    TimesMonotone(0, s.book.quantity, e.reference);
    TimesAdds(0, 0, e.reference);
  }

  // ---------- verdicts ----------

  /**
  A sale is approved exactly if it lowers the exposure by more than the policy's
  tolerance, its symbol and data are fine, and it leaves cash and equity.
  */
  lemma SaleApprovedIff(s: State, bar: Bar, id: IntentId, e: Execution, equity: int)
    requires OrderContext(s, bar, id, e, equity)
    requires e.side == Sell
    ensures OrderDecision(s.setup.policy, OrderOf(s, bar, id, e), SnapshotAt(s, equity)).approved <==>
      && SaleIsRecognised(s.setup.cfg, e)
      && bar.symbol != "" && bar.symbol in s.setup.policy.allowedSymbols
      && s.setup.cfg.dataAgeSeconds <= s.setup.policy.maxDataAgeSeconds
      && CashAfter(s.book, e) >= 0
      && EquityAfter(s.book, e) > 0
  {
    hide OrderReasons, OrderOf, SnapshotAt, OrderContext, Epsilon, Times, EquityAfter, CashAfter, Flag,
      ResultingQuantity, ValueAfter, Ratio;
    OrderReasonsExact(s, bar, id, e, equity);
    SaleOpensNothing(s, bar, id, e, equity);
    FlagsNothing();
  }

  lemma SaleOpensNothing(s: State, bar: Bar, id: IntentId, e: Execution, equity: int)
    requires OrderContext(s, bar, id, e, equity) && e.side == Sell
    ensures Times(ResultingQuantity(s.book, e), e.reference) <= Times(s.book.quantity, e.reference)
  {
    hide Times, HaltDecision, ExecutionOf;
    TimesMonotone(ResultingQuantity(s.book, e), s.book.quantity, e.reference);
  }

  /** The position's share of equity after the fill respects the asset cap, the gross cap and one. */
  predicate WeightAllowed(policy: Policy, book: Book, e: Execution)
    requires EquityAfter(book, e) > 0
  {
    var weight := Ratio(ValueAfter(book, e) as real, EquityAfter(book, e) as real);
    && weight <= policy.maxAssetWeight + RISK_EPSILON
    && weight <= policy.maxTotalGrossExposure + RISK_EPSILON
    && weight <= 1.0 + RISK_EPSILON
  }

  /** The position counts as open already, stays too small to count, or another may be opened. */
  predicate OpeningAllowed(setup: Setup, book: Book, e: Execution) {
    || Times(book.quantity, e.reference) > Epsilon(setup.cfg.moneyPrecision)
    || Times(ResultingQuantity(book, e), e.reference) <= Epsilon(setup.cfg.moneyPrecision)
    || (if book.quantity > 0 then 1 else 0) < setup.policy.maxOpenPositions
  }

  /** A purchase is approved exactly if symbol, data, cash, every cap and the position count allow it. */
  lemma PurchaseApprovedIff(s: State, bar: Bar, id: IntentId, e: Execution, equity: int)
    requires OrderContext(s, bar, id, e, equity)
    requires e.side == Buy
    ensures equity > 0
    ensures OrderDecision(s.setup.policy, OrderOf(s, bar, id, e), SnapshotAt(s, equity)).approved <==>
      && bar.symbol != "" && bar.symbol in s.setup.policy.allowedSymbols
      && s.setup.cfg.dataAgeSeconds <= s.setup.policy.maxDataAgeSeconds
      && e.cashNotional > 0
      && CashAfter(s.book, e) >= 0
      && EquityAfter(s.book, e) > 0
      && Ratio(e.notional, equity as real) <= s.setup.policy.maxOrderNotionalWeight + RISK_EPSILON
      && WeightAllowed(s.setup.policy, s.book, e)
      && OpeningAllowed(s.setup, s.book, e)
  {
    hide OrderReasons, OrderOf, SnapshotAt, OrderContext, Epsilon, Times, EquityAfter, CashAfter, Ratio,
      ValueAfter, ResultingQuantity;
    OrderReasonsExact(s, bar, id, e, equity);
  }

  /** With units above the absolute tolerance, holding anything already counts as an open position. */
  lemma UnitsAboveToleranceMayOpen(setup: Setup, book: Book, e: Execution)
    requires book.quantity >= 0 && e.reference > Epsilon(setup.cfg.moneyPrecision)
    requires setup.policy.maxOpenPositions >= 1
    ensures OpeningAllowed(setup, book, e)
  {
    hide Times, Epsilon, ResultingQuantity;
    if book.quantity > 0 {
      assert Epsilon(setup.cfg.moneyPrecision) > 0.0;
      TimesMonotone(1, book.quantity, e.reference);
      TimesAdds(0, 0, e.reference);
    }
  }

  /** What an approval guarantees about the book the fill leaves. */
  lemma ApprovalGuarantees(s: State, bar: Bar, id: IntentId, e: Execution, equity: int)
    requires OrderContext(s, bar, id, e, equity)
    requires OrderDecision(s.setup.policy, OrderOf(s, bar, id, e), SnapshotAt(s, equity)).approved
    ensures CashAfter(s.book, e) >= 0 && EquityAfter(s.book, e) > 0
    ensures e.side == Buy ==> WeightAllowed(s.setup.policy, s.book, e)
  {
    hide OrderReasons, OrderOf, SnapshotAt, OrderContext, Epsilon, Times, EquityAfter, CashAfter, Ratio,
      ValueAfter, ResultingQuantity;
    OrderReasonsExact(s, bar, id, e, equity);
    assert PossibleReasons(s, bar, e, equity) == [];
  }

  /** An order whose intent is the one recorded last is refused as a duplicate. */
  lemma RepeatedIntentRefused(s: State, bar: Bar, id: IntentId, e: Execution, equity: int)
    requires s.lastIntent == Some(id)
    ensures DuplicateIntent in OrderDecision(s.setup.policy, OrderOf(s, bar, id, e), SnapshotAt(s, equity)).reasons
  {
    var o := OrderOf(s, bar, id, e);
    assert o.intent == Some(id) == o.lastIntent;
    hide OrderOf, SnapshotAt, OrderReasons;
    RiskReasons.ReportedIffBroken(s.setup.policy, o, SnapshotAt(s, equity), DuplicateIntent);
  }
}

/**
What the sizing search proposes, the risk policy approves, exactly as long as the
numerical tolerance of the search cannot excuse an overdraft of a money quantum.
*/
module SizedPurchases {
  import opened Bisection
  import opened Domain
  import opened EngineSpec
  import opened Options
  import opened RiskAgreement
  import opened RiskPolicy
  import opened Rounding
  import opened Sizing
  import opened SizingTheorems

  /** The target respects every effective cap, and the policy's order cap is no stricter than the sizing's. */
  predicate TargetWithinCaps(setup: Setup, target: real) {
    && target <= setup.policy.maxAssetWeight
    && target <= setup.policy.maxTotalGrossExposure
    && target <= setup.cfg.maxOrderNotional <= setup.policy.maxOrderNotionalWeight
  }

  /**
  The search proposes a purchase for a target within the effective caps: the halt check
  passed, the symbol is allowed, the data fresh, and a unit is worth more than the
  policy's absolute tolerance.
  */
  ghost predicate SizedPurchase(s: State, bar: Bar, id: IntentId, price: real, equity: int) {
    && s.pending.Some? && price > 0.0 && equity > 0
    && ValidConfig(s.setup.cfg)
    && ValidRequest(SizingRequest(s, price, equity))
    && HaltDecision(s, equity).approved && s.lastIntent != Some(id)
    && TargetWithinCaps(s.setup, s.pending.value.targetWeight)
    && s.setup.policy.maxOpenPositions >= 1
    && bar.symbol != "" && bar.symbol in s.setup.policy.allowedSymbols
    && s.setup.cfg.dataAgeSeconds <= s.setup.policy.maxDataAgeSeconds
    && price > Epsilon(s.setup.cfg.moneyPrecision)
    && TargetQuantity(s.setup.cfg, SizingRequest(s, price, equity)) > s.book.quantity
  }

  /** The execution of the quantity the search proposes. */
  function Proposed(s: State, price: real, equity: int): Execution
    requires s.pending.Some? && price > 0.0 && equity > 0
  {
    ExecutionOf(s.setup.cfg, TargetDelta(s, price, equity), price)
  }

  predicate Approved(s: State, bar: Bar, id: IntentId, e: Execution, equity: int) {
    OrderDecision(s.setup.policy, OrderOf(s, bar, id, e), SnapshotAt(s, equity)).approved
  }

  /** The projection of the sizing search is the book the execution leaves. */
  lemma ProjectionIsExecution(cfg: Config, r: Request, units: int, e: Execution)
    requires units > r.quantity
    requires e == ExecutionOf(cfg, units - r.quantity, r.price)
    ensures var book := Book(r.cash, r.quantity, 0.0, 0, 0, 0);
      var p := Project(cfg, r, units);
      && p == Projection(Some(Buy), e.notional, e.cashNotional, e.fee, CashAfter(book, e),
                         ValueAfter(book, e), EquityAfter(book, e))
  {
  }

  lemma SizedQuantityIsSafe(cfg: Config, r: Request)
    requires ValidRequest(r)
    ensures TargetQuantity(cfg, r) > r.quantity ==> CandidateIsSafe(cfg, r, TargetQuantity(cfg, r))
  {
    BisectInRange(Acceptance(cfg, r), SearchLow(r), SearchHigh(r), None);
    hide CandidateIsSafe, SearchHigh, SearchLow;
  }

  /** A safe candidate for a target within the caps passes every check but, perhaps, that of cash. */
  lemma SafePurchaseRespectsCaps(s: State, r: Request, units: int, e: Execution)
    requires ValidRequest(r) && r.cash == s.book.cash && r.quantity == s.book.quantity
    requires units > r.quantity && e == ExecutionOf(s.setup.cfg, units - r.quantity, r.price)
    requires CandidateIsSafe(s.setup.cfg, r, units)
    requires TargetWithinCaps(s.setup, r.target)
    ensures e.cashNotional > 0 && EquityAfter(s.book, e) > 0
    ensures Ratio(e.notional, r.equity as real) <= s.setup.policy.maxOrderNotionalWeight + RISK_EPSILON
    ensures CashAfter(s.book, e) >= 0 ==> WeightAllowed(s.setup.policy, s.book, e)
    ensures Limit(r) <= 1.0 || ValueAfter(s.book, e) <= MOST_TOLERATED ==> CashAfter(s.book, e) >= 0
  {
    ProjectionIsExecution(s.setup.cfg, r, units, e);
    var p := Project(s.setup.cfg, r, units);
    assert CashAfter(s.book, e) == p.cash && ValueAfter(s.book, e) == p.marketValue;
    assert EquityAfter(s.book, e) == p.equity && p.equity == p.cash + p.marketValue;
    hide Project, ExecutionOf, Ratio, CashAfter, ValueAfter, EquityAfter;
    if p.cash >= 0 {
      ShareAtMostOne(p.marketValue, p.equity);
    }
    if Limit(r) <= 1.0 || ValueAfter(s.book, e) <= MOST_TOLERATED {
      NoOverdraft(Limit(r), p.cash, p.marketValue, p.equity);
    }
  }

  lemma ShareAtMostOne(part: int, whole: int)
    requires part <= whole && whole > 0
    ensures Ratio(part as real, whole as real) <= 1.0
  {
    QuotientBound(part, whole, 1.0);
  }

  /** The largest value on which the tolerance of the search is worth less than a quantum. */
  const MOST_TOLERATED: int := 1000000000000

  /** A weight within a limit of at most (almost) one leaves no overdraft. */
  lemma NoOverdraft(limit: real, cash: int, value: int, equity: int)
    requires equity > 0 && equity == cash + value && value > 0
    requires Ratio(value as real, equity as real) <= limit
    requires limit <= 1.0 || (limit <= 1.0 + SIZING_TOLERANCE && value <= MOST_TOLERATED)
    ensures cash >= 0
  {
    QuotientBound(value, equity, limit);
    if limit <= 1.0 {
      ScaleMonotone(equity as real, limit, 1.0);
    } else {
      OverdraftTooSmall(limit, value as real, equity as real);
    }
  }

  lemma OverdraftTooSmall(limit: real, value: real, equity: real)
    requires 0.0 < equity && value <= limit * equity && value <= 1000000000000.0
    requires 1.0 < limit <= 1.0 + SIZING_TOLERANCE
    ensures equity > value - 1.0
  {
    if equity < value {
      ScaleMonotone(equity, limit, 1.0 + SIZING_TOLERANCE);
      assert value <= equity + SIZING_TOLERANCE * equity;
    }
  }

  lemma ProposalInContext(s: State, bar: Bar, id: IntentId, price: real, equity: int)
    requires SizedPurchase(s, bar, id, price, equity)
    ensures var e := Proposed(s, price, equity);
      && OrderContext(s, bar, id, e, equity) && e.side == Buy && e.reference == price
      && e == ExecutionOf(s.setup.cfg, TargetDelta(s, price, equity), price)
  {
    hide HaltDecision, TargetQuantity, TargetWithinCaps, Epsilon;
  }

  /** A sized purchase is approved exactly if its projection leaves no overdraft. */
  lemma SizedPurchaseApprovedIff(s: State, bar: Bar, id: IntentId, price: real, equity: int)
    requires SizedPurchase(s, bar, id, price, equity)
    ensures Approved(s, bar, id, Proposed(s, price, equity), equity)
       <==> Project(s.setup.cfg, SizingRequest(s, price, equity),
                    s.book.quantity + TargetDelta(s, price, equity)).cash >= 0
    ensures CashAfter(s.book, Proposed(s, price, equity))
         == Project(s.setup.cfg, SizingRequest(s, price, equity),
                    s.book.quantity + TargetDelta(s, price, equity)).cash
    ensures Limit(SizingRequest(s, price, equity)) <= 1.0
            || ValueAfter(s.book, Proposed(s, price, equity)) <= MOST_TOLERATED ==>
      Approved(s, bar, id, Proposed(s, price, equity), equity)
  {
    hide HaltDecision, TargetQuantity, ExecutionOf, CandidateIsSafe, OrderDecision, OrderOf, SnapshotAt, Ratio,
      CashAfter, EquityAfter, WeightAllowed, OpeningAllowed, Project, Epsilon, OrderContext, ValueAfter, ValidConfig,
      ValidRequest;
    var r := SizingRequest(s, price, equity);
    var units := TargetQuantity(s.setup.cfg, r);
    var e := Proposed(s, price, equity);
    SizedQuantityIsSafe(s.setup.cfg, r);
    ProposalInContext(s, bar, id, price, equity);
    ProjectionIsExecution(s.setup.cfg, r, units, e);
    CashReadsBook(s.book, Book(r.cash, r.quantity, 0.0, 0, 0, 0), e);
    SafePurchaseRespectsCaps(s, r, units, e);
    SizedBook(s, bar, id, price, equity);
    UnitsAboveToleranceMayOpen(s.setup, s.book, e);
    PurchaseApprovedIff(s, bar, id, e, equity);
  }

  lemma SizedBook(s: State, bar: Bar, id: IntentId, price: real, equity: int)
    requires SizedPurchase(s, bar, id, price, equity)
    ensures s.book.quantity >= 0
  {
    hide TargetQuantity, HaltDecision;
  }

  lemma CashReadsBook(left: Book, right: Book, e: Execution)
    requires left.cash == right.cash
    ensures CashAfter(left, e) == CashAfter(right, e)
  {
  }

  // ---------- the bound is sharp ----------

  /** Every sized purchase that would be worth no more than a bound is approved. */
  ghost predicate ApprovedUpTo(worth: int) {
    forall s: State, bar: Bar, id: IntentId, price: real, equity: int ::
      SizedPurchase(s, bar, id, price, equity) && ValueAfter(s.book, Proposed(s, price, equity)) <= worth
      ==> Approved(s, bar, id, Proposed(s, price, equity), equity)
  }

  const OPEN_POLICY := Policy(1.0, 1.0, 1.0, 1.0, 1.0, 0, 1, ["SPY"])

  function FreeConfig(cash: int, minimumFee: real, slippageBps: real): Config {
    Config(cash, 0.0, minimumFee, slippageBps, 1.0, 1.0, 1.0, 1.0, 1.0, 1, 0, 0, true, false, 8, 8, 1)
  }

  /** A fresh engine, every cap at one, about to put everything into one symbol. */
  function AllIn(cfg: Config): State {
    Initial(Setup(0, "", cfg, OPEN_POLICY, [], None), []).(pending := Some(Signal(0, "SPY", 1.0, "")))
  }

  function SpyBar(price: real): Bar { Bar(0, "SPY", Some(price), price, 60) }

  const FIRST_INTENT := IntentId(0, "SPY", 0, 0)

  lemma AllInProposes(cash: int, minimumFee: real, slippageBps: real, price: real)
    requires cash > 0 && minimumFee >= 0.0 && 0.0 <= slippageBps < 10000.0 && price >= 1.0
    requires TargetQuantity(FreeConfig(cash, minimumFee, slippageBps), Request(1.0, price, cash, cash, 0)) > 0
    ensures var s := AllIn(FreeConfig(cash, minimumFee, slippageBps));
      && SizedPurchase(s, SpyBar(price), FIRST_INTENT, price, cash)
      && SizingRequest(s, price, cash) == Request(1.0, price, cash, cash, 0)
  {
    var s := AllIn(FreeConfig(cash, minimumFee, slippageBps));
    NothingHeld(price);
    HaltExactly(s, cash);
    FreshSnapshot(cash, minimumFee, slippageBps);
    SmallEpsilon();
    hide TargetQuantity, HaltDecision, SnapshotAt, DailyLossPct, DrawdownPct, Epsilon, MarketValue;
  }

  lemma AllInDelta(cfg: Config, price: real, cash: int)
    requires price > 0.0 && cash > 0 && cfg.initialCash == cash
    ensures AllIn(cfg).book.quantity == 0 && AllIn(cfg).setup.cfg == cfg
    ensures TargetDelta(AllIn(cfg), price, cash) == TargetQuantity(cfg, Request(1.0, price, cash, cash, 0))
  {
    hide TargetQuantity;
  }

  lemma NothingHeld(price: real)
    ensures MarketValue(0, price) == 0
  {
    TimesAdds(0, 0, price);
    RoundFixesGrid(0);
  }

  lemma SmallEpsilon()
    ensures Epsilon(8) < 1.0
  {
    assert PowerOfTen(2) == 100;
    assert PowerOfTen(4) == 10000;
    assert PowerOfTen(6) == 1000000;
    assert PowerOfTen(8) == 100000000;
  }

  lemma FreshSnapshot(cash: int, minimumFee: real, slippageBps: real)
    requires cash > 0
    ensures var p := SnapshotAt(AllIn(FreeConfig(cash, minimumFee, slippageBps)), cash);
      && p.startOfDayEquity > 0.0 && p.peakEquity > 0.0
      && DailyLossPct(p) == 0.0 && DrawdownPct(p) == 0.0
  {
    TinyEquityBelowOne();
    hide TinyEquity;
  }

  // One unit priced a quantum above the bound, just as much cash, a minimum fee of a quantum.

  const DEAR: int := MOST_TOLERATED + 1
  const DEAR_CONFIG := FreeConfig(DEAR, 1.0, 0.0)
  const DEAR_REQUEST := Request(1.0, DEAR as real, DEAR, DEAR, 0)

  lemma DearProjection()
    ensures Project(DEAR_CONFIG, DEAR_REQUEST, 1)
         == Projection(Some(Buy), DEAR as real, DEAR, 1, -1, DEAR, MOST_TOLERATED)
    ensures ValidRequest(DEAR_REQUEST)
  {
    NothingHeld(DEAR as real);
    TimesAdds(0, 1, DEAR as real);
    RoundFixesGrid(DEAR);
    RoundFixesGrid(1);
    assert ExecutionPrice(DEAR as real, Buy, 0.0) == DEAR as real;
    assert TradeFee(DEAR as real, DEAR_CONFIG) == 1.0;
    hide Times, RoundHalfEven, ExecutionPrice, TradeFee;
  }

  lemma DearUnitSized()
    ensures TargetQuantity(DEAR_CONFIG, DEAR_REQUEST) == 1
  {
    var r := DEAR_REQUEST;
    DearProjection();
    NothingHeld(r.price);
    QuotientBound(DEAR, MOST_TOLERATED, Limit(r));
    var accept := Acceptance(DEAR_CONFIG, r);
    assert accept(1);
    assert Project(DEAR_CONFIG, r, 0).marketValue == 0;
    assert accept(0);
    assert SearchLow(r) == 0 && SearchHigh(r) == 1;
    assert Bisect(accept, 0, 1, None) == Bisect(accept, 1, 1, Some(0)) == Bisect(accept, 2, 1, Some(1)) == Some(1);
  }

  /** The search proposes the unit, the policy refuses it for want of cash. */
  lemma DearUnitRefused()
    ensures var s := AllIn(DEAR_CONFIG);
      && SizedPurchase(s, SpyBar(DEAR as real), FIRST_INTENT, DEAR as real, DEAR)
      && ValueAfter(s.book, Proposed(s, DEAR as real, DEAR)) == DEAR
      && CashAfter(s.book, Proposed(s, DEAR as real, DEAR)) == -1
      && !Approved(s, SpyBar(DEAR as real), FIRST_INTENT, Proposed(s, DEAR as real, DEAR), DEAR)
  {
    hide TargetQuantity, Project, Approved, SizedPurchase, AllIn, SizingRequest, TargetDelta, CashAfter, Proposed,
      ValueAfter;
    DearUnitSized();
    DearProjection();
    AllInProposes(DEAR, 1.0, 0.0, DEAR as real);
    AllInDelta(DEAR_CONFIG, DEAR as real, DEAR);
    DearUnitWorth();
    SizedPurchaseApprovedIff(AllIn(DEAR_CONFIG), SpyBar(DEAR as real), FIRST_INTENT, DEAR as real, DEAR);
  }

  lemma DearUnitWorth()
    requires TargetDelta(AllIn(DEAR_CONFIG), DEAR as real, DEAR) == 1
    ensures ValueAfter(AllIn(DEAR_CONFIG).book, Proposed(AllIn(DEAR_CONFIG), DEAR as real, DEAR)) == DEAR
  {
    TimesAdds(0, 1, DEAR as real);
    RoundFixesGrid(DEAR);
    hide TargetDelta, Times, RoundHalfEven, ExecutionPrice, TradeFee;
  }

  /** Sized purchases are approved up to a worth exactly if the tolerance on it is less than a quantum. */
  lemma ApprovedUpToIff(worth: int)
    ensures ApprovedUpTo(worth) <==> worth <= MOST_TOLERATED
  {
    if worth <= MOST_TOLERATED {
      forall s: State, bar: Bar, id: IntentId, price: real, equity: int |
        SizedPurchase(s, bar, id, price, equity) && ValueAfter(s.book, Proposed(s, price, equity)) <= worth
        ensures Approved(s, bar, id, Proposed(s, price, equity), equity)
      {
        SizedPurchaseApprovedIff(s, bar, id, price, equity);
      }
    } else {
      hide Approved, SizedPurchase, Proposed, ValueAfter, CashAfter, AllIn;
      DearUnitRefused();
    }
  }

  /** Every sized purchase of an engine whose equity is within a bound is approved. */
  ghost predicate ApprovedForEquityUpTo(most: int) {
    forall s: State, bar: Bar, id: IntentId, price: real, equity: int ::
      SizedPurchase(s, bar, id, price, equity) && equity <= most
      ==> Approved(s, bar, id, Proposed(s, price, equity), equity)
  }

  /** The search proposes nothing worth more than the equity it starts from. */
  lemma WorthWithinEquity(cfg: Config, r: Request)
    requires ValidRequest(r) && TargetQuantity(cfg, r) > r.quantity
    ensures MarketValue(TargetQuantity(cfg, r), r.price) <= r.equity
  {
    SizedWithinTop(cfg, r);
    AboveHoldingWithinBudget(r, TargetQuantity(cfg, r));
    hide TargetQuantity, SearchHigh, Product, Ratio;
    var whole := r.equity as real;
    TargetWithinEquity(r);
    FloorWorth(TargetQuantity(cfg, r), Product(r.target, whole), r.price);
    RoundMonotone(Times(TargetQuantity(cfg, r), r.price), whole);
    RoundFixesGrid(r.equity);
  }

  lemma SizedWithinTop(cfg: Config, r: Request)
    requires ValidRequest(r) && TargetQuantity(cfg, r) > r.quantity
    ensures TargetQuantity(cfg, r) <= SearchHigh(r)
  {
    BisectInRange(Acceptance(cfg, r), SearchLow(r), SearchHigh(r), None);
    hide CandidateIsSafe, SearchLow, SearchHigh;
  }

  lemma AboveHoldingWithinBudget(r: Request, units: int)
    requires ValidRequest(r) && r.quantity < units <= SearchHigh(r)
    ensures units <= Ratio(Product(r.target, r.equity as real), r.price).Floor
  {
    hide Product, Ratio, MarketValue;
  }

  lemma TargetWithinEquity(r: Request)
    requires ValidRequest(r)
    ensures Product(r.target, r.equity as real) <= r.equity as real
  {
    ScaleMonotone(r.equity as real, r.target, 1.0);
  }

  lemma FloorWorth(units: int, budget: real, price: real)
    requires price > 0.0 && units <= Ratio(budget, price).Floor
    ensures Times(units, price) <= budget
  {
    var most := budget / price;
    assert most * price == budget;
    ScaleMonotone(price, units as real, most);
  }

  /** The same in terms of what is known before sizing: equity up to some bound suffices exactly up to 10^12. */
  lemma ApprovedForEquityIff(most: int)
    ensures ApprovedForEquityUpTo(most) <==> most <= MOST_TOLERATED
  {
    if most <= MOST_TOLERATED {
      forall s: State, bar: Bar, id: IntentId, price: real, equity: int |
        SizedPurchase(s, bar, id, price, equity) && equity <= most
        ensures Approved(s, bar, id, Proposed(s, price, equity), equity)
      {
        ProposalWithinEquity(s, bar, id, price, equity);
        hide SizedPurchase, Approved, Proposed, ValueAfter;
        ApprovedUpToIff(most);
      }
    } else {
      hide Approved, SizedPurchase, Proposed, ValueAfter, CashAfter, AllIn;
      DearUnitRefused();
    }
  }

  lemma ProposalWithinEquity(s: State, bar: Bar, id: IntentId, price: real, equity: int)
    requires SizedPurchase(s, bar, id, price, equity)
    ensures ValueAfter(s.book, Proposed(s, price, equity)) <= equity
  {
    hide TargetQuantity, MarketValue, HaltDecision, TargetWithinCaps, Epsilon, Product;
    WorthWithinEquity(s.setup.cfg, SizingRequest(s, price, equity));
  }

  // Nothing about it needs dear units: a hundred thousand at eight digits, units at two
  // quanta, ten basis points of slippage.

  const AMPLE: int := 10000000000000
  const AMPLE_CONFIG := FreeConfig(AMPLE, 0.0, 10.0)
  const AMPLE_REQUEST := Request(1.0, 2.0, AMPLE, AMPLE, 0)
  const OVERDRAWING: int := 4995004995006

  const WORTH: real := 10000000000002.012

  lemma AmpleNumbers()
    ensures ExecutionPrice(2.0, Buy, 10.0) == 2.002
    ensures Times(OVERDRAWING, 2.002) == WORTH && Times(OVERDRAWING, 2.0) == (2 * OVERDRAWING) as real
    ensures RoundHalfEven(WORTH) == AMPLE + 2
    ensures TradeFee(WORTH, AMPLE_CONFIG) == 0.0
  {
    RoundsTo(WORTH, AMPLE + 2);
    hide RoundHalfEven;
  }

  /** Buying into an empty book, with the notional and fee known. */
  lemma FirstPurchase(cfg: Config, r: Request, units: int, notional: real, cost: int)
    requires r.quantity == 0 && units > 0 && cfg.minimumFee == 0.0 && cfg.feeBps == 0.0 && notional >= 0.0
    requires notional == Times(units, ExecutionPrice(r.price, Buy, cfg.slippageBps))
    requires RoundHalfEven(notional) == cost
    ensures Project(cfg, r, units) == Projection(Some(Buy), notional, cost, 0, r.cash - cost,
      MarketValue(units, r.price), r.cash - cost + MarketValue(units, r.price))
  {
    assert TradeFee(notional, cfg) == 0.0;
    RoundFixesGrid(0);
    hide Times, RoundHalfEven, ExecutionPrice, TradeFee;
  }

  lemma EmptyBookBuys(r: Request)
    requires r.quantity == 0 && r.equity > 0 && r.target >= 0.0
    ensures IsBuyBranch(r)
  {
    NothingHeld(r.price);
    QuotientBound(0, r.equity, r.target);
    ScaleMonotone(r.equity as real, 0.0, r.target);
  }

  lemma AmpleProjection()
    ensures var p := Project(AMPLE_CONFIG, AMPLE_REQUEST, OVERDRAWING);
      && p.side == Some(Buy) && p.notional == WORTH && p.cashNotional == AMPLE + 2
      && p.cash == -2 && p.marketValue == 2 * OVERDRAWING && p.equity == 2 * OVERDRAWING - 2
  {
    hide Times, RoundHalfEven, ExecutionPrice, Project;
    AmpleNumbers();
    RoundFixesGrid(2 * OVERDRAWING);
    FirstPurchase(AMPLE_CONFIG, AMPLE_REQUEST, OVERDRAWING, WORTH, AMPLE + 2);
  }

  lemma AmpleInterval()
    ensures ValidRequest(AMPLE_REQUEST) && IsBuyBranch(AMPLE_REQUEST)
    ensures SearchHigh(AMPLE_REQUEST) == 5000000000000
  {
    hide IsBuyBranch, Times, RoundHalfEven;
    NothingHeld(2.0);
    EmptyBookBuys(AMPLE_REQUEST);
  }

  lemma AmpleIsSafe()
    ensures CandidateIsSafe(AMPLE_CONFIG, AMPLE_REQUEST, OVERDRAWING)
  {
    hide Project, Ratio;
    AmpleProjection();
    WeightOfAmple();
    OrderOfAmple();
  }

  lemma WeightOfAmple()
    ensures Ratio((2 * OVERDRAWING) as real, (2 * OVERDRAWING - 2) as real) <= 1.0 + SIZING_TOLERANCE
  {
    QuotientBound(2 * OVERDRAWING, 2 * OVERDRAWING - 2, 1.0 + SIZING_TOLERANCE);
  }

  lemma OrderOfAmple()
    ensures Ratio(WORTH, AMPLE as real) <= 1.0 + SIZING_TOLERANCE
  {
  }

  /** Where the search is exact, it ends at or above every safe quantity, and with no more cash. */
  lemma SizedBeyond(cfg: Config, r: Request, units: int)
    requires ValidConfig(cfg) && ValidRequest(r) && r.target > 0.0 && IsBuyBranch(r) && BuyIsVisible(r)
    requires r.quantity <= units <= SearchHigh(r) && CandidateIsSafe(cfg, r, units)
    ensures TargetQuantity(cfg, r) >= units
    ensures Project(cfg, r, TargetQuantity(cfg, r)).cash <= Project(cfg, r, units).cash
  {
    hide CandidateIsSafe, SearchLow, SearchHigh, IsBuyBranch, TargetQuantity, Project, BuyIsVisible;
    BuySizingFindsGreatestSafe(cfg, r);
    assert Acceptance(cfg, r)(units);
    if TargetQuantity(cfg, r) > units {
      BuyCashAntitone(cfg, r, units, TargetQuantity(cfg, r));
    }
  }

  lemma AmpleIsVisible()
    ensures ValidConfig(AMPLE_CONFIG) && BuyIsVisible(AMPLE_REQUEST)
  {
  }

  lemma AmpleOverdraws()
    ensures TargetQuantity(AMPLE_CONFIG, AMPLE_REQUEST) >= OVERDRAWING
    ensures Project(AMPLE_CONFIG, AMPLE_REQUEST, TargetQuantity(AMPLE_CONFIG, AMPLE_REQUEST)).cash <= -2
  {
    hide Project, TargetQuantity, IsBuyBranch, SearchHigh, ValidConfig, ValidRequest, BuyIsVisible, CandidateIsSafe;
    AmpleInterval();
    AmpleIsVisible();
    AmpleIsSafe();
    AmpleProjection();
    SizedBeyond(AMPLE_CONFIG, AMPLE_REQUEST, OVERDRAWING);
  }

  /** The search overdraws by two quanta or more, and the policy refuses. */
  lemma CheapUnitsRefused()
    ensures var s := AllIn(AMPLE_CONFIG);
      && SizedPurchase(s, SpyBar(2.0), FIRST_INTENT, 2.0, AMPLE)
      && CashAfter(s.book, Proposed(s, 2.0, AMPLE)) <= -2
      && !Approved(s, SpyBar(2.0), FIRST_INTENT, Proposed(s, 2.0, AMPLE), AMPLE)
  {
    hide Project, Approved, SizedPurchase, TargetQuantity, CashAfter, AllIn, SizingRequest, Proposed, TargetDelta;
    AmpleOverdraws();
    AllInProposes(AMPLE, 0.0, 10.0, 2.0);
    AllInDelta(AMPLE_CONFIG, 2.0, AMPLE);
    SizedPurchaseApprovedIff(AllIn(AMPLE_CONFIG), SpyBar(2.0), FIRST_INTENT, 2.0, AMPLE);
  }
}

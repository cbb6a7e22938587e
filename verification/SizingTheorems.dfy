/**
What the sizing search finds. With `T` the target plus the tolerance, a
candidate respects the target exactly if its headroom `T * equity - value` is
not negative, and headroom is antitone in the candidate once a unit is worth
enough for rounding not to hide a trade.
*/
module SizingTheorems {
  import opened Bisection
  import opened Domain
  import opened Options
  import opened Rounding
  import opened Sizing

  // ---------- arithmetic ----------

  lemma QuotientBound(value: int, whole: int, bound: real)
    requires whole > 0
    ensures value as real / whole as real <= bound <==> value as real <= bound * whole as real
  {
    var w := whole as real;
    var q := value as real / w;
    assert q * w == value as real;
    assert (q - bound) * w == value as real - bound * w;
  }

  lemma MarketValueMonotone(a: int, b: int, price: real)
    requires a <= b && price > 0.0
    ensures MarketValue(a, price) <= MarketValue(b, price)
    ensures MarketValue(b, price) as real <= MarketValue(a, price) as real + Times(b - a, price) + 1.0
  {
    hide Times;
    TimesAdds(a, b - a, price);
    TimesMonotone(a, b, price);
    RoundMonotone(Times(a, price), Times(b, price));
  }

  lemma ProjectionSplits(cfg: Config, r: Request, units: int)
    ensures Project(cfg, r, units).marketValue == MarketValue(units, r.price)
    ensures Project(cfg, r, units).equity == Project(cfg, r, units).cash + MarketValue(units, r.price)
    ensures units == r.quantity ==> Project(cfg, r, units).cash == r.cash
  {
  }

  lemma SlippedPrice(reference: real, slippageBps: real)
    requires reference > 0.0 && 0.0 <= slippageBps < 10000.0
    ensures 0.0 < ExecutionPrice(reference, Sell, slippageBps) <= reference
    ensures reference <= ExecutionPrice(reference, Buy, slippageBps)
  {
    var slippage := slippageBps / 10000.0;
    SlippedBounds(reference, slippage);
    hide Product;
  }

  lemma SlippedBounds(reference: real, slippage: real)
    requires reference > 0.0 && 0.0 <= slippage < 1.0
    ensures 0.0 < Product(reference, 1.0 - slippage) <= reference <= Product(reference, 1.0 + slippage)
  {
    assert reference * slippage >= 0.0;
    assert reference * (1.0 - slippage) > 0.0;
  }

  // ---------- headroom ----------

  function Limit(r: Request): real { r.target + SIZING_TOLERANCE }

  function Headroom(cfg: Config, r: Request, t: real, units: int): real {
    var p := Project(cfg, r, units);
    Product(t, p.equity as real) - p.marketValue as real
  }

  /** Headroom as a trade-off between projected cash and projected value. */
  lemma HeadroomSplits(cfg: Config, r: Request, t: real, units: int)
    ensures Headroom(cfg, r, t, units)
         == t * Project(cfg, r, units).cash as real
          - (1.0 - t) * MarketValue(units, r.price) as real
  {
    var p := Project(cfg, r, units);
    ProjectionSplits(cfg, r, units);
    assert p.equity as real == p.cash as real + p.marketValue as real;
  }

  lemma WithinTargetIffHeadroom(cfg: Config, r: Request, units: int)
    ensures WithinTarget(r, Project(cfg, r, units))
       <==> Project(cfg, r, units).equity > 0 && Headroom(cfg, r, Limit(r), units) >= 0.0
  {
    hide Project;
    var p := Project(cfg, r, units);
    if p.equity > 0 {
      QuotientBound(p.marketValue, p.equity, Limit(r));
    }
  }

  /** Lower cash and higher value cost headroom, even when the limit is slightly above one. */
  lemma TradeOff(t: real, cashA: real, cashB: real, valueA: real, valueB: real, step: real)
    requires 0.0 <= t && cashA >= cashB && valueA <= valueB
    requires t <= 1.0 ||
      (t <= 1.25 && step >= 1.0 && cashA - cashB >= 1.0 && cashA - cashB >= step - 1.0
       && valueB - valueA <= step + 1.0)
    ensures t * cashA - (1.0 - t) * valueA >= t * cashB - (1.0 - t) * valueB
  {
    var spent, gained := cashA - cashB, valueB - valueA;
    TradeOffDifference(t, cashA, cashB, valueA, valueB);
    if t <= 1.0 {
      assert t * spent >= 0.0 && (1.0 - t) * gained >= 0.0;
    } else {
      TradeOffAboveOne(t - 1.0, spent, gained);
      assert t * spent + (1.0 - t) * gained == spent + (t - 1.0) * spent - (t - 1.0) * gained;
    }
  }

  lemma TradeOffDifference(t: real, cashA: real, cashB: real, valueA: real, valueB: real)
    ensures (t * cashA - (1.0 - t) * valueA) - (t * cashB - (1.0 - t) * valueB)
         == t * (cashA - cashB) + (1.0 - t) * (valueB - valueA)
  {
  }

  lemma TradeOffAboveOne(slack: real, spent: real, gained: real)
    requires 0.0 <= slack <= 0.25 && 0.0 <= spent && gained <= 4.0 * spent
    ensures spent + slack * spent - slack * gained >= 0.0
  {
    var over := 4.0 * spent - gained;
    assert slack * over >= 0.0;
    assert (0.25 - slack) * spent >= 0.0;
    assert slack * over == 4.0 * (slack * spent) - slack * gained;
  }

  // ---------- the buy branch ----------

  /** Notional of buying up to `units`, counted from the held quantity. */
  function BuyNotional(cfg: Config, r: Request, units: int): real {
    Times(units - r.quantity, ExecutionPrice(r.price, Buy, cfg.slippageBps))
  }

  lemma BuyNotionalGrows(cfg: Config, r: Request, a: int, b: int)
    requires ValidConfig(cfg) && ValidRequest(r)
    requires r.quantity <= a <= b
    ensures BuyNotional(cfg, r, b) >= BuyNotional(cfg, r, a) + Times(b - a, r.price)
    ensures BuyNotional(cfg, r, a) >= 0.0
  {
    var execution := ExecutionPrice(r.price, Buy, cfg.slippageBps);
    ScaleMonotone(r.price, 1.0, 1.0 + cfg.slippageBps / 10000.0);
    assert execution >= r.price;
    hide ExecutionPrice;
    ScaleMonotone((b - a) as real, r.price, execution);
    assert Times(b - a, r.price) <= Times(b - a, execution);
    hide Times;
    TimesAdds(a - r.quantity, b - a, execution);
    TimesMonotone(0, a - r.quantity, execution);
    TimesAdds(0, 0, execution);
  }

  lemma FeeMonotone(cfg: Config, low: real, high: real)
    requires ValidConfig(cfg) && 0.0 <= low <= high
    ensures 0.0 <= TradeFee(low, cfg) <= TradeFee(high, cfg)
    ensures 0 <= RoundHalfEven(TradeFee(low, cfg)) <= RoundHalfEven(TradeFee(high, cfg))
  {
    ScaleMonotone(cfg.feeBps / 10000.0, low, high);
    RoundMonotone(TradeFee(low, cfg), TradeFee(high, cfg));
    RoundMonotone(0.0, TradeFee(low, cfg));
    RoundFixesGrid(0);
  }

  /** Units worth at least a quantum keep the rounded notionals of different sizes apart. */
  lemma BuyNotionalSeparates(cfg: Config, r: Request, a: int, b: int)
    requires ValidConfig(cfg) && ValidRequest(r) && r.price >= 1.0
    requires r.quantity <= a < b
    ensures RoundHalfEven(BuyNotional(cfg, r, b)) >= RoundHalfEven(BuyNotional(cfg, r, a)) + 1
  {
    var execution := ExecutionPrice(r.price, Buy, cfg.slippageBps);
    SlippedPrice(r.price, cfg.slippageBps);
    hide ExecutionPrice, RoundHalfEven;
    if execution > 1.0 {
      TimesAdds(a - r.quantity, b - a, execution);
      TimesMonotone(1, b - a, execution);
      TimesAdds(0, 0, execution);
      RoundSeparates(BuyNotional(cfg, r, a), BuyNotional(cfg, r, b));
    } else {
      RoundFixesGrid(a - r.quantity);
      RoundFixesGrid(b - r.quantity);
    }
  }

  /** Buying more never leaves more cash, and costs a quantum per step once a unit is worth one. */
  lemma BuyCashAntitone(cfg: Config, r: Request, a: int, b: int)
    requires ValidConfig(cfg) && ValidRequest(r)
    requires r.quantity <= a < b
    ensures Project(cfg, r, a).cash >= Project(cfg, r, b).cash
    ensures r.price >= 1.0 ==>
      && Project(cfg, r, a).cash >= Project(cfg, r, b).cash + 1
      && Project(cfg, r, a).cash as real
         >= Project(cfg, r, b).cash as real + Times(b - a, r.price) - 1.0
  {
    hide Times, ExecutionPrice, TradeFee, RoundHalfEven;
    BuyNotionalGrows(cfg, r, a, b);
    var low, high := BuyNotional(cfg, r, a), BuyNotional(cfg, r, b);
    TimesMonotone(0, b - a, r.price);
    TimesMonotone(1, b - a, r.price);
    TimesAdds(0, 0, r.price);
    RoundMonotone(low, high);
    RoundMonotone(0.0, low);
    RoundFixesGrid(0);
    FeeMonotone(cfg, low, high);
    if r.price >= 1.0 {
      BuyNotionalSeparates(cfg, r, a, b);
    }
  }

  /** A unit is worth enough for every buy to move both value and cash by a quantum. */
  predicate BuyIsVisible(r: Request) {
    r.price > 0.5 && LimitIsUsable(r, Limit(r))
  }

  /** A limit above one, by no more than a quarter, needs units worth at least a quantum. */
  predicate LimitIsUsable(r: Request, t: real) {
    0.0 <= t && (t <= 1.0 || (t <= 1.25 && r.price >= 1.0))
  }

  lemma BuyHeadroomAntitone(cfg: Config, r: Request, t: real, a: int, b: int)
    requires ValidConfig(cfg) && ValidRequest(r) && LimitIsUsable(r, t)
    requires r.quantity <= a <= b
    ensures Headroom(cfg, r, t, a) >= Headroom(cfg, r, t, b)
  {
    hide Project, MarketValue, Times, Headroom;
    if a < b {
      HeadroomSplits(cfg, r, t, a);
      HeadroomSplits(cfg, r, t, b);
      BuyCashAntitone(cfg, r, a, b);
      MarketValueMonotone(a, b, r.price);
      TimesMonotone(1, b - a, r.price);
      TimesAdds(0, 0, r.price);
      TradeOff(t, Project(cfg, r, a).cash as real, Project(cfg, r, b).cash as real,
               MarketValue(a, r.price) as real, MarketValue(b, r.price) as real, Times(b - a, r.price));
    }
  }

  /** Every actual buy shows up both in value and in cash. */
  lemma BuyIsRepresentable(cfg: Config, r: Request, units: int)
    requires ValidConfig(cfg) && ValidRequest(r) && r.price > 0.5
    requires r.quantity <= units
    ensures BuyHasRepresentableValue(Project(cfg, r, units))
  {
    if units > r.quantity {
      BuyNotionalGrows(cfg, r, r.quantity, units);
      TimesMonotone(1, units - r.quantity, r.price);
      TimesMonotone(1, units, r.price);
      TimesAdds(0, 0, r.price);
      RoundPositive(BuyNotional(cfg, r, units));
      RoundPositive(Times(units, r.price));
      hide Times, RoundHalfEven, ExecutionPrice, TradeFee;
    }
  }

  lemma OrderLimitDownwardClosed(cfg: Config, r: Request, a: int, b: int)
    requires ValidConfig(cfg) && ValidRequest(r)
    requires r.quantity <= a <= b
    requires OrderWithinLimit(cfg, r, Project(cfg, r, b))
    ensures OrderWithinLimit(cfg, r, Project(cfg, r, a))
  {
    if r.quantity < a {
      BuyNotionalGrows(cfg, r, a, b);
      TimesMonotone(0, b - a, r.price);
      TimesAdds(0, 0, r.price);
      var low, high := BuyNotional(cfg, r, a), BuyNotional(cfg, r, b);
      QuotientMonotone(low, high, r.equity as real);
      hide Times, RoundHalfEven, ExecutionPrice, TradeFee;
    }
  }

  lemma QuotientMonotone(a: real, b: real, whole: real)
    requires a <= b && whole > 0.0
    ensures a / whole <= b / whole
  {
  }

  lemma BuySafeSetDownwardClosed(cfg: Config, r: Request)
    requires ValidConfig(cfg) && ValidRequest(r) && BuyIsVisible(r)
    ensures DownwardClosed(Acceptance(cfg, r), r.quantity, SearchHigh(r))
  {
    forall a, b | r.quantity <= a <= b <= SearchHigh(r) && Acceptance(cfg, r)(b)
      ensures Acceptance(cfg, r)(a)
    {
      WithinTargetIffHeadroom(cfg, r, b);
      BuyHeadroomAntitone(cfg, r, Limit(r), a, b);
      BuyWithinTarget(cfg, r, a);
      OrderLimitDownwardClosed(cfg, r, a, b);
      BuyIsRepresentable(cfg, r, a);
      hide WithinTarget, OrderWithinLimit, BuyHasRepresentableValue, Project, Headroom;
    }
  }

  /** On the buy side non-negative headroom already makes the projected equity positive. */
  lemma BuyWithinTarget(cfg: Config, r: Request, units: int)
    requires ValidConfig(cfg) && ValidRequest(r) && r.price > 0.5
    requires r.quantity <= units
    requires Headroom(cfg, r, Limit(r), units) >= 0.0
    ensures WithinTarget(r, Project(cfg, r, units))
  {
    WithinTargetIffHeadroom(cfg, r, units);
    BuyIsRepresentable(cfg, r, units);
    if units > r.quantity {
      assert Project(cfg, r, units).marketValue > 0;
      hide Project;
      PositiveFromHeadroom(Limit(r), Project(cfg, r, units).equity, Project(cfg, r, units).marketValue);
    }
  }

  lemma PositiveFromHeadroom(t: real, equity: int, value: int)
    requires t >= 0.0 && value > 0
    requires Product(t, equity as real) - value as real >= 0.0
    ensures equity > 0
  {
    if equity <= 0 {
      ScaleMonotone(t, equity as real, 0.0);
    }
  }

  // ---------- the sell branch ----------

  function SellNotional(cfg: Config, r: Request, units: int): real {
    Times(r.quantity - units, ExecutionPrice(r.price, Sell, cfg.slippageBps))
  }

  /** Selling one more unit brings in more than its fee and a whole quantum, or no rate fee exists. */
  predicate SellIsVisible(cfg: Config, r: Request) {
    || cfg.feeBps == 0.0
    || Product(ExecutionPrice(r.price, Sell, cfg.slippageBps), 1.0 - cfg.feeBps / 10000.0) > 1.0
  }

  /** The net proceeds of a larger sale, when proceeds grow by `extra` and a rate `f` is charged. */
  lemma NetProceedsGrow(small: real, extra: real, large: real, f: real, minimum: real)
    requires 0.0 <= small && 0.0 <= f && 0.0 <= minimum && large == small + extra
    requires Product(extra, 1.0 - f) > 1.0 && extra > 0.0
    ensures RoundHalfEven(large) - RoundHalfEven(Max(Product(large, f), minimum))
         >= RoundHalfEven(small) - RoundHalfEven(Max(Product(small, f), minimum))
  {
    hide RoundHalfEven;
    assert large * f == small * f + extra * f;
    assert extra * f >= 0.0;
    assert extra * (1.0 - f) == extra - extra * f;
    var feeSmall, feeLarge := Max(Product(small, f), minimum), Max(Product(large, f), minimum);
    assert feeLarge <= feeSmall + extra * f;
  }

  lemma SellCashAntitone(cfg: Config, r: Request, a: int, b: int)
    requires ValidConfig(cfg) && ValidRequest(r) && SellIsVisible(cfg, r)
    requires 0 <= a <= b < r.quantity
    ensures Project(cfg, r, a).cash >= Project(cfg, r, b).cash
  {
    if a < b {
      var execution := ExecutionPrice(r.price, Sell, cfg.slippageBps);
      var large, small := SellNotional(cfg, r, a), SellNotional(cfg, r, b);
      var extra := Times(b - a, execution);
      SlippedPrice(r.price, cfg.slippageBps);
      TimesAdds(r.quantity - b, b - a, execution);
      TimesMonotone(0, r.quantity - b, execution);
      TimesAdds(0, 0, execution);
      TimesMonotone(1, b - a, execution);
      SellBatchVisible(execution, extra, cfg.feeBps / 10000.0);
      SaleNetsMore(cfg, small, extra, large);
      hide ExecutionPrice, Times, RoundHalfEven, TradeFee, SellIsVisible;
    }
  }

  /** Cash left in hand by a larger sale, with the fee the configuration charges. */
  lemma SaleNetsMore(cfg: Config, small: real, extra: real, large: real)
    requires ValidConfig(cfg)
    requires 0.0 <= small && 0.0 < extra && large == small + extra
    requires cfg.feeBps == 0.0 || Product(extra, 1.0 - cfg.feeBps / 10000.0) > 1.0
    ensures RoundHalfEven(large) - RoundHalfEven(TradeFee(large, cfg))
         >= RoundHalfEven(small) - RoundHalfEven(TradeFee(small, cfg))
  {
    hide RoundHalfEven, Max;
    RoundMonotone(small, large);
    if cfg.feeBps == 0.0 {
      assert Product(small, 0.0) == 0.0 && Product(large, 0.0) == 0.0;
    } else {
      NetProceedsGrow(small, extra, large, cfg.feeBps / 10000.0, cfg.minimumFee);
    }
  }

  lemma SellBatchVisible(execution: real, extra: real, f: real)
    requires 0.0 < execution <= extra
    ensures Product(execution, 1.0 - f) > 1.0 ==> Product(extra, 1.0 - f) > 1.0
  {
    if execution * (1.0 - f) > 1.0 {
      var kept := 1.0 - f;
      assert kept == (execution * kept) / execution;
      assert kept > 0.0;
      assert (extra - execution) * kept >= 0.0;
    }
  }

  lemma SellHeadroomAntitone(cfg: Config, r: Request, t: real, a: int, b: int)
    requires ValidConfig(cfg) && ValidRequest(r) && SellIsVisible(cfg, r)
    requires 0.0 <= t <= 1.0
    requires 0 <= a <= b < r.quantity
    ensures Headroom(cfg, r, t, a) >= Headroom(cfg, r, t, b)
  {
    hide Project, MarketValue, Times, Headroom, SellIsVisible;
    HeadroomSplits(cfg, r, t, a);
    HeadroomSplits(cfg, r, t, b);
    SellCashAntitone(cfg, r, a, b);
    MarketValueMonotone(a, b, r.price);
    TradeOff(t, Project(cfg, r, a).cash as real, Project(cfg, r, b).cash as real,
             MarketValue(a, r.price) as real, MarketValue(b, r.price) as real, 0.0);
  }

  /** Below a limit of one, equity that respects the target keeps some cash. */
  lemma SafeKeepsCash(t: real, cash: int, value: int)
    requires 0.0 < t < 1.0 && value >= 0 && cash + value > 0
    requires Product(t, (cash + value) as real) - value as real >= 0.0
    ensures cash > 0
  {
    hide Product;
    ShareIsSmaller(t, (cash + value) as real);
  }

  lemma ShareIsSmaller(t: real, whole: real)
    requires t < 1.0 && whole > 0.0
    ensures Product(t, whole) < whole
  {
    assert (1.0 - t) * whole > 0.0;
  }

  /** Either the limit itself leaves some cash, or selling a single unit does. */
  predicate SaleKeepsCash(cfg: Config, r: Request) {
    Limit(r) < 1.0 || Project(cfg, r, r.quantity - 1).cash > 0
  }

  /** Any weight is within a limit of at least one while there is cash. */
  lemma CashWithinTarget(r: Request, p: Projection)
    requires Limit(r) >= 1.0 && p.equity == p.cash + p.marketValue
    requires p.cash > 0 && p.marketValue >= 0
    ensures WithinTarget(r, p)
  {
    QuotientBound(p.marketValue, p.equity, 1.0);
  }

  lemma SellSafeBelow(cfg: Config, r: Request, a: int, b: int)
    requires ValidConfig(cfg) && ValidRequest(r) && SellIsVisible(cfg, r)
    requires 0.0 < Limit(r) && SaleKeepsCash(cfg, r)
    requires 0 <= a <= b < r.quantity
    requires CandidateIsSafe(cfg, r, b)
    ensures CandidateIsSafe(cfg, r, a)
  {
    assert Project(cfg, r, a).side == Some(Sell);
    ProjectionSplits(cfg, r, a);
    ProjectionSplits(cfg, r, b);
    ValueNonNegative(a, r.price);
    ValueNonNegative(b, r.price);
    hide Project, MarketValue, SellIsVisible, WithinTarget, Product, Ratio;
    if Limit(r) < 1.0 {
      WithinTargetIffHeadroom(cfg, r, a);
      WithinTargetIffHeadroom(cfg, r, b);
      SellHeadroomAntitone(cfg, r, Limit(r), a, b);
      SellCashAntitone(cfg, r, a, b);
      SafeKeepsCash(Limit(r), Project(cfg, r, b).cash, Project(cfg, r, b).marketValue);
    } else {
      SellCashAntitone(cfg, r, a, r.quantity - 1);
      CashWithinTarget(r, Project(cfg, r, a));
    }
  }

  lemma ValueNonNegative(units: int, price: real)
    requires units >= 0 && price > 0.0
    ensures MarketValue(units, price) >= 0
  {
    hide Product;
    MarketValueMonotone(0, units, price);
    TimesAdds(0, 0, price);
    RoundFixesGrid(0);
  }

  lemma SellSafeSetDownwardClosed(cfg: Config, r: Request)
    requires ValidConfig(cfg) && ValidRequest(r) && SellIsVisible(cfg, r)
    requires 0.0 < Limit(r) && SaleKeepsCash(cfg, r)
    ensures DownwardClosed(Acceptance(cfg, r), 0, r.quantity - 1)
  {
    hide CandidateIsSafe, SellIsVisible;
    forall a, b | 0 <= a <= b <= r.quantity - 1 && Acceptance(cfg, r)(b)
      ensures Acceptance(cfg, r)(a)
    {
      SellSafeBelow(cfg, r, a, b);
    }
  }

  // ---------- what the search returns ----------

  ghost predicate IsGreatestSafe(cfg: Config, r: Request, units: int)
    requires r.equity > 0 && r.price > 0.0
  {
    IsGreatestAccepted(Acceptance(cfg, r), SearchLow(r), SearchHigh(r), units)
  }

  /** Keeping the held quantity is always safe once its weight respects the limit. */
  lemma HoldingIsSafe(cfg: Config, r: Request)
    requires ValidRequest(r)
    requires MarketValue(r.quantity, r.price) as real / r.equity as real <= Limit(r)
    ensures CandidateIsSafe(cfg, r, r.quantity)
  {
    ProjectionSplits(cfg, r, r.quantity);
  }

  /** While the target is not exceeded, the search finds the greatest safe quantity at or above the holding. */
  lemma BuySizingFindsGreatestSafe(cfg: Config, r: Request)
    requires ValidConfig(cfg) && ValidRequest(r)
    requires r.target > 0.0 && IsBuyBranch(r) && BuyIsVisible(r)
    ensures IsGreatestSafe(cfg, r, TargetQuantity(cfg, r))
    ensures TargetQuantity(cfg, r) >= r.quantity
  {
    HoldingIsSafe(cfg, r);
    BuySafeSetDownwardClosed(cfg, r);
    hide CandidateIsSafe, BuyIsVisible, IsBuyBranch, SearchHigh;
    assert SearchHigh(r) >= r.quantity by { SearchHighBound(r); }
    assert SearchLow(r) == r.quantity by { SearchHighBound(r); }
    assert Acceptance(cfg, r)(r.quantity);
    BisectFindsGreatest(Acceptance(cfg, r), SearchLow(r), SearchHigh(r), None);
  }

  lemma SearchHighBound(r: Request)
    requires ValidRequest(r)
    ensures SearchHigh(r) >= r.quantity
    ensures IsBuyBranch(r) ==> SearchLow(r) == r.quantity
    ensures !IsBuyBranch(r) ==> SearchLow(r) == 0 && SearchHigh(r) == r.quantity && r.quantity > 0
  {
    if !IsBuyBranch(r) && r.quantity <= 0 {
      TimesAdds(0, 0, r.price);
      RoundFixesGrid(0);
    }
  }

  /** The held weight lies above the target but within the tolerance above it. */
  predicate HoldingInToleranceBand(r: Request)
    requires r.equity > 0
  {
    r.target < MarketValue(r.quantity, r.price) as real / r.equity as real <= Limit(r)
  }

  lemma WeightAtMostOne(r: Request)
    requires ValidRequest(r)
    ensures MarketValue(r.quantity, r.price) as real / r.equity as real <= 1.0
  {
    QuotientBound(MarketValue(r.quantity, r.price), r.equity, 1.0);
  }

  /** When the target is exceeded, the search finds the greatest safe remainder, or sells everything. */
  lemma SellSizingFindsGreatestSafe(cfg: Config, r: Request)
    requires ValidConfig(cfg) && ValidRequest(r) && SellIsVisible(cfg, r)
    requires r.target > 0.0 && !IsBuyBranch(r) && !HoldingInToleranceBand(r)
    ensures if exists k :: 0 <= k <= r.quantity && CandidateIsSafe(cfg, r, k)
            then IsGreatestSafe(cfg, r, TargetQuantity(cfg, r))
            else TargetQuantity(cfg, r) == 0
    ensures 0 <= TargetQuantity(cfg, r) < r.quantity
  {
    WeightAtMostOne(r);
    SearchHighBound(r);
    SellSafeSetDownwardClosed(cfg, r);
    assert !CandidateIsSafe(cfg, r, r.quantity) by { ProjectionSplits(cfg, r, r.quantity); }
    hide CandidateIsSafe, SellIsVisible, IsBuyBranch, SearchHigh, SearchLow;
    var accept := Acceptance(cfg, r);
    assert forall k :: accept(k) == CandidateIsSafe(cfg, r, k);
    assert !accept(r.quantity);
    assert DownwardClosed(accept, 0, r.quantity);
    BisectFindsGreatest(accept, 0, r.quantity, None);
  }

  /**
  Inside the tolerance band the holding itself is the greatest safe quantity, and
  the search keeps it exactly if the next smaller quantity is safe as well.
  */
  lemma SellSizingInsideBand(cfg: Config, r: Request)
    requires ValidConfig(cfg) && ValidRequest(r) && SellIsVisible(cfg, r)
    requires r.target > 0.0 && HoldingInToleranceBand(r) && SaleKeepsCash(cfg, r)
    ensures r.quantity > 0 && IsGreatestSafe(cfg, r, r.quantity)
    ensures TargetQuantity(cfg, r) == r.quantity <==> CandidateIsSafe(cfg, r, r.quantity - 1)
  {
    assert !IsBuyBranch(r);
    SearchHighBound(r);
    HoldingIsSafe(cfg, r);
    SellSafeSetDownwardClosed(cfg, r);
    hide CandidateIsSafe, SellIsVisible, IsBuyBranch, SearchHigh, SearchLow;
    var accept := Acceptance(cfg, r);
    assert forall k :: accept(k) == CandidateIsSafe(cfg, r, k);
    BisectReachesTop(accept, 0, r.quantity, None);
  }
}

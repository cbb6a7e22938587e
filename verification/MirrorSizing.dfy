/**
The LEAN adapter's copy of the sizing search in exact arithmetic: whole shares, fixed
version-one costs and no numerical tolerance, against the local engine's search.
*/
module MirrorSizing {
  import opened Bisection
  import opened Domain
  import opened Options
  import opened Rounding
  import Sizing
  import opened SizingTheorems

  const FEE_BPS: real := 1.0
  const SLIPPAGE_BPS: real := 2.0
  const MAX_POSITION_WEIGHT: real := 0.1
  const MAX_ORDER_NOTIONAL_WEIGHT: real := 0.1

  /** Money is rounded half-even to the eight-place quantum. */
  function ParityMoney(value: real): int { RoundHalfEven(value) }

  datatype Input = Input(target: real, price: real, quantity: int, cash: int)

  /** The inputs the adapter accepts; all others raise. */
  predicate Accepted(i: Input) {
    i.price > 0.0 && i.quantity >= 0 && i.cash >= 0 && 0.0 <= i.target <= MAX_POSITION_WEIGHT
  }

  function Equity(i: Input): int { ParityMoney(i.cash as real + Times(i.quantity, i.price)) }

  predicate MirrorIsSafe(i: Input, units: int)
    requires Equity(i) > 0
  {
    var isBuy := units > i.quantity;
    var delta := if isBuy then units - i.quantity else i.quantity - units;
    var value := ParityMoney(Times(units, i.price));
    var executionPrice :=
      Product(i.price, if isBuy then 1.0 + SLIPPAGE_BPS / 10000.0 else 1.0 - SLIPPAGE_BPS / 10000.0);
    var notional := if delta == 0 then 0.0 else Times(delta, executionPrice);
    var fee := ParityMoney(Product(notional, FEE_BPS / 10000.0));
    var cash :=
      if delta == 0 then i.cash
      else if isBuy then i.cash - ParityMoney(notional) - fee
      else i.cash + ParityMoney(notional) - fee;
    var equity := cash + value;
    && equity > 0
    && Ratio(value as real, equity as real) <= i.target
    && (isBuy ==> Ratio(notional, Equity(i) as real) <= MAX_ORDER_NOTIONAL_WEIGHT)
    && (isBuy ==> value > 0 && notional > 0.0)
  }

  predicate MirrorBuys(i: Input)
    requires Equity(i) > 0
  {
    Ratio(ParityMoney(Times(i.quantity, i.price)) as real, Equity(i) as real) <= i.target
  }

  function MirrorLow(i: Input): int
    requires Equity(i) > 0
  {
    if MirrorBuys(i) then i.quantity else 0
  }

  function MirrorHigh(i: Input): int
    requires Equity(i) > 0 && i.price > 0.0
  {
    if MirrorBuys(i) then MaxInt(i.quantity, Ratio(Product(i.target, Equity(i) as real), i.price).Floor)
    else i.quantity
  }

  function MirrorAcceptance(i: Input): int -> bool
    requires Equity(i) > 0
  {
    units => MirrorIsSafe(i, units)
  }

  /** The adapter's answer in exact arithmetic; None stands for a raised ValueError. */
  function MirrorQuantity(i: Input): Option<int> {
    if !Accepted(i) then None
    else if i.target == 0.0 || Equity(i) <= 0 then Some(0)
    else
      match Bisect(MirrorAcceptance(i), MirrorLow(i), MirrorHigh(i), None)
      case None => Some(0)
      case Some(units) => Some(units)
  }

  // ---------- the engine's view of the same call ----------

  /** A local configuration with the version-one costs, caps and whole shares. */
  predicate IsVersionOne(cfg: Config) {
    && ValidConfig(cfg)
    && cfg.feeBps == FEE_BPS && cfg.slippageBps == SLIPPAGE_BPS && cfg.minimumFee == 0.0
    && cfg.maxOrderNotional == MAX_ORDER_NOTIONAL_WEIGHT
    && cfg.quantityPrecision == 0 && cfg.moneyPrecision == 8
  }

  function RequestOf(i: Input): Sizing.Request {
    Sizing.Request(i.target, i.price, Equity(i), i.cash, i.quantity)
  }

  /** Prices on the eight-place grid, worth at least two quanta. */
  ghost predicate OnGrid(price: real) {
    exists k: int :: k >= 2 && IsCount(price, k)
  }

  predicate IsCount(price: real, k: int) { price == k as real }

  /** On the grid nothing is rounded away when a position is valued. */
  lemma GridEquity(i: Input)
    requires OnGrid(i.price)
    ensures Equity(i) == i.cash + MarketValue(i.quantity, i.price)
    ensures i.price >= 2.0
  {
    var k: int :| k >= 2 && IsCount(i.price, k);
    var worth := i.quantity * k;
    assert Times(i.quantity, i.price) == worth as real;
    RoundFixesGrid(worth);
    RoundFixesGrid(i.cash + worth);
  }

  lemma GridRequestValid(i: Input)
    requires Accepted(i) && OnGrid(i.price) && Equity(i) > 0
    ensures Sizing.ValidRequest(RequestOf(i))
  {
    GridEquity(i);
    hide Times, RoundHalfEven, OnGrid;
  }

  /** Both programs project the same book. */
  lemma SameProjection(cfg: Config, i: Input, units: int)
    requires IsVersionOne(cfg) && Accepted(i) && OnGrid(i.price) && Equity(i) > 0
    ensures var p := Sizing.Project(cfg, RequestOf(i), units);
      MirrorIsSafe(i, units) <==>
        && p.equity > 0
        && Ratio(p.marketValue as real, p.equity as real) <= i.target
        && (p.side == Some(Buy) ==> Ratio(p.notional, Equity(i) as real) <= MAX_ORDER_NOTIONAL_WEIGHT)
        && (p.side == Some(Buy) ==> p.marketValue > 0 && p.notional > 0.0)
  {
    hide Times, RoundHalfEven, OnGrid, Equity, Ratio, ValidConfig;
    if units != i.quantity {
      var side := if units > i.quantity then Buy else Sell;
      var delta := if units > i.quantity then units - i.quantity else i.quantity - units;
      var notional := Times(delta, ExecutionPrice(i.price, side, cfg.slippageBps));
      NotionalNonNegative(i.price, side, delta);
      FeeIsProportional(cfg, notional);
    }
  }

  lemma NotionalNonNegative(price: real, side: Side, delta: int)
    requires price > 0.0 && delta >= 0
    ensures Times(delta, ExecutionPrice(price, side, SLIPPAGE_BPS)) >= 0.0
  {
    SlippedPrice(price, SLIPPAGE_BPS);
    hide ExecutionPrice;
    TimesMonotone(0, delta, ExecutionPrice(price, side, SLIPPAGE_BPS));
    TimesAdds(0, 0, ExecutionPrice(price, side, SLIPPAGE_BPS));
  }

  lemma FeeIsProportional(cfg: Config, notional: real)
    requires cfg.feeBps == FEE_BPS && cfg.minimumFee == 0.0 && notional >= 0.0
    ensures TradeFee(notional, cfg) == Product(notional, FEE_BPS / 10000.0)
  {
  }

  /** Whatever the adapter accepts, the engine accepts. */
  lemma MirrorImpliesEngine(cfg: Config, i: Input, units: int)
    requires IsVersionOne(cfg) && Accepted(i) && OnGrid(i.price) && Equity(i) > 0
    requires MirrorIsSafe(i, units)
    ensures Sizing.CandidateIsSafe(cfg, RequestOf(i), units)
  {
    SameProjection(cfg, i, units);
    GridRequestValid(i);
    GridEquity(i);
    if units > i.quantity {
      BuyIsRepresentable(cfg, RequestOf(i), units);
    }
    hide Sizing.Project, MirrorIsSafe, OnGrid, Ratio, Equity, Sizing.ValidRequest, ValidConfig;
    var p := Sizing.Project(cfg, RequestOf(i), units);
    assert p.side == Some(Buy) ==> units > i.quantity by { BuySide(cfg, RequestOf(i), units); }
  }

  lemma BuySide(cfg: Config, r: Sizing.Request, units: int)
    ensures Sizing.Project(cfg, r, units).side == Some(Buy) <==> units > r.quantity
  {
  }

  // ---------- the adapter's accepted sizes are downward closed ----------

  lemma MirrorWithinTarget(cfg: Config, i: Input, units: int)
    requires IsVersionOne(cfg) && Accepted(i)
    ensures var p := Sizing.Project(cfg, RequestOf(i), units);
      p.equity > 0 ==>
        (Ratio(p.marketValue as real, p.equity as real) <= i.target
         <==> Headroom(cfg, RequestOf(i), i.target, units) >= 0.0)
  {
    hide Sizing.Project;
    var p := Sizing.Project(cfg, RequestOf(i), units);
    if p.equity > 0 {
      QuotientBound(p.marketValue, p.equity, i.target);
    }
  }

  lemma MirrorBuyClosed(cfg: Config, i: Input, a: int, b: int)
    requires IsVersionOne(cfg) && Accepted(i) && OnGrid(i.price) && Equity(i) > 0
    requires MirrorBuys(i)
    requires i.quantity <= a <= b
    requires MirrorIsSafe(i, b)
    ensures MirrorIsSafe(i, a)
  {
    var r := RequestOf(i);
    GridEquity(i);
    GridRequestValid(i);
    SameProjection(cfg, i, a);
    SameProjection(cfg, i, b);
    BuySide(cfg, r, a);
    BuySide(cfg, r, b);
    ProjectionSplits(cfg, r, a);
    hide Sizing.Project, MirrorIsSafe, OnGrid, Equity, Headroom, ValidConfig, MarketValue;
    if i.quantity < a {
      MirrorWithinTarget(cfg, i, a);
      MirrorWithinTarget(cfg, i, b);
      BuyHeadroomAntitone(cfg, r, i.target, a, b);
      BuyIsRepresentable(cfg, r, a);
      HeadroomMakesEquity(cfg, r, i.target, a);
      MirrorNotionals(cfg, i, a, b);
    } else {
      assert Ratio(MarketValue(i.quantity, i.price) as real, Equity(i) as real) <= i.target;
    }
  }

  lemma HeadroomMakesEquity(cfg: Config, r: Sizing.Request, t: real, units: int)
    requires t >= 0.0 && Headroom(cfg, r, t, units) >= 0.0
    requires Sizing.Project(cfg, r, units).marketValue > 0
    ensures Sizing.Project(cfg, r, units).equity > 0
  {
    hide Sizing.Project;
    PositiveFromHeadroom(t, Sizing.Project(cfg, r, units).equity, Sizing.Project(cfg, r, units).marketValue);
  }

  lemma MirrorNotionals(cfg: Config, i: Input, a: int, b: int)
    requires IsVersionOne(cfg) && Accepted(i) && OnGrid(i.price) && Equity(i) > 0
    requires i.quantity < a <= b
    ensures var pa, pb := Sizing.Project(cfg, RequestOf(i), a), Sizing.Project(cfg, RequestOf(i), b);
      && 0.0 < pa.notional
      && Ratio(pa.notional, Equity(i) as real) <= Ratio(pb.notional, Equity(i) as real)
  {
    var r := RequestOf(i);
    GridRequestValid(i);
    hide Times, OnGrid, Equity, ExecutionPrice, TradeFee, RoundHalfEven;
    BuyNotionalGrows(cfg, r, a, b);
    BuyNotionalGrows(cfg, r, i.quantity, a);
    TimesMonotone(0, b - a, r.price);
    TimesMonotone(1, a - i.quantity, r.price);
    TimesAdds(0, 0, r.price);
    QuotientMonotone(BuyNotional(cfg, r, a), BuyNotional(cfg, r, b), Equity(i) as real);
  }

  lemma VersionOneSellsVisibly(cfg: Config, i: Input)
    requires IsVersionOne(cfg) && Accepted(i) && i.price >= 2.0
    ensures SellIsVisible(cfg, RequestOf(i))
  {
    assert ExecutionPrice(i.price, Sell, cfg.slippageBps) == i.price * 0.9998;
    assert i.price * 0.9998 * 0.9999 > 1.0;
  }

  lemma MirrorSellClosed(cfg: Config, i: Input, a: int, b: int)
    requires IsVersionOne(cfg) && Accepted(i) && OnGrid(i.price) && Equity(i) > 0
    requires 0 <= a <= b < i.quantity && i.target > 0.0
    requires MirrorIsSafe(i, b)
    ensures MirrorIsSafe(i, a)
  {
    var r := RequestOf(i);
    GridEquity(i);
    GridRequestValid(i);
    VersionOneSellsVisibly(cfg, i);
    SameProjection(cfg, i, a);
    SameProjection(cfg, i, b);
    BuySide(cfg, r, a);
    BuySide(cfg, r, b);
    ProjectionSplits(cfg, r, a);
    ProjectionSplits(cfg, r, b);
    ValueNonNegative(a, i.price);
    ValueNonNegative(b, i.price);
    hide Sizing.Project, MirrorIsSafe, OnGrid, Equity, ValidConfig, MarketValue, SellIsVisible, Product, Ratio;
    MirrorWithinTarget(cfg, i, a);
    MirrorWithinTarget(cfg, i, b);
    SellHeadroomAntitone(cfg, r, i.target, a, b);
    SellCashAntitone(cfg, r, a, b);
    SafeKeepsCash(i.target, Sizing.Project(cfg, r, b).cash, Sizing.Project(cfg, r, b).marketValue);
  }

  lemma MirrorClosed(cfg: Config, i: Input)
    requires IsVersionOne(cfg) && Accepted(i) && OnGrid(i.price) && Equity(i) > 0 && i.target > 0.0
    ensures DownwardClosed(MirrorAcceptance(i), MirrorLow(i), MirrorHigh(i))
  {
    var accept := MirrorAcceptance(i);
    assert forall u :: accept(u) == MirrorIsSafe(i, u);
    if !MirrorBuys(i) {
      HoldingUnsafe(i);
    }
    hide MirrorIsSafe, OnGrid, Equity, ValidConfig;
    forall a, b | MirrorLow(i) <= a <= b <= MirrorHigh(i) && accept(b)
      ensures accept(a)
    {
      if MirrorBuys(i) {
        MirrorBuyClosed(cfg, i, a, b);
      } else {
        MirrorSellClosed(cfg, i, a, b);
      }
    }
  }

  /** When the target is exceeded, keeping everything is not accepted. */
  lemma HoldingUnsafe(i: Input)
    requires Accepted(i) && OnGrid(i.price) && Equity(i) > 0 && !MirrorBuys(i)
    ensures !MirrorIsSafe(i, i.quantity)
  {
    GridEquity(i);
    hide Times, RoundHalfEven, OnGrid, Ratio;
  }

  // ---------- the comparison ----------

  lemma SameInterval(i: Input)
    requires Accepted(i) && OnGrid(i.price) && Equity(i) > 0
    ensures MirrorLow(i) == Sizing.SearchLow(RequestOf(i))
    ensures MirrorHigh(i) == Sizing.SearchHigh(RequestOf(i))
  {
    hide OnGrid, Equity, Times, RoundHalfEven, Ratio, Product;
  }

  /**
  With version-one costs, whole shares and a price on the grid of at least two quanta,
  the adapter never sizes above the local engine.
  */
  lemma MirrorNeverAboveEngine(cfg: Config, i: Input)
    requires IsVersionOne(cfg) && Accepted(i) && OnGrid(i.price)
    requires Equity(i) > 0
    ensures MirrorQuantity(i).Some?
    ensures MirrorQuantity(i).value <= Sizing.TargetQuantity(cfg, RequestOf(i))
  {
    if i.target > 0.0 {
      var strict, lax := MirrorAcceptance(i), Sizing.Acceptance(cfg, RequestOf(i));
      assert forall u :: strict(u) == MirrorIsSafe(i, u);
      assert forall u :: lax(u) == Sizing.CandidateIsSafe(cfg, RequestOf(i), u);
      MirrorClosed(cfg, i);
      SameInterval(i);
      GridRequestValid(i);
      SearchBoundsNonNegative(RequestOf(i));
      hide MirrorIsSafe, Sizing.CandidateIsSafe, OnGrid, Equity, ValidConfig, MirrorLow, MirrorHigh,
        Sizing.SearchLow, Sizing.SearchHigh, MirrorAcceptance, Sizing.Acceptance;
      var low, high := MirrorLow(i), MirrorHigh(i);
      forall u | low <= u <= high && strict(u)
        ensures lax(u)
      {
        MirrorImpliesEngine(cfg, i, u);
      }
      BisectInRange(strict, low, high, None);
      BisectInRange(lax, low, high, None);
      var found := Bisect(strict, low, high, None);
      if found.Some? {
        BisectDominates(strict, lax, low, high, None, found.value);
      }
    }
  }

  lemma SearchBoundsNonNegative(r: Sizing.Request)
    requires Sizing.ValidRequest(r)
    ensures Sizing.SearchLow(r) >= 0
  {
    hide Sizing.IsBuyBranch;
  }

  /** A weight or an order size strictly above its bound, but within the engine's tolerance of it. */
  predicate InToleranceBand(cfg: Config, i: Input, units: int)
    requires Equity(i) > 0
  {
    var p := Sizing.Project(cfg, RequestOf(i), units);
    var tolerance := Sizing.SIZING_TOLERANCE;
    || (p.equity > 0 && i.target < Ratio(p.marketValue as real, p.equity as real) <= i.target + tolerance)
    || (units > i.quantity
        && MAX_ORDER_NOTIONAL_WEIGHT < Ratio(p.notional, Equity(i) as real) <= MAX_ORDER_NOTIONAL_WEIGHT + tolerance)
  }

  lemma EngineImpliesMirrorOffBand(cfg: Config, i: Input, units: int)
    requires IsVersionOne(cfg) && Accepted(i) && OnGrid(i.price) && Equity(i) > 0
    requires Sizing.CandidateIsSafe(cfg, RequestOf(i), units) && !InToleranceBand(cfg, i, units)
    ensures MirrorIsSafe(i, units)
  {
    SameProjection(cfg, i, units);
    BuySide(cfg, RequestOf(i), units);
    hide Sizing.Project, MirrorIsSafe, OnGrid, Ratio, Equity, ValidConfig;
    if units > i.quantity {
      MirrorNotionals(cfg, i, units, units);
    }
  }

  /** Without a candidate in that band in the searched interval the two sizes are equal. */
  lemma MirrorEqualsEngine(cfg: Config, i: Input)
    requires IsVersionOne(cfg) && Accepted(i) && OnGrid(i.price)
    requires Equity(i) > 0
    requires forall u :: MirrorLow(i) <= u <= MirrorHigh(i) ==> !InToleranceBand(cfg, i, u)
    ensures MirrorQuantity(i) == Some(Sizing.TargetQuantity(cfg, RequestOf(i)))
  {
    if i.target > 0.0 {
      var strict, lax := MirrorAcceptance(i), Sizing.Acceptance(cfg, RequestOf(i));
      assert forall u :: strict(u) == MirrorIsSafe(i, u);
      assert forall u :: lax(u) == Sizing.CandidateIsSafe(cfg, RequestOf(i), u);
      SameInterval(i);
      hide MirrorIsSafe, Sizing.CandidateIsSafe, OnGrid, Equity, ValidConfig, MirrorLow, MirrorHigh,
        Sizing.SearchLow, Sizing.SearchHigh, MirrorAcceptance, Sizing.Acceptance, InToleranceBand;
      var low, high := MirrorLow(i), MirrorHigh(i);
      forall u | low <= u <= high
        ensures strict(u) == lax(u)
      {
        if MirrorIsSafe(i, u) {
          MirrorImpliesEngine(cfg, i, u);
        }
        assert !InToleranceBand(cfg, i, u);
        if Sizing.CandidateIsSafe(cfg, RequestOf(i), u) {
          EngineImpliesMirrorOffBand(cfg, i, u);
        }
      }
      BisectAgrees(strict, lax, low, high, None);
    }
  }
}

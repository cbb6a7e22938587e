/**
Cost-aware order sizing: the quantity whose rounded, fee- and slippage-adjusted
projection still respects the target weight, searched by bisection.
*/
module Sizing {
  import opened Bisection
  import opened Domain
  import opened Options
  import opened Rounding

  const SIZING_TOLERANCE: real := 0.000000000001

  /** What a sizing call reads: the target, the open mark and the book before the order. */
  datatype Request = Request(target: real, price: real, equity: int, cash: int, quantity: int)

  predicate ValidRequest(r: Request) {
    && IsFraction(r.target)
    && r.price > 0.0
    && r.cash >= 0 && r.quantity >= 0
    && r.equity > 0
    && r.equity == r.cash + MarketValue(r.quantity, r.price)
  }

  /** The book a candidate quantity would leave behind. */
  datatype Projection = Projection(
    side: Option<Side>, notional: real, cashNotional: int, fee: int, cash: int,
    marketValue: int, equity: int)

  function Project(cfg: Config, r: Request, units: int): Projection {
    var marketValue := MarketValue(units, r.price);
    if units == r.quantity then
      Projection(None, 0.0, 0, 0, r.cash, marketValue, r.cash + marketValue)
    else
      var side := if units > r.quantity then Buy else Sell;
      var delta := if units > r.quantity then units - r.quantity else r.quantity - units;
      var notional := Times(delta, ExecutionPrice(r.price, side, cfg.slippageBps));
      var cashNotional := RoundHalfEven(notional);
      var fee := RoundHalfEven(TradeFee(notional, cfg));
      var cash := if side == Buy then r.cash - cashNotional - fee else r.cash + cashNotional - fee;
      Projection(Some(side), notional, cashNotional, fee, cash, marketValue, cash + marketValue)
  }

  predicate WithinTarget(r: Request, p: Projection) {
    p.equity > 0 && Ratio(p.marketValue as real, p.equity as real) <= r.target + SIZING_TOLERANCE
  }

  /** The order cap binds buys only, and only while the target itself respects it. */
  predicate OrderWithinLimit(cfg: Config, r: Request, p: Projection)
    requires r.equity > 0
  {
    || r.target > cfg.maxOrderNotional + SIZING_TOLERANCE
    || p.side != Some(Buy)
    || Ratio(p.notional, r.equity as real) <= cfg.maxOrderNotional + SIZING_TOLERANCE
  }

  predicate BuyHasRepresentableValue(p: Projection) {
    p.side == Some(Buy) ==> p.marketValue > 0 && p.cashNotional > 0
  }

  /** The test each probe of the search makes. */
  predicate CandidateIsSafe(cfg: Config, r: Request, units: int)
    requires r.equity > 0
  {
    var p := Project(cfg, r, units);
    WithinTarget(r, p) && OrderWithinLimit(cfg, r, p) && BuyHasRepresentableValue(p)
  }

  predicate IsBuyBranch(r: Request)
    requires r.equity > 0
  {
    Ratio(MarketValue(r.quantity, r.price) as real, r.equity as real) <= r.target
  }

  function SearchLow(r: Request): int
    requires r.equity > 0
  {
    if IsBuyBranch(r) then r.quantity else 0
  }

  function SearchHigh(r: Request): int
    requires r.equity > 0 && r.price > 0.0
  {
    if IsBuyBranch(r) then MaxInt(r.quantity, Ratio(Product(r.target, r.equity as real), r.price).Floor)
    else r.quantity
  }

  function Acceptance(cfg: Config, r: Request): int -> bool
    requires r.equity > 0
  {
    units => CandidateIsSafe(cfg, r, units)
  }

  /** The value of the sizing call. */
  function TargetQuantity(cfg: Config, r: Request): int
    requires r.equity > 0 && r.price > 0.0
  {
    if r.target == 0.0 then 0
    else
      match Bisect(Acceptance(cfg, r), SearchLow(r), SearchHigh(r), None)
      case None => 0
      case Some(units) => units
  }

  /** The search as the engine runs it. */
  method ComputeTargetQuantity(cfg: Config, r: Request) returns (quantity: int)
    requires r.equity > 0 && r.price > 0.0
    ensures quantity == TargetQuantity(cfg, r)
  {
    if r.target == 0.0 {
      return 0;
    }
    hide CandidateIsSafe;
    var best := Search(Acceptance(cfg, r), SearchLow(r), SearchHigh(r));
    quantity := match best case None => 0 case Some(units) => units;
  }
}

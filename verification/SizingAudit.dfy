/**
What makes a quantity safe and where it is searched, in terms of the trade it would take.
*/
module SizingAudit {
  import opened Audit
  import opened Domain
  import opened Options
  import opened Rounding
  import opened Sizing
  import opened SizingTheorems

  /** The book a sizing call starts from. */
  function BookOf(r: Request): Standing {
    Standing(r.cash, r.quantity, 0.0, 0, 0, 0, 0, 0, r.equity, NOT_HALTED)
  }

  /** Cash left after trading from the held to another quantity. */
  function CashAt(cfg: Config, r: Request, units: int): int {
    if units == r.quantity then r.cash else CashLeft(BookOf(r), TicketFor(cfg, r.quantity, units, r.price))
  }

  /** Buying must be worth something, cost something, and stay within the order cap, unless the target exceeds that. */
  predicate PurchaseFits(cfg: Config, r: Request, units: int)
    requires r.equity > 0
  {
    var t := TicketFor(cfg, r.quantity, units, r.price);
    && Worth(units, r.price) > 0 && t.cashNotional > 0
    && (|| Ratio(t.notional, r.equity as real) <= cfg.maxOrderNotional + 0.000000000001
        || r.target > cfg.maxOrderNotional + 0.000000000001)
  }

  lemma TicketProjects(cfg: Config, r: Request, units: int)
    requires ValidConfig(cfg) && r.price > 0.0 && units != r.quantity
    ensures var t, p := TicketFor(cfg, r.quantity, units, r.price), Project(cfg, r, units);
      && p.side == Some(t.side) && p.notional == t.notional && p.cashNotional == t.cashNotional && p.fee == t.fee
      && p.cash == CashAt(cfg, r, units) && p.marketValue == Worth(units, r.price)
  {
    hide Product, RoundHalfEven;
  }

  /**
  A quantity is safe exactly if, after the trade it takes, its share of the equity left is
  within the target and 1e-12, and, where it is more than held, the purchase fits.
  */
  lemma SafeIffFits(cfg: Config, r: Request, units: int)
    requires ValidConfig(cfg) && r.equity > 0 && r.price > 0.0
    ensures CandidateIsSafe(cfg, r, units) <==>
      var value, left := Worth(units, r.price), CashAt(cfg, r, units) + Worth(units, r.price);
      && left > 0
      && Ratio(value as real, left as real) <= r.target + 0.000000000001
      && (units > r.quantity ==> PurchaseFits(cfg, r, units))
  {
    if units != r.quantity {
      TicketProjects(cfg, r, units);
    }
    hide TicketFor, Ratio, RoundHalfEven, Times, ExecutionPrice, TradeFee;
  }

  /** At or below the target the search goes from the holding up to what the target buys, else from nothing up to it. */
  lemma SearchedBetween(r: Request)
    requires r.equity > 0 && r.price > 0.0
    ensures var affordable := Ratio(Product(r.target, r.equity as real), r.price).Floor;
      if Ratio(Worth(r.quantity, r.price) as real, r.equity as real) <= r.target then
        SearchLow(r) == r.quantity
        && SearchHigh(r) == (if affordable >= r.quantity then affordable else r.quantity)
      else SearchLow(r) == 0 && SearchHigh(r) == r.quantity
  {
  }

  /** For a target of nothing the answer is nothing, whatever is held and whatever it costs. */
  lemma NoTargetNoHolding(cfg: Config, r: Request)
    requires r.equity > 0 && r.price > 0.0 && r.target == 0.0
    ensures TargetQuantity(cfg, r) == 0
  {
    hide SearchLow, SearchHigh;
  }
}

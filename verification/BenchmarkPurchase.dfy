/** The buy-and-hold benchmark's one purchase: the most units the initial cash affords. */
module BenchmarkPurchase {
  import opened Bisection
  import opened Domain
  import opened Options
  import opened Rounding
  import opened SizingTheorems

  datatype Purchase = Purchase(quantity: int, residualCash: int, fee: int)

  function FeeFor(cfg: Config, price: real, units: int): int {
    RoundHalfEven(TradeFee(Times(units, price), cfg))
  }

  function Residual(cfg: Config, price: real, units: int): int {
    cfg.initialCash - RoundHalfEven(Times(units, price)) - FeeFor(cfg, price, units)
  }

  function Affordable(cfg: Config, price: real): int -> bool {
    units => Residual(cfg, price, units) >= 0
  }

  function RawLimit(cfg: Config, price: real): int
    requires price > 0.0
  {
    Ratio(cfg.initialCash as real, price).Floor
  }

  function PurchaseOf(cfg: Config, price: real, units: Option<int>): Purchase {
    match units
    case None => Purchase(0, cfg.initialCash, 0)
    case Some(n) => Purchase(n, Residual(cfg, price, n), FeeFor(cfg, price, n))
  }

  lemma ResidualAntitone(cfg: Config, price: real, a: int, b: int)
    requires ValidConfig(cfg) && price > 0.0 && 0 <= a <= b
    ensures Residual(cfg, price, a) >= Residual(cfg, price, b)
  {
    hide Product, RoundHalfEven, TradeFee;
    TimesMonotone(a, b, price);
    TimesMonotone(0, a, price);
    TimesAdds(0, 0, price);
    RoundMonotone(Times(a, price), Times(b, price));
    FeeMonotone(cfg, Times(a, price), Times(b, price));
  }

  /** What buying so many units takes: their rounded worth and the rounded fee, the rate or the minimum. */
  function Outlay(cfg: Config, price: real, units: int): int {
    var worth := Times(units, price);
    var rate := Product(worth, cfg.feeBps / 10000.0);
    RoundHalfEven(worth) + RoundHalfEven(if rate >= cfg.minimumFee then rate else cfg.minimumFee)
  }

  lemma ResidualIsRest(cfg: Config, price: real, units: int)
    ensures Residual(cfg, price, units) == cfg.initialCash - Outlay(cfg, price, units)
  {
    hide RoundHalfEven;
  }

  /**
  The purchase leaves non-negative cash, every larger count in the searched range would
  overdraw it, and nothing is bought only if not even one unit is affordable.
  */
  method LargestAffordablePurchase(cfg: Config, price: real) returns (purchase: Purchase)
    requires ValidConfig(cfg) && price > 0.0
    ensures purchase.residualCash >= 0
    ensures purchase.quantity > 0 ==>
      && purchase.quantity <= Ratio(cfg.initialCash as real, price).Floor
      && purchase.residualCash + Outlay(cfg, price, purchase.quantity) == cfg.initialCash
      && purchase.fee == Outlay(cfg, price, purchase.quantity) - RoundHalfEven(Times(purchase.quantity, price))
    ensures purchase.quantity <= 0 ==> purchase == Purchase(0, cfg.initialCash, 0)
    ensures forall units :: purchase.quantity < units <= Ratio(cfg.initialCash as real, price).Floor ==>
      Outlay(cfg, price, units) > cfg.initialCash
  {
    var accept := Affordable(cfg, price);
    var high := RawLimit(cfg, price);
    forall a, b | 1 <= a <= b <= high && accept(b)
      ensures accept(a)
    {
      ResidualAntitone(cfg, price, a, b);
    }
    BisectFindsGreatest(accept, 1, high, None);
    hide FeeFor, RawLimit, Product, RoundHalfEven;
    var units := Search(accept, 1, high);
    purchase := PurchaseOf(cfg, price, units);
    forall k ensures Residual(cfg, price, k) == cfg.initialCash - Outlay(cfg, price, k) {
      ResidualIsRest(cfg, price, k);
    }
    hide Outlay, Ratio;
    assert forall k :: accept(k) <==> Residual(cfg, price, k) >= 0;
  }
}

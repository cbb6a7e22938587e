/**
Exactly when the sizing search is exact: how much one unit has to be worth, bought or
sold, for the search to find the greatest safe quantity whatever the book.
*/
module SizingExactness {
  import opened Bisection
  import opened Domain
  import opened Options
  import opened Rounding
  import opened Sizing
  import opened SizingTheorems

  const BLIND_CASH: int := 10000000000000

  const FREE_TRADING := Config(
    BLIND_CASH, 0.0, 0.0, 0.0, 1.0, 1.0, 1.0, 1.0, 1.0, 1, 0, 0, true, false, 8, 8, 1)

  /** A search whose first probe is unsafe never finds a safe quantity above that probe. */
  lemma FirstProbeMisses(cfg: Config, r: Request, better: int)
    requires ValidRequest(r) && r.target > 0.0
    requires SearchLow(r) <= SearchHigh(r)
    requires !CandidateIsSafe(cfg, r, (SearchLow(r) + SearchHigh(r)) / 2)
    requires (SearchLow(r) + SearchHigh(r)) / 2 < better <= SearchHigh(r) && 0 < better
    requires CandidateIsSafe(cfg, r, better)
    ensures !IsGreatestSafe(cfg, r, TargetQuantity(cfg, r))
  {
    hide CandidateIsSafe, SearchLow, SearchHigh;
    var accept := Acceptance(cfg, r);
    var probe := (SearchLow(r) + SearchHigh(r)) / 2;
    BisectInRange(accept, SearchLow(r), probe - 1, None);
    assert Bisect(accept, SearchLow(r), SearchHigh(r), None) == Bisect(accept, SearchLow(r), probe - 1, None);
    assert accept(better) && TargetQuantity(cfg, r) < better;
  }

  // ---------- any single search ----------

  /**
  The search on any valid book, whatever its prices and costs: it ends at the greatest safe
  quantity exactly if every smaller candidate that it probes on the way there is safe.
  */
  lemma SearchExactIff(cfg: Config, r: Request, units: int)
    requires ValidRequest(r) && r.target > 0.0
    requires IsGreatestSafe(cfg, r, units)
    ensures TargetQuantity(cfg, r) == units
       <==> WayIsAccepted(Acceptance(cfg, r), SearchLow(r), SearchHigh(r), units)
  {
    SearchHighBound(r);
    hide CandidateIsSafe, IsBuyBranch, SearchLow, SearchHigh;
    var accept := Acceptance(cfg, r);
    BisectReachesIff(accept, SearchLow(r), SearchHigh(r), None, units);
    if units == 0 {
      WayToLowest(accept, 0, SearchHigh(r));
    }
  }

  /** Where no candidate is safe the search sells everything, or keeps an empty book. */
  lemma NothingSafeSellsAll(cfg: Config, r: Request)
    requires ValidRequest(r) && r.target > 0.0
    requires forall k :: SearchLow(r) <= k <= SearchHigh(r) ==> !CandidateIsSafe(cfg, r, k)
    ensures TargetQuantity(cfg, r) == 0 && !IsBuyBranch(r)
  {
    SearchHighBound(r);
    if IsBuyBranch(r) {
      HoldingIsSafe(cfg, r);
    }
    hide CandidateIsSafe, IsBuyBranch, SearchLow, SearchHigh;
    BisectInRange(Acceptance(cfg, r), SearchLow(r), SearchHigh(r), None);
  }

  /**
  Inside the tolerance band, on any book: the holding is the greatest safe quantity, and the
  search keeps it exactly if every candidate probed on the way up to it is safe.
  */
  lemma BandSearchExactIff(cfg: Config, r: Request)
    requires ValidRequest(r) && r.target > 0.0 && HoldingInToleranceBand(r)
    ensures IsGreatestSafe(cfg, r, r.quantity)
    ensures TargetQuantity(cfg, r) == r.quantity
       <==> WayIsAccepted(Acceptance(cfg, r), 0, r.quantity, r.quantity)
  {
    assert !IsBuyBranch(r);
    SearchHighBound(r);
    HoldingIsSafe(cfg, r);
    hide CandidateIsSafe, IsBuyBranch, SearchLow, SearchHigh;
    SearchExactIff(cfg, r, r.quantity);
  }

  // Fifty units at a quantum each next to fifty quanta of cash, a minimum fee of ten, and a
  // target half a tolerance below one half: the holding is in the band, but any sale pays the fee.

  const BAND_CONFIG := FREE_TRADING.(minimumFee := 10.0)
  const BAND_REQUEST := Request(0.5 - 0.0000000000005, 1.0, 100, 50, 50)

  lemma BandSafe(units: int)
    requires 0 <= units <= 50
    ensures CandidateIsSafe(BAND_CONFIG, BAND_REQUEST, units) <==> units <= 45 || units == 50
  {
    RoundFixesGrid(units);
    assert MarketValue(units, 1.0) == units;
    if units < 50 {
      RoundFixesGrid(50 - units);
      RoundFixesGrid(10);
      assert ExecutionPrice(1.0, Sell, 0.0) == 1.0;
      assert Times(50 - units, 1.0) == (50 - units) as real;
      assert TradeFee((50 - units) as real, BAND_CONFIG) == 10.0;
      hide Times, RoundHalfEven, ExecutionPrice, TradeFee;
      assert Project(BAND_CONFIG, BAND_REQUEST, units)
          == Projection(Some(Sell), (50 - units) as real, 50 - units, 10, 90 - units, units, 90);
    }
  }

  /** There the search gives up five units and pays the fee for a holding it may keep. */
  lemma BandSearchMisses()
    ensures ValidConfig(BAND_CONFIG) && ValidRequest(BAND_REQUEST) && HoldingInToleranceBand(BAND_REQUEST)
    ensures IsGreatestSafe(BAND_CONFIG, BAND_REQUEST, 50)
    ensures TargetQuantity(BAND_CONFIG, BAND_REQUEST) == 45
  {
    var r := BAND_REQUEST;
    RoundFixesGrid(50);
    assert MarketValue(50, 1.0) == 50;
    assert HoldingInToleranceBand(r);
    BandSearchExactIff(BAND_CONFIG, r);
    SearchHighBound(r);
    forall k | 0 <= k <= 50
      ensures Acceptance(BAND_CONFIG, r)(k) <==> k <= 45 || k == 50
    {
      BandSafe(k);
    }
    hide CandidateIsSafe, MarketValue;
    BandBisection(Acceptance(BAND_CONFIG, r));
  }

  lemma OneProbe(accept: int -> bool, low: int, high: int, best: Option<int>)
    requires low <= high
    ensures var middle := (low + high) / 2;
      Bisect(accept, low, high, best)
      == if accept(middle) then Bisect(accept, middle + 1, high, Some(middle))
         else Bisect(accept, low, middle - 1, best)
  {
  }

  lemma NoProbe(accept: int -> bool, low: int, high: int, best: Option<int>)
    requires low > high
    ensures Bisect(accept, low, high, best) == best
  {
  }

  lemma BandBisection(accept: int -> bool)
    requires forall k :: 0 <= k <= 50 ==> (accept(k) <==> k <= 45 || k == 50)
    ensures Bisect(accept, 0, 50, None) == Some(45)
  {
    hide Bisect;
    OneProbe(accept, 0, 50, None);
    OneProbe(accept, 26, 50, Some(25));
    OneProbe(accept, 39, 50, Some(38));
    OneProbe(accept, 45, 50, Some(44));
    OneProbe(accept, 45, 46, Some(44));
    OneProbe(accept, 46, 46, Some(45));
    NoProbe(accept, 46, 45, Some(45));
  }

  // ---------- sales ----------

  /** What selling one unit brings in, net of slippage and the rate fee. */
  function NetUnitProceeds(cfg: Config, r: Request): real {
    Product(ExecutionPrice(r.price, Sell, cfg.slippageBps), 1.0 - cfg.feeBps / 10000.0)
  }

  ghost predicate SellSearchIsExactAbove(net: real) {
    forall cfg: Config, r: Request ::
      ValidConfig(cfg) && ValidRequest(r)
      && r.target > 0.0 && !IsBuyBranch(r) && !HoldingInToleranceBand(r)
      && NetUnitProceeds(cfg, r) > net
      ==> FindsGreatestRemainder(cfg, r)
  }

  /** The greatest safe remainder, or nothing at all if there is none. */
  ghost predicate FindsGreatestRemainder(cfg: Config, r: Request)
    requires r.equity > 0 && r.price > 0.0
  {
    if exists k :: 0 <= k <= r.quantity && CandidateIsSafe(cfg, r, k)
    then IsGreatestSafe(cfg, r, TargetQuantity(cfg, r))
    else TargetQuantity(cfg, r) == 0
  }

  // A family of books on which the sale search misses: 2m + 1 units worth a little less
  // than a quantum each, and a rate fee of 1 / 2m. Selling m units brings m quanta and
  // costs no fee, selling one more brings the same and costs a quantum, and m units left
  // is the first candidate the search tries.

  function BlindSaleConfig(m: int): Config
    requires m >= 1
  {
    FREE_TRADING.(feeBps := 5000.0 / m as real)
  }

  function BlindSalePrice(m: int): real
    requires m >= 1
  {
    Ratio((2 * m) as real, (2 * m + 1) as real)
  }

  function BlindSale(m: int): Request
    requires m >= 1
  {
    Request(0.5 - SIZING_TOLERANCE, BlindSalePrice(m), 2 * m, 0, 2 * m + 1)
  }

  /** A half less a little: m parts in 2m + 1. */
  function Part(m: int): (h: real)
    requires m >= 1
    ensures 0.0 < h < 0.5
  {
    var h := m as real / (2 * m + 1) as real;
    PartBelowHalf(m as real);
    h
  }

  lemma PartBelowHalf(m: real)
    requires m > 0.0
    ensures 0.0 < m / (2.0 * m + 1.0) < 0.5
  {
    var d := 2.0 * m + 1.0;
    var h := m / d;
    assert h * d == m;
    assert (0.5 - h) * d == 0.5;
  }

  lemma BlindSaleWorth(m: int)
    requires m >= 1
    ensures BlindSalePrice(m) == 2.0 * Part(m)
    ensures Times(m, BlindSalePrice(m)) == m as real - Part(m)
    ensures Times(m + 1, BlindSalePrice(m)) == m as real + Part(m)
    ensures Times(2 * m + 1, BlindSalePrice(m)) == (2 * m) as real
  {
    var x, d := m as real, (2 * m + 1) as real;
    var h := Part(m);
    assert h * d == x && d == 2.0 * x + 1.0;
    assert 2.0 * (x * h) + h == x;
    assert BlindSalePrice(m) == 2.0 * h;
    assert (m + 1) as real == x + 1.0;
  }

  /** The rate fee on selling m units is worth less than half a quantum, on m + 1 more. */
  lemma BlindSaleFees(m: int)
    requires m >= 1
    ensures TradeFee(m as real - Part(m), BlindSaleConfig(m)) == Part(m)
    ensures TradeFee(m as real + Part(m), BlindSaleConfig(m)) == 1.0 - Part(m)
  {
    var x, d, h := m as real, (2 * m + 1) as real, Part(m);
    var rate := (5000.0 / x) / 10000.0;
    assert h * d == x;
    assert rate * (2.0 * x) == 1.0;
    assert 2.0 * (x * h) + h == x;
    RateOf(x, rate, x - h, h);
    RateOf(x, rate, x + h, 1.0 - h);
  }

  lemma RateOf(x: real, rate: real, notional: real, fee: real)
    requires x > 0.0 && rate * (2.0 * x) == 1.0 && notional == 2.0 * (x * fee)
    ensures Product(notional, rate) == fee
  {
    assert notional * rate == (rate * (2.0 * x)) * fee;
  }

  lemma WholeWeight(equity: int)
    requires equity > 0
    ensures Ratio(equity as real, equity as real) == 1.0 == equity as real / equity as real
  {
  }

  lemma BlindSaleConfigValid(m: int)
    requires m >= 1
    ensures ValidConfig(BlindSaleConfig(m))
  {
    var x := m as real;
    assert (5000.0 / x) * x == 5000.0;
  }

  lemma BlindSaleShape(m: int)
    requires m >= 1
    ensures ValidConfig(BlindSaleConfig(m)) && ValidRequest(BlindSale(m))
    ensures !IsBuyBranch(BlindSale(m)) && !HoldingInToleranceBand(BlindSale(m))
    ensures Limit(BlindSale(m)) == 0.5
  {
    hide Product, Ratio, BlindSalePrice;
    BlindSaleConfigValid(m);
    BlindSaleWorth(m);
    RoundFixesGrid(2 * m);
    WholeWeight(2 * m);
    hide RoundHalfEven, Times, Part, BlindSaleConfig;
    assert MarketValue(BlindSale(m).quantity, BlindSale(m).price) == 2 * m;
  }

  /** Keeping m + 1 units projects m quanta in cash and m in value, keeping m one quantum less cash. */
  lemma BlindSaleProjections(m: int)
    requires m >= 1
    ensures var p := Project(BlindSaleConfig(m), BlindSale(m), m + 1);
      p.side == Some(Sell) && p.cash == m && p.marketValue == m && p.equity == 2 * m
    ensures var p := Project(BlindSaleConfig(m), BlindSale(m), m);
      p.side == Some(Sell) && p.cash == m - 1 && p.marketValue == m && p.equity == 2 * m - 1
  {
    BlindSaleWorth(m);
    BlindSaleFees(m);
    var h := Part(m);
    assert ExecutionPrice(BlindSalePrice(m), Sell, 0.0) == BlindSalePrice(m);
    RoundsTo(m as real - h, m);
    RoundsTo(m as real + h, m);
    RoundsTo(h, 0);
    RoundsTo(1.0 - h, 1);
    hide RoundHalfEven, Times, Part, ExecutionPrice, TradeFee, BlindSalePrice;
  }

  lemma BlindSaleVerdicts(m: int)
    requires m >= 1
    ensures BlindSale(m).equity > 0
    ensures CandidateIsSafe(BlindSaleConfig(m), BlindSale(m), m + 1)
    ensures !CandidateIsSafe(BlindSaleConfig(m), BlindSale(m), m)
  {
    BlindSaleShape(m);
    BlindSaleProjections(m);
    HalfWeight(BlindSale(m), Project(BlindSaleConfig(m), BlindSale(m), m + 1));
    HalfWeight(BlindSale(m), Project(BlindSaleConfig(m), BlindSale(m), m));
    hide Project, WithinTarget, BlindSalePrice, Ratio;
  }

  lemma HalfWeight(r: Request, p: Projection)
    requires Limit(r) == 0.5 && p.equity > 0
    ensures WithinTarget(r, p) <==> 2 * p.marketValue <= p.equity
  {
    QuotientBound(p.marketValue, p.equity, 0.5);
  }

  lemma BlindSaleMisses(m: int)
    requires m >= 1
    ensures !FindsGreatestRemainder(BlindSaleConfig(m), BlindSale(m))
  {
    hide CandidateIsSafe, IsBuyBranch, SearchLow, SearchHigh, BlindSaleConfig, BlindSalePrice, ValidRequest;
    BlindSaleShape(m);
    BlindSaleVerdicts(m);
    SearchHighBound(BlindSale(m));
    assert (0 + (2 * m + 1)) / 2 == m;
    FirstProbeMisses(BlindSaleConfig(m), BlindSale(m), m + 1);
  }

  /** A large enough family member nets more than any amount below one quantum. */
  lemma BlindSaleNets(net: real) returns (m: int)
    requires net < 1.0
    ensures m >= 1 && NetUnitProceeds(BlindSaleConfig(m), BlindSale(m)) > net
  {
    var gap := 1.0 - net;
    m := LargeCount(gap);
    BlindSaleNet(m);
    hide NetUnitProceeds;
  }

  lemma LargeCount(gap: real) returns (m: int)
    requires gap > 0.0
    ensures m >= 1 && 2.0 / (2 * m + 1) as real < gap
  {
    var bound := 1.0 / gap;
    assert bound * gap == 1.0 && bound > 0.0;
    m := bound.Floor + 1;
    var d := (2 * m + 1) as real;
    ScaleMonotone(gap, 2.0 * bound, d);
    QuotientBelow(2.0, d, gap);
  }

  lemma QuotientBelow(a: real, d: real, gap: real)
    requires d > 0.0 && gap * d > a
    ensures a / d < gap
  {
    assert (gap - a / d) * d == gap * d - a;
  }

  lemma BlindSaleNet(m: int)
    requires m >= 1
    ensures NetUnitProceeds(BlindSaleConfig(m), BlindSale(m)) == 1.0 - 2.0 / (2 * m + 1) as real
  {
    var x, d := m as real, (2 * m + 1) as real;
    var rate := (5000.0 / x) / 10000.0;
    assert rate * (2.0 * x) == 1.0;
    assert BlindSalePrice(m) * d == 2.0 * x;
    assert (BlindSalePrice(m) * (1.0 - rate)) * d == 2.0 * x - 1.0;
    assert (1.0 - 2.0 / d) * d == d - 2.0;
    assert ExecutionPrice(BlindSalePrice(m), Sell, 0.0) == BlindSalePrice(m);
  }

  /**
  A bound on what one unit nets makes the sale search exact for every configuration,
  book and target outside the tolerance band exactly if the bound is at least a quantum.
  */
  lemma SellSearchExactIffUnitNetsAQuantum(net: real)
    ensures SellSearchIsExactAbove(net) <==> net >= 1.0
  {
    if net >= 1.0 {
      forall cfg: Config, r: Request |
        ValidConfig(cfg) && ValidRequest(r)
        && r.target > 0.0 && !IsBuyBranch(r) && !HoldingInToleranceBand(r)
        && NetUnitProceeds(cfg, r) > net
        ensures FindsGreatestRemainder(cfg, r)
      {
        SellSizingFindsGreatestSafe(cfg, r);
      }
    } else {
      var m := BlindSaleNets(net);
      BlindSaleShape(m);
      BlindSaleMisses(m);
    }
  }

  /**
  A sale whose rate fee swallows the quantum it brings in can hide the answer: three
  units at 0.6 quanta each with a fee rate of one half. Two units are safe, one is
  not, and the search sells everything.
  */
  lemma SellSearchMissesWhenFeeHidesAUnit()
    ensures var cfg := FREE_TRADING.(feeBps := 5000.0);
      var r := Request(0.75, 0.6, 2, 0, 3);
      && ValidConfig(cfg) && ValidRequest(r) && !IsBuyBranch(r) && !HoldingInToleranceBand(r)
      && !SellIsVisible(cfg, r)
      && CandidateIsSafe(cfg, r, 2) && TargetQuantity(cfg, r) == 0
  {
    var cfg := FREE_TRADING.(feeBps := 5000.0);
    var r := Request(0.75, 0.6, 2, 0, 3);
    assert Project(cfg, r, 2) == Projection(Some(Sell), 0.6, 1, 0, 1, 1, 2);
    assert Project(cfg, r, 1) == Projection(Some(Sell), 1.2, 1, 1, 0, 1, 1);
    var accept := Acceptance(cfg, r);
    assert !accept(1) && !IsBuyBranch(r);
    assert Bisect(accept, 0, 3, None) == Bisect(accept, 0, 0, None);
    BisectInRange(accept, 0, 0, None);
  }

  // ---------- purchases for a target that leaves some cash ----------

  /** The smallest count of units whose worth rounds to a quantum, for a price of at most one half. */
  lemma FirstVisibleCount(price: real) returns (k: int)
    requires 0.0 < price <= 0.5
    ensures k >= 2
    ensures 0.5 < Times(k, price) <= 1.0 && Times(k - 1, price) <= 0.5
  {
    k := 1;
    TimesAdds(0, 0, price);
    while Times(k, price) <= 0.5
      invariant k >= 1 && Times(k - 1, price) <= 0.5
      invariant k as real <= 0.5 / price + 1.0
      decreases (0.5 / price).Floor + 2 - k
    {
      QuotientMonotone(Times(k, price), 0.5, price);
      assert Times(k, price) / price == k as real;
      k := k + 1;
    }
    TimesAdds(k - 1, 1, price);
  }

  /** Ample cash, no costs, and a target whose raw size is the first visible count. */
  function BlindRequest(price: real, k: int): Request {
    Request(Times(k, price) / BLIND_CASH as real, price, BLIND_CASH, BLIND_CASH, 0)
  }

  lemma BlindRequestShape(price: real, k: int)
    requires 0.0 < price <= 0.5 && k >= 2
    requires 0.5 < Times(k, price) <= 1.0
    ensures var r := BlindRequest(price, k);
      && ValidRequest(r) && IsBuyBranch(r) && 0.0 < r.target && Limit(r) <= 1.0
      && SearchLow(r) == 0 && SearchHigh(r) == k
  {
    var r := BlindRequest(price, k);
    TimesAdds(0, 0, price);
    RoundFixesGrid(0);
    assert r.target * r.equity as real == Times(k, price);
    assert r.target * r.equity as real / r.price == k as real;
  }

  /** At such a price the first visible count is safe, but the probe below it is not. */
  lemma BlindProbes(price: real, k: int)
    requires 0.0 < price <= 0.5 && k >= 2
    requires 0.5 < Times(k, price) <= 1.0 && Times(k - 1, price) <= 0.5
    ensures var r := BlindRequest(price, k);
      && CandidateIsSafe(FREE_TRADING, r, k)
      && !CandidateIsSafe(FREE_TRADING, r, k / 2)
  {
    var r := BlindRequest(price, k);
    assert ExecutionPrice(price, Buy, 0.0) == price;
    var worth := Times(k, price);
    assert RoundHalfEven(worth) == 1;
    assert TradeFee(worth, FREE_TRADING) == 0.0;
    RoundFixesGrid(0);
    var p := Project(FREE_TRADING, r, k);
    assert p == Projection(Some(Buy), worth, 1, 0, BLIND_CASH - 1, 1, BLIND_CASH);
    TimesMonotone(k / 2, k - 1, price);
    RoundMonotone(Times(k / 2, price), 0.5);
    assert Project(FREE_TRADING, r, k / 2).marketValue <= 0;
  }

  lemma BlindRequestMisses(price: real, k: int)
    requires 0.0 < price <= 0.5 && k >= 2
    requires 0.5 < Times(k, price) <= 1.0 && Times(k - 1, price) <= 0.5
    ensures var r := BlindRequest(price, k);
      r.equity > 0 && !IsGreatestSafe(FREE_TRADING, r, TargetQuantity(FREE_TRADING, r))
  {
    hide CandidateIsSafe, IsBuyBranch, SearchLow, SearchHigh, Times, ValidRequest;
    BlindRequestShape(price, k);
    BlindProbes(price, k);
    FirstProbeMisses(FREE_TRADING, BlindRequest(price, k), k);
  }

  ghost predicate BuySearchIsExactAt(price: real)
    requires price > 0.0
  {
    forall cfg: Config, r: Request ::
      ValidConfig(cfg) && ValidRequest(r) && r.price == price
      && r.target > 0.0 && IsBuyBranch(r) && Limit(r) <= 1.0
      ==> IsGreatestSafe(cfg, r, TargetQuantity(cfg, r))
  }

  /**
  The buy search finds the greatest safe quantity for every configuration and book
  at a price exactly when one unit is worth more than half a money quantum.
  */
  lemma BuySearchExactIffUnitVisible(price: real)
    requires price > 0.0
    ensures BuySearchIsExactAt(price) <==> price > 0.5
  {
    if price > 0.5 {
      forall cfg: Config, r: Request |
        ValidConfig(cfg) && ValidRequest(r) && r.price == price
        && r.target > 0.0 && IsBuyBranch(r) && Limit(r) <= 1.0
        ensures IsGreatestSafe(cfg, r, TargetQuantity(cfg, r))
      {
        BuySizingFindsGreatestSafe(cfg, r);
      }
    } else {
      var k := FirstVisibleCount(price);
      var r := BlindRequest(price, k);
      BlindRequestShape(price, k);
      BlindProbes(price, k);
      BlindRequestMisses(price, k);
    }
  }

  // ---------- purchases for a target within the tolerance of one ----------

  ghost predicate BuySearchIsExactNearOneAt(price: real)
    requires price > 0.0
  {
    forall cfg: Config, r: Request ::
      ValidConfig(cfg) && ValidRequest(r) && r.price == price
      && r.target > 0.0 && IsBuyBranch(r) && Limit(r) > 1.0
      ==> IsGreatestSafe(cfg, r, TargetQuantity(cfg, r))
  }

  // Up to half a quantum per unit: one quantum of cash buys a visible count of units, and
  // the first probe is a count too small to be worth anything.

  function ThinRequest(price: real): Request { Request(1.0, price, 1, 1, 0) }

  lemma ThinRequestMisses(price: real)
    requires 0.0 < price <= 0.5
    ensures var r := ThinRequest(price);
      && ValidRequest(r) && IsBuyBranch(r) && Limit(r) > 1.0
      && !IsGreatestSafe(FREE_TRADING, r, TargetQuantity(FREE_TRADING, r))
  {
    var r := ThinRequest(price);
    var k := FirstVisibleCount(price);
    TimesAdds(0, 0, price);
    RoundFixesGrid(0);
    assert ValidRequest(r) && IsBuyBranch(r);
    ThinInterval(price, k);
    ThinSafe(price, k);
    ThinProbe(price, SearchHigh(r) / 2);
    hide CandidateIsSafe, SearchLow, SearchHigh, IsBuyBranch, Times;
    FirstProbeMisses(FREE_TRADING, r, k);
  }

  lemma ThinInterval(price: real, k: int)
    requires 0.0 < price <= 0.5 && k >= 2
    requires 0.5 < Times(k, price) <= 1.0
    ensures var r := ThinRequest(price);
      && IsBuyBranch(r) && SearchLow(r) == 0 && 2 <= k <= SearchHigh(r)
      && Times(SearchHigh(r) / 2, price) <= 0.5 && SearchHigh(r) / 2 < k
  {
    var r := ThinRequest(price);
    TimesAdds(0, 0, price);
    RoundFixesGrid(0);
    var most := Ratio(Product(1.0, 1.0), price);
    assert most * price == 1.0;
    QuotientMonotone(Times(k, price), 1.0, price);
    assert Times(k, price) / price == k as real;
    assert SearchHigh(r) == most.Floor >= k;
    var half := SearchHigh(r) / 2;
    assert 2.0 * half as real <= most;
    ScaleMonotone(price, 2.0 * half as real, most);
    assert Times(half, price) <= 0.5;
    assert half < k by { if k <= half { TimesMonotone(k, half, price); } }
  }

  lemma ThinSafe(price: real, k: int)
    requires 0.0 < price <= 0.5 && k >= 2
    requires 0.5 < Times(k, price) <= 1.0
    ensures CandidateIsSafe(FREE_TRADING, ThinRequest(price), k)
  {
    var r, worth := ThinRequest(price), Times(k, price);
    assert ExecutionPrice(price, Buy, 0.0) == price;
    assert RoundHalfEven(worth) == 1;
    assert TradeFee(worth, FREE_TRADING) == 0.0;
    RoundFixesGrid(0);
    assert Project(FREE_TRADING, r, k) == Projection(Some(Buy), worth, 1, 0, 0, 1, 1);
    hide Project, Times;
  }

  lemma ThinProbe(price: real, units: int)
    requires 0.0 < price <= 0.5 && units >= 1 && Times(units, price) <= 0.5
    ensures !CandidateIsSafe(FREE_TRADING, ThinRequest(price), units)
  {
    var r := ThinRequest(price);
    RoundMonotone(Times(units, price), 0.5);
    assert Project(FREE_TRADING, r, units).marketValue <= 0;
    hide Times;
  }

  // Between a half and a whole quantum per unit: two consecutive sizes cost the same, and
  // an overdraft of c quanta is within the tolerance for the larger one alone, whose value
  // reaches c * TOLERATED. A minimum fee makes the overdraft.

  /** The value over which the tolerance on a weight of one excuses an overdraft of one quantum. */
  const TOLERATED: int := 1000000000001

  /** Two consecutive numbers of units with the same rounded worth. */
  lemma FlatStep(price: real) returns (n: int)
    requires 0.5 < price < 1.0
    ensures n >= 1 && MarketValue(n, price) == MarketValue(n + 1, price) >= 1
  {
    n := 1;
    TimesAdds(0, 0, price);
    RoundPositive(price);
    var most := 0.5 / (1.0 - price);
    assert most * (1.0 - price) == 0.5;
    while MarketValue(n, price) != MarketValue(n + 1, price)
      invariant n >= 1 && MarketValue(n, price) >= n
      decreases most.Floor + 1 - n
    {
      MarketValueMonotone(n, n + 1, price);
      NotBeyond(n, price, most);
      n := n + 1;
    }
  }

  lemma NotBeyond(n: int, price: real, most: real)
    requires price < 1.0 && most * (1.0 - price) == 0.5
    requires MarketValue(n, price) >= n
    ensures n <= most.Floor
  {
    assert Times(n, price) >= n as real - 0.5;
    NonNegativeFactor(most - n as real, 1.0 - price);
  }

  lemma NonNegativeFactor(x: real, p: real)
    requires p > 0.0 && x * p >= 0.0
    ensures x >= 0.0
  {
    assert x == (x * p) / p;
  }

  /** Below a quantum per unit, values grow by at most a quantum per unit, so they take every size. */
  lemma FirstWorth(price: real, value: int) returns (u: int)
    requires 0.0 < price < 1.0 && value >= 1
    ensures u >= 1 && MarketValue(u, price) == value && MarketValue(u - 1, price) == value - 1
  {
    hide Times, RoundHalfEven;
    u := 0;
    TimesAdds(0, 0, price);
    RoundFixesGrid(0);
    var most := (value as real + 0.5) / price;
    assert most * price == value as real + 0.5;
    while MarketValue(u + 1, price) < value
      invariant u >= 0 && MarketValue(u, price) < value
      decreases most.Floor + 1 - u
    {
      NotYetWorth(u, price, value, most);
      u := u + 1;
    }
    ValueGrowsByOne(u, price);
    u := u + 1;
  }

  lemma NotYetWorth(u: int, price: real, value: int, most: real)
    requires price > 0.0 && most * price == value as real + 0.5
    requires MarketValue(u, price) < value
    ensures u <= most.Floor
  {
    assert Times(u, price) <= value as real + 0.5;
    NonNegativeFactor(most - u as real, price);
  }

  lemma ValueGrowsByOne(u: int, price: real)
    requires 0.0 < price < 1.0
    ensures MarketValue(u + 1, price) <= MarketValue(u, price) + 1
  {
    TimesAdds(u, 1, price);
    RoundMonotone(Times(u + 1, price), Times(u, price) + 1.0);
    RoundUpByOne(Times(u, price), Times(u + 1, price));
  }

  lemma RoundUpByOne(x: real, y: real)
    requires x <= y < x + 1.0
    ensures RoundHalfEven(y) <= RoundHalfEven(x) + 1
  {
  }

  /** A holding, and cash for twice n units, such that n units more are the first probe. */
  predicate Overdraws(price: real, n: int, c: int, held: int, cash: int) {
    && 0.5 < price < 1.0 && n >= 1 && c >= 1 && held >= 0 && cash >= 0
    && MarketValue(n, price) == MarketValue(n + 1, price) >= 1
    && MarketValue(held + n, price) == c * TOLERATED - 1
    && MarketValue(held + n + 1, price) == c * TOLERATED
    && Times(2 * n, price) <= (cash + MarketValue(held, price)) as real - Times(held, price) < Times(2 * n + 2, price)
    && cash + c >= MarketValue(n, price)
  }

  function OverdraftConfig(price: real, n: int, c: int, cash: int): Config {
    FREE_TRADING.(minimumFee := (cash + c - MarketValue(n, price)) as real)
  }

  function OverdraftRequest(price: real, held: int, cash: int): Request {
    Request(1.0, price, cash + MarketValue(held, price), cash, held)
  }

  lemma OverdraftShape(price: real, n: int, c: int, held: int, cash: int)
    requires Overdraws(price, n, c, held, cash)
    ensures ValidConfig(OverdraftConfig(price, n, c, cash))
    ensures var r := OverdraftRequest(price, held, cash);
      && ValidRequest(r) && IsBuyBranch(r) && Limit(r) > 1.0
      && Times(n + 1, price) <= r.equity as real
  {
    hide Times, RoundHalfEven;
    var r := OverdraftRequest(price, held, cash);
    ValueNonNegative(held, price);
    TimesAdds(0, 0, price);
    TimesMonotone(0, held, price);
    TimesMonotone(1, n + 1, price);
    TimesMonotone(n + 1, 2 * n, price);
    QuotientBound(MarketValue(held, price), r.equity, 1.0);
  }

  lemma OverdraftInterval(price: real, n: int, c: int, held: int, cash: int)
    requires Overdraws(price, n, c, held, cash)
    ensures var r := OverdraftRequest(price, held, cash);
      && ValidRequest(r) && IsBuyBranch(r)
      && SearchLow(r) == held && held + 2 * n <= SearchHigh(r) <= held + 2 * n + 1
  {
    OverdraftShape(price, n, c, held, cash);
    var r := OverdraftRequest(price, held, cash);
    hide IsBuyBranch, ValidRequest, RoundHalfEven, Overdraws;
    TimesAdds(held, 2 * n, price);
    TimesAdds(held, 2 * n + 2, price);
    FloorBetween(r.equity as real, price, held + 2 * n);
  }

  lemma FloorBetween(worth: real, price: real, k: int)
    requires price > 0.0 && Times(k, price) <= worth < Times(k + 2, price)
    ensures k <= Ratio(Product(1.0, worth), price).Floor <= k + 1
  {
    var most := worth / price;
    assert most * price == worth;
    NonNegativeFactor(most - k as real, price);
    PositiveFactor((k + 2) as real - most, price);
    assert Product(1.0, worth) == worth && Ratio(worth, price) == most;
    assert k as real <= most < (k + 2) as real;
  }

  lemma PositiveFactor(x: real, p: real)
    requires p > 0.0 && x * p > 0.0
    ensures x > 0.0
  {
    assert x == (x * p) / p;
  }

  lemma OverdraftProjection(price: real, n: int, c: int, held: int, cash: int, more: int)
    requires Overdraws(price, n, c, held, cash)
    requires more == n || more == n + 1
    ensures var p := Project(OverdraftConfig(price, n, c, cash), OverdraftRequest(price, held, cash), held + more);
      && p.side == Some(Buy) && p.notional == Times(more, price) && p.cashNotional >= 1
      && p.cash == -c && p.marketValue == MarketValue(held + more, price)
      && p.equity == MarketValue(held + more, price) - c
  {
    assert ExecutionPrice(price, Buy, 0.0) == price;
    hide ExecutionPrice;
    var cfg := OverdraftConfig(price, n, c, cash);
    var worth := Times(more, price);
    TimesMonotone(0, more, price);
    TimesAdds(0, 0, price);
    assert TradeFee(worth, cfg) == cfg.minimumFee;
    RoundFixesGrid(cash + c - MarketValue(n, price));
    hide Times, RoundHalfEven, TradeFee;
    assert MarketValue(more, price) == MarketValue(n, price);
  }

  lemma OverdraftVerdicts(price: real, n: int, c: int, held: int, cash: int)
    requires Overdraws(price, n, c, held, cash)
    ensures var cfg, r := OverdraftConfig(price, n, c, cash), OverdraftRequest(price, held, cash);
      r.equity > 0 && CandidateIsSafe(cfg, r, held + n + 1) && !CandidateIsSafe(cfg, r, held + n)
  {
    OverdraftShape(price, n, c, held, cash);
    hide Project, Times, MarketValue, OverdraftConfig, IsBuyBranch, WithinTarget, Ratio;
    OverdraftProjection(price, n, c, held, cash, n);
    OverdraftProjection(price, n, c, held, cash, n + 1);
    var cfg, r := OverdraftConfig(price, n, c, cash), OverdraftRequest(price, held, cash);
    OverdraftWeights(c, r, Project(cfg, r, held + n + 1));
    OverdraftWeights(c, r, Project(cfg, r, held + n));
    AtMostOne(Times(n + 1, price), r.equity as real);
    OverdraftCap(price, n, c, cash);
  }

  /** An overdraft of c is within the tolerance exactly from c * TOLERATED on. */
  lemma OverdraftWeights(c: int, r: Request, p: Projection)
    requires c >= 1 && r.target == 1.0 && p.equity == p.marketValue - c
    requires c * TOLERATED - 1 <= p.marketValue <= c * TOLERATED
    ensures WithinTarget(r, p) <==> p.marketValue == c * TOLERATED
  {
    QuotientBound(p.marketValue, p.equity, Limit(r));
  }

  lemma OverdraftCap(price: real, n: int, c: int, cash: int)
    ensures OverdraftConfig(price, n, c, cash).maxOrderNotional == 1.0
  {
  }

  lemma AtMostOne(part: real, whole: real)
    requires part <= whole && whole > 0.0
    ensures Ratio(part, whole) <= 1.0
  {
  }

  lemma OverdraftMisses(price: real, n: int, c: int, held: int, cash: int)
    requires Overdraws(price, n, c, held, cash)
    ensures var cfg, r := OverdraftConfig(price, n, c, cash), OverdraftRequest(price, held, cash);
      r.equity > 0 && !IsGreatestSafe(cfg, r, TargetQuantity(cfg, r))
  {
    OverdraftShape(price, n, c, held, cash);
    OverdraftInterval(price, n, c, held, cash);
    OverdraftVerdicts(price, n, c, held, cash);
    hide CandidateIsSafe, SearchLow, SearchHigh, MarketValue, OverdraftConfig;
    FirstProbeMisses(OverdraftConfig(price, n, c, cash), OverdraftRequest(price, held, cash), held + n + 1);
  }

  /** There is such a book at every price between a half and a whole quantum. */
  lemma OverdraftExists(price: real) returns (n: int, c: int, held: int, cash: int)
    requires 0.5 < price < 1.0
    ensures Overdraws(price, n, c, held, cash)
  {
    hide Times, RoundHalfEven;
    n := FlatStep(price);
    c := n + 1;
    var u := FirstWorth(price, c * TOLERATED);
    held := u - 1 - n;
    HeldIsNonNegative(price, n, u);
    var gap := MarketValue(held, price) as real - Times(held, price);
    var least := Times(2 * n, price) - gap;
    TimesAdds(2 * n, 2, price);
    TimesAdds(1, 1, price);
    TimesAdds(n, n, price);
    TimesMonotone(1, n, price);
    TimesAdds(0, 0, price);
    cash := least.Floor + if least == least.Floor as real then 0 else 1;
    assert least <= cash as real < least + 1.0;
    assert cash + c >= MarketValue(n, price);
  }

  lemma HeldIsNonNegative(price: real, n: int, u: int)
    requires 0.5 < price < 1.0 && n >= 1
    requires MarketValue(u - 1, price) == (n + 1) * TOLERATED - 1
    ensures u - 1 >= n
  {
    hide MarketValue;
    ValueAtMostCount(n, price);
    if u - 1 < n {
      MarketValueMonotone(u - 1, n, price);
    }
  }

  lemma ValueAtMostCount(n: int, price: real)
    requires 0.0 < price < 1.0 && n >= 0
    ensures MarketValue(n, price) <= n
  {
    ScaleMonotone(n as real, price, 1.0);
    RoundMonotone(Times(n, price), n as real);
    RoundFixesGrid(n);
  }

  /**
  For targets within the tolerance of one the buy search is exact for every
  configuration and book at a price exactly when a unit is worth at least a quantum.
  */
  lemma BuySearchNearOneExactIffUnitIsAQuantum(price: real)
    requires price > 0.0
    ensures BuySearchIsExactNearOneAt(price) <==> price >= 1.0
  {
    if price >= 1.0 {
      forall cfg: Config, r: Request |
        ValidConfig(cfg) && ValidRequest(r) && r.price == price
        && r.target > 0.0 && IsBuyBranch(r) && Limit(r) > 1.0
        ensures IsGreatestSafe(cfg, r, TargetQuantity(cfg, r))
      {
        BuySizingFindsGreatestSafe(cfg, r);
      }
    } else if price <= 0.5 {
      ThinRequestMisses(price);
    } else {
      var n, c, held, cash := OverdraftExists(price);
      OverdraftShape(price, n, c, held, cash);
      OverdraftMisses(price, n, c, held, cash);
    }
  }
}

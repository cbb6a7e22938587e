/**
The adapter's sizing as it is computed, with every product, sum and quotient rounded to 28
significant digits, against the exact arithmetic of `MirrorSizing`.
*/
module MirrorPrecision {
  import opened Bisection
  import opened ContextArithmetic
  import opened Decimals
  import opened Domain
  import opened MirrorSizing
  import opened Options
  import opened Rounding
  import Sizing

  // ---------- the adapter in context arithmetic ----------

  function ContextValue(units: int, price: real): int { ParityMoney(Context(Times(units, price))) }

  function ContextEquity(i: Input): int {
    ParityMoney(Context(i.cash as real + Context(Times(i.quantity, i.price))))
  }

  function ContextNotional(delta: int, price: real, isBuy: bool): real {
    if delta == 0 then 0.0 else Context(Times(delta, Context(Product(price, SlippageFactor(isBuy)))))
  }

  function SlippageFactor(isBuy: bool): real {
    if isBuy then 1.0 + SLIPPAGE_BPS / 10000.0 else 1.0 - SLIPPAGE_BPS / 10000.0
  }

  function ContextFee(notional: real): int {
    ParityMoney(Context(Ratio(Context(Product(notional, FEE_BPS)), 10000.0)))
  }

  function ContextCash(i: Input, notional: real, isBuy: bool): int {
    var before := if isBuy then i.cash - ParityMoney(notional) else i.cash + ParityMoney(notional);
    ParityMoney(Context(Context(before as real) - ContextFee(notional) as real))
  }

  predicate ContextIsSafe(i: Input, units: int)
    requires ContextEquity(i) > 0
  {
    var isBuy := units > i.quantity;
    var delta := if isBuy then units - i.quantity else i.quantity - units;
    var value := ContextValue(units, i.price);
    var notional := ContextNotional(delta, i.price, isBuy);
    var cash := if delta == 0 then i.cash else ContextCash(i, notional, isBuy);
    var equity := ParityMoney(Context((cash + value) as real));
    && equity > 0
    && Context(Ratio(value as real, equity as real)) <= i.target
    && (isBuy ==> Context(Ratio(notional, ContextEquity(i) as real)) <= MAX_ORDER_NOTIONAL_WEIGHT)
    && (isBuy ==> value > 0 && notional > 0.0)
  }

  predicate ContextBuys(i: Input)
    requires ContextEquity(i) > 0
  {
    Context(Ratio(ContextValue(i.quantity, i.price) as real, ContextEquity(i) as real)) <= i.target
  }

  function ContextTop(i: Input): int
    requires i.price > 0.0
  {
    Context(Ratio(Context(Product(i.target, ContextEquity(i) as real)), i.price)).Floor
  }

  function ContextLow(i: Input): int
    requires ContextEquity(i) > 0
  {
    if ContextBuys(i) then i.quantity else 0
  }

  function ContextHigh(i: Input): int
    requires ContextEquity(i) > 0 && i.price > 0.0
  {
    if ContextBuys(i) then MaxInt(i.quantity, ContextTop(i)) else i.quantity
  }

  function ContextAcceptance(i: Input): int -> bool
    requires ContextEquity(i) > 0
  {
    units => ContextIsSafe(i, units)
  }

  /** The adapter's answer; None stands for a raised ValueError. */
  function ContextQuantity(i: Input): Option<int> {
    if !Accepted(i) then None
    else if i.target == 0.0 || ContextEquity(i) <= 0 then Some(0)
    else
      match Bisect(ContextAcceptance(i), ContextLow(i), ContextHigh(i), None)
      case None => Some(0)
      case Some(units) => Some(units)
  }

  /** The adapter's search. */
  method ComputeMirrorQuantity(i: Input) returns (result: Option<int>)
    ensures result == ContextQuantity(i)
  {
    if !Accepted(i) {
      return None;
    }
    if i.target == 0.0 || ContextEquity(i) <= 0 {
      return Some(0);
    }
    hide ContextIsSafe;
    var best := Search(ContextAcceptance(i), ContextLow(i), ContextHigh(i));
    result := match best case None => Some(0) case Some(units) => Some(units);
  }

  // ---------- inputs for which 28 digits suffice ----------

  /** A price of k quanta, a weight of t parts in 10^g, and equity that leaves room for g digits. */
  ghost predicate Written(i: Input, k: nat, t: nat, g: int) {
    && g >= 5 && k > 0
    && IsCount(i.price, k) && i.target == Steps(t, -g)
    && Equity(i) * PowerOfTen(g) < PowerOfTen(PRECISION - 1)
  }

  ghost predicate FitsPrecision(i: Input) {
    exists k: nat, t: nat, g: int :: Written(i, k, t, g)
  }

  /** Amounts of at most this many quanta are far from 28 digits. */
  const AMPLE_ROOM: int := 10000000000000000000000

  lemma AmpleRoom()
    ensures PowerOfTen(22) == AMPLE_ROOM && PowerOfTen(5) == 100000
    ensures 100000 * AMPLE_ROOM == PowerOfTen(PRECISION - 1) && PowerOfTen(PRECISION) == 1000000 * AMPLE_ROOM
  {
    assert PowerOfTen(5) == 10 * PowerOfTen(4) == 100 * PowerOfTen(3) == 1000 * PowerOfTen(2) == 100000;
    PowersAdd(5, 5);
    PowersAdd(10, 10);
    PowersAdd(20, 2);
    assert PowerOfTen(2) == 10 * PowerOfTen(1) == 100;
    PowersAdd(22, 5);
    PowersAdd(22, 6);
    assert PowerOfTen(6) == 10 * PowerOfTen(5);
  }

  /** What the bound on the equity means for the amounts an order moves. */
  lemma WrittenBounds(i: Input, k: nat, t: nat, g: int)
    requires Accepted(i) && Written(i, k, t, g)
    ensures Equity(i) == i.cash + i.quantity * k && 0 <= Equity(i) < AMPLE_ROOM
    ensures 10 * t <= PowerOfTen(g)
    ensures 10 * (t * Equity(i)) <= Equity(i) * PowerOfTen(g)
  {
    EquityWhole(i, k);
    hide PowerOfTen, Steps, Equity;
    AmpleRoom();
    PowersMonotone(5, g);
    RoomFor(Equity(i), PowerOfTen(g));
    TenthParts(i.target, t, PowerOfTen(g)) by { DecimalFraction(t, g); }
    ScaledParts(t, PowerOfTen(g), Equity(i));
  }

  lemma EquityWhole(i: Input, k: nat)
    requires Accepted(i) && IsCount(i.price, k)
    ensures Equity(i) == i.cash + i.quantity * k && Equity(i) >= 0
  {
    assert Times(i.quantity, i.price) == (i.quantity * k) as real;
    ProductMonotone(0, i.quantity, k);
    hide Times;
    RoundFixesGrid(i.cash + i.quantity * k);
  }

  lemma RoomFor(equity: nat, p: nat)
    requires p >= 100000 && equity * p < 100000 * AMPLE_ROOM
    ensures equity < AMPLE_ROOM
  {
    ProductMonotone(100000, p, equity);
  }

  lemma ScaledParts(t: nat, p: nat, equity: nat)
    requires 10 * t <= p
    ensures 10 * (t * equity) <= equity * p
  {
    ProductMonotone(10 * t, p, equity);
  }

  /** A weight of at most a tenth. */
  lemma TenthParts(weight: real, t: nat, p: nat)
    requires p > 0 && weight == Ratio(t as real, p as real) && weight <= MAX_POSITION_WEIGHT
    ensures 10 * t <= p
  {
    assert weight * p as real == t as real;
    ScaleMonotone(p as real, weight, 0.1);
  }

  /** A whole amount with room to spare is not rounded. */
  lemma WholeKept(n: int)
    requires -10 * AMPLE_ROOM <= n <= 10 * AMPLE_ROOM
    ensures Context(n as real) == n as real && ParityMoney(Context(n as real)) == n
  {
    hide PowerOfTen, Context;
    AmpleRoom();
    ContextWhole(n);
    RoundFixesGrid(n);
  }

  lemma ValueExact(i: Input, k: nat, units: int)
    requires IsCount(i.price, k) && 0 <= units && units * k < AMPLE_ROOM
    ensures Times(units, i.price) == (units * k) as real
    ensures ContextValue(units, i.price) == ParityMoney(Times(units, i.price)) == units * k
  {
    ProductMonotone(0, units, k);
    assert Times(units, i.price) == (units * k) as real;
    hide Context, ParityMoney, Times;
    WholeKept(units * k);
  }

  lemma EquityExact(i: Input, k: nat, t: nat, g: int)
    requires Accepted(i) && Written(i, k, t, g)
    ensures ContextEquity(i) == Equity(i)
  {
    WrittenBounds(i, k, t, g);
    ProductMonotone(0, i.quantity, k);
    ValueExact(i, k, i.quantity);
    hide Context, ParityMoney, Times, PowerOfTen, Steps, Equity;
    WholeKept(i.quantity * k);
    WholeKept(i.cash + i.quantity * k);
  }

  /** The slippage adds four decimals, which fit as well. */
  lemma NotionalExact(delta: nat, price: real, k: nat, isBuy: bool)
    requires IsCount(price, k) && delta > 0 && k > 0 && delta * k < AMPLE_ROOM
    ensures var n := delta * k * (if isBuy then 10002 else 9998);
      && ContextNotional(delta, price, isBuy) == Times(delta, Product(price, SlippageFactor(isBuy))) == Steps(n, -4)
      && 0 < n < 10002 * AMPLE_ROOM
  {
    hide PowerOfTen, Steps, Context, SlippageFactor, Product, Times;
    AmpleRoom();
    var factor := if isBuy then 10002 else 9998;
    SlippedExactly(price, k, isBuy);
    ScaledSteps(delta, k * factor);
    SlippedCounts(delta, k, factor);
    ContextExact(k * factor, -4);
    ContextExact(delta * k * factor, -4);
  }

  lemma SlippedCounts(delta: nat, k: nat, factor: nat)
    requires delta > 0 && k > 0 && 0 < factor <= 10002 && delta * k < AMPLE_ROOM
    ensures delta * (k * factor) == delta * k * factor
    ensures 0 < k * factor <= delta * k * factor < 10002 * AMPLE_ROOM
  {
    ProductMonotone(1, delta, k);
    ProductMonotone(k, delta * k, factor);
    ProductMonotone(factor, 10002, delta * k);
  }

  lemma FourDecimals(n: int)
    ensures Steps(n, -4) == n as real / 10000.0
  {
    assert PowerOfTen(4) == 10 * PowerOfTen(3) == 100 * PowerOfTen(2) == 1000 * PowerOfTen(1) == 10000;
  }

  lemma SlippedExactly(price: real, k: nat, isBuy: bool)
    requires IsCount(price, k)
    ensures Product(price, SlippageFactor(isBuy)) == Steps(k * (if isBuy then 10002 else 9998), -4)
  {
    FourDecimals(k * (if isBuy then 10002 else 9998));
    hide Steps;
  }

  lemma ScaledSteps(delta: nat, n: nat)
    ensures Times(delta, Steps(n, -4)) == Steps(delta * n, -4)
  {
    FourDecimals(n);
    FourDecimals(delta * n);
    hide Steps;
    assert (delta * n) as real == delta as real * n as real;
    assert delta as real * (n as real / 10000.0) == (delta as real * n as real) / 10000.0;
  }

  lemma EightDecimals(n: int)
    ensures Steps(n, -8) == n as real / 100000000.0
  {
    FourDecimals(n);
    PowersAdd(4, 4);
  }

  lemma FeeExact(n: nat)
    requires n < 10002 * AMPLE_ROOM
    ensures ContextFee(Steps(n, -4)) == ParityMoney(Product(Steps(n, -4), FEE_BPS / 10000.0))
    ensures 0 <= ContextFee(Steps(n, -4)) <= AMPLE_ROOM && 0 <= ParityMoney(Steps(n, -4)) <= 2 * AMPLE_ROOM
  {
    hide PowerOfTen;
    AmpleRoom();
    FourDecimals(n);
    EightDecimals(n);
    hide Steps, Context;
    ContextExact(n, -4);
    ContextExact(n, -8);
    assert Product(Steps(n, -4), FEE_BPS) == Steps(n, -4);
    assert Ratio(Steps(n, -4), 10000.0) == Steps(n, -8);
    assert Product(Steps(n, -4), FEE_BPS / 10000.0) == Steps(n, -8);
  }

  // ---------- one candidate ----------

  /** The book a candidate leaves, in exact arithmetic. */
  function ExactNotional(i: Input, units: int): real {
    var isBuy := units > i.quantity;
    var delta := if isBuy then units - i.quantity else i.quantity - units;
    if delta == 0 then 0.0 else Times(delta, Product(i.price, SlippageFactor(isBuy)))
  }

  function ExactCash(i: Input, units: int): int {
    var notional := ExactNotional(i, units);
    var fee := ParityMoney(Product(notional, FEE_BPS / 10000.0));
    if units == i.quantity then i.cash
    else if units > i.quantity then i.cash - ParityMoney(notional) - fee
    else i.cash + ParityMoney(notional) - fee
  }

  lemma MirrorTest(i: Input, units: int)
    requires Equity(i) > 0
    ensures var value := ParityMoney(Times(units, i.price));
      var equity := ExactCash(i, units) + value;
      MirrorIsSafe(i, units) <==>
        && equity > 0
        && Ratio(value as real, equity as real) <= i.target
        && (units > i.quantity ==>
              && Ratio(ExactNotional(i, units), Equity(i) as real) <= MAX_ORDER_NOTIONAL_WEIGHT
              && value > 0 && ExactNotional(i, units) > 0.0)
  {
    hide Times, Product, ParityMoney, Ratio, Equity;
  }

  /** No amount of a candidate within the equity is changed by rounding to 28 digits. */
  lemma CandidateExact(i: Input, k: nat, units: int)
    requires i.cash >= 0 && i.quantity >= 0 && IsCount(i.price, k) && k > 0
    requires Equity(i) == i.cash + i.quantity * k < AMPLE_ROOM
    requires units >= 0 && units != i.quantity && units * k <= Equity(i)
    ensures var isBuy := units > i.quantity;
      var delta := if isBuy then units - i.quantity else i.quantity - units;
      var n := delta * k * (if isBuy then 10002 else 9998);
      && 0 < n <= 10002 * Equity(i)
      && ContextNotional(delta, i.price, isBuy) == ExactNotional(i, units) == Steps(n, -4)
      && ContextCash(i, ExactNotional(i, units), isBuy) == ExactCash(i, units)
      && -3 * AMPLE_ROOM <= ExactCash(i, units) <= 3 * AMPLE_ROOM
  {
    hide PowerOfTen, Steps, Context, ParityMoney, Times, Product, Equity;
    var isBuy := units > i.quantity;
    var delta := if isBuy then units - i.quantity else i.quantity - units;
    ProductMonotone(delta, if isBuy then units else i.quantity, k);
    NotionalExact(delta, i.price, k, isBuy);
    var n := delta * k * (if isBuy then 10002 else 9998);
    FeeExact(n);
    var notional := Steps(n, -4);
    var before := if isBuy then i.cash - ParityMoney(notional) else i.cash + ParityMoney(notional);
    WholeKept(before);
    WholeKept(before - ContextFee(notional));
    assert before as real - ContextFee(notional) as real == (before - ContextFee(notional)) as real;
  }

  lemma OrderWeightExact(n: nat, equity: nat)
    requires 0 < equity < AMPLE_ROOM && n <= 10002 * equity
    ensures Context(Ratio(Steps(n, -4), equity as real)) <= MAX_ORDER_NOTIONAL_WEIGHT
       <==> Ratio(Steps(n, -4), equity as real) <= MAX_ORDER_NOTIONAL_WEIGHT
  {
    FourDecimals(n);
    AmpleRoom();
    PowerOne();
    DecimalFraction(1, 1);
    assert Ratio(Steps(n, -4), equity as real) == Ratio(n as real, (10000 * equity) as real)
      by { NestedRatio(n as real, equity as real); }
    assert Ratio(1.0, 10.0) == 0.1;
    hide PowerOfTen, Steps, Context, Ratio;
    ContextKeepsOrder(n, 10000 * equity, 1, 1);
  }

  lemma NestedRatio(n: real, equity: real)
    requires equity > 0.0
    ensures Ratio(n / 10000.0, equity) == Ratio(n, 10000.0 * equity)
  {
    CancelReal(n / 10000.0, equity, 10000.0);
  }

  lemma WeightExact(i: Input, k: nat, t: nat, g: int, value: nat, equity: int)
    requires Accepted(i) && Written(i, k, t, g) && 0 < equity && value <= Equity(i) && Equity(i) > 0
    ensures Context(Ratio(value as real, equity as real)) <= i.target
       <==> Ratio(value as real, equity as real) <= i.target
  {
    hide PowerOfTen, Steps, Context, Ratio, Equity;
    WrittenBounds(i, k, t, g);
    ProductMonotone(value, Equity(i), PowerOfTen(g));
    ProductMonotone(1, Equity(i), PowerOfTen(g));
    PowersMonotone(PRECISION - 1, PRECISION);
    ContextKeepsOrder(value, equity, t, g);
  }

  /** The amounts the adapter's test looks at, as they come out exactly. */
  lemma BookExact(i: Input, k: nat, t: nat, g: int, units: int)
    requires Accepted(i) && Written(i, k, t, g) && Equity(i) > 0
    requires units >= 0 && units * k <= Equity(i)
    ensures var isBuy := units > i.quantity;
      var delta := if isBuy then units - i.quantity else i.quantity - units;
      var notional := ContextNotional(delta, i.price, isBuy);
      var cash := if delta == 0 then i.cash else ContextCash(i, notional, isBuy);
      && ContextValue(units, i.price) == ParityMoney(Times(units, i.price)) == units * k
      && notional == ExactNotional(i, units) && cash == ExactCash(i, units)
      && ParityMoney(Context((cash + units * k) as real)) == cash + units * k
      && (isBuy ==> notional == Steps(delta * k * 10002, -4) && delta * k * 10002 <= 10002 * Equity(i))
  {
    WrittenBounds(i, k, t, g);
    ProductMonotone(0, units, k);
    ValueExact(i, k, units);
    hide PowerOfTen, Steps, Context, Ratio, Equity, ParityMoney, Times, ContextValue,
      ContextNotional, ContextCash, ExactNotional, ExactCash, Product, Written;
    if units == i.quantity {
      NoOrder(i, units);
    } else {
      CandidateExact(i, k, units);
    }
    WholeKept(ExactCash(i, units) + units * k);
  }

  /** The adapter's test, given the amounts it looks at. */
  lemma ContextTest(i: Input, units: int, notional: real, cash: int, value: int)
    requires ContextEquity(i) > 0 && ContextValue(units, i.price) == value
    requires var isBuy := units > i.quantity;
      var delta := if isBuy then units - i.quantity else i.quantity - units;
      && notional == ContextNotional(delta, i.price, isBuy)
      && cash == (if delta == 0 then i.cash else ContextCash(i, notional, isBuy))
    requires ParityMoney(Context((cash + value) as real)) == cash + value
    ensures ContextIsSafe(i, units) <==>
      && cash + value > 0
      && Context(Ratio(value as real, (cash + value) as real)) <= i.target
      && (units > i.quantity ==>
            && Context(Ratio(notional, ContextEquity(i) as real)) <= MAX_ORDER_NOTIONAL_WEIGHT
            && value > 0 && notional > 0.0)
  {
    hide Context, Ratio, ContextEquity, ParityMoney, ContextValue, ContextNotional, ContextCash;
  }

  /** Nor does rounding move an order to the other side of its cap. */
  lemma OrderAgrees(i: Input, k: nat, t: nat, g: int, units: int)
    requires Accepted(i) && Written(i, k, t, g) && Equity(i) > 0
    requires i.quantity < units && units * k <= Equity(i)
    ensures Context(Ratio(ExactNotional(i, units), Equity(i) as real)) <= MAX_ORDER_NOTIONAL_WEIGHT
       <==> Ratio(ExactNotional(i, units), Equity(i) as real) <= MAX_ORDER_NOTIONAL_WEIGHT
  {
    hide PowerOfTen, Steps, Context, Ratio, Equity, ParityMoney, Times, ContextValue,
      ContextNotional, ContextCash, ExactNotional, ExactCash, Written, Product;
    BookExact(i, k, t, g, units);
    WrittenBounds(i, k, t, g);
    var n := (units - i.quantity) * k * 10002;
    NonNegative(units - i.quantity, k);
    OrderWeightExact(n, Equity(i));
  }

  lemma NonNegative(a: nat, b: nat)
    ensures a * b >= 0
  {
  }

  /** Rounding to 28 digits never decides about a candidate. */
  lemma SafeAgrees(i: Input, k: nat, t: nat, g: int, units: int)
    requires Accepted(i) && Written(i, k, t, g) && Equity(i) > 0
    requires units >= 0 && units * k <= Equity(i)
    ensures ContextEquity(i) == Equity(i)
    ensures ContextIsSafe(i, units) <==> MirrorIsSafe(i, units)
  {
    hide PowerOfTen, Steps, Context, Ratio, Equity, ContextEquity, ParityMoney, MirrorIsSafe, Times, ContextValue,
      ContextNotional, ContextCash, ExactNotional, ExactCash, Written, Product, ContextIsSafe, Accepted;
    EquityExact(i, k, t, g);
    BookExact(i, k, t, g, units);
    var value, cash := units * k, ExactCash(i, units);
    NonNegative(units, k);
    if cash + value > 0 {
      WeightExact(i, k, t, g, value, cash + value);
    }
    if units > i.quantity {
      OrderAgrees(i, k, t, g, units);
    }
    MirrorTest(i, units);
    ContextTest(i, units, ExactNotional(i, units), cash, value);
  }

  lemma NoOrder(i: Input, units: int)
    requires units == i.quantity
    ensures ContextNotional(0, i.price, false) == ExactNotional(i, units) == 0.0
    ensures ExactCash(i, units) == i.cash
  {
  }

  // ---------- the interval and the search ----------

  lemma TopExact(i: Input, k: nat, t: nat, g: int)
    requires Accepted(i) && Written(i, k, t, g) && Equity(i) > 0
    ensures ContextTop(i) == Ratio(Product(i.target, Equity(i) as real), i.price).Floor
    ensures 0 <= ContextTop(i) && ContextTop(i) * k <= Equity(i)
  {
    EquityExact(i, k, t, g);
    WrittenBounds(i, k, t, g);
    var budget, p := t * Equity(i), PowerOfTen(g);
    ProductMonotone(1, p, k);
    DecimalFraction(t, g);
    DecimalFraction(budget, g);
    hide PowerOfTen, Steps, Context, Equity, ContextEquity, Ratio, Product;
    ScaledFraction(t, Equity(i), p);
    ContextExact(budget, -g) by { RoomForBudget(i, budget, p); }
    SplitFraction(budget, p, k);
    ContextFloor(budget, p * k) by { RoomForBudget(i, budget, p); }
    FloorInBudget(budget, p, k, Equity(i));
  }

  lemma RoomForBudget(i: Input, budget: nat, p: nat)
    requires 10 * budget <= Equity(i) * p < PowerOfTen(PRECISION - 1)
    ensures budget < PowerOfTen(PRECISION - 1) && Magnitude(budget) <= PowerOfTen(PRECISION)
  {
    PowersMonotone(PRECISION - 1, PRECISION);
    hide PowerOfTen, Equity;
  }

  lemma ScaledFraction(t: nat, equity: int, p: nat)
    requires p > 0
    ensures Product(Ratio(t as real, p as real), equity as real) == Ratio((t * equity) as real, p as real)
  {
    assert (t * equity) as real == t as real * equity as real;
  }

  lemma SplitFraction(budget: nat, p: nat, k: nat)
    requires p > 0 && k > 0
    ensures p * k > 0
    ensures Ratio(Ratio(budget as real, p as real), k as real) == Ratio(budget as real, (p * k) as real)
  {
    ProductMonotone(1, p, k);
    assert (p * k) as real == p as real * k as real;
    CancelReal(budget as real / p as real, k as real, p as real);
  }

  lemma FloorInBudget(budget: nat, p: nat, k: nat, equity: int)
    requires p > 0 && k > 0 && p * k > 0 && 10 * budget <= equity * p
    ensures var top := Ratio(budget as real, (p * k) as real).Floor;
      0 <= top && top * k <= equity
  {
    var q := budget as real / (p * k) as real;
    assert q * (p * k) as real == budget as real;
    var top := q.Floor;
    ScaleMonotone((p * k) as real, top as real, q);
    assert (top * (p * k)) as real == top as real * (p * k) as real;
    assert top * (p * k) == (top * k) * p;
    CancelFactor(top * k, equity, p);
  }

  lemma BuysAgree(i: Input, k: nat, t: nat, g: int)
    requires Accepted(i) && Written(i, k, t, g) && Equity(i) > 0
    ensures ContextEquity(i) == Equity(i) && (ContextBuys(i) <==> MirrorBuys(i))
  {
    EquityExact(i, k, t, g);
    WrittenBounds(i, k, t, g);
    ProductMonotone(0, i.quantity, k);
    ValueExact(i, k, i.quantity);
    hide PowerOfTen, Steps, Context, Ratio, Equity, ContextEquity, ParityMoney, Times, ContextValue, Written;
    WeightExact(i, k, t, g, i.quantity * k, Equity(i));
  }

  /** Candidates of the interval are worth no more than the equity. */
  lemma WithinHigh(i: Input, k: nat, t: nat, g: int, units: int)
    requires Accepted(i) && Written(i, k, t, g) && Equity(i) > 0
    requires units <= i.quantity || units <= ContextTop(i)
    ensures units * k <= Equity(i)
  {
    WrittenBounds(i, k, t, g);
    TopExact(i, k, t, g);
    hide Written, Equity, ContextTop, PowerOfTen;
    if units <= i.quantity {
      ProductMonotone(units, i.quantity, k);
    } else {
      ProductMonotone(units, ContextTop(i), k);
    }
  }

  /**
  For prices and weights written with few enough digits for the equity, rounding every step to
  28 digits changes nothing: the adapter sizes as in exact arithmetic.
  */
  lemma PrecisionSuffices(i: Input)
    requires Accepted(i) && FitsPrecision(i)
    ensures ContextQuantity(i) == MirrorQuantity(i)
  {
    var k: nat, t: nat, g: int :| Written(i, k, t, g);
    EquityExact(i, k, t, g);
    if i.target > 0.0 && Equity(i) > 0 {
      BuysAgree(i, k, t, g);
      TopExact(i, k, t, g);
      assert ContextLow(i) == MirrorLow(i) && ContextHigh(i) == MirrorHigh(i) && 0 <= MirrorLow(i);
      var rounded, exact := ContextAcceptance(i), MirrorAcceptance(i);
      assert forall u :: rounded(u) == ContextIsSafe(i, u);
      assert forall u :: exact(u) == MirrorIsSafe(i, u);
      hide ContextIsSafe, MirrorIsSafe, Written, Equity, ContextEquity, ContextTop, Steps, Context, Ratio, Product;
      forall u | MirrorLow(i) <= u <= MirrorHigh(i)
        ensures rounded(u) == exact(u)
      {
        WithinHigh(i, k, t, g, u);
        SafeAgrees(i, k, t, g, u);
      }
      hide MirrorLow, MirrorHigh, ContextLow, ContextHigh;
      BisectAgrees(rounded, exact, MirrorLow(i), MirrorHigh(i), None);
    }
  }

  /** So what is known of exact arithmetic holds of the adapter as it computes. */
  lemma AdapterAgainstEngine(cfg: Config, i: Input)
    requires IsVersionOne(cfg) && Accepted(i) && OnGrid(i.price) && Equity(i) > 0 && FitsPrecision(i)
    ensures ContextQuantity(i).Some?
    ensures ContextQuantity(i).value <= Sizing.TargetQuantity(cfg, RequestOf(i))
    ensures (forall u :: MirrorLow(i) <= u <= MirrorHigh(i) ==> !InToleranceBand(cfg, i, u)) ==>
      ContextQuantity(i).value == Sizing.TargetQuantity(cfg, RequestOf(i))
  {
    hide ContextQuantity, MirrorQuantity, FitsPrecision, OnGrid, IsVersionOne, InToleranceBand, Equity,
      MirrorLow, MirrorHigh, Sizing.TargetQuantity;
    PrecisionSuffices(i);
    MirrorNeverAboveEngine(cfg, i);
    if forall u :: MirrorLow(i) <= u <= MirrorHigh(i) ==> !InToleranceBand(cfg, i, u) {
      MirrorEqualsEngine(cfg, i);
    }
  }

  /** The adapter raises exactly for a price, holding or cash it cannot have, or a weight outside zero to a tenth. */
  lemma RefusedExactly(i: Input)
    ensures ContextQuantity(i) == None
       <==> i.price <= 0.0 || i.quantity < 0 || i.cash < 0 || i.target < 0.0 || i.target > 0.1
  {
    hide ContextEquity, ContextAcceptance;
  }
}

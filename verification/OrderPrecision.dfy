/**
How far conservation reaches: exactly up to a total of 10^28 steps of the grid the
quantities lie on. One step more can be rounded away.
*/
module OrderPrecision {
  import opened Decimals
  import opened ExactSum
  import opened Options
  import opened OrderEvents
  import opened OrderTheorems
  import opened Rounding

  // ---------- adding to 10^28 steps ----------

  function OneStep(grid: int): Decimal { Decimal(false, 1, grid) }

  function Huge(grid: int): Decimal { Decimal(false, 1, PRECISION + grid) }

  lemma HugeIsRepresentable(grid: int)
    ensures Value(Huge(grid)) == Steps(PowerOfTen(PRECISION), grid) && Value(OneStep(grid)) == Steps(1, grid)
    ensures Representable(Value(Huge(grid)))
    ensures Value(Huge(grid)) > 0.0 && Value(OneStep(grid)) > 0.0
  {
    hide Steps, PowerOfTen;
    StepsShift(1, grid, PRECISION);
    StepsInjective(0, 1, PRECISION + grid);
    StepsInjective(0, 0, PRECISION + grid);
    StepsInjective(0, 1, grid);
    StepsInjective(0, 0, grid);
    PowerOne();
    PowersMonotone(1, PRECISION);
    assert Value(Huge(grid)) == Steps(1, PRECISION + grid) && Magnitude(1) < PowerOfTen(PRECISION);
  }

  /** A few steps more than 10^28 round to the nearest ten of them. */
  lemma HugeSumRounds(a: Decimal, b: Decimal, few: nat, tens: nat, grid: int)
    requires Value(a) + Value(b) == Steps(PowerOfTen(PRECISION) + few, grid)
    requires few <= 100 && 10 * tens - 5 < few < 10 * tens + 5
    ensures Value(ContextAdd(a, b)) == Steps(PowerOfTen(PRECISION) + 10 * tens, grid)
  {
    hide Steps, PowerOfTen, Value, Kept, RoundToContext, DigitCount;
    var n := PowerOfTen(PRECISION) + few;
    var exact := Decimal(false, n, grid);
    ValueOf(exact);
    var sum := Sum(a, b);
    assert Value(sum) == Value(exact);
    if sum.exponent <= grid {
      RoundingRespectsValue(sum, exact);
    } else {
      RoundingRespectsValue(exact, sum);
    }
    TwentyNineDigits(n, few);
    KeptOfHuge(n, few, tens);
    RoundedValue(exact);
    PowersAdd(PRECISION - 1, 1);
    PowerOne();
    StepsShift(PowerOfTen(PRECISION - 1) + tens, grid, 1);
  }

  /** One step added to 10^28 of them is rounded away. */
  lemma HugePlusOne(held: Decimal, grid: int)
    requires Value(held) == Value(Huge(grid))
    ensures Value(ContextAdd(held, OneStep(grid))) == Value(Huge(grid))
  {
    hide Steps, PowerOfTen, Value;
    HugeIsRepresentable(grid);
    StepsAdd(PowerOfTen(PRECISION), 1, grid);
    HugeSumRounds(held, OneStep(grid), 1, 0, grid);
  }

  lemma TwentyNineDigits(n: nat, few: nat)
    requires n == PowerOfTen(PRECISION) + few && few <= 100
    ensures DigitCount(n) == PRECISION + 1
  {
    hide PowerOfTen, DigitCount;
    DigitCountBounds(n);
    var k := DigitCount(n);
    PowersAdd(PRECISION, 1);
    PowersAdd(2, PRECISION - 2);
    ProductMonotone(1, PowerOfTen(PRECISION - 2), PowerOfTen(2));
    Hundred();
    PowerOne();
    if k <= PRECISION {
      PowersMonotone(k, PRECISION);
    } else if k > PRECISION + 1 {
      PowersMonotone(PRECISION + 1, k - 1);
    }
  }

  lemma Hundred()
    ensures PowerOfTen(2) == 100
  {
    assert PowerOfTen(2) == 10 * PowerOfTen(1);
  }

  lemma KeptOfHuge(n: nat, few: nat, tens: nat)
    requires n == PowerOfTen(PRECISION) + few && 10 * tens - 5 < few < 10 * tens + 5
    ensures Kept(n, 1) == PowerOfTen(PRECISION - 1) + tens
  {
    var m: nat := PowerOfTen(PRECISION - 1);
    assert n == 10 * m + few;
    PowerOne();
    TenthRounds(m, few, tens);
  }

  lemma TenthRounds(m: nat, few: nat, tens: nat)
    requires 10 * tens - 5 < few < 10 * tens + 5
    ensures RoundHalfEven(Ratio((10 * m + few) as real, 10.0)) == m + tens
  {
    var x := Ratio((10 * m + few) as real, 10.0);
    assert x == m as real + few as real / 10.0;
    RoundsTo(x, m + tens);
  }

  // ---------- an accepted result that loses a step ----------

  /** An order for 10^28 steps at a price of one, and fills of as many and one more. */
  function HugeOrder(grid: int): Order {
    Order(1, true, UsDollar, Filled, 0, OneStep(0), Huge(grid), Huge(grid), None)
  }

  function HugeFill(grid: int): Event {
    Event(1, true, UsDollar, Filled, 0, OneStep(0), Huge(grid), ZERO, UsDollar)
  }

  function ExtraFill(grid: int): Event { HugeFill(grid).(fillQuantity := OneStep(grid)) }

  lemma HugeOrderAcceptable(grid: int)
    ensures OrderAcceptable(HugeOrder(grid), Fold(0, 0))
  {
    hide Steps, PowerOfTen, Value, RoundToContext;
    HugeIsRepresentable(grid);
    HugeIsRepresentable(0);
    RoundingExactIff(Huge(grid));
    var worth := ContextMultiply(Huge(grid), OneStep(0));
    assert Value(worth) == Value(Huge(grid));
    NegatedValue(worth);
    ZeroTotal();
    ContextAddExactIff(Huge(grid), Negate(worth));
    StepsInjective(0, 1, -2);
    StepsInjective(0, 0, -2);
    ValueOf(CURRENCY_TOLERANCE);
  }

  lemma HugeEventsAcceptable(grid: int)
    ensures EventAcceptable(HugeFill(grid), Ids([HugeOrder(grid)]), Fold(0, 0))
    ensures EventAcceptable(ExtraFill(grid), Ids([HugeOrder(grid)]), Fold(0, 0))
  {
    hide Value, Steps, PowerOfTen;
    assert HugeOrder(grid) in [HugeOrder(grid)];
    HugeIsRepresentable(grid);
    HugeIsRepresentable(0);
    ValueZero(ZERO);
  }

  lemma TwoFills(first: Event, second: Event)
    requires IsFill(first) && IsFill(second) && first.orderId == second.orderId == 1
    ensures FillsOf([first, second], 1) == AllFills([first, second]) == [first.fillQuantity, second.fillQuantity]
    ensures Running(FillsOf([first, second], 1))
      == ContextAdd(ContextAdd(ZERO, first.fillQuantity), second.fillQuantity)
  {
    hide ContextAdd;
    var events := [first, second];
    assert events[..1] == [first] && [first][..0] == [];
    assert FillsOf([first], 1) == [] + [first.fillQuantity] && AllFills([first]) == [] + [first.fillQuantity];
    var qs := [first.fillQuantity, second.fillQuantity];
    assert FillsOf(events, 1) == [first.fillQuantity] + [second.fillQuantity] == qs;
    assert qs[..1] == [first.fillQuantity] && [first.fillQuantity][..0] == [];
    assert Running([first.fillQuantity]) == ContextAdd(Running([]), first.fillQuantity);
  }

  lemma OneFillTrail(f: Fill)
    ensures Trail([f]) == [f.quantity] && Running([f.quantity]) == ContextAdd(ZERO, f.quantity)
    ensures [f.quantity][..0] == [] && [f.quantity][..1] == [f.quantity]
  {
    hide ContextAdd;
    assert [f][..0] == [];
    assert Sorted([f]) == [f];
  }

  lemma OneFillNeverShort(f: Fill)
    requires Value(f.quantity) >= 0.0 && Representable(Value(f.quantity))
    ensures NeverShort(Trail([f])) && Value(Running(Trail([f]))) == Value(f.quantity)
  {
    hide Value, ContextAdd, Trail, Representable;
    OneFillTrail(f);
    ZeroTotal();
    ContextAddExactIff(ZERO, f.quantity);
  }

  lemma HugeFilled(grid: int)
    ensures Value(FilledBy([HugeFill(grid), ExtraFill(grid)], 1)) == Value(Huge(grid))
  {
    hide Value, Steps, PowerOfTen, ContextAdd, FillsOf, AllFills;
    TwoFills(HugeFill(grid), ExtraFill(grid));
    HugeIsRepresentable(grid);
    ZeroTotal();
    ContextAddExactIff(ZERO, Huge(grid));
    HugePlusOne(ContextAdd(ZERO, Huge(grid)), grid);
  }

  /** A result whose fills total 10^28 + 1 steps passes as an order for 10^28. */
  lemma RoundedFillsPass(grid: int)
    ensures var orders, events := [HugeOrder(grid)], [HugeFill(grid), ExtraFill(grid)];
      && AcceptedWithEvents(orders, events, Fold(0, 0))
      && AllFills(events) == FillsOf(events, 1) == [Huge(grid), OneStep(grid)]
      && Value(Running(Trail(CompletedFills(orders, events)))) == Value(HugeOrder(grid).quantity)
      && Total(Value, AllFills(events)) == Value(HugeOrder(grid).quantity) + Value(OneStep(grid))
      && Value(OneStep(grid)) > 0.0
  {
    hide Value, Steps, PowerOfTen, ContextAdd, FillsOf, AllFills, FilledBy, NeverShort, Trail, Running,
         OrderAcceptable, EventAcceptable;
    var orders, events := [HugeOrder(grid)], [HugeFill(grid), ExtraFill(grid)];
    HugeIsRepresentable(grid);
    HugeOrderAcceptable(grid);
    HugeEventsAcceptable(grid);
    HugeFilled(grid);
    var fill := Fill(0, 1, FilledBy(events, 1));
    assert orders[..0] == [];
    assert CompletedFills(orders, events) == [] + [fill] == [fill];
    OneFillNeverShort(fill);
    assert OrderReconciles(HugeOrder(grid), events);
    TwoFills(HugeFill(grid), ExtraFill(grid));
    TotalOfTwo(Huge(grid), OneStep(grid));
  }

  // ---------- the exact reach of conservation ----------

  /** What every accepted result keeps whose fills lie on a grid and total at most so many steps. */
  ghost predicate HoldsUpTo(kept: (seq<Order>, seq<Event>) -> bool, steps: nat, grid: int) {
    forall orders: seq<Order>, events: seq<Event>, fold: Fold ::
      AcceptedWithEvents(orders, events, fold)
      && (forall q | q in AllFills(events) :: OnGrid(Value(q), grid))
      && Total(Size, AllFills(events)) <= Steps(steps, grid)
      ==> kept(orders, events)
  }

  lemma HugeFillsOnGrid(grid: int)
    ensures OnGrid(Value(Huge(grid)), grid) && OnGrid(Value(OneStep(grid)), grid)
    ensures Total(Size, [Huge(grid), OneStep(grid)]) == Steps(PowerOfTen(PRECISION) + 1, grid)
  {
    hide Value, Steps, PowerOfTen, Total;
    HugeIsRepresentable(grid);
    StepsAdd(PowerOfTen(PRECISION), 1, grid);
    assert [Huge(grid), OneStep(grid)] == [Huge(grid)] + [OneStep(grid)];
    TotalSplits(Size, [Huge(grid)], [OneStep(grid)]);
    TotalOfOne(Size, Huge(grid));
    TotalOfOne(Size, OneStep(grid));
  }

  /** Both halves of conservation fail for the result that loses a step. */
  lemma NotConserved(grid: int)
    ensures !PositionConserved([HugeOrder(grid)], [HugeFill(grid), ExtraFill(grid)])
    ensures !OrdersConserved([HugeOrder(grid)], [HugeFill(grid), ExtraFill(grid)])
  {
    RoundedFillsPass(grid);
    hide Value, FillsOf, AllFills, Total, Running, Trail, CompletedFills;
    assert HugeOrder(grid) in [HugeOrder(grid)];
  }

  lemma HoldsWithinReach(kept: (seq<Order>, seq<Event>) -> bool, steps: nat, grid: int)
    requires forall orders, events :: Conserved(orders, events) ==> kept(orders, events)
    ensures steps <= PowerOfTen(PRECISION) ==> HoldsUpTo(kept, steps, grid)
  {
    hide Value, Steps, PowerOfTen, Conserved, AcceptedWithEvents, OnGrid, AllFills, Total;
    if steps <= PowerOfTen(PRECISION) {
      StepsInjective(PowerOfTen(PRECISION), steps, grid);
      forall orders: seq<Order>, events: seq<Event>, fold: Fold |
        AcceptedWithEvents(orders, events, fold)
        && (forall q | q in AllFills(events) :: OnGrid(Value(q), grid))
        && Total(Size, AllFills(events)) <= Steps(steps, grid)
        ensures kept(orders, events)
      {
        FillsConserved(orders, events, fold, grid);
      }
    }
  }

  lemma FailsBeyondReach(kept: (seq<Order>, seq<Event>) -> bool, steps: nat, grid: int)
    requires !kept([HugeOrder(grid)], [HugeFill(grid), ExtraFill(grid)])
    ensures steps > PowerOfTen(PRECISION) ==> !HoldsUpTo(kept, steps, grid)
  {
    hide Value, Steps, PowerOfTen, AcceptedWithEvents, OnGrid, AllFills, Total;
    RoundedFillsPass(grid);
    HugeFillsOnGrid(grid);
    StepsInjective(steps, PowerOfTen(PRECISION) + 1, grid);
  }

  /**
  On every grid, the final position of all accepted results up to a bound is the sum of
  their fills, and all their orders are filled by their own events, exactly if the bound
  is at most 10^28 steps.
  */
  lemma ConservationReach(steps: nat, grid: int)
    ensures HoldsUpTo(PositionConserved, steps, grid) <==> steps <= PowerOfTen(PRECISION)
    ensures HoldsUpTo(OrdersConserved, steps, grid) <==> steps <= PowerOfTen(PRECISION)
    ensures HoldsUpTo(Conserved, steps, grid) <==> steps <= PowerOfTen(PRECISION)
  {
    hide HoldsUpTo, PowerOfTen, PositionConserved, OrdersConserved, NeverTrulyShort;
    HoldsWithinReach(PositionConserved, steps, grid);
    HoldsWithinReach(OrdersConserved, steps, grid);
    HoldsWithinReach(Conserved, steps, grid);
    NotConserved(grid);
    FailsBeyondReach(PositionConserved, steps, grid);
    FailsBeyondReach(OrdersConserved, steps, grid);
    FailsBeyondReach(Conserved, steps, grid);
  }

  // ---------- how far the two paths agree ----------

  function OrderQuantities(orders: seq<Order>): seq<Decimal> {
    seq(|orders|, i requires 0 <= i < |orders| => orders[i].quantity)
  }

  /** Orders accepted by both paths, on a grid and of at most so many steps in all, end with one position. */
  ghost predicate PathsAgreeUpTo(steps: nat, grid: int) {
    forall orders: seq<Order>, events: seq<Event>, fold: Fold ::
      AcceptedWithEvents(orders, events, fold) && AcceptedWithoutEvents(orders, fold)
      && (forall q | q in OrderQuantities(orders) :: OnGrid(Value(q), grid))
      && Total(Size, OrderQuantities(orders)) <= Steps(steps, grid)
      ==> Value(Running(Trail(LastFills(orders)))) == Value(Running(Trail(CompletedFills(orders, events))))
  }

  predicate SameValues(a: seq<Decimal>, b: seq<Decimal>) {
    |a| == |b| && forall i | 0 <= i < |a| :: Value(a[i]) == Value(b[i])
  }

  lemma {:induction false} SameTotals(a: seq<Decimal>, b: seq<Decimal>)
    requires SameValues(a, b)
    ensures Total(Value, a) == Total(Value, b) && Total(Size, a) == Total(Size, b)
    decreases |a|
  {
    hide Value;
    if a != [] {
      SameTotals(a[..|a| - 1], b[..|b| - 1]);
    }
  }

  /** The fills the events path sums up are worth what the orders say. */
  lemma {:induction false} FillsMatchOrders(orders: seq<Order>, events: seq<Event>)
    requires forall o | o in orders :: OrderReconciles(o, events) && o.status.Filled?
    ensures SameValues(Quantities(CompletedFills(orders, events)), OrderQuantities(orders))
    decreases |orders|
  {
    hide Value, FilledBy;
    if orders != [] {
      var rest, o := orders[..|orders| - 1], orders[|orders| - 1];
      assert o in orders;
      FillsMatchOrders(rest, events);
      QuantitiesAppend(CompletedFills(rest, events), Fill(o.time, o.id, FilledBy(events, o.id)));
      assert OrderQuantities(orders) == OrderQuantities(rest) + [o.quantity];
    }
  }

  /** One step more than 10^28, in quantities none of which is zero, is rounded only at the very end. */
  lemma OneRoundingAtMost(quantities: seq<Decimal>, grid: int)
    requires forall q | q in quantities :: OnGrid(Value(q), grid) && Value(q) != 0.0
    requires Total(Size, quantities) == Steps(PowerOfTen(PRECISION) + 1, grid)
    ensures quantities != []
    ensures var front, last := quantities[..|quantities| - 1], quantities[|quantities| - 1];
      && Value(Running(front)) == Total(Value, front)
      && Running(quantities) == RoundToContext(Sum(Running(front), last))
      && Value(Sum(Running(front), last)) == Total(Value, quantities)
  {
    hide Value, Steps, PowerOfTen, OnGrid, Sum, RoundToContext;
    StepsInjective(0, PowerOfTen(PRECISION) + 1, grid);
    StepsInjective(0, 0, grid);
    assert quantities != [] by { TotalOfNone(Size); }
    var front, last := quantities[..|quantities| - 1], quantities[|quantities| - 1];
    assert last in quantities;
    AtLeastOneStep(last, grid);
    StepsAdd(PowerOfTen(PRECISION), 1, grid);
    MeasuredAccumulates(front, grid);
  }

  lemma AtLeastOneStep(q: Decimal, grid: int)
    requires OnGrid(Value(q), grid) && Value(q) != 0.0
    ensures Size(q) >= Steps(1, grid)
  {
    hide Value, Steps;
    var m :| Value(q) == Steps(m, grid);
    StepsInjective(m, 0, grid);
    StepsInjective(0, 0, grid);
    StepsAdd(m, 0, grid);
    StepsInjective(m, 1, grid);
    StepsInjective(-m, 1, grid);
  }

  /** Accumulating the same quantities in any order ends with the same value. */
  lemma OrderIrrelevant(a: seq<Decimal>, b: seq<Decimal>, steps: nat, grid: int)
    requires steps <= PowerOfTen(PRECISION) + 1
    requires forall q | q in a + b :: OnGrid(Value(q), grid) && Value(q) != 0.0
    requires Total(Value, a) == Total(Value, b) && Total(Size, a) == Total(Size, b) <= Steps(steps, grid)
    ensures Value(Running(a)) == Value(Running(b))
  {
    hide Value, Steps, PowerOfTen, OnGrid, Running, Total, Sum, RoundToContext;
    forall q | q in a ensures q in a + b {}
    forall q | q in b ensures q in a + b {}
    if Total(Size, a) <= Steps(PowerOfTen(PRECISION), grid) {
      MeasuredAccumulates(a, grid);
      MeasuredAccumulates(b, grid);
    } else {
      StepsInjective(PowerOfTen(PRECISION) + 1, steps, grid);
      NextStep(a, grid);
      OneRoundingAtMost(a, grid);
      OneRoundingAtMost(b, grid);
      var left := Sum(Running(a[..|a| - 1]), a[|a| - 1]);
      var right := Sum(Running(b[..|b| - 1]), b[|b| - 1]);
      if left.exponent <= right.exponent {
        RoundingRespectsValue(left, right);
      } else {
        RoundingRespectsValue(right, left);
      }
    }
  }

  /** Sizes are whole steps, so what exceeds 10^28 steps by no more than one exceeds it by one. */
  lemma NextStep(quantities: seq<Decimal>, grid: int)
    requires forall q | q in quantities :: OnGrid(Value(q), grid)
    requires Steps(PowerOfTen(PRECISION), grid) < Total(Size, quantities) <= Steps(PowerOfTen(PRECISION) + 1, grid)
    ensures Total(Size, quantities) == Steps(PowerOfTen(PRECISION) + 1, grid)
  {
    hide Value, Steps, PowerOfTen, Total;
    SizesOnGrid(quantities, grid);
    var m :| Total(Size, quantities) == Steps(m, grid);
    StepsInjective(PowerOfTen(PRECISION), m, grid);
    StepsInjective(PowerOfTen(PRECISION) + 1, m, grid);
  }

  lemma {:induction false} SizesOnGrid(quantities: seq<Decimal>, grid: int)
    requires forall q | q in quantities :: OnGrid(Value(q), grid)
    ensures OnGrid(Total(Size, quantities), grid)
  {
    hide Value, Steps, OnGrid;
    if quantities == [] {
      ZeroOnGrid(grid);
    } else {
      var last := quantities[|quantities| - 1];
      SizesOnGrid(quantities[..|quantities| - 1], grid);
      SizeOnGrid(last, grid);
      GridAdds(Total(Size, quantities[..|quantities| - 1]), Size(last), grid);
    }
  }

  lemma SizeOnGrid(q: Decimal, grid: int)
    requires OnGrid(Value(q), grid)
    ensures OnGrid(Size(q), grid)
  {
    hide Value, Steps;
    var m :| Value(q) == Steps(m, grid);
    StepsAdd(m, 0, grid);
    assert Size(q) == Steps(m, grid) || Size(q) == Steps(-m, grid);
  }

  lemma TrailTotals(fills: seq<Fill>, quantities: seq<Decimal>, grid: int)
    requires SameValues(Quantities(fills), quantities)
    requires forall q | q in quantities :: OnGrid(Value(q), grid) && Value(q) != 0.0
    ensures Total(Value, Trail(fills)) == Total(Value, quantities)
    ensures Total(Size, Trail(fills)) == Total(Size, quantities)
    ensures forall q | q in Trail(fills) :: OnGrid(Value(q), grid) && Value(q) != 0.0
  {
    hide Value, OnGrid, Total, Size, Trail, Quantities;
    SameTotals(Quantities(fills), quantities);
    SortedArranges(fills);
    TotalIgnoresOrder(Value, Trail(fills), Quantities(fills));
    TotalIgnoresOrder(Size, Trail(fills), Quantities(fills));
    forall q | q in Trail(fills) ensures OnGrid(Value(q), grid) && Value(q) != 0.0 {
      assert q in multiset(Trail(fills));
      var i :| 0 <= i < |Quantities(fills)| && Quantities(fills)[i] == q;
      assert quantities[i] in quantities;
    }
  }

  lemma PathsAgree(orders: seq<Order>, events: seq<Event>, fold: Fold, steps: nat, grid: int)
    requires AcceptedWithEvents(orders, events, fold) && AcceptedWithoutEvents(orders, fold)
    requires forall q | q in OrderQuantities(orders) :: OnGrid(Value(q), grid)
    requires steps <= PowerOfTen(PRECISION) + 1
    requires Total(Size, OrderQuantities(orders)) <= Steps(steps, grid)
    ensures Value(Running(Trail(LastFills(orders)))) == Value(Running(Trail(CompletedFills(orders, events))))
  {
    hide Value, Steps, PowerOfTen, OnGrid, Total, Size, Trail, Running, FilledBy, CompletedFills, NeverShort,
      EventAcceptable, WithinFold, ContextAdd;
    QuantitiesNonZero(orders, fold);
    FillsMatchOrders(orders, events);
    LastFillsMatch(orders);
    TrailTotals(LastFills(orders), OrderQuantities(orders), grid);
    TrailTotals(CompletedFills(orders, events), OrderQuantities(orders), grid);
    OrderIrrelevant(Trail(LastFills(orders)), Trail(CompletedFills(orders, events)), steps, grid);
  }

  lemma QuantitiesNonZero(orders: seq<Order>, fold: Fold)
    requires OrdersAcceptable(orders, fold)
    ensures forall q | q in OrderQuantities(orders) :: Value(q) != 0.0
  {
    hide Value, ContextAdd, WithinFold;
    forall q | q in OrderQuantities(orders) ensures Value(q) != 0.0 {
      var i :| 0 <= i < |orders| && OrderQuantities(orders)[i] == q;
      assert orders[i] in orders;
    }
  }

  lemma LastFillsMatch(orders: seq<Order>)
    requires forall o | o in orders :: o.lastFillTime.Some?
    ensures SameValues(Quantities(LastFills(orders)), OrderQuantities(orders))
  {
    hide Value;
  }

  // Three orders, for 10^28 steps, one step, and the sale of one step. The events are totalled
  // in the order of the order times, the completed orders in that of their last fills, and the
  // large one comes first here and last there.

  function MinusStep(grid: int): Decimal { Decimal(true, 1, grid) }

  function Filling(id: int, time: int, quantity: Decimal, lastFill: int): Order {
    Order(id, true, UsDollar, Filled, time, OneStep(0), quantity, quantity, Some(lastFill))
  }

  function FillOf(id: int, quantity: Decimal): Event {
    Event(id, true, UsDollar, Filled, 0, OneStep(0), quantity, ZERO, UsDollar)
  }

  function ThreeOrders(grid: int): seq<Order> {
    [Filling(1, 0, Huge(grid), 2), Filling(2, 1, OneStep(grid), 0), Filling(3, 2, MinusStep(grid), 1)]
  }

  function ThreeEvents(grid: int): seq<Event> {
    [FillOf(1, Huge(grid)), FillOf(2, OneStep(grid)), FillOf(3, MinusStep(grid))]
  }

  lemma StepsAreRepresentable(grid: int)
    ensures Value(OneStep(grid)) == Steps(1, grid) && Representable(Value(OneStep(grid)))
    ensures Value(MinusStep(grid)) == Steps(-1, grid) && Representable(Value(MinusStep(grid)))
    ensures Value(OneStep(grid)) > 0.0 && Value(MinusStep(grid)) < 0.0
    ensures Representable(Steps(0, grid)) && Representable(Steps(PowerOfTen(PRECISION) - 1, grid))
  {
    hide Steps, PowerOfTen;
    StepsInjective(0, 1, grid);
    StepsInjective(-1, 0, grid);
    StepsInjective(0, 0, grid);
    PowerOne();
    PowersMonotone(1, PRECISION);
    assert Value(OneStep(grid)) == Steps(1, grid) && Magnitude(1) < PowerOfTen(PRECISION);
    assert Value(MinusStep(grid)) == Steps(-1, grid) && Magnitude(-1) < PowerOfTen(PRECISION);
    assert Magnitude(0) < PowerOfTen(PRECISION) && Magnitude(PowerOfTen(PRECISION) - 1) < PowerOfTen(PRECISION);
  }

  lemma FillingAcceptable(id: int, time: int, quantity: Decimal, lastFill: int)
    requires 0 <= time < 3 && Value(quantity) != 0.0 && Representable(Value(quantity))
    ensures OrderAcceptable(Filling(id, time, quantity, lastFill), Fold(0, 0))
  {
    hide Steps, PowerOfTen, Value, RoundToContext;
    HugeIsRepresentable(0);
    assert Decimal(quantity.negative, quantity.coefficient * 1, quantity.exponent) == quantity by {
      assert quantity.coefficient * 1 == quantity.coefficient;
    }
    RoundingExactIff(Decimal(quantity.negative, quantity.coefficient * 1, quantity.exponent));
    var worth := ContextMultiply(quantity, OneStep(0));
    assert Value(worth) == Value(quantity);
    NegatedValue(worth);
    ZeroTotal();
    ContextAddExactIff(quantity, Negate(worth));
    StepsInjective(0, 1, -2);
    StepsInjective(0, 0, -2);
    ValueOf(CURRENCY_TOLERANCE);
  }

  lemma FirstAddition(quantity: Decimal)
    requires Representable(Value(quantity))
    ensures Value(ContextAdd(ZERO, quantity)) == Value(quantity)
  {
    hide Value, Sum, RoundToContext, Representable;
    ZeroTotal();
    ContextAddExactIff(ZERO, quantity);
  }

  lemma RunningOfThree(a: Decimal, b: Decimal, c: Decimal)
    ensures Running([]) == ZERO && Running([a]) == ContextAdd(ZERO, a)
    ensures Running([a, b]) == ContextAdd(Running([a]), b)
    ensures Running([a, b, c]) == ContextAdd(Running([a, b]), c)
    ensures [a, b, c][..0] == [] && [a, b, c][..1] == [a] && [a, b, c][..2] == [a, b] && [a, b, c][..3] == [a, b, c]
  {
    hide ContextAdd;
    assert [a][..0] == [];
    assert [a, b][..1] == [a];
    assert [a, b, c][..2] == [a, b];
  }

  /** The step after 10^28 is rounded away, the sale of a step is not. */
  lemma LargeFirst(a: Decimal, b: Decimal, c: Decimal, grid: int)
    requires Value(a) == Value(Huge(grid)) && Value(b) == Value(OneStep(grid)) && Value(c) == Value(MinusStep(grid))
    ensures NeverShort([a, b, c]) && Value(Running([a, b, c])) == Steps(PowerOfTen(PRECISION) - 1, grid)
  {
    hide Value, Steps, PowerOfTen, ContextAdd, Running;
    HugeIsRepresentable(grid);
    StepsAreRepresentable(grid);
    ZeroTotal();
    RunningOfThree(a, b, c);
    FirstAddition(a);
    StepsAdd(PowerOfTen(PRECISION), 1, grid);
    HugeSumRounds(Running([a]), b, 1, 0, grid);
    StepsAdd(PowerOfTen(PRECISION), -1, grid);
    ContextAddExactIff(Running([a, b]), c);
    StepsInjective(PowerOfTen(PRECISION) - 1, 0, grid);
    StepsInjective(0, 0, grid);
  }

  /** Before 10^28 the two steps cancel out. */
  lemma LargeLast(a: Decimal, b: Decimal, c: Decimal, grid: int)
    requires Value(a) == Value(OneStep(grid)) && Value(b) == Value(MinusStep(grid)) && Value(c) == Value(Huge(grid))
    ensures NeverShort([a, b, c]) && Value(Running([a, b, c])) == Steps(PowerOfTen(PRECISION), grid)
  {
    hide Value, Steps, PowerOfTen, ContextAdd, Running;
    HugeIsRepresentable(grid);
    StepsAreRepresentable(grid);
    ZeroTotal();
    RunningOfThree(a, b, c);
    FirstAddition(a);
    StepsAdd(1, -1, grid);
    ContextAddExactIff(Running([a]), b);
    StepsAdd(0, PowerOfTen(PRECISION), grid);
    ContextAddExactIff(Running([a, b]), c);
    StepsInjective(0, 0, grid);
  }

  lemma FilledSeparately(grid: int)
    ensures var events := ThreeEvents(grid);
      && FilledBy(events, 1) == ContextAdd(ZERO, Huge(grid))
      && FilledBy(events, 2) == ContextAdd(ZERO, OneStep(grid))
      && FilledBy(events, 3) == ContextAdd(ZERO, MinusStep(grid))
  {
    hide ContextAdd, Running;
    var events := ThreeEvents(grid);
    FillsOfThree(events[0], events[1], events[2], 1);
    FillsOfThree(events[0], events[1], events[2], 2);
    FillsOfThree(events[0], events[1], events[2], 3);
    assert events == [events[0], events[1], events[2]];
    assert FillsOf(events, 1) == [Huge(grid)];
    assert FillsOf(events, 2) == [OneStep(grid)];
    assert FillsOf(events, 3) == [MinusStep(grid)];
    hide FillsOf;
    RunningOfThree(Huge(grid), ZERO, ZERO);
    RunningOfThree(OneStep(grid), ZERO, ZERO);
    RunningOfThree(MinusStep(grid), ZERO, ZERO);
  }

  lemma FillsOfThree(a: Event, b: Event, c: Event, id: int)
    requires IsFill(a) && IsFill(b) && IsFill(c)
    ensures FillsOf([a, b, c], id)
      == (if a.orderId == id then [a.fillQuantity] else [])
       + (if b.orderId == id then [b.fillQuantity] else [])
       + (if c.orderId == id then [c.fillQuantity] else [])
  {
    assert [a, b, c][..2] == [a, b] && [a, b][..1] == [a] && [a][..0] == [];
    assert FillsOf([a], id) == [] + if a.orderId == id then [a.fillQuantity] else [];
    assert FillsOf([a, b], id) == FillsOf([a], id) + if b.orderId == id then [b.fillQuantity] else [];
  }

  lemma SortedStep(fills: seq<Fill>, f: Fill)
    ensures Sorted(fills + [f]) == Insert(f, Sorted(fills))
  {
    assert (fills + [f])[..|fills|] == fills;
  }

  lemma InsertLast(f: Fill, sorted: seq<Fill>)
    requires sorted != [] ==> !After(sorted[|sorted| - 1], f)
    ensures Insert(f, sorted) == sorted + [f]
  {
  }

  lemma InsertBeforeLast(f: Fill, sorted: seq<Fill>, last: Fill)
    requires After(last, f)
    ensures Insert(f, sorted + [last]) == Insert(f, sorted) + [last]
  {
    assert (sorted + [last])[..|sorted|] == sorted;
  }

  lemma SortedOfOne(f: Fill)
    ensures Sorted([f]) == [f]
  {
    assert [f][..0] == [];
  }

  lemma SortedOfThree(a: Fill, b: Fill, c: Fill)
    requires a.time < b.time < c.time
    ensures Sorted([a, b, c]) == [a, b, c] && Sorted([c, a, b]) == [a, b, c]
  {
    hide Sorted, Insert;
    SortedOfOne(a);
    SortedStep([a], b);
    SortedStep([a, b], c);
    InsertLast(b, [a]);
    InsertLast(c, [a, b]);
    SortedOfOne(c);
    SortedStep([c], a);
    SortedStep([c, a], b);
    InsertBeforeLast(a, [], c);
    InsertLast(a, []);
    InsertBeforeLast(b, [a], c);
    assert [a] + [b] == [a, b] && [c] + [a] == [c, a] && [a] + [c] == [a, c];
    assert [a, b] + [c] == [a, b, c] && [c, a] + [b] == [c, a, b] && [] + [c] == [c] && [] + [a] == [a];
  }

  /** Both paths accept the three orders, and end a step apart. */
  lemma PathsDisagree(grid: int)
    ensures var orders, events, fold := ThreeOrders(grid), ThreeEvents(grid), Fold(0, 0);
      && AcceptedWithEvents(orders, events, fold) && AcceptedWithoutEvents(orders, fold)
      && Value(Running(Trail(CompletedFills(orders, events)))) == Steps(PowerOfTen(PRECISION) - 1, grid)
      && Value(Running(Trail(LastFills(orders)))) == Steps(PowerOfTen(PRECISION), grid)
  {
    hide Value, Steps, PowerOfTen, ContextAdd, Running, FilledBy, NeverShort, OrderAcceptable, EventAcceptable, Sorted;
    var orders, events := ThreeOrders(grid), ThreeEvents(grid);
    HugeIsRepresentable(grid);
    StepsAreRepresentable(grid);
    ThreeOrdersAcceptable(grid);
    ThreeEventsAcceptable(grid);
    FilledSeparately(grid);
    FirstAddition(Huge(grid));
    FirstAddition(OneStep(grid));
    FirstAddition(MinusStep(grid));
    var f, s, m := ContextAdd(ZERO, Huge(grid)), ContextAdd(ZERO, OneStep(grid)), ContextAdd(ZERO, MinusStep(grid));
    CompletedOfThree(grid);
    SortedOfThree(Fill(0, 1, f), Fill(1, 2, s), Fill(2, 3, m));
    assert Quantities([Fill(0, 1, f), Fill(1, 2, s), Fill(2, 3, m)]) == [f, s, m];
    LargeFirst(f, s, m, grid);
    assert LastFills(orders) == [Fill(2, 1, Huge(grid)), Fill(0, 2, OneStep(grid)), Fill(1, 3, MinusStep(grid))];
    SortedOfThree(Fill(0, 2, OneStep(grid)), Fill(1, 3, MinusStep(grid)), Fill(2, 1, Huge(grid)));
    assert Quantities([Fill(0, 2, OneStep(grid)), Fill(1, 3, MinusStep(grid)), Fill(2, 1, Huge(grid))])
      == [OneStep(grid), MinusStep(grid), Huge(grid)];
    LargeLast(OneStep(grid), MinusStep(grid), Huge(grid), grid);
    HugeIsRepresentable(0);
  }

  lemma ThreeOrdersAcceptable(grid: int)
    ensures OrdersAcceptable(ThreeOrders(grid), Fold(0, 0))
  {
    hide Value, Steps, PowerOfTen, OrderAcceptable;
    HugeIsRepresentable(grid);
    StepsAreRepresentable(grid);
    FillingAcceptable(1, 0, Huge(grid), 2);
    FillingAcceptable(2, 1, OneStep(grid), 0);
    FillingAcceptable(3, 2, MinusStep(grid), 1);
  }

  lemma ThreeEventsAcceptable(grid: int)
    ensures forall e | e in ThreeEvents(grid) :: EventAcceptable(e, Ids(ThreeOrders(grid)), Fold(0, 0))
  {
    hide Value, Steps, PowerOfTen;
    HugeIsRepresentable(grid);
    StepsAreRepresentable(grid);
    HugeIsRepresentable(0);
    ValueZero(ZERO);
    var orders := ThreeOrders(grid);
    assert orders[0] in orders && orders[1] in orders && orders[2] in orders;
  }

  lemma CompletedOfThree(grid: int)
    ensures var events := ThreeEvents(grid);
      CompletedFills(ThreeOrders(grid), events)
      == [Fill(0, 1, FilledBy(events, 1)), Fill(1, 2, FilledBy(events, 2)), Fill(2, 3, FilledBy(events, 3))]
  {
    hide FilledBy;
    var orders, events := ThreeOrders(grid), ThreeEvents(grid);
    assert orders[..2] == [orders[0], orders[1]] && orders[..2][..1] == [orders[0]] && [orders[0]][..0] == [];
    assert CompletedFills([], events) == [];
    assert CompletedFills([orders[0]], events) == [Fill(0, 1, FilledBy(events, 1))];
    assert CompletedFills(orders[..2], events) == [Fill(0, 1, FilledBy(events, 1))] + [Fill(1, 2, FilledBy(events, 2))];
  }

  lemma ThreeQuantities(grid: int)
    ensures var qs := OrderQuantities(ThreeOrders(grid));
      && (forall q | q in qs :: OnGrid(Value(q), grid))
      && Total(Size, qs) == Steps(PowerOfTen(PRECISION) + 2, grid)
  {
    hide Value, Steps, PowerOfTen, Total;
    HugeIsRepresentable(grid);
    StepsAreRepresentable(grid);
    var qs := OrderQuantities(ThreeOrders(grid));
    assert qs == [Huge(grid)] + [OneStep(grid)] + [MinusStep(grid)];
    TotalSplits(Size, [Huge(grid)], [OneStep(grid)]);
    TotalSplits(Size, [Huge(grid)] + [OneStep(grid)], [MinusStep(grid)]);
    TotalOfOne(Size, Huge(grid));
    TotalOfOne(Size, OneStep(grid));
    TotalOfOne(Size, MinusStep(grid));
    StepsAdd(1, 0, grid);
    StepsAdd(PowerOfTen(PRECISION), 1, grid);
    StepsAdd(PowerOfTen(PRECISION) + 1, 1, grid);
  }

  /**
  On every grid, the path that looks at the events and the one that does not end with the same
  position for all orders up to a total exactly if it is at most one step more than 10^28.
  */
  lemma AgreementReach(steps: nat, grid: int)
    ensures PathsAgreeUpTo(steps, grid) <==> steps <= PowerOfTen(PRECISION) + 1
  {
    hide Value, Steps, PowerOfTen, AcceptedWithEvents, OnGrid, Total, Running, Trail,
      CompletedFills, LastFills, OrderQuantities;
    if steps <= PowerOfTen(PRECISION) + 1 {
      forall orders: seq<Order>, events: seq<Event>, fold: Fold |
        AcceptedWithEvents(orders, events, fold) && AcceptedWithoutEvents(orders, fold)
        && (forall q | q in OrderQuantities(orders) :: OnGrid(Value(q), grid))
        && Total(Size, OrderQuantities(orders)) <= Steps(steps, grid)
        ensures Value(Running(Trail(LastFills(orders)))) == Value(Running(Trail(CompletedFills(orders, events))))
      {
        PathsAgree(orders, events, fold, steps, grid);
      }
    } else {
      PathsDisagree(grid);
      ThreeQuantities(grid);
      StepsInjective(steps, PowerOfTen(PRECISION) + 2, grid);
      StepsInjective(PowerOfTen(PRECISION), PowerOfTen(PRECISION) - 1, grid);
    }
  }
}

/**
Conservation across orders and fill events: what a reconciled result guarantees about
its quantities, exactly when 28-digit accumulation is exact, and what goes wrong beyond.
*/
module OrderTheorems {
  import opened Decimals
  import opened ExactSum
  import opened OrderEvents
  import opened Rounding

  // ---------- when accumulation is exact ----------

  ghost predicate AlwaysRepresentable(quantities: seq<Decimal>) {
    forall n | 0 <= n <= |quantities| :: Representable(Total(Value, quantities[..n]))
  }

  ghost predicate AccumulatesExactly(quantities: seq<Decimal>) {
    forall n | 0 <= n <= |quantities| :: Value(Running(quantities[..n])) == Total(Value, quantities[..n])
  }

  lemma ContextAddExactIff(a: Decimal, b: Decimal)
    ensures Value(ContextAdd(a, b)) == Value(a) + Value(b) <==> Representable(Value(a) + Value(b))
    ensures Representable(Value(ContextAdd(a, b)))
  {
    hide Value, Sum, RoundToContext;
    RoundingExactIff(Sum(a, b));
  }

  lemma ZeroTotal()
    ensures Value(ZERO) == 0.0 && Representable(0.0)
  {
    ValueZero(ZERO);
    ZeroRepresentable(ZERO);
  }

  /** Every running total is exact precisely when 28 digits hold every true partial total. */
  lemma RunningExactIff(quantities: seq<Decimal>)
    ensures AccumulatesExactly(quantities) <==> AlwaysRepresentable(quantities)
  {
    hide Value, ContextAdd, Running, Total;
    forall n | 0 <= n <= |quantities|
      ensures Value(Running(quantities[..n])) == Total(Value, quantities[..n]) ==>
                Representable(Total(Value, quantities[..n]))
    {
      RunningRepresentable(quantities[..n]);
    }
    if AlwaysRepresentable(quantities) {
      forall n | 0 <= n <= |quantities|
        ensures Value(Running(quantities[..n])) == Total(Value, quantities[..n])
      {
        RunningExact(quantities, n);
      }
    }
  }

  lemma RunningRepresentable(quantities: seq<Decimal>)
    ensures Representable(Value(Running(quantities)))
  {
    hide Value, ContextAdd;
    ZeroTotal();
    if quantities != [] {
      ContextAddExactIff(Running(quantities[..|quantities| - 1]), quantities[|quantities| - 1]);
    }
  }

  lemma {:induction false} RunningExact(quantities: seq<Decimal>, n: nat)
    requires AlwaysRepresentable(quantities) && n <= |quantities|
    ensures Value(Running(quantities[..n])) == Total(Value, quantities[..n])
  {
    hide Value, ContextAdd;
    if n == 0 {
      ZeroTotal();
    } else {
      RunningExact(quantities, n - 1);
      assert quantities[..n][..n - 1] == quantities[..n - 1];
      assert Representable(Total(Value, quantities[..n]));
      ContextAddExactIff(Running(quantities[..n - 1]), quantities[n - 1]);
    }
  }

  // ---------- quantities on one grid ----------

  function Size(d: Decimal): real { Abs(Value(d)) }

  ghost predicate OnGrid(v: real, grid: int) { exists count :: v == Steps(count, grid) }

  /** Whole multiples of 10^grid whose sizes add up to at most 10^28 of them. */
  ghost predicate Measured(quantities: seq<Decimal>, grid: int) {
    && (forall q | q in quantities :: OnGrid(Value(q), grid))
    && Total(Size, quantities) <= Steps(PowerOfTen(PRECISION), grid)
  }

  lemma GridAdds(a: real, b: real, grid: int)
    requires OnGrid(a, grid) && OnGrid(b, grid)
    ensures OnGrid(a + b, grid)
  {
    hide Steps;
    var m :| a == Steps(m, grid);
    var n :| b == Steps(n, grid);
    StepsAdd(m, n, grid);
  }

  lemma ZeroOnGrid(grid: int)
    ensures OnGrid(0.0, grid)
  {
    StepsInjective(0, 0, grid);
  }

  lemma SizeNonNegative(d: Decimal)
    ensures Size(d) >= 0.0
  {
  }

  lemma {:induction false} TotalOnGrid(quantities: seq<Decimal>, grid: int)
    requires forall q | q in quantities :: OnGrid(Value(q), grid)
    ensures OnGrid(Total(Value, quantities), grid)
    ensures Total(Size, quantities) >= Abs(Total(Value, quantities))
  {
    hide Value, Steps, OnGrid;
    if quantities == [] {
      ZeroOnGrid(grid);
    } else {
      TotalOnGrid(quantities[..|quantities| - 1], grid);
      GridAdds(Total(Value, quantities[..|quantities| - 1]), Value(quantities[|quantities| - 1]), grid);
    }
  }

  lemma GridRepresentable(v: real, grid: int)
    requires OnGrid(v, grid) && Abs(v) <= Steps(PowerOfTen(PRECISION), grid)
    ensures Representable(v)
  {
    hide Steps, PowerOfTen;
    var m :| v == Steps(m, grid);
    StepsAdd(m, 0, grid);
    StepsInjective(PowerOfTen(PRECISION), m, grid);
    StepsInjective(PowerOfTen(PRECISION), -m, grid);
    if Magnitude(m) == PowerOfTen(PRECISION) {
      FullScale(m, grid);
    }
  }

  /** 10^28 steps are 10^27 steps ten times as long. */
  lemma FullScale(m: int, grid: int)
    requires Magnitude(m) == PowerOfTen(PRECISION)
    ensures Representable(Steps(m, grid))
  {
    hide Steps, PowerOfTen;
    PowersAdd(PRECISION - 1, 1);
    PowerOne();
    var tenth: int := PowerOfTen(PRECISION - 1);
    var count := if m < 0 then -tenth else tenth;
    StepsShift(count, grid, 1);
    assert m == count * PowerOfTen(1);
    assert Magnitude(count) < PowerOfTen(PRECISION);
  }

  lemma {:induction false} PartOfSize(quantities: seq<Decimal>, n: nat)
    requires n <= |quantities|
    ensures Total(Size, quantities[..n]) <= Total(Size, quantities)
    decreases |quantities|
  {
    hide Value;
    if n == |quantities| {
      assert quantities[..n] == quantities;
    } else {
      PartOfSize(quantities[..|quantities| - 1], n);
      assert quantities[..|quantities| - 1][..n] == quantities[..n];
    }
  }

  lemma MeasuredAlwaysRepresentable(quantities: seq<Decimal>, grid: int)
    requires Measured(quantities, grid)
    ensures AlwaysRepresentable(quantities)
  {
    hide Value, Steps, OnGrid, Representable, Total;
    forall n | 0 <= n <= |quantities|
      ensures Representable(Total(Value, quantities[..n]))
    {
      PartOfSize(quantities, n);
      TotalOnGrid(quantities[..n], grid);
      GridRepresentable(Total(Value, quantities[..n]), grid);
    }
  }

  /** Measured quantities accumulate without rounding, up to every point. */
  lemma MeasuredAccumulates(quantities: seq<Decimal>, grid: int)
    requires Measured(quantities, grid)
    ensures AccumulatesExactly(quantities)
    ensures Value(Running(quantities)) == Total(Value, quantities)
  {
    hide Value, Measured, Running, Total;
    MeasuredAlwaysRepresentable(quantities, grid);
    RunningExactIff(quantities);
    assert quantities[..|quantities|] == quantities;
  }

  /** Any decimals lie on a common grid: that of their smallest exponent. */
  lemma CommonGrid(quantities: seq<Decimal>)
    requires quantities != []
    ensures forall q | q in quantities :: OnGrid(Value(q), SmallestExponent(quantities))
  {
    hide Steps, Value, SmallestExponent;
    var grid := SmallestExponent(quantities);
    forall q | q in quantities ensures OnGrid(Value(q), grid) {
      var count := Signed(q.negative, q.coefficient);
      StepsShift(count, grid, q.exponent - grid);
      ValueOf(q);
    }
  }

  // ---------- events partitioned by order ----------

  /** The quantities of all fill events, in file order. */
  function AllFills(events: seq<Event>): seq<Decimal> {
    if events == [] then []
    else
      var e := events[|events| - 1];
      AllFills(events[..|events| - 1]) + if IsFill(e) then [e.fillQuantity] else []
  }

  function SumOverOrders(measure: Decimal -> real, orders: seq<Order>, events: seq<Event>): real {
    if orders == [] then 0.0
    else
      var last := orders[|orders| - 1];
      SumOverOrders(measure, orders[..|orders| - 1], events) + Total(measure, FillsOf(events, last.id))
  }

  lemma {:induction false} NoEventsNoFills(measure: Decimal -> real, orders: seq<Order>)
    ensures SumOverOrders(measure, orders, []) == 0.0
  {
    if orders != [] {
      NoEventsNoFills(measure, orders[..|orders| - 1]);
    }
  }

  lemma TotalGains(measure: Decimal -> real, ds: seq<Decimal>, d: Decimal)
    ensures Total(measure, ds + [d]) == Total(measure, ds) + measure(d)
    ensures ds + [] == ds
  {
    TotalSplits(measure, ds, [d]);
    TotalOfOne(measure, d);
  }

  /** One more event adds to the total of its own order and of no other. */
  lemma {:induction false} OneOrderGains(measure: Decimal -> real, orders: seq<Order>, events: seq<Event>)
    requires events != [] && DistinctIds(orders)
    ensures var e := events[|events| - 1];
      SumOverOrders(measure, orders, events)
      == SumOverOrders(measure, orders, events[..|events| - 1])
       + if IsFill(e) && e.orderId in Ids(orders) then measure(e.fillQuantity) else 0.0
  {
    hide Total, IsFill;
    if orders != [] {
      var e := events[|events| - 1];
      var o := orders[|orders| - 1];
      var rest := orders[..|orders| - 1];
      assert orders == rest + [o];
      OneOrderGains(measure, rest, events);
      TotalGains(measure, FillsOf(events[..|events| - 1], o.id), e.fillQuantity);
      assert Ids(orders) == Ids(rest) + {o.id};
      assert o.id !in Ids(rest) by { LastIdIsNew(orders); }
    }
  }

  lemma LastIdIsNew(orders: seq<Order>)
    requires orders != [] && DistinctIds(orders)
    ensures orders[|orders| - 1].id !in Ids(orders[..|orders| - 1])
  {
  }

  /** Every fill belongs to exactly one order. */
  lemma {:induction false} FillsPartition(measure: Decimal -> real, orders: seq<Order>, events: seq<Event>)
    requires DistinctIds(orders)
    requires forall e | e in events :: e.orderId in Ids(orders)
    ensures SumOverOrders(measure, orders, events) == Total(measure, AllFills(events))
  {
    hide Ids, DistinctIds, IsFill, Total, FillsOf, SumOverOrders;
    if events == [] {
      NoEventsNoFills(measure, orders);
      TotalOfNone(measure);
    } else {
      var e := events[|events| - 1];
      assert e in events;
      FillsPartition(measure, orders, events[..|events| - 1]);
      OneOrderGains(measure, orders, events);
      TotalGains(measure, AllFills(events[..|events| - 1]), e.fillQuantity);
    }
  }

  lemma {:induction false} OrdersFillsAmongAll(events: seq<Event>, id: int)
    ensures forall q | q in FillsOf(events, id) :: q in AllFills(events)
    ensures Total(Size, FillsOf(events, id)) <= Total(Size, AllFills(events))
  {
    hide Size, IsFill, Total;
    if events == [] {
    } else {
      var e, before := events[|events| - 1], events[..|events| - 1];
      OrdersFillsAmongAll(before, id);
      TotalGains(Size, FillsOf(before, id), e.fillQuantity);
      TotalGains(Size, AllFills(before), e.fillQuantity);
      SizeNonNegative(e.fillQuantity);
    }
  }

  /** The fills of one order accumulate exactly whenever all fills together are measured. */
  lemma OrderAccumulates(events: seq<Event>, id: int, grid: int)
    requires Measured(AllFills(events), grid)
    ensures Value(FilledBy(events, id)) == Total(Value, FillsOf(events, id))
    ensures OnGrid(Value(FilledBy(events, id)), grid)
    ensures Size(FilledBy(events, id)) <= Total(Size, FillsOf(events, id))
  {
    hide Value, Steps, OnGrid, Running, Total, FillsOf, AllFills;
    OrdersFillsAmongAll(events, id);
    MeasuredAccumulates(FillsOf(events, id), grid);
    TotalOnGrid(FillsOf(events, id), grid);
  }

  // ---------- sorting ----------

  predicate InOrder(fills: seq<Fill>) {
    forall i, j | 0 <= i < j < |fills| :: !After(fills[i], fills[j])
  }

  lemma {:induction false} InsertAdds(f: Fill, sorted: seq<Fill>)
    ensures multiset(Insert(f, sorted)) == multiset(sorted) + multiset{f}
    ensures multiset(Quantities(Insert(f, sorted))) == multiset(Quantities(sorted)) + multiset{f.quantity}
  {
    if sorted != [] && After(sorted[|sorted| - 1], f) {
      var front, last := sorted[..|sorted| - 1], sorted[|sorted| - 1];
      InsertAdds(f, front);
      assert sorted == front + [last];
      QuantitiesAppend(front, last);
      QuantitiesAppend(Insert(f, front), last);
    } else {
      QuantitiesAppend(sorted, f);
    }
  }

  lemma QuantitiesAppend(fills: seq<Fill>, f: Fill)
    ensures Quantities(fills + [f]) == Quantities(fills) + [f.quantity]
  {
  }

  lemma {:induction false} InsertKeepsOrder(f: Fill, sorted: seq<Fill>)
    requires InOrder(sorted)
    ensures InOrder(Insert(f, sorted))
  {
    if sorted != [] && After(sorted[|sorted| - 1], f) {
      var front, last := sorted[..|sorted| - 1], sorted[|sorted| - 1];
      var inserted := Insert(f, front);
      InsertKeepsOrder(f, front);
      InsertAdds(f, front);
      forall i | 0 <= i < |inserted| ensures !After(inserted[i], last) {
        assert inserted[i] in multiset(inserted);
        assert inserted[i] == f || inserted[i] in front;
      }
    } else if sorted != [] {
      forall i | 0 <= i < |sorted| ensures !After(sorted[i], f) {
        assert i == |sorted| - 1 || !After(sorted[i], sorted[|sorted| - 1]);
      }
    }
  }

  /** Sorting rearranges the fills into (time, id) order and loses none. */
  lemma {:induction false} SortedArranges(fills: seq<Fill>)
    ensures InOrder(Sorted(fills)) && multiset(Sorted(fills)) == multiset(fills)
    ensures multiset(Trail(fills)) == multiset(Quantities(fills))
  {
    if fills != [] {
      hide InOrder, Insert, Quantities;
      var front, last := fills[..|fills| - 1], fills[|fills| - 1];
      SortedArranges(front);
      InsertAdds(last, Sorted(front));
      InsertKeepsOrder(last, Sorted(front));
      assert fills == front + [last];
      QuantitiesAppend(front, last);
    }
  }

  lemma MeasuredTrail(fills: seq<Fill>, grid: int)
    requires Measured(Quantities(fills), grid)
    ensures Measured(Trail(fills), grid)
    ensures Total(Value, Trail(fills)) == Total(Value, Quantities(fills))
  {
    hide Value, Steps, OnGrid, Total, Size, Quantities, Trail;
    SortedArranges(fills);
    TotalIgnoresOrder(Value, Trail(fills), Quantities(fills));
    TotalIgnoresOrder(Size, Trail(fills), Quantities(fills));
    forall q | q in Trail(fills) ensures OnGrid(Value(q), grid) {
      assert q in multiset(Trail(fills));
      assert q in Quantities(fills);
    }
  }

  // ---------- conservation ----------

  lemma {:induction false} CompletedTotals(orders: seq<Order>, events: seq<Event>, grid: int)
    requires Measured(AllFills(events), grid)
    requires forall o | o in orders :: OrderReconciles(o, events)
    ensures var qs := Quantities(CompletedFills(orders, events));
      && (forall q | q in qs :: OnGrid(Value(q), grid))
      && Total(Value, qs) == SumOverOrders(Value, orders, events)
      && Total(Size, qs) <= SumOverOrders(Size, orders, events)
  {
    hide Value, Steps, OnGrid, Total, Size, FillsOf, FilledBy, AllFills, Measured;
    if orders == [] {
      TotalOfNone(Value);
      TotalOfNone(Size);
    } else {
      var rest, o := orders[..|orders| - 1], orders[|orders| - 1];
      assert o in orders;
      CompletedTotals(rest, events, grid);
      OrderAccumulates(events, o.id, grid);
      var before := CompletedFills(rest, events);
      var filled := FilledBy(events, o.id);
      if o.status.Filled? {
        assert Quantities(CompletedFills(orders, events)) == Quantities(before) + [filled];
        TotalGains(Value, Quantities(before), filled);
        TotalGains(Size, Quantities(before), filled);
      } else {
        assert before + [] == before;
        SizeNonNegative(filled);
      }
    }
  }

  lemma EventsKnown(orders: seq<Order>, events: seq<Event>, fold: Fold)
    requires forall e | e in events :: EventAcceptable(e, Ids(orders), fold)
    ensures forall e | e in events :: e.orderId in Ids(orders)
  {
  }

  /** The final position is the true sum of all fill events. */
  ghost predicate PositionConserved(orders: seq<Order>, events: seq<Event>) {
    Value(Running(Trail(CompletedFills(orders, events)))) == Total(Value, AllFills(events))
  }

  /** Every filled order is filled by its own events exactly, every other order not at all. */
  ghost predicate OrdersConserved(orders: seq<Order>, events: seq<Event>) {
    forall o | o in orders ::
      Total(Value, FillsOf(events, o.id)) == if o.status.Filled? then Value(o.quantity) else 0.0
  }

  /** No true partial position is short. */
  ghost predicate NeverTrulyShort(orders: seq<Order>, events: seq<Event>) {
    var trail := Trail(CompletedFills(orders, events));
    forall n | 0 <= n <= |trail| :: Total(Value, trail[..n]) >= 0.0
  }

  ghost predicate Conserved(orders: seq<Order>, events: seq<Event>) {
    PositionConserved(orders, events) && OrdersConserved(orders, events) && NeverTrulyShort(orders, events)
  }

  /**
  Conservation: in an accepted result the final position is the true sum of all fill
  events, every filled order is filled by its own events to the last share, every other
  order is not filled at all, and the position never goes short on the way.
  */
  lemma FillsConserved(orders: seq<Order>, events: seq<Event>, fold: Fold, grid: int)
    requires AcceptedWithEvents(orders, events, fold)
    requires Measured(AllFills(events), grid)
    ensures Conserved(orders, events)
  {
    hide Value, Steps, OnGrid, Total, Size, FillsOf, AllFills, FilledBy, Running, Trail, SumOverOrders, CompletedFills,
         OrderAcceptable, EventAcceptable, Ids, DistinctIds;
    EventsKnown(orders, events, fold);
    var fills := CompletedFills(orders, events);
    CompletedTotals(orders, events, grid);
    FillsPartition(Value, orders, events);
    FillsPartition(Size, orders, events);
    MeasuredTrail(fills, grid);
    MeasuredAccumulates(Trail(fills), grid);
    forall o | o in orders
      ensures Total(Value, FillsOf(events, o.id)) == if o.status.Filled? then Value(o.quantity) else 0.0
    {
      assert OrderReconciles(o, events);
      OrderAccumulates(events, o.id, grid);
    }
    forall n | 0 <= n <= |Trail(fills)| ensures Total(Value, Trail(fills)[..n]) >= 0.0 {
      assert Value(Running(Trail(fills)[..n])) >= 0.0;
    }
  }

  /** No grid need be known: fills of any precision lie on that of their smallest exponent. */
  lemma FillsConservedOnOwnGrid(orders: seq<Order>, events: seq<Event>, fold: Fold)
    requires AcceptedWithEvents(orders, events, fold)
    requires AllFills(events) != [] ==>
      Total(Size, AllFills(events)) <= Steps(PowerOfTen(PRECISION), SmallestExponent(AllFills(events)))
    ensures Conserved(orders, events)
  {
    hide Value, Steps, PowerOfTen, OnGrid, Total, Size, AllFills, Conserved, AcceptedWithEvents, SmallestExponent;
    if AllFills(events) == [] {
      TotalOfNone(Size);
      StepsInjective(0, PowerOfTen(PRECISION), 0);
      StepsInjective(0, 0, 0);
      FillsConserved(orders, events, fold, 0);
    } else {
      CommonGrid(AllFills(events));
      FillsConserved(orders, events, fold, SmallestExponent(AllFills(events)));
    }
  }
}

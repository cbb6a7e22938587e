/**
Reconciliation of the orders of a backtest result with their fill events. Quantities
are accumulated with the 28-digit arithmetic of the default decimal context.
*/
module OrderEvents {
  import opened Decimals
  import opened ExactSum
  import opened Options
  import opened Rounding

  // ---------- records ----------

  datatype Status = PartiallyFilled | Filled | Canceled | Invalid
  datatype Currency = UsDollar | Unstated | OtherCurrency

  datatype Order = Order(
    id: int, isSpy: bool, currency: Currency, status: Status, time: int,
    price: Decimal, quantity: Decimal, value: Decimal, lastFillTime: Option<int>)

  datatype Event = Event(
    orderId: int, isSpy: bool, currency: Currency, status: Status, time: int,
    fillPrice: Decimal, fillQuantity: Decimal, fee: Decimal, feeCurrency: Currency)

  datatype Fill = Fill(time: int, orderId: int, quantity: Decimal)

  /** The first and last day of the declared fold. */
  datatype Fold = Fold(start: int, end: int)

  datatype Source = FromOrderEvents | FromCompletedOrders

  datatype Summary = Summary(
    completedOrderCount: nat,
    eventTotalFees: Option<Decimal>,
    finalPosition: Decimal,
    orderCount: nat,
    source: Source)

  const MAX_ORDERS: nat := 10_000
  const CURRENCY_TOLERANCE: Decimal := Decimal(false, 1, -2)
  const SECONDS_PER_DAY: int := 86_400

  // ---------- context arithmetic ----------

  function ContextAdd(a: Decimal, b: Decimal): Decimal { RoundToContext(Sum(a, b)) }

  function Negate(d: Decimal): Decimal { d.(negative := !d.negative) }

  function ContextMultiply(a: Decimal, b: Decimal): Decimal {
    RoundToContext(Decimal(a.negative != b.negative, a.coefficient * b.coefficient, a.exponent + b.exponent))
  }

  /** The running total `+=` leaves behind. */
  function Running(quantities: seq<Decimal>): Decimal {
    if quantities == [] then ZERO
    else ContextAdd(Running(quantities[..|quantities| - 1]), quantities[|quantities| - 1])
  }

  // ---------- acceptance ----------

  predicate WithinFold(time: int, fold: Fold) { fold.start <= time / SECONDS_PER_DAY <= fold.end }

  predicate OrderAcceptable(o: Order, fold: Fold) {
    && o.isSpy && o.currency == UsDollar
    && Value(o.price) >= 0.0 && Value(o.quantity) != 0.0
    && WithinFold(o.time, fold)
    && Abs(Value(ContextAdd(o.value, Negate(ContextMultiply(o.quantity, o.price))))) <= Value(CURRENCY_TOLERANCE)
  }

  predicate DistinctIds(orders: seq<Order>) {
    forall i, j | 0 <= i < j < |orders| :: orders[i].id != orders[j].id
  }

  predicate OrdersAcceptable(orders: seq<Order>, fold: Fold) {
    && |orders| <= MAX_ORDERS && DistinctIds(orders)
    && forall o | o in orders :: OrderAcceptable(o, fold)
  }

  predicate IsFill(e: Event) { e.status.PartiallyFilled? || e.status.Filled? }

  predicate FeeAcceptable(e: Event) {
    Value(e.fee) >= 0.0 && !e.feeCurrency.OtherCurrency? && (Value(e.fee) != 0.0 ==> e.feeCurrency.UsDollar?)
  }

  predicate EventAcceptable(e: Event, ids: set<int>, fold: Fold) {
    && e.orderId in ids && e.isSpy && WithinFold(e.time, fold) && e.currency == UsDollar
    && Value(e.fillPrice) >= 0.0 && FeeAcceptable(e)
    && (if IsFill(e) then Value(e.fillQuantity) != 0.0 && Value(e.fillPrice) > 0.0
        else Value(e.fillQuantity) == 0.0)
  }

  function Ids(orders: seq<Order>): set<int> { set o | o in orders :: o.id }

  /** The quantities the fill events of one order report, in file order. */
  function FillsOf(events: seq<Event>, id: int): seq<Decimal> {
    if events == [] then []
    else
      var e := events[|events| - 1];
      FillsOf(events[..|events| - 1], id) + if IsFill(e) && e.orderId == id then [e.fillQuantity] else []
  }

  function Fees(events: seq<Event>): seq<Decimal> { seq(|events|, i requires 0 <= i < |events| => events[i].fee) }

  /** What the events of an order add up to, as the loop adds them. */
  function FilledBy(events: seq<Event>, id: int): Decimal { Running(FillsOf(events, id)) }

  predicate OrderReconciles(o: Order, events: seq<Event>) {
    if o.status.Filled? then Value(FilledBy(events, o.id)) == Value(o.quantity)
    else Value(FilledBy(events, o.id)) == 0.0
  }

  function CompletedFills(orders: seq<Order>, events: seq<Event>): seq<Fill> {
    if orders == [] then []
    else
      var o := orders[|orders| - 1];
      CompletedFills(orders[..|orders| - 1], events)
      + if o.status.Filled? then [Fill(o.time, o.id, FilledBy(events, o.id))] else []
  }

  function LastFills(orders: seq<Order>): seq<Fill>
    requires forall o | o in orders :: o.lastFillTime.Some?
  {
    seq(|orders|, i requires 0 <= i < |orders| =>
      Fill(orders[i].lastFillTime.value, orders[i].id, orders[i].quantity))
  }

  // ---------- positions in (time, id) order ----------

  predicate After(a: Fill, b: Fill) { a.time > b.time || (a.time == b.time && a.orderId > b.orderId) }

  function Insert(f: Fill, sorted: seq<Fill>): seq<Fill> {
    if sorted != [] && After(sorted[|sorted| - 1], f)
    then Insert(f, sorted[..|sorted| - 1]) + [sorted[|sorted| - 1]]
    else sorted + [f]
  }

  function Sorted(fills: seq<Fill>): seq<Fill> {
    if fills == [] then [] else Insert(fills[|fills| - 1], Sorted(fills[..|fills| - 1]))
  }

  function Quantities(fills: seq<Fill>): seq<Decimal> {
    seq(|fills|, i requires 0 <= i < |fills| => fills[i].quantity)
  }

  predicate NeverShort(quantities: seq<Decimal>) {
    forall n | 0 <= n <= |quantities| :: Value(Running(quantities[..n])) >= 0.0
  }

  /** The quantities in the order their positions are formed. */
  function Trail(fills: seq<Fill>): seq<Decimal> { Quantities(Sorted(fills)) }

  predicate AcceptedWithEvents(orders: seq<Order>, events: seq<Event>, fold: Fold) {
    && OrdersAcceptable(orders, fold)
    && |events| <= MAX_ORDERS * 10
    && (forall e | e in events :: EventAcceptable(e, Ids(orders), fold))
    && (forall o | o in orders :: OrderReconciles(o, events))
    && NeverShort(Trail(CompletedFills(orders, events)))
  }

  predicate AcceptedWithoutEvents(orders: seq<Order>, fold: Fold) {
    && OrdersAcceptable(orders, fold)
    && (forall o | o in orders ::
          && o.status.Filled? && Value(o.price) > 0.0
          && o.lastFillTime.Some? && WithinFold(o.lastFillTime.value, fold))
    && NeverShort(Trail(LastFills(orders)))
  }

  function WithoutEventsSummary(orders: seq<Order>): Summary
    requires forall o | o in orders :: o.lastFillTime.Some?
  {
    Summary(|orders|, None, Running(Trail(LastFills(orders))), |orders|, FromCompletedOrders)
  }

  // ---------- the validators ----------

  method CheckOrders(orders: seq<Order>, fold: Fold) returns (ok: bool)
    ensures ok <==> OrdersAcceptable(orders, fold)
  {
    hide WithinFold, ContextAdd, ContextMultiply, Value;
    if |orders| > MAX_ORDERS {
      return false;
    }
    var seen: set<int> := {};
    for i := 0 to |orders|
      invariant seen == Ids(orders[..i])
      invariant DistinctIds(orders[..i])
      invariant forall o | o in orders[..i] :: OrderAcceptable(o, fold)
    {
      var o := orders[i];
      assert o in orders;
      assert orders[..i + 1] == orders[..i] + [o];
      if o.id in seen {
        var j :| 0 <= j < i && orders[j].id == o.id;
        return false;
      }
      if !OrderAcceptable(o, fold) {
        return false;
      }
      seen := seen + {o.id};
    }
    assert orders[..|orders|] == orders;
    ok := true;
  }

  /** The fill total of every order and the fees, if every event is acceptable. */
  method AddUpEvents(events: seq<Event>, ids: set<int>, fold: Fold)
    returns (totals: Option<map<int, Decimal>>, fees: seq<Decimal>)
    ensures totals.Some? <==> forall e | e in events :: EventAcceptable(e, ids, fold)
    ensures totals.Some? ==> totals.value.Keys == ids && fees == Fees(events)
    ensures totals.Some? ==> forall id | id in ids :: totals.value[id] == FilledBy(events, id)
  {
    hide WithinFold, ContextAdd, Value, FeeAcceptable, IsFill;
    var fills := map id | id in ids :: ZERO;
    fees := [];
    for i := 0 to |events|
      invariant fills.Keys == ids
      invariant forall id | id in ids :: fills[id] == FilledBy(events[..i], id)
      invariant forall e | e in events[..i] :: EventAcceptable(e, ids, fold)
      invariant fees == Fees(events[..i])
    {
      var e := events[i];
      assert e in events;
      if !EventAcceptable(e, ids, fold) {
        return None, fees;
      }
      fees := fees + [e.fee];
      forall id ensures FilledBy(events[..i + 1], id)
        == if IsFill(e) && e.orderId == id then ContextAdd(FilledBy(events[..i], id), e.fillQuantity)
           else FilledBy(events[..i], id)
      {
        OneMoreEvent(events, i, id);
      }
      assert events[..i + 1] == events[..i] + [e];
      if IsFill(e) {
        fills := fills[e.orderId := ContextAdd(fills[e.orderId], e.fillQuantity)];
      }
    }
    assert events[..|events|] == events;
    totals := Some(fills);
  }

  lemma OneMoreEvent(events: seq<Event>, i: nat, id: int)
    requires i < |events|
    ensures var e := events[i];
      FilledBy(events[..i + 1], id)
      == if IsFill(e) && e.orderId == id then ContextAdd(FilledBy(events[..i], id), e.fillQuantity)
         else FilledBy(events[..i], id)
  {
    hide ContextAdd, IsFill;
    var e := events[i];
    assert events[..i + 1][..i] == events[..i];
    var before := FillsOf(events[..i], id);
    if IsFill(e) && e.orderId == id {
      assert (before + [e.fillQuantity])[..|before|] == before;
    } else {
      assert before + [] == before;
    }
  }

  /** The position after all fills, if it never goes short on the way. */
  method WalkPositions(fills: seq<Fill>) returns (position: Option<Decimal>)
    ensures position == if NeverShort(Trail(fills)) then Some(Running(Trail(fills))) else None
  {
    hide ContextAdd, Value, Sorted;
    var trail := Trail(fills);
    var held := ZERO;
    ValueZero(ZERO);
    for i := 0 to |trail|
      invariant held == Running(trail[..i])
      invariant forall n | 0 <= n <= i :: Value(Running(trail[..n])) >= 0.0
    {
      assert trail[..i + 1][..i] == trail[..i];
      held := ContextAdd(held, trail[i]);
      if Value(held) < 0.0 {
        return None;
      }
    }
    assert trail[..|trail|] == trail;
    position := Some(held);
  }

  function FilledCount(orders: seq<Order>): nat {
    if orders == [] then 0
    else FilledCount(orders[..|orders| - 1]) + if orders[|orders| - 1].status.Filled? then 1 else 0
  }

  method ValidateOrdersAndEvents(orders: seq<Order>, orderEvents: Option<seq<Event>>, fold: Fold)
    returns (summary: Option<Summary>)
    ensures orderEvents.Some? ==>
      var events := orderEvents.value;
      && (summary.Some? <==> AcceptedWithEvents(orders, events, fold))
      && (summary.Some? ==>
            && summary.value.finalPosition == Running(Trail(CompletedFills(orders, events)))
            && summary.value.completedOrderCount == FilledCount(orders)
            && summary.value.orderCount == |orders|
            && summary.value.source == FromOrderEvents
            && summary.value.eventTotalFees.Some?
            && Value(summary.value.eventTotalFees.value) == Total(Value, Fees(events)))
    ensures orderEvents.None? ==>
      && (summary.Some? <==> AcceptedWithoutEvents(orders, fold))
      && (summary.Some? ==> summary.value == WithoutEventsSummary(orders))
  {
    hide OrdersAcceptable, EventAcceptable, NeverShort, Trail, Value, Running, FilledBy;
    var ok := CheckOrders(orders, fold);
    if !ok {
      return None;
    }
    if orderEvents.None? {
      summary := ValidateCompletedOrdersWithoutEvents(orders, fold);
      return;
    }
    var events := orderEvents.value;
    if |events| > MAX_ORDERS * 10 {
      return None;
    }
    var totals, fees := AddUpEvents(events, Ids(orders), fold);
    if totals.None? {
      return None;
    }
    var completed := 0;
    var completedFills: seq<Fill> := [];
    for i := 0 to |orders|
      invariant completedFills == CompletedFills(orders[..i], events)
      invariant completed == FilledCount(orders[..i])
      invariant forall o | o in orders[..i] :: OrderReconciles(o, events)
    {
      var o := orders[i];
      assert o in orders;
      assert orders[..i + 1] == orders[..i] + [o] && orders[..i + 1][..i] == orders[..i];
      if o.status.Filled? {
        completed := completed + 1;
        if Value(totals.value[o.id]) != Value(o.quantity) {
          return None;
        }
        completedFills := completedFills + [Fill(o.time, o.id, totals.value[o.id])];
      } else if Value(totals.value[o.id]) != 0.0 {
        return None;
      }
    }
    assert orders[..|orders|] == orders;
    var position := WalkPositions(completedFills);
    if position.None? {
      return None;
    }
    var total := ExactDecimalSum(fees);
    summary := Some(Summary(completed, Some(total), position.value, |orders|, FromOrderEvents));
  }

  method ValidateCompletedOrdersWithoutEvents(orders: seq<Order>, fold: Fold) returns (summary: Option<Summary>)
    requires OrdersAcceptable(orders, fold)
    ensures summary.Some? <==> AcceptedWithoutEvents(orders, fold)
    ensures summary.Some? ==> summary.value == WithoutEventsSummary(orders)
  {
    hide OrdersAcceptable, NeverShort, Trail, Value, Running, WithinFold;
    var fills: seq<Fill> := [];
    for i := 0 to |orders|
      invariant forall o | o in orders[..i] ::
        && o.status.Filled? && Value(o.price) > 0.0
        && o.lastFillTime.Some? && WithinFold(o.lastFillTime.value, fold)
      invariant fills == LastFills(orders[..i])
    {
      var o := orders[i];
      assert o in orders;
      assert orders[..i + 1] == orders[..i] + [o];
      if !o.status.Filled? || Value(o.price) <= 0.0 || o.lastFillTime.None?
        || !WithinFold(o.lastFillTime.value, fold)
      {
        return None;
      }
      fills := fills + [Fill(o.lastFillTime.value, o.id, o.quantity)];
    }
    assert orders[..|orders|] == orders;
    var position := WalkPositions(fills);
    if position.None? {
      return None;
    }
    summary := Some(Summary(|orders|, None, position.value, |orders|, FromCompletedOrders));
  }
}

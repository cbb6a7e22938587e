/**
Which results the order reconciliation accepts, and what it then reports, in terms of the
records alone: amounts are real numbers, days are spans of time, positions are formed in
(time, id) order. Only the 28-digit rounding of sums and products is kept.
*/
module OrderAcceptance {
  import opened ContextArithmetic
  import opened Decimals
  import opened ExactSum
  import opened OrderEvents
  import opened Options
  import opened Rounding
  import OrderTheorems

  // ---------- records ----------

  /** From midnight of the first day to midnight after the last one. */
  predicate InFold(time: int, fold: Fold) { fold.start * 86400 <= time < (fold.end + 1) * 86400 }

  /** The reported value is quantity times price, within a cent. */
  predicate WorthAgrees(o: Order) {
    -0.01 <= Context(Value(o.value) - Context(Product(Value(o.quantity), Value(o.price)))) <= 0.01
  }

  predicate OrderFits(o: Order, fold: Fold) {
    && o.isSpy && o.currency.UsDollar?
    && Value(o.price) >= 0.0 && Value(o.quantity) != 0.0
    && InFold(o.time, fold) && WorthAgrees(o)
  }

  predicate FeeFits(e: Event) {
    || (Value(e.fee) > 0.0 && e.feeCurrency.UsDollar?)
    || (Value(e.fee) == 0.0 && (e.feeCurrency.UsDollar? || e.feeCurrency.Unstated?))
  }

  predicate EventFits(e: Event, orders: seq<Order>, fold: Fold) {
    && (exists o | o in orders :: o.id == e.orderId)
    && e.isSpy && e.currency.UsDollar? && InFold(e.time, fold) && FeeFits(e)
    && (match e.status
        case PartiallyFilled => Value(e.fillQuantity) != 0.0 && Value(e.fillPrice) > 0.0
        case Filled => Value(e.fillQuantity) != 0.0 && Value(e.fillPrice) > 0.0
        case Canceled => Value(e.fillQuantity) == 0.0 && Value(e.fillPrice) >= 0.0
        case Invalid => Value(e.fillQuantity) == 0.0 && Value(e.fillPrice) >= 0.0)
  }

  /** One after another, each sum rounded. */
  function AddedUp(amounts: seq<real>): real {
    if amounts == [] then 0.0 else Context(AddedUp(amounts[..|amounts| - 1]) + amounts[|amounts| - 1])
  }

  /** The quantities reported as filled for an order, in the order of the events. */
  function Reported(events: seq<Event>, id: int): seq<real> {
    if events == [] then []
    else
      var e := events[|events| - 1];
      Reported(events[..|events| - 1], id)
      + (if e.orderId == id && (e.status.PartiallyFilled? || e.status.Filled?) then [Value(e.fillQuantity)] else [])
  }

  /** All of a filled order has been reported, and nothing of any other. */
  predicate FillsFit(o: Order, events: seq<Event>) {
    AddedUp(Reported(events, o.id)) == if o.status.Filled? then Value(o.quantity) else 0.0
  }

  // ---------- positions ----------

  /** One order comes before another: earlier, or at the same time with the smaller id. */
  predicate Before(time: int, id: int, laterTime: int, laterId: int) {
    time < laterTime || (time == laterTime && id < laterId)
  }

  /** Exactly the filled orders, by a time of the order and then its id. */
  ghost predicate Arranged(orders: seq<Order>, time: Order -> int, sequence: seq<Order>) {
    && (forall o :: o in sequence <==> o in orders && o.status.Filled?)
    && forall i, j :: 0 <= i < j < |sequence| ==>
         Before(time(sequence[i]), sequence[i].id, time(sequence[j]), sequence[j].id)
  }

  function OrderTime(): Order -> int { (o: Order) => o.time }

  /** What each order of a sequence adds to the position. */
  function Moves(sequence: seq<Order>, events: seq<Event>): seq<real> {
    seq(|sequence|, i requires 0 <= i < |sequence| => AddedUp(Reported(events, sequence[i].id)))
  }

  predicate NeverNegative(moves: seq<real>) {
    forall n :: 0 <= n <= |moves| ==> AddedUp(moves[..n]) >= 0.0
  }

  /** The conditions under which a result is accepted. */
  ghost predicate ResultFits(orders: seq<Order>, events: seq<Event>, fold: Fold) {
    && |orders| <= 10000 && |events| <= 100000
    && (forall i, j :: 0 <= i < j < |orders| ==> orders[i].id != orders[j].id)
    && (forall o | o in orders :: OrderFits(o, fold) && FillsFit(o, events))
    && (forall e | e in events :: EventFits(e, orders, fold))
    && forall sequence | Arranged(orders, OrderTime(), sequence) :: NeverNegative(Moves(sequence, events))
  }

  function FillTime(): Order -> int { (o: Order) => if o.lastFillTime.Some? then o.lastFillTime.value else 0 }

  function OwnMoves(sequence: seq<Order>): seq<real> {
    seq(|sequence|, i requires 0 <= i < |sequence| => Value(sequence[i].quantity))
  }

  /** And without events: everything filled, at a price, within the fold. */
  ghost predicate FilledResultFits(orders: seq<Order>, fold: Fold) {
    && |orders| <= 10000
    && (forall i, j :: 0 <= i < j < |orders| ==> orders[i].id != orders[j].id)
    && (forall o | o in orders ::
          && OrderFits(o, fold) && o.status.Filled? && Value(o.price) > 0.0
          && o.lastFillTime.Some? && InFold(o.lastFillTime.value, fold))
    && forall sequence | Arranged(orders, FillTime(), sequence) :: NeverNegative(OwnMoves(sequence))
  }

  // ---------- single records agree ----------

  lemma FoldsAgree(time: int, fold: Fold)
    ensures WithinFold(time, fold) <==> InFold(time, fold)
  {
  }

  lemma WorthsAgree(o: Order)
    ensures WorthAgrees(o)
       <==> Abs(Value(ContextAdd(o.value, Negate(ContextMultiply(o.quantity, o.price))))) <= Value(CURRENCY_TOLERANCE)
  {
    hide Context, RoundToContext, Steps;
    var product := Decimal(o.quantity.negative != o.price.negative, o.quantity.coefficient * o.price.coefficient,
                           o.quantity.exponent + o.price.exponent);
    ProductValue(o.quantity, o.price);
    ContextAgrees(product);
    var rounded := ContextMultiply(o.quantity, o.price);
    NegateValue(rounded);
    ContextAgrees(Sum(o.value, Negate(rounded)));
    Cent();
    hide Value;
  }

  lemma Cent()
    ensures Value(CURRENCY_TOLERANCE) == 0.01
  {
    assert PowerOfTen(2) == 10 * PowerOfTen(1) == 100;
  }

  lemma NegateValue(d: Decimal)
    ensures Value(Negate(d)) == -Value(d)
  {
    StepsAdd(Decimals.Signed(d.negative, d.coefficient), 0, d.exponent);
  }

  /** Coefficients multiply, exponents add. */
  lemma ProductValue(a: Decimal, b: Decimal)
    ensures Value(Decimal(a.negative != b.negative, a.coefficient * b.coefficient, a.exponent + b.exponent))
         == Product(Value(a), Value(b))
  {
    hide Scale;
    var x, y := Decimals.Signed(a.negative, a.coefficient), Decimals.Signed(b.negative, b.coefficient);
    ScaleProduct(a.exponent, b.exponent);
    assert Decimals.Signed(a.negative != b.negative, a.coefficient * b.coefficient) == x * y by {
      SignedProduct(a.negative, b.negative, a.coefficient, b.coefficient);
    }
    assert (x * y) as real == x as real * y as real;
    FourFactors(x as real, Scale(a.exponent), y as real, Scale(b.exponent));
  }

  lemma SignedProduct(m: bool, n: bool, a: nat, b: nat)
    ensures Decimals.Signed(m != n, a * b) == Decimals.Signed(m, a) * Decimals.Signed(n, b)
  {
  }

  lemma FourFactors(a: real, b: real, c: real, d: real)
    ensures (a * b) * (c * d) == (a * c) * (b * d)
  {
  }

  lemma {:induction false} ScaleProduct(a: int, b: int)
    ensures Scale(a) * Scale(b) == Scale(a + b)
    decreases if b >= 0 then b else -b
  {
    hide Scale;
    if b == 0 {
      ScaleOfOne();
    } else if b > 0 {
      ScaleProduct(a, b - 1);
      ScaleStep(b - 1);
      ScaleStep(a + b - 1);
      assert Scale(a) * (10.0 * Scale(b - 1)) == 10.0 * (Scale(a) * Scale(b - 1));
    } else {
      ScaleProduct(a, b + 1);
      ScaleStep(b);
      ScaleStep(a + b);
      assert Scale(a) * (10.0 * Scale(b)) == 10.0 * (Scale(a) * Scale(b));
    }
  }

  lemma OrdersAgree(o: Order, fold: Fold)
    ensures OrderAcceptable(o, fold) <==> OrderFits(o, fold)
  {
    FoldsAgree(o.time, fold);
    WorthsAgree(o);
    hide Value, ContextAdd, ContextMultiply, WorthAgrees;
  }

  lemma EventsAgree(e: Event, orders: seq<Order>, fold: Fold)
    ensures EventAcceptable(e, Ids(orders), fold) <==> EventFits(e, orders, fold)
  {
    FoldsAgree(e.time, fold);
    hide Value;
  }

  // ---------- sums agree ----------

  function Values(quantities: seq<Decimal>): seq<real> {
    seq(|quantities|, i requires 0 <= i < |quantities| => Value(quantities[i]))
  }

  lemma {:induction false} SumsAgree(quantities: seq<Decimal>)
    ensures Value(Running(quantities)) == AddedUp(Values(quantities))
    decreases |quantities|
  {
    hide Context, RoundToContext, Value;
    if quantities == [] {
      ValueZero(ZERO);
    } else {
      var front, last := quantities[..|quantities| - 1], quantities[|quantities| - 1];
      SumsAgree(front);
      assert Values(quantities)[..|quantities| - 1] == Values(front);
      ContextAgrees(Sum(Running(front), last));
    }
  }

  lemma {:induction false} FillsAgree(events: seq<Event>, id: int)
    ensures Values(FillsOf(events, id)) == Reported(events, id)
    decreases |events|
  {
    hide Value;
    if events != [] {
      FillsAgree(events[..|events| - 1], id);
    }
  }

  lemma FilledAgrees(events: seq<Event>, id: int)
    ensures Value(FilledBy(events, id)) == AddedUp(Reported(events, id))
  {
    SumsAgree(FillsOf(events, id));
    FillsAgree(events, id);
  }

  lemma ReconciliationAgrees(o: Order, events: seq<Event>)
    ensures OrderReconciles(o, events) <==> FillsFit(o, events)
  {
    FilledAgrees(events, o.id);
    hide Value, FilledBy, AddedUp, Reported;
  }

  // ---------- positions agree ----------

  /** The fill a validator makes of a filled order. */
  function EventFill(events: seq<Event>): Order -> Fill { (o: Order) => Fill(o.time, o.id, FilledBy(events, o.id)) }

  function OwnFill(): Order -> Fill { (o: Order) => Fill(FillTime()(o), o.id, o.quantity) }

  ghost predicate Keeps(make: Order -> Fill, time: Order -> int) {
    forall o :: make(o).orderId == o.id && make(o).time == time(o)
  }

  function AsFills(sequence: seq<Order>, make: Order -> Fill): seq<Fill> {
    seq(|sequence|, i requires 0 <= i < |sequence| => make(sequence[i]))
  }

  /** A list of exactly the fills made of the filled orders. */
  ghost predicate FillsOfFilled(orders: seq<Order>, make: Order -> Fill, fills: seq<Fill>) {
    && FillIdsDistinct(fills)
    && forall f :: f in fills <==> exists o :: o in orders && o.status.Filled? && f == make(o)
  }

  /** No order has two fills. */
  predicate FillIdsDistinct(fills: seq<Fill>) {
    forall i, j :: 0 <= i < j < |fills| ==> fills[i].orderId != fills[j].orderId
  }

  lemma {:induction false} CompletedAreFilled(orders: seq<Order>, events: seq<Event>)
    requires DistinctIds(orders)
    ensures FillsOfFilled(orders, EventFill(events), CompletedFills(orders, events))
    decreases |orders|
  {
    hide FilledBy;
    var make := EventFill(events);
    if orders != [] {
      var front, last := orders[..|orders| - 1], orders[|orders| - 1];
      assert orders == front + [last];
      assert DistinctIds(front) by { assert forall i :: 0 <= i < |front| ==> front[i] == orders[i]; }
      CompletedAreFilled(front, events);
      var fills := CompletedFills(front, events);
      forall i | 0 <= i < |fills|
        ensures fills[i].orderId != last.id
      {
        assert fills[i] in fills;
        var o :| o in front && o.status.Filled? && fills[i] == make(o);
        var k :| 0 <= k < |front| && front[k] == o;
        assert orders[k].id != orders[|orders| - 1].id;
      }
      var whole := CompletedFills(orders, events);
      assert whole == fills + if last.status.Filled? then [make(last)] else [];
      forall f
        ensures f in whole <==> exists o :: o in orders && o.status.Filled? && f == make(o)
      {
        if f in fills {
          var o :| o in front && o.status.Filled? && f == make(o);
          assert o in orders;
        } else if last.status.Filled? && f == make(last) {
          assert last in orders;
        }
      }
    }
  }

  lemma LastFillsAreFilled(orders: seq<Order>)
    requires DistinctIds(orders) && forall o | o in orders :: o.status.Filled? && o.lastFillTime.Some?
    ensures FillsOfFilled(orders, OwnFill(), LastFills(orders))
  {
    var fills, make := LastFills(orders), OwnFill();
    forall i | 0 <= i < |orders|
      ensures fills[i] == make(orders[i])
    {
      var o := orders[i];
      assert o in orders;
      assert FillTime()(o) == o.lastFillTime.value;
      assert make(o) == Fill(o.lastFillTime.value, o.id, o.quantity);
    }
    forall f
      ensures f in fills <==> exists o :: o in orders && o.status.Filled? && f == make(o)
    {
      if f in fills {
        var i :| 0 <= i < |fills| && fills[i] == f;
        assert orders[i] in orders;
      }
      if o :| o in orders && o.status.Filled? && f == make(o) {
        var i :| 0 <= i < |orders| && orders[i] == o;
        assert fills[i] == f;
      }
    }
  }

  lemma {:induction false} CountedOnce(fills: seq<Fill>, f: Fill)
    requires FillIdsDistinct(fills)
    ensures multiset(fills)[f] == if f in fills then 1 else 0
    decreases |fills|
  {
    if fills != [] {
      var front, last := fills[..|fills| - 1], fills[|fills| - 1];
      assert fills == front + [last];
      assert FillIdsDistinct(front) by { assert forall i :: 0 <= i < |front| ==> front[i] == fills[i]; }
      CountedOnce(front, f);
      assert forall k :: 0 <= k < |front| ==> front[k].orderId != last.orderId;
    }
  }

  lemma SameElements(left: seq<Fill>, right: seq<Fill>)
    requires FillIdsDistinct(left) && FillIdsDistinct(right)
    requires forall f :: f in left <==> f in right
    ensures multiset(left) == multiset(right)
  {
    forall f
      ensures multiset(left)[f] == multiset(right)[f]
    {
      CountedOnce(left, f);
      CountedOnce(right, f);
    }
  }

  predicate StrictlyOrdered(fills: seq<Fill>) {
    forall i, j :: 0 <= i < j < |fills| ==> Before(fills[i].time, fills[i].orderId, fills[j].time, fills[j].orderId)
  }

  lemma LastsAgree(strict: seq<Fill>, sorted: seq<Fill>)
    requires StrictlyOrdered(strict) && OrderTheorems.InOrder(sorted) && strict != [] && |strict| == |sorted|
    requires forall f :: f in strict <==> f in sorted
    ensures strict[|strict| - 1] == sorted[|sorted| - 1]
  {
    var a, b := strict[|strict| - 1], sorted[|sorted| - 1];
    assert a in strict && b in sorted;
    var i :| 0 <= i < |sorted| && sorted[i] == a;
    var j :| 0 <= j < |strict| && strict[j] == b;
    assert i == |sorted| - 1 || !After(sorted[i], b);
    assert j == |strict| - 1 || Before(strict[j].time, strict[j].orderId, a.time, a.orderId);
  }

  lemma SameMembers(left: seq<Fill>, right: seq<Fill>)
    requires multiset(left) == multiset(right)
    ensures |left| == |right| && forall f :: f in left <==> f in right
  {
    assert |left| == |multiset(left)| && |right| == |multiset(right)|;
    assert forall f :: (f in left <==> f in multiset(left)) && (f in right <==> f in multiset(right));
  }

  /** There is one way to put fills in order. */
  lemma {:induction false} OneOrder(strict: seq<Fill>, sorted: seq<Fill>)
    requires StrictlyOrdered(strict) && OrderTheorems.InOrder(sorted)
    requires multiset(strict) == multiset(sorted)
    ensures strict == sorted
    decreases |strict|
  {
    SameMembers(strict, sorted);
    if strict != [] {
      LastsAgree(strict, sorted);
      var front, back, last := strict[..|strict| - 1], sorted[..|sorted| - 1], strict[|strict| - 1];
      assert strict == front + [last] && sorted == back + [last];
      FrontsOrdered(strict, sorted);
      hide StrictlyOrdered, OrderTheorems.InOrder;
      WithoutLast(front, back, last);
      OneOrder(front, back);
    }
  }

  lemma FrontsOrdered(strict: seq<Fill>, sorted: seq<Fill>)
    requires StrictlyOrdered(strict) && OrderTheorems.InOrder(sorted) && strict != [] && sorted != []
    ensures StrictlyOrdered(strict[..|strict| - 1]) && OrderTheorems.InOrder(sorted[..|sorted| - 1])
  {
  }

  lemma WithoutLast(front: seq<Fill>, back: seq<Fill>, last: Fill)
    requires multiset(front + [last]) == multiset(back + [last])
    ensures multiset(front) == multiset(back)
  {
    assert multiset(front + [last]) - multiset{last} == multiset(front);
    assert multiset(back + [last]) - multiset{last} == multiset(back);
  }

  /** An arrangement of the filled orders is what sorting their fills gives. */
  lemma ArrangedIsSorted(
    orders: seq<Order>, make: Order -> Fill, time: Order -> int, fills: seq<Fill>, sequence: seq<Order>)
    requires DistinctIds(orders) && Keeps(make, time) && FillsOfFilled(orders, make, fills)
    requires Arranged(orders, time, sequence)
    ensures AsFills(sequence, make) == Sorted(fills)
  {
    hide Sorted;
    var left := AsFills(sequence, make);
    assert StrictlyOrdered(left);
    assert FillIdsDistinct(left) by { StrictIdsDistinct(orders, make, time, sequence); }
    forall f
      ensures f in left <==> f in fills
    {
      if f in left {
        var i :| 0 <= i < |left| && left[i] == f;
        assert sequence[i] in sequence;
      }
      if f in fills {
        var o :| o in orders && o.status.Filled? && f == make(o);
        assert o in sequence;
        var i :| 0 <= i < |sequence| && sequence[i] == o;
        assert left[i] == f;
      }
    }
    SameElements(left, fills);
    OrderTheorems.SortedArranges(fills);
    OneOrder(left, Sorted(fills));
  }

  lemma StrictIdsDistinct(orders: seq<Order>, make: Order -> Fill, time: Order -> int, sequence: seq<Order>)
    requires DistinctIds(orders) && Keeps(make, time) && Arranged(orders, time, sequence)
    ensures FillIdsDistinct(AsFills(sequence, make))
  {
    forall i, j | 0 <= i < j < |sequence|
      ensures sequence[i].id != sequence[j].id
    {
      assert sequence[i] in orders && sequence[j] in orders;
      if sequence[i].id == sequence[j].id {
        IdsIdentify(orders, sequence[i], sequence[j]);
      }
    }
  }

  lemma IdsIdentify(orders: seq<Order>, a: Order, b: Order)
    requires DistinctIds(orders) && a in orders && b in orders && a.id == b.id
    ensures a == b
  {
    var k :| 0 <= k < |orders| && orders[k] == a;
    var l :| 0 <= l < |orders| && orders[l] == b;
  }

  lemma RepeatsCount(fills: seq<Fill>, i: nat, j: nat)
    requires i < j < |fills| && fills[i] == fills[j]
    ensures multiset(fills)[fills[i]] >= 2
  {
    assert fills == fills[..j] + fills[j..];
    assert fills[i] == fills[..j][i];
    assert fills[j] == fills[j..][0];
    assert multiset(fills) == multiset(fills[..j]) + multiset(fills[j..]);
  }

  /** The orders behind a list of fills. */
  ghost predicate Behind(orders: seq<Order>, make: Order -> Fill, fills: seq<Fill>, sequence: seq<Order>) {
    |sequence| == |fills| && forall i :: 0 <= i < |fills| ==>
      sequence[i] in orders && sequence[i].status.Filled? && make(sequence[i]) == fills[i]
  }

  lemma OrdersBehind(orders: seq<Order>, make: Order -> Fill, fills: seq<Fill>) returns (sequence: seq<Order>)
    requires DistinctIds(orders)
    requires forall f | f in fills :: exists o :: o in orders && o.status.Filled? && f == make(o)
    ensures Behind(orders, make, fills, sequence)
    decreases |fills|
  {
    if fills == [] {
      sequence := [];
    } else {
      var front := fills[..|fills| - 1];
      assert forall f | f in front :: f in fills;
      var before := OrdersBehind(orders, make, front);
      assert fills[|fills| - 1] in fills;
      var o :| o in orders && o.status.Filled? && fills[|fills| - 1] == make(o);
      sequence := before + [o];
    }
  }

  /** Fills put in order, each order with its own: the orders behind them are arranged. */
  lemma BehindOrdered(
    orders: seq<Order>, make: Order -> Fill, time: Order -> int, fills: seq<Fill>, sequence: seq<Order>)
    requires DistinctIds(orders) && Keeps(make, time) && Behind(orders, make, fills, sequence)
    requires OrderTheorems.InOrder(fills) && FillIdsDistinct(fills)
    requires forall o :: o in orders && o.status.Filled? ==> make(o) in fills
    ensures Arranged(orders, time, sequence)
  {
    forall o
      ensures o in sequence <==> o in orders && o.status.Filled?
    {
      if o in orders && o.status.Filled? {
        var i :| 0 <= i < |fills| && fills[i] == make(o);
        IdsIdentify(orders, o, sequence[i]);
      }
    }
    forall i, j | 0 <= i < j < |sequence|
      ensures Before(time(sequence[i]), sequence[i].id, time(sequence[j]), sequence[j].id)
    {
      assert !After(fills[i], fills[j]) && fills[i].orderId != fills[j].orderId;
    }
  }

  lemma PermutedIdsDistinct(left: seq<Fill>, right: seq<Fill>)
    requires FillIdsDistinct(left) && multiset(left) == multiset(right)
    ensures FillIdsDistinct(right)
  {
    SameMembers(left, right);
    forall i, j | 0 <= i < j < |right|
      ensures right[i].orderId != right[j].orderId
    {
      if right[i] == right[j] {
        RepeatsCount(right, i, j);
        CountedOnce(left, right[i]);
      } else {
        assert right[i] in right && right[j] in right;
        var k :| 0 <= k < |left| && left[k] == right[i];
        var l :| 0 <= l < |left| && left[l] == right[j];
      }
    }
  }

  /** The filled orders can always be arranged. */
  lemma ArrangementExists(orders: seq<Order>, make: Order -> Fill, time: Order -> int, fills: seq<Fill>)
    returns (sequence: seq<Order>)
    requires DistinctIds(orders) && Keeps(make, time) && FillsOfFilled(orders, make, fills)
    ensures Arranged(orders, time, sequence)
  {
    hide Sorted, Arranged, FillIdsDistinct, DistinctIds, OrderTheorems.InOrder;
    OrderTheorems.SortedArranges(fills);
    SameMembers(Sorted(fills), fills);
    PermutedIdsDistinct(fills, Sorted(fills));
    sequence := OrdersBehind(orders, make, Sorted(fills));
    BehindOrdered(orders, make, time, Sorted(fills), sequence);
  }

  lemma MovesAreTrail(orders: seq<Order>, events: seq<Event>, sequence: seq<Order>)
    requires DistinctIds(orders) && Arranged(orders, OrderTime(), sequence)
    ensures Values(Trail(CompletedFills(orders, events))) == Moves(sequence, events)
  {
    CompletedAreFilled(orders, events);
    ArrangedIsSorted(orders, EventFill(events), OrderTime(), CompletedFills(orders, events), sequence);
    hide FilledBy, Sorted, Value, AddedUp, Reported, CompletedFills;
    var moves, fills := Moves(sequence, events), AsFills(sequence, EventFill(events));
    forall i | 0 <= i < |sequence|
      ensures Values(Quantities(fills))[i] == moves[i]
    {
      FilledAgrees(events, sequence[i].id);
    }
  }

  lemma OwnMovesAreTrail(orders: seq<Order>, sequence: seq<Order>)
    requires DistinctIds(orders) && forall o | o in orders :: o.status.Filled? && o.lastFillTime.Some?
    requires Arranged(orders, FillTime(), sequence)
    ensures Values(Trail(LastFills(orders))) == OwnMoves(sequence)
  {
    LastFillsAreFilled(orders);
    ArrangedIsSorted(orders, OwnFill(), FillTime(), LastFills(orders), sequence);
    hide Sorted, Value, LastFills;
    var moves, fills := OwnMoves(sequence), AsFills(sequence, OwnFill());
    assert Values(Quantities(fills)) == moves;
  }

  lemma ShortAgrees(quantities: seq<Decimal>)
    ensures NeverShort(quantities) <==> NeverNegative(Values(quantities))
  {
    hide Value, Running, AddedUp;
    forall n | 0 <= n <= |quantities|
      ensures Value(Running(quantities[..n])) == AddedUp(Values(quantities)[..n])
    {
      SumsAgree(quantities[..n]);
      assert Values(quantities)[..n] == Values(quantities[..n]);
    }
  }

  /**
  A result with events is accepted exactly if it fits: in number and identity of its records,
  in every single order and event, in the fills reported for each order, and in positions that
  never turn negative in (time, id) order.
  */
  lemma AcceptedIffFits(orders: seq<Order>, events: seq<Event>, fold: Fold)
    ensures AcceptedWithEvents(orders, events, fold) <==> ResultFits(orders, events, fold)
  {
    hide OrderAcceptable, OrderFits, EventAcceptable, EventFits, OrderReconciles, FillsFit, NeverShort, NeverNegative,
      Trail, CompletedFills, Moves, Arranged, Values, Ids;
    forall o ensures OrderAcceptable(o, fold) <==> OrderFits(o, fold) { OrdersAgree(o, fold); }
    forall o ensures OrderReconciles(o, events) <==> FillsFit(o, events) { ReconciliationAgrees(o, events); }
    forall e ensures EventAcceptable(e, Ids(orders), fold) <==> EventFits(e, orders, fold) {
      EventsAgree(e, orders, fold);
    }
    if DistinctIds(orders) {
      var trail := Trail(CompletedFills(orders, events));
      ShortAgrees(trail);
      forall sequence | Arranged(orders, OrderTime(), sequence)
        ensures Moves(sequence, events) == Values(trail)
      {
        MovesAreTrail(orders, events, sequence);
      }
      CompletedAreFilled(orders, events);
      var some := ArrangementExists(orders, EventFill(events), OrderTime(), CompletedFills(orders, events));
    }
  }

  /** Without events a result is accepted exactly if every order is filled and fits by itself. */
  lemma AcceptedIffFilledFits(orders: seq<Order>, fold: Fold)
    ensures AcceptedWithoutEvents(orders, fold) <==> FilledResultFits(orders, fold)
  {
    hide OrderAcceptable, OrderFits, NeverShort, NeverNegative, Trail, LastFills, OwnMoves, Arranged, Values,
      WithinFold, InFold, Value;
    forall o ensures OrderAcceptable(o, fold) <==> OrderFits(o, fold) { OrdersAgree(o, fold); }
    forall time ensures WithinFold(time, fold) <==> InFold(time, fold) { FoldsAgree(time, fold); }
    if DistinctIds(orders) && forall o | o in orders :: o.status.Filled? && o.lastFillTime.Some? {
      var trail := Trail(LastFills(orders));
      ShortAgrees(trail);
      forall sequence | Arranged(orders, FillTime(), sequence)
        ensures OwnMoves(sequence) == Values(trail)
      {
        OwnMovesAreTrail(orders, sequence);
      }
      LastFillsAreFilled(orders);
      var some := ArrangementExists(orders, OwnFill(), FillTime(), LastFills(orders));
    }
  }

  // ---------- what is reported ----------

  /** The places of the filled orders. */
  function FilledPlaces(orders: seq<Order>): set<int> {
    set i | 0 <= i < |orders| && orders[i].status.Filled?
  }

  lemma {:induction false} FilledCounted(orders: seq<Order>)
    ensures FilledCount(orders) == |FilledPlaces(orders)|
    decreases |orders|
  {
    if orders != [] {
      var n := |orders| - 1;
      FilledCounted(orders[..n]);
      assert FilledPlaces(orders)
        == FilledPlaces(orders[..n]) + if orders[n].status.Filled? then {n} else {};
    }
  }

  /** The final position is what the fills of all filled orders add up to, in (time, id) order. */
  lemma PositionReported(orders: seq<Order>, events: seq<Event>, sequence: seq<Order>)
    requires DistinctIds(orders) && Arranged(orders, OrderTime(), sequence)
    ensures Value(Running(Trail(CompletedFills(orders, events)))) == AddedUp(Moves(sequence, events))
  {
    MovesAreTrail(orders, events, sequence);
    SumsAgree(Trail(CompletedFills(orders, events)));
    hide Value, Running, Trail, CompletedFills, AddedUp, Moves, Arranged;
  }

  lemma OwnPositionReported(orders: seq<Order>, sequence: seq<Order>)
    requires DistinctIds(orders) && forall o | o in orders :: o.status.Filled? && o.lastFillTime.Some?
    requires Arranged(orders, FillTime(), sequence)
    ensures Value(Running(Trail(LastFills(orders)))) == AddedUp(OwnMoves(sequence))
  {
    OwnMovesAreTrail(orders, sequence);
    SumsAgree(Trail(LastFills(orders)));
    hide Value, Running, Trail, LastFills, AddedUp, OwnMoves, Arranged;
  }

  /** Where 28 digits hold the product and the difference, the value is off by at most a true cent. */
  lemma WorthTruly(o: Order)
    requires Representable(Product(Value(o.quantity), Value(o.price)))
    requires Representable(Value(o.value) - Product(Value(o.quantity), Value(o.price)))
    ensures WorthAgrees(o) <==> Abs(Value(o.value) - Product(Value(o.quantity), Value(o.price))) <= 0.01
  {
    hide Value, Context, Representable, Product;
    RepresentableStays(Product(Value(o.quantity), Value(o.price)));
    RepresentableStays(Value(o.value) - Product(Value(o.quantity), Value(o.price)));
  }

  lemma RepresentableStays(x: real)
    requires Representable(x)
    ensures Context(x) == x
  {
    var count, exponent :| x == Steps(count, exponent) && Magnitude(count) < PowerOfTen(PRECISION);
    ContextExact(count, exponent);
  }

  /** Without events every order counts as completed, and no fees are reported. */
  lemma OwnSummaryReported(orders: seq<Order>)
    requires forall o | o in orders :: o.lastFillTime.Some?
    ensures var summary := WithoutEventsSummary(orders);
      && summary.completedOrderCount == |orders| && summary.orderCount == |orders|
      && summary.eventTotalFees == None && summary.source == FromCompletedOrders
      && summary.finalPosition == Running(Trail(LastFills(orders)))
  {
    hide Running, Trail, LastFills;
  }
}

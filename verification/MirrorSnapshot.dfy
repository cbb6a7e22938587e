/**
The LEAN adapter's valuation of the portfolio at an open, before any fill, against
the engine's own mark and circuit breakers at the same open.
*/
module MirrorSnapshot {
  import opened ContextArithmetic
  import opened Decimals
  import opened Domain
  import opened Options
  import opened RiskPolicy
  import opened Rounding
  import opened EngineSpec
  import opened EngineInvariants
  import opened MirrorSizing
  import opened RiskAgreement

  datatype OpenState = OpenState(
    timestamp: int, markTimestamp: int, price: real,
    cash: int, quantity: int, previousClose: int, previousPeak: int)

  datatype OpenSnapshot = OpenSnapshot(
    timestamp: int, price: real, cash: int, quantity: int,
    exposure: int, equity: int, startOfDay: int, peak: int, dailyLoss: real, drawdown: real)

  /** None stands for a raised ValueError. */
  function OpenSnapshotOf(i: OpenState): Option<OpenSnapshot> {
    if i.markTimestamp != i.timestamp || i.price <= 0.0 || i.cash < 0 || i.quantity < 0 then None
    else if i.previousClose <= 0 || i.previousPeak <= 0 || i.previousPeak < i.previousClose then None
    else
      var exposure := ParityMoney(Context(Times(i.quantity, i.price)));
      var equity := ParityMoney(Context((i.cash + exposure) as real));
      if equity <= 0 then None
      else
        var peak := MaxInt(i.previousPeak, equity);
        var loss := Context(Ratio(Max(0.0, Context((i.previousClose - equity) as real)), i.previousClose as real));
        var drawdown := Context(Ratio(Max(0.0, Context((peak - equity) as real)), peak as real));
        Some(OpenSnapshot(i.timestamp, i.price, i.cash, i.quantity, exposure, equity, i.previousClose,
                          peak, loss, drawdown))
  }

  /** What the adapter is told when the engine's state and bar are mirrored. */
  function Mirrored(s: State, bar: Bar, open: real): OpenState {
    OpenState(bar.timestamp, bar.timestamp, open, s.book.cash, s.book.quantity, s.marks.previousClose, s.marks.peak)
  }

  /** The engine with its open marked, before the breakers look at it. */
  function MarkedOpen(s: State, bar: Bar, open: real): State {
    var entered := EnterBar(s, bar);
    entered.(marks := entered.marks.(peak := MaxInt(entered.marks.peak, EquityAt(entered.book, open))))
  }

  ghost predicate NewSession(s: State, bar: Bar, open: real) {
    && s.setup.cfg.moneyPrecision == 8
    && SoundBook(s.book) && open > 0.0
    && s.marks.date != Some(UtcDate(bar.timestamp))
    && 0 < s.marks.previousClose <= s.marks.peak
  }

  /** Nothing but the two ratios needs more than 28 digits. */
  ghost predicate AmountsFit(s: State, open: real) {
    && Representable(Times(s.book.quantity, open))
    && Magnitude(EquityAt(s.book, open)) <= PowerOfTen(PRECISION)
    && Magnitude(s.marks.peak) <= PowerOfTen(PRECISION)
  }

  lemma RepresentableKept(x: real)
    requires Representable(x)
    ensures Context(x) == x
  {
    var count, exponent :| x == Steps(count, exponent) && Magnitude(count) < PowerOfTen(PRECISION);
    ContextExact(count, exponent);
  }

  lemma AmountsKept(s: State, bar: Bar, open: real)
    requires NewSession(s, bar, open) && AmountsFit(s, open)
    ensures var i, equity := Mirrored(s, bar, open), EquityAt(s.book, open);
      && ParityMoney(Context(Times(i.quantity, i.price))) == MarketValue(s.book.quantity, open)
      && ParityMoney(Context((i.cash + MarketValue(s.book.quantity, open)) as real)) == equity
      && (equity > 0 ==>
            && Context((i.previousClose - equity) as real) == (i.previousClose - equity) as real
            && Context((MaxInt(i.previousPeak, equity) - equity) as real)
               == (MaxInt(i.previousPeak, equity) - equity) as real)
  {
    hide PowerOfTen, Times, Context;
    RepresentableKept(Times(s.book.quantity, open));
    var equity := EquityAt(s.book, open);
    ContextWhole(equity);
    RoundFixesGrid(equity);
    if equity > 0 {
      hide EquityAt, RoundHalfEven;
      ContextWhole(s.marks.previousClose - equity);
      ContextWhole(MaxInt(s.marks.peak, equity) - equity);
    }
  }

  /** The adapter's snapshot, as quotients of whole amounts. */
  lemma SnapshotComputed(s: State, bar: Bar, open: real)
    requires NewSession(s, bar, open) && AmountsFit(s, open)
    ensures var equity := EquityAt(s.book, open);
      var mirrored := OpenSnapshotOf(Mirrored(s, bar, open));
      var peak := MaxInt(s.marks.peak, equity);
      && (mirrored.Some? <==> equity > 0)
      && (mirrored.Some? ==>
            && mirrored.value.equity == equity && mirrored.value.peak == peak
            && mirrored.value.dailyLoss
               == Context(Ratio(MaxInt(0, s.marks.previousClose - equity) as real, s.marks.previousClose as real))
            && mirrored.value.drawdown == Context(Ratio((peak - equity) as real, peak as real)))
  {
    AmountsKept(s, bar, open);
    hide Times, RoundHalfEven, Ratio, Context, AmountsFit, EquityAt, MarketValue;
  }

  /** The engine's two ratios as quotients of whole amounts. */
  lemma LossRatios(s: State, bar: Bar, open: real)
    requires NewSession(s, bar, open)
    ensures var marked := MarkedOpen(s, bar, open);
      var equity := EquityAt(s.book, open);
      var snapshot := SnapshotAt(marked, equity);
      var peak := MaxInt(s.marks.peak, equity);
      && snapshot.startOfDayEquity > 0.0 && snapshot.peakEquity > 0.0
      && DailyLossPct(snapshot)
         == Ratio(MaxInt(0, s.marks.previousClose - equity) as real, s.marks.previousClose as real)
      && DrawdownPct(snapshot) == Ratio((peak - equity) as real, peak as real)
  {
    TinyEquityBelowOne();
    hide TinyEquity, Times, RoundHalfEven, Ratio, EquityAt;
    var equity := EquityAt(s.book, open);
    assert (s.marks.previousClose - equity) as real == -(equity as real - s.marks.previousClose as real);
  }

  /** On a new session both sides see the same equity and peak, and the same ratios but for their 28 digits. */
  lemma MirrorValuesLikeEngine(s: State, bar: Bar, open: real)
    requires NewSession(s, bar, open) && AmountsFit(s, open)
    ensures var marked := MarkedOpen(s, bar, open);
      var equity := EquityAt(s.book, open);
      var snapshot := SnapshotAt(marked, equity);
      var mirrored := OpenSnapshotOf(Mirrored(s, bar, open));
      && (mirrored.Some? <==> equity > 0)
      && snapshot.startOfDayEquity > 0.0 && snapshot.peakEquity > 0.0
      && (mirrored.Some? ==>
            && mirrored.value.equity == equity && mirrored.value.peak == marked.marks.peak
            && mirrored.value.dailyLoss == Context(DailyLossPct(snapshot))
            && mirrored.value.drawdown == Context(DrawdownPct(snapshot)))
  {
    hide SnapshotAt, OpenSnapshotOf, DailyLossPct, DrawdownPct, EquityAt, Context, AmountsFit, Ratio;
    SnapshotComputed(s, bar, open);
    LossRatios(s, bar, open);
  }

  /** A loss limit of c parts in 10^g, on amounts that leave room for g digits. */
  ghost predicate LimitFits(limit: real, whole: int, c: nat, g: int) {
    && g >= 0 && limit == Steps(c, -g) && c <= PowerOfTen(PRECISION)
    && whole * PowerOfTen(g) < 2 * PowerOfTen(PRECISION - 1)
  }

  ghost predicate LimitsFit(s: State, open: real) {
    var most := MaxInt(s.marks.peak, EquityAt(s.book, open));
    && (exists c: nat, g: int :: LimitFits(s.setup.policy.maxDailyLoss, most, c, g))
    && (exists c: nat, g: int :: LimitFits(s.setup.policy.maxDrawdown, most, c, g))
  }

  /** Rounding such a ratio does not move it over its limit. */
  lemma RatioDecides(part: nat, whole: nat, most: nat, limit: real)
    requires whole > 0 && part <= most
    requires exists c: nat, g: int :: LimitFits(limit, most, c, g)
    ensures Context(Ratio(part as real, whole as real)) < limit <==> Ratio(part as real, whole as real) < limit
  {
    var c: nat, g: int :| LimitFits(limit, most, c, g);
    hide PowerOfTen, Context, Ratio, Steps;
    ProductMonotone(part, most, PowerOfTen(g));
    ContextKeepsOrder(part, whole, c, g);
  }

  /** The adapter's two ratios decide whether the engine halts at this open. */
  lemma MirrorForeseesOpenHalt(s: State, bar: Bar, open: real)
    requires NewSession(s, bar, open) && !s.halt.active
    requires AmountsFit(s, open) && LimitsFit(s, open)
    requires s.setup.cfg.tradingEnabled && !s.setup.cfg.killSwitchActive
    ensures var mirrored := OpenSnapshotOf(Mirrored(s, bar, open));
      !MarkAndCheck(EnterBar(s, bar), bar.timestamp, open).halt.active <==>
        && mirrored.Some?
        && mirrored.value.dailyLoss < s.setup.policy.maxDailyLoss
        && mirrored.value.drawdown < s.setup.policy.maxDrawdown
  {
    hide HaltDecision, SnapshotAt, OpenSnapshotOf, DailyLossPct, DrawdownPct, EquityAt, MarkedOpen, MarkAndCheck,
      Context, LimitFits, AmountsFit;
    MirrorValuesLikeEngine(s, bar, open);
    MarkedOpenShape(s, bar, open);
    HaltExactly(MarkedOpen(s, bar, open), EquityAt(s.book, open));
    var equity := EquityAt(s.book, open);
    if equity > 0 {
      LossRatios(s, bar, open);
      var peak := MaxInt(s.marks.peak, equity);
      RatioDecides(MaxInt(0, s.marks.previousClose - equity), s.marks.previousClose, peak,
                   s.setup.policy.maxDailyLoss);
      RatioDecides(peak - equity, peak, peak, s.setup.policy.maxDrawdown);
    }
  }

  lemma MarkedOpenShape(s: State, bar: Bar, open: real)
    requires NewSession(s, bar, open) && !s.halt.active
    ensures var marked := MarkedOpen(s, bar, open);
      && marked.setup == s.setup && marked.book == s.book && !marked.halt.active
      && marked.marks.startOfDay > 0 && marked.marks.peak > 0
      && (MarkAndCheck(EnterBar(s, bar), bar.timestamp, open).halt.active
          <==> !HaltDecision(marked, EquityAt(s.book, open)).approved)
  {
    hide HaltDecision, EquityAt;
  }

  /** The valuation raises exactly for inputs it cannot have or equity that is gone, and repeats what it was given. */
  lemma SnapshotRefusedExactly(i: OpenState)
    ensures var exposure := ParityMoney(Context(Times(i.quantity, i.price)));
      var snapshot := OpenSnapshotOf(i);
      && (snapshot == None <==>
            || i.markTimestamp != i.timestamp
            || i.price <= 0.0 || i.cash < 0 || i.quantity < 0
            || i.previousClose <= 0 || i.previousPeak <= 0 || i.previousPeak < i.previousClose
            || ParityMoney(Context((i.cash + exposure) as real)) <= 0)
      && (snapshot.Some? ==>
            && snapshot.value.timestamp == i.timestamp && snapshot.value.price == i.price
            && snapshot.value.cash == i.cash && snapshot.value.quantity == i.quantity
            && snapshot.value.exposure == exposure && snapshot.value.startOfDay == i.previousClose)
  {
    hide Context, Times, ParityMoney, Ratio;
  }
}

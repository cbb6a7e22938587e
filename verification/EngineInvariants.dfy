/**
What holds in every state a simulation can reach: a non-negative book, no firing
of the engine's own guards, capped purchases, and circuit breakers that catch
every recorded loss and freeze the book for good.
*/
module EngineInvariants {
  import opened Bisection
  import opened Domain
  import opened Options
  import opened RiskPolicy
  import opened Rounding
  import opened Sizing
  import opened EngineSpec
  import opened RiskAgreement
  import Causality

  // ---------- the invariant ----------

  predicate SoundBook(book: Book) {
    && book.cash >= 0 && book.quantity >= 0
    && (book.quantity == 0 ==> book.averageCost == 0.0)
  }

  /** The last intent was executed no later than `latest`. */
  predicate IntentBy(s: State, latest: int) {
    s.lastIntent.Some? ==> s.lastIntent.value.executionTimestamp <= latest
  }

  /** A purchase's share of equity at its execution mark is within the effective caps. */
  predicate PurchaseCapped(policy: Policy, trade: Trade) {
    trade.fill.side == Buy ==>
      var value := MarketValue(trade.resultingQuantity, trade.fill.referencePrice);
      var equity := trade.resultingCash + value;
      && equity > 0
      && Ratio(value as real, equity as real) <= policy.maxAssetWeight + RISK_EPSILON
      && Ratio(value as real, equity as real) <= policy.maxTotalGrossExposure + RISK_EPSILON
  }

  function DailyLossAt(moneyPrecision: nat, p: EquityPoint): real {
    var start := Max(p.startOfDayEquity as real, TinyEquity(moneyPrecision));
    if start > 0.0 then Ratio(Max(0.0, -(p.equity as real - start)), start) else 0.0
  }

  /** A point recorded as not halted lost less than both limits. */
  predicate PointWithinLimits(policy: Policy, moneyPrecision: nat, p: EquityPoint) {
    && p.equity <= p.peakEquity
    && (!p.halt.active ==>
          && p.equity > 0
          && p.drawdown < policy.maxDrawdown
          && DailyLossAt(moneyPrecision, p) < policy.maxDailyLoss)
  }

  ghost predicate CurveSound(s: State) {
    var curve := s.journal.curve;
    && |curve| == |s.journal.history|
    && (forall i :: 0 <= i < |curve| ==>
          && PointWithinLimits(s.setup.policy, s.setup.cfg.moneyPrecision, curve[i])
          && curve[i].peakEquity <= s.marks.peak
          && (curve[i].halt.active ==> curve[i].halt == s.halt))
    && (forall i, j :: 0 <= i < j < |curve| ==> curve[i].peakEquity <= curve[j].peakEquity)
  }

  /** Between two bars. */
  ghost predicate Sound(s: State) {
    && ValidConfig(s.setup.cfg)
    && SoundBook(s.book)
    && (s.pending.Some? ==> ValidSignal(s.pending.value))
    && (s.lastIntent.Some? ==> s.journal.history != [])
    && (s.journal.history != [] ==> IntentBy(s, s.journal.history[|s.journal.history| - 1].timestamp))
    && (forall t :: t in s.journal.trades ==> PurchaseCapped(s.setup.policy, t))
    && CurveSound(s)
  }

  /** Within a bar, after its open phase. */
  ghost predicate SoundWithinBar(s: State, before: State, bar: Bar) {
    && s.setup == before.setup
    && ValidConfig(s.setup.cfg)
    && SoundBook(s.book)
    && IntentBy(s, bar.timestamp)
    && (forall t :: t in s.journal.trades ==> PurchaseCapped(s.setup.policy, t))
    && s.journal.curve == before.journal.curve
    && s.journal.history == before.journal.history
    && s.marks.peak >= before.marks.peak
    && (before.halt.active ==> s.halt == before.halt)
  }

  lemma InitialSound(setup: Setup, warnings: seq<Warning>)
    requires ValidConfig(setup.cfg)
    ensures Sound(Initial(setup, warnings))
  {
  }

  // ---------- the open phase ----------

  lemma TargetQuantityNonNegative(cfg: Config, r: Request)
    requires ValidRequest(r)
    ensures TargetQuantity(cfg, r) >= 0
  {
    BisectInRange(Acceptance(cfg, r), SearchLow(r), SearchHigh(r), None);
    hide CandidateIsSafe, SearchHigh, IsBuyBranch;
  }

  /** An approved fill realises what the policy projected, so neither guard can fire. */
  lemma ApprovedFillIsSound(s: State, bar: Bar, e: Execution, equity: int)
    requires s.pending.Some?
    requires OrderContext(s, bar, IntentOf(s.pending.value, bar, e).id, e, equity)
    requires SoundBook(s.book)
    requires var id := IntentOf(s.pending.value, bar, e).id;
      OrderDecision(s.setup.policy, OrderOf(s, bar, id, e), SnapshotAt(s, equity)).approved
    ensures SoundBook(BookAfter(s.book, e))
    ensures BookAfter(s.book, e).cash == CashAfter(s.book, e)
    ensures BookAfter(s.book, e).quantity == ResultingQuantity(s.book, e)
    ensures PurchaseCapped(s.setup.policy, TradeOf(IntentOf(s.pending.value, bar, e), e, s.book, BookAfter(s.book, e)))
  {
    ApprovalGuarantees(s, bar, IntentOf(s.pending.value, bar, e).id, e, equity);
    assert e.quantity > 0 && (e.side == Sell ==> e.quantity <= s.book.quantity);
    hide OrderContext, OrderDecision, OrderOf, SnapshotAt, Product, RoundHalfEven, Ratio;
  }

  lemma CheckHaltSound(s: State, before: State, bar: Bar, timestamp: int, equity: int)
    requires SoundWithinBar(s, before, bar)
    ensures SoundWithinBar(CheckHalt(s, timestamp, equity), before, bar)
  {
    hide HaltDecision, PurchaseCapped, ValidConfig;
  }

  lemma CommitFillSound(s: State, before: State, bar: Bar, intent: OrderIntent, e: Execution)
    requires SoundWithinBar(s, before, bar)
    requires SoundBook(BookAfter(s.book, e))
    requires e.side == Sell ==> e.quantity <= s.book.quantity
    requires PurchaseCapped(s.setup.policy, TradeOf(intent, e, s.book, BookAfter(s.book, e)))
    ensures CommitFill(s, intent, e).Ok?
    ensures SoundWithinBar(CommitFill(s, intent, e).state, before, bar)
  {
    hide HaltDecision, BookAfter, PurchaseCapped, MarketValue, ValidConfig, CheckHalt, TradeOf;
    var after := BookAfter(s.book, e);
    var journal := s.journal.(
      fills := s.journal.fills + [FillOf(intent, e)],
      trades := s.journal.trades + [TradeOf(intent, e, s.book, after)]);
    var filled := Emit(s.(book := after, journal := journal), FillCreated, intent.executionTimestamp);
    assert SoundWithinBar(filled, before, bar);
    CheckHaltSound(filled, before, bar, intent.executionTimestamp,
                   after.cash + MarketValue(after.quantity, e.reference));
  }

  lemma JudgedSound(s: State, before: State, bar: Bar, intent: OrderIntent, decision: RiskDecision)
    requires SoundWithinBar(s, before, bar)
    requires intent.id.executionTimestamp == bar.timestamp
    ensures SoundWithinBar(Judged(s, bar, intent, decision), before, bar)
    ensures Judged(s, bar, intent, decision).book == s.book
    ensures Judged(s, bar, intent, decision).setup == s.setup
  {
    hide PurchaseCapped, ValidConfig, SoundBook;
  }

  lemma SubmitOrderSound(s: State, before: State, bar: Bar, e: Execution, equity: int)
    requires s.pending.Some?
    requires OrderContext(s, bar, IntentOf(s.pending.value, bar, e).id, e, equity)
    requires SoundWithinBar(s, before, bar)
    ensures SubmitOrder(s, bar, e, equity).Ok?
    ensures SoundWithinBar(SubmitOrder(s, bar, e, equity).state, before, bar)
  {
    var intent := IntentOf(s.pending.value, bar, e);
    assert intent.id.executionTimestamp == bar.timestamp;
    assert e.side == Sell ==> e.quantity <= s.book.quantity;
    assert SoundBook(s.book);
    hide OrderDecision, OrderOf, SnapshotAt, BookAfter, PurchaseCapped, IntentOf, TradeOf, OrderContext,
      CommitFill, SoundWithinBar, Judged, SoundBook, CashAfter, ResultingQuantity;
    var decision := OrderDecision(s.setup.policy, OrderOf(s, bar, intent.id, e), SnapshotAt(s, equity));
    JudgedSound(s, before, bar, intent, decision);
    if decision.approved {
      ApprovedFillIsSound(s, bar, e, equity);
      CommitFillSound(Judged(s, bar, intent, decision), before, bar, intent, e);
    }
  }

  lemma MarkAndCheckSound(s: State, before: State, bar: Bar, timestamp: int, price: real)
    requires SoundWithinBar(s, before, bar)
    ensures SoundWithinBar(MarkAndCheck(s, timestamp, price), before, bar)
    ensures var m := MarkAndCheck(s, timestamp, price);
      && m.marks.peak >= EquityAt(m.book, price)
      && (!m.halt.active ==> HaltDecision(m, EquityAt(m.book, price)).approved)
  {
    hide PurchaseCapped, ValidConfig, PortfolioDecision, EquityAt;
  }

  /** The open phase of a reachable state never trips the engine's guards. */
  lemma OpenPhaseSound(s: State, bar: Bar, open: real)
    requires Sound(s) && EventMatches(s, bar) && open > 0.0
    ensures OpenPhase(s, bar, open).Ok?
    ensures SoundWithinBar(OpenPhase(s, bar, open).state, s, bar)
  {
    var entered := EnterBar(s, bar);
    assert SoundWithinBar(entered, s, bar) && entered.pending == s.pending;
    assert s.lastIntent.Some? ==> s.lastIntent.value.executionTimestamp < bar.timestamp;
    Causality.BookUntouchedByMark(entered, bar.timestamp, open);
    MarkAndCheckSound(entered, s, bar, bar.timestamp, open);
    hide MarkAndCheck, SubmitOrder, EnterBar, TargetQuantity, HaltDecision, CurveSound, PurchaseCapped,
      SoundWithinBar;
    var marked := MarkAndCheck(entered, bar.timestamp, open);
    if marked.pending.Some? && !marked.halt.active {
      MarkedEquityPositive(entered, bar.timestamp, open);
      ApplyPendingSound(marked, s, bar, open);
    }
  }

  lemma SizingRequestValid(s: State, open: real)
    requires s.pending.Some? && ValidSignal(s.pending.value) && open > 0.0
    requires s.book.cash >= 0 && s.book.quantity >= 0 && EquityAt(s.book, open) > 0
    ensures ValidRequest(SizingRequest(s, open, EquityAt(s.book, open)))
  {
    hide MarketValue;
  }

  /** The trade a pending target asks for never sells more than is held. */
  lemma TargetDeltaCovered(s: State, open: real)
    requires s.pending.Some? && ValidSignal(s.pending.value) && open > 0.0
    requires s.book.cash >= 0 && s.book.quantity >= 0 && EquityAt(s.book, open) > 0
    ensures s.book.quantity + TargetDelta(s, open, EquityAt(s.book, open)) >= 0
  {
    SizingRequestValid(s, open);
    hide TargetQuantity, ValidRequest;
    TargetQuantityNonNegative(s.setup.cfg, SizingRequest(s, open, EquityAt(s.book, open)));
  }

  lemma ApplyPendingSound(s: State, before: State, bar: Bar, open: real)
    requires s.pending.Some? && ValidSignal(s.pending.value) && open > 0.0
    requires SoundWithinBar(s, before, bar)
    requires s.lastIntent.Some? ==> s.lastIntent.value.executionTimestamp < bar.timestamp
    requires EquityAt(s.book, open) > 0 && HaltDecision(s, EquityAt(s.book, open)).approved
    ensures ApplyPending(s, bar, open, EquityAt(s.book, open)).Ok?
    ensures SoundWithinBar(ApplyPending(s, bar, open, EquityAt(s.book, open)).state, before, bar)
  {
    assert SoundBook(s.book) && ValidConfig(s.setup.cfg);
    TargetDeltaCovered(s, open);
    hide TargetDelta, HaltDecision, SubmitOrder, EquityAt, OrderContext, SoundWithinBar, ExecutionOf;
    var equity := EquityAt(s.book, open);
    var delta := TargetDelta(s, open, equity);
    if delta != 0 {
      ContextOfTrade(s, bar, delta, open, equity);
      SubmitOrderSound(s, before, bar, ExecutionOf(s.setup.cfg, delta, open), equity);
    }
  }

  lemma ContextOfTrade(s: State, bar: Bar, delta: int, open: real, equity: int)
    requires s.pending.Some? && open > 0.0
    requires ValidConfig(s.setup.cfg) && SoundBook(s.book)
    requires s.lastIntent.Some? ==> s.lastIntent.value.executionTimestamp < bar.timestamp
    requires equity == EquityAt(s.book, open) && HaltDecision(s, equity).approved
    requires delta != 0 && s.book.quantity + delta >= 0
    ensures var e := ExecutionOf(s.setup.cfg, delta, open);
      OrderContext(s, bar, IntentOf(s.pending.value, bar, e).id, e, equity)
  {
    hide HaltDecision, EquityAt, ExecutionPrice, TradeFee, Times, RoundHalfEven, WeightText, UtcDate;
  }

  // ---------- the close phase ----------

  /** A passed halt check bounds both losses strictly. */
  lemma PassedCheckWithinLimits(s: State, bar: Bar, target: real)
    requires s.marks.peak >= EquityAt(s.book, bar.close)
    requires !s.halt.active ==> HaltDecision(s, EquityAt(s.book, bar.close)).approved
    ensures PointWithinLimits(s.setup.policy, s.setup.cfg.moneyPrecision, PointOf(s, bar, target))
  {
    var equity := EquityAt(s.book, bar.close);
    var p := SnapshotAt(s, equity);
    var point := PointOf(s, bar, target);
    assert point.equity == equity;
    if !s.halt.active {
      PassedHaltCheckIsSilent(s, equity, []);
      assert TinyEquity(s.setup.cfg.moneyPrecision) > 0.0;
      assert p.peakEquity == s.marks.peak as real && p.equity == equity as real;
      assert DrawdownPct(p) == point.drawdown;
      assert DailyLossPct(p) == DailyLossAt(s.setup.cfg.moneyPrecision, point);
    }
  }

  /** The mark at the close, before the next target is known. */
  ghost predicate ReadyToRecord(s: State, before: State, bar: Bar) {
    && s.setup == before.setup
    && ValidConfig(s.setup.cfg)
    && SoundBook(s.book)
    && IntentBy(s, bar.timestamp)
    && (forall t :: t in s.journal.trades ==> PurchaseCapped(s.setup.policy, t))
    && s.journal.curve == before.journal.curve
    && s.journal.history == before.journal.history + [bar]
    && s.marks.peak >= before.marks.peak
    && (before.halt.active ==> s.halt == before.halt)
    && s.marks.peak >= EquityAt(s.book, bar.close)
    && (!s.halt.active ==> HaltDecision(s, EquityAt(s.book, bar.close)).approved)
  }

  lemma MarkCloseReady(s: State, before: State, bar: Bar)
    requires SoundWithinBar(s, before, bar)
    ensures ReadyToRecord(MarkClose(s, bar), before, bar)
  {
    MarkAndCheckSound(s, before, bar, bar.timestamp, bar.close);
    var marked := MarkAndCheck(s, bar.timestamp, bar.close);
    hide MarkAndCheck, PurchaseCapped, PortfolioDecision, EquityAt, ValidConfig;
    var seen := MarkClose(s, bar);
    assert SnapshotAt(seen, EquityAt(seen.book, bar.close)) == SnapshotAt(marked, EquityAt(marked.book, bar.close));
  }

  lemma HaltDecisionReadsBook(s: State, t: State, equity: int)
    requires t.setup == s.setup && t.book == s.book && t.marks == s.marks && t.halt == s.halt
    ensures HaltDecision(t, equity) == HaltDecision(s, equity)
  {
    hide PortfolioDecision;
  }

  lemma CurveExtends(before: State, after: State, bar: Bar, point: EquityPoint)
    requires CurveSound(before) && after.setup == before.setup
    requires after.journal.curve == before.journal.curve + [point]
    requires after.journal.history == before.journal.history + [bar]
    requires PointWithinLimits(after.setup.policy, after.setup.cfg.moneyPrecision, point)
    requires before.marks.peak <= point.peakEquity == after.marks.peak
    requires point.halt == after.halt && (before.halt.active ==> after.halt == before.halt)
    requires forall i :: 0 <= i < |before.journal.curve| && before.journal.curve[i].halt.active ==> before.halt.active
    ensures CurveSound(after)
  {
    hide PointWithinLimits;
  }

  lemma RecordCloseSound(s: State, before: State, bar: Bar, signal: Signal)
    requires Sound(before) && ReadyToRecord(s, before, bar) && ValidSignal(signal)
    ensures Sound(RecordClose(s, bar, signal))
  {
    hide HaltDecision, PointWithinLimits, PurchaseCapped, ValidConfig, EquityAt;
    var signalled := Emit(s.(pending := Some(signal)), SignalGenerated, bar.timestamp);
    HaltDecisionReadsBook(s, signalled, EquityAt(s.book, bar.close));
    PassedCheckWithinLimits(signalled, bar, signal.targetWeight);
    var point := PointOf(signalled, bar, signal.targetWeight);
    assert point.peakEquity == s.marks.peak && point.halt == s.halt;
    hide PointOf, CurveSound;
    var after := RecordClose(s, bar, signal);
    assert after.journal.curve == before.journal.curve + [point];
    HaltedPointsMeanHalted(before);
    CurveExtends(before, after, bar, point);
  }

  lemma HaltedPointsMeanHalted(s: State)
    requires CurveSound(s)
    ensures forall i :: 0 <= i < |s.journal.curve| && s.journal.curve[i].halt.active ==> s.halt.active
  {
    hide PointWithinLimits;
  }

  /** Every bar a reachable state commits leads to a reachable state. */
  lemma ProcessBarSound(world: World, s: State, bar: Bar)
    requires Sound(s)
    ensures Sound(ProcessBar(world, s, bar).state)
    ensures ProcessBar(world, s, bar).error != Some(ShortSaleApproved)
    ensures ProcessBar(world, s, bar).error != Some(BookViolated)
  {
    hide Sound;
    var buffered := s.(buffer := Some([]));
    assert Sound(buffered) && Sound(s.(failed := true)) by { SoundIgnoresEvents(s); }
    AdvanceSound(world, buffered, bar);
    hide Advance;
    var o := Advance(world, buffered, bar);
    if !s.failed && o.Ok? {
      SoundIgnoresEvents(o.state);
      if o.state.buffer.Some? {
        Causality.DeliverAllOnlyWarns(world, o.state.(buffer := None), o.state.buffer.value);
      }
    }
  }

  lemma SoundParts(s: State)
    requires Sound(s)
    ensures CurveSound(s)
  {
    hide CurveSound, PurchaseCapped, ValidConfig;
  }

  lemma SoundIgnoresEvents(s: State)
    requires Sound(s)
    ensures forall buffer, failed, warnings ::
      Sound(s.(buffer := buffer, failed := failed, warnings := warnings))
  {
    hide PointWithinLimits, PurchaseCapped, ValidConfig;
  }

  lemma AdvanceSound(world: World, s: State, bar: Bar)
    requires Sound(s)
    ensures var o := Advance(world, s, bar);
      if o.Ok? then Sound(o.state) else o.error !in {ShortSaleApproved, BookViolated}
  {
    hide Sound, OpenPhase, ClosePhase, SoundWithinBar;
    if EventMatches(s, bar) && bar.open.Some? && bar.open.value > 0.0 {
      OpenPhaseSound(s, bar, bar.open.value);
      ClosePhaseSound(world, OpenPhase(s, bar, bar.open.value).state, s, bar);
    }
  }

  lemma ClosePhaseSound(world: World, s: State, before: State, bar: Bar)
    requires Sound(before) && SoundWithinBar(s, before, bar)
    ensures ClosePhase(world, s, bar).Ok? ==> Sound(ClosePhase(world, s, bar).state)
    ensures ClosePhase(world, s, bar).Fail? ==>
      ClosePhase(world, s, bar).error in {StrategyFailed, SignalMismatch}
  {
    MarkCloseReady(s, before, bar);
    hide MarkClose, RecordClose, ReadyToRecord, SoundWithinBar, Sound;
    var seen := MarkClose(s, bar);
    match NextSignal(world, seen, bar) {
      case None =>
      case Some(signal) =>
        RecordCloseSound(seen, before, bar, signal);
    }
  }

  // ---------- whole runs ----------

  /**
  Any run that starts in a reachable state ends in one: cash and quantity stay
  non-negative, every purchase was capped when it was made, and every point of the
  curve that is not marked halted lost less than both limits.
  */
  lemma {:induction false} RunSound(world: World, s: State, bars: seq<Bar>)
    requires Sound(s)
    ensures var r := Run(world, s, bars);
      if r.Ok? then Sound(r.state) else r.error !in {ShortSaleApproved, BookViolated}
    decreases |bars|
  {
    hide Sound, ProcessBar;
    if bars != [] {
      var front := bars[..|bars| - 1];
      RunSound(world, s, front);
      var r := Run(world, s, front);
      if r.Ok? {
        ProcessBarSound(world, r.state, bars[|bars| - 1]);
      }
    }
  }

  /**
  A finished batch run respects the policy it was asked for and its configuration alike:
  cash and quantity are not negative, every purchase stayed within both asset and gross
  caps, and every point not marked halted lost strictly less than both sets of limits.
  */
  lemma BatchWithinBothLimits(world: World, requested: Setup, warnings: seq<Warning>)
    requires ValidConfig(requested.cfg) && Batch(world, Effective(requested), warnings).Ok?
    ensures var cfg, policy := requested.cfg, requested.policy;
      var s := Batch(world, Effective(requested), warnings).state;
      && s.book.cash >= 0 && s.book.quantity >= 0
      && (forall t | t in s.journal.trades && t.fill.side == Buy ::
            var value := MarketValue(t.resultingQuantity, t.fill.referencePrice);
            var equity := t.resultingCash + value;
            && equity > 0
            && Ratio(value as real, equity as real)
               <= Min(Min(policy.maxAssetWeight, cfg.maxPosition),
                      Min(policy.maxTotalGrossExposure, cfg.maxTotalExposure)) + RISK_EPSILON)
      && (forall p | p in s.journal.curve && !p.halt.active ::
            && p.drawdown < Min(policy.maxDrawdown, cfg.maxDrawdown)
            && DailyLossAt(cfg.moneyPrecision, p) < Min(policy.maxDailyLoss, cfg.maxDailyLoss))
  {
    var setup := Effective(requested);
    InitialSound(setup, warnings);
    RunSound(world, Initial(setup, warnings), setup.validatedBars);
    Causality.RunSetup(world, Initial(setup, warnings), setup.validatedBars);
    hide Run, Ratio, MarketValue, DailyLossAt, Initial;
    var s := Batch(world, setup, warnings).state;
    forall p | p in s.journal.curve
      ensures PointWithinLimits(s.setup.policy, s.setup.cfg.moneyPrecision, p)
    {
      var i :| 0 <= i < |s.journal.curve| && s.journal.curve[i] == p;
    }
    forall t | t in s.journal.trades
      ensures PurchaseCapped(s.setup.policy, t)
    {
    }
  }

  /** What a circuit breaker freezes. */
  predicate Frozen(s: State, t: State) {
    && s.halt.active && t.halt == s.halt
    && t.book == s.book
    && t.lastIntent == s.lastIntent
    && t.journal.intents == s.journal.intents
    && t.journal.decisions == s.journal.decisions
    && t.journal.fills == s.journal.fills
    && t.journal.trades == s.journal.trades
  }

  lemma MarkFrozen(s: State, timestamp: int, price: real)
    requires s.halt.active
    ensures Frozen(s, MarkAndCheck(s, timestamp, price))
  {
    hide EquityAt;
  }

  lemma OpenPhaseFrozen(s: State, bar: Bar, open: real)
    requires s.halt.active && open > 0.0
    ensures OpenPhase(s, bar, open).Ok? && Frozen(s, OpenPhase(s, bar, open).state)
  {
    assert Frozen(s, EnterBar(s, bar));
    hide MarkAndCheck, ApplyPending, EnterBar;
    MarkFrozen(EnterBar(s, bar), bar.timestamp, open);
  }

  lemma ClosePhaseFrozen(world: World, s: State, bar: Bar)
    requires s.halt.active
    ensures ClosePhase(world, s, bar).Ok? ==> Frozen(s, ClosePhase(world, s, bar).state)
  {
    hide MarkAndCheck, NextSignal, PointOf;
    MarkFrozen(s, bar.timestamp, bar.close);
  }

  lemma AdvanceFrozen(world: World, s: State, bar: Bar)
    requires s.halt.active
    ensures Advance(world, s, bar).Ok? ==> Frozen(s, Advance(world, s, bar).state)
  {
    hide OpenPhase, ClosePhase, EventMatches;
    if bar.open.Some? && bar.open.value > 0.0 {
      OpenPhaseFrozen(s, bar, bar.open.value);
      ClosePhaseFrozen(world, OpenPhase(s, bar, bar.open.value).state, bar);
    }
  }

  lemma ProcessBarFrozen(world: World, s: State, bar: Bar)
    requires s.halt.active
    ensures Frozen(s, ProcessBar(world, s, bar).state)
  {
    AdvanceFrozen(world, s.(buffer := Some([])), bar);
    hide Advance;
    var o := Advance(world, s.(buffer := Some([])), bar);
    if o.Ok? && o.state.buffer.Some? {
      Causality.DeliverAllOnlyWarns(world, o.state.(buffer := None), o.state.buffer.value);
    }
  }

  /** Once halted, no run changes the book, the halt, or anything about orders. */
  lemma {:induction false} HaltFreezesRun(world: World, s: State, bars: seq<Bar>)
    requires s.halt.active
    ensures Run(world, s, bars).Ok? ==> Frozen(s, Run(world, s, bars).state)
    decreases |bars|
  {
    hide ProcessBar;
    if bars != [] {
      var front := bars[..|bars| - 1];
      HaltFreezesRun(world, s, front);
      if Run(world, s, front).Ok? {
        ProcessBarFrozen(world, Run(world, s, front).state, bars[|bars| - 1]);
      }
    }
  }

  // ---------- every public call ----------

  /** What a caller can do to an engine besides reading it. */
  datatype EngineCall = NextBar(bar: Bar) | CancelPending(timestamp: int) | KillEngine(timestamp: int)

  function Call(world: World, s: State, call: EngineCall): Processed {
    match call
    case NextBar(bar) => ProcessBar(world, s, bar)
    case CancelPending(timestamp) => Processed(ExpirePending(world, s, timestamp), None)
    case KillEngine(timestamp) => Processed(ActivateKillSwitch(world, s, timestamp), None)
  }

  /** The engine after a sequence of calls, whatever each of them raised. */
  function AfterCalls(world: World, s: State, calls: seq<EngineCall>): State
    decreases |calls|
  {
    if calls == [] then s
    else Call(world, AfterCalls(world, s, calls[..|calls| - 1]), calls[|calls| - 1]).state
  }

  /** Neither controls nor warnings nor the failure flag leave the invariant. */
  lemma SoundAfterControls(s: State, t: State)
    requires Sound(s)
    requires t == s.(pending := t.pending, halt := t.halt, warnings := t.warnings, failed := t.failed)
    requires t.pending == s.pending || t.pending == None
    requires s.halt.active ==> t.halt == s.halt
    ensures Sound(t)
  {
    hide PointWithinLimits, PurchaseCapped, ValidConfig;
  }

  /** Every call keeps the invariant, and none meets one of the engine's own two guards. */
  lemma CallSound(world: World, s: State, call: EngineCall)
    requires Sound(s)
    ensures Sound(Call(world, s, call).state)
    ensures Call(world, s, call).error !in {Some(ShortSaleApproved), Some(BookViolated)}
  {
    hide Sound, ProcessBar, ExpirePending, ActivateKillSwitch;
    match call
    case NextBar(bar) => ProcessBarSound(world, s, bar);
    case CancelPending(timestamp) =>
      Causality.ExpireKeeps(world, s, timestamp);
      SoundAfterControls(s, ExpirePending(world, s, timestamp));
    case KillEngine(timestamp) =>
      Causality.KillKeeps(world, s, timestamp);
      SoundAfterControls(s, ActivateKillSwitch(world, s, timestamp));
  }

  /** So the invariant holds after any bars, cancellations and kill switches, failed bars included. */
  lemma {:induction false} CallsSound(world: World, setup: Setup, warnings: seq<Warning>, calls: seq<EngineCall>)
    requires ValidConfig(setup.cfg)
    ensures Sound(AfterCalls(world, Initial(setup, warnings), calls))
    decreases |calls|
  {
    hide Sound, Call, Initial;
    if calls == [] {
      InitialSound(setup, warnings);
    } else {
      var front := calls[..|calls| - 1];
      CallsSound(world, setup, warnings, front);
      CallSound(world, AfterCalls(world, Initial(setup, warnings), front), calls[|calls| - 1]);
    }
  }

  lemma CallFrozen(world: World, s: State, call: EngineCall)
    requires s.halt.active
    ensures Frozen(s, Call(world, s, call).state)
  {
    hide ProcessBar, ExpirePending, ActivateKillSwitch;
    match call
    case NextBar(bar) => ProcessBarFrozen(world, s, bar);
    case CancelPending(timestamp) => Causality.ExpireKeeps(world, s, timestamp);
    case KillEngine(timestamp) => Causality.KillKeeps(world, s, timestamp);
  }

  /** Once halted, whether by a breaker or by hand, no sequence of calls ever trades again. */
  lemma {:induction false} HaltFreezesCalls(world: World, s: State, calls: seq<EngineCall>)
    requires s.halt.active
    ensures Frozen(s, AfterCalls(world, s, calls))
    decreases |calls|
  {
    hide Call;
    if calls != [] {
      HaltFreezesCalls(world, s, calls[..|calls| - 1]);
      CallFrozen(world, AfterCalls(world, s, calls[..|calls| - 1]), calls[|calls| - 1]);
    }
  }
}

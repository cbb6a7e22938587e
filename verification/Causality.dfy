/**
What a run may depend on. Sinks, warnings, event buffers and bars that have not
been processed are erased by `Essence`; processing a bar commutes with the
erasure, so none of them can influence trading.
*/
module Causality {
  import opened Domain
  import opened Options
  import opened RiskPolicy
  import opened Rounding
  import opened Sizing
  import opened EngineSpec

  /** The trading state: everything a bar's outcome may legitimately depend on. */
  function Essence(s: State): State {
    s.(setup := s.setup.(sink := None, validatedBars := []),
       buffer := None, delivering := false, failed := false, warnings := [])
  }

  function EssenceOf(o: Outcome): Outcome {
    match o
    case Ok(s) => Ok(Essence(s))
    case Fail(error) => o
  }

  // ---------- the open phase commutes with the erasure ----------

  lemma CheckHaltEssence(s: State, timestamp: int, equity: int)
    ensures Essence(CheckHalt(s, timestamp, equity)) == CheckHalt(Essence(s), timestamp, equity)
  {
    hide PortfolioDecision, Epsilon;
    assert HaltDecision(Essence(s), equity) == HaltDecision(s, equity);
    hide HaltDecision;
  }

  lemma MarkAndCheckEssence(s: State, timestamp: int, price: real)
    ensures Essence(MarkAndCheck(s, timestamp, price)) == MarkAndCheck(Essence(s), timestamp, price)
  {
    var equity := EquityAt(s.book, price);
    CheckHaltEssence(s.(marks := s.marks.(peak := MaxInt(s.marks.peak, equity))), timestamp, equity);
  }

  lemma CommitFillEssence(s: State, intent: OrderIntent, e: Execution)
    ensures EssenceOf(CommitFill(s, intent, e)) == CommitFill(Essence(s), intent, e)
  {
    hide CheckHalt, BookAfter, MarketValue;
    var after := BookAfter(s.book, e);
    var journal := s.journal.(
      fills := s.journal.fills + [FillOf(intent, e)],
      trades := s.journal.trades + [TradeOf(intent, e, s.book, after)]);
    var filled := Emit(s.(book := after, journal := journal), FillCreated, intent.executionTimestamp);
    CheckHaltEssence(filled, intent.executionTimestamp, after.cash + MarketValue(after.quantity, e.reference));
  }

  lemma SubmitOrderEssence(s: State, bar: Bar, e: Execution, equity: int)
    requires s.pending.Some?
    ensures EssenceOf(SubmitOrder(s, bar, e, equity)) == SubmitOrder(Essence(s), bar, e, equity)
  {
    hide CommitFill, OrderDecision;
    var intent := IntentOf(s.pending.value, bar, e);
    assert OrderOf(Essence(s), bar, intent.id, e) == OrderOf(s, bar, intent.id, e);
    assert SnapshotAt(Essence(s), equity) == SnapshotAt(s, equity);
    var decision := OrderDecision(s.setup.policy, OrderOf(s, bar, intent.id, e), SnapshotAt(s, equity));
    hide OrderOf, SnapshotAt, IntentOf;
    CommitFillEssence(Judged(s, bar, intent, decision), intent, e);
  }

  lemma OpenPhaseEssence(s: State, bar: Bar, open: real)
    requires open > 0.0
    ensures EssenceOf(OpenPhase(s, bar, open)) == OpenPhase(Essence(s), bar, open)
  {
    hide MarkAndCheck, SubmitOrder, TargetQuantity, ExecutionOf, EquityAt;
    assert Essence(EnterBar(s, bar)) == EnterBar(Essence(s), bar);
    MarkAndCheckEssence(EnterBar(s, bar), bar.timestamp, open);
    var marked := MarkAndCheck(EnterBar(s, bar), bar.timestamp, open);
    if marked.pending.Some? && !marked.halt.active {
      MarkedEquityPositive(EnterBar(s, bar), bar.timestamp, open);
      var equity := EquityAt(marked.book, open);
      assert equity == EquityAt(EnterBar(s, bar).book, open) by {
        BookUntouchedByMark(EnterBar(s, bar), bar.timestamp, open);
      }
      assert SizingRequest(Essence(marked), open, equity) == SizingRequest(marked, open, equity);
      var delta := TargetDelta(marked, open, equity);
      if delta != 0 {
        SubmitOrderEssence(marked, bar, ExecutionOf(marked.setup.cfg, delta, open), equity);
      }
    }
  }

  lemma BookUntouchedByMark(s: State, timestamp: int, price: real)
    ensures var m := MarkAndCheck(s, timestamp, price);
      && m.book == s.book && m.pending == s.pending && m.lastIntent == s.lastIntent
      && m.setup == s.setup && m.symbol == s.symbol
      && m.journal == s.journal.(decisions := m.journal.decisions)
  {
    hide HaltDecision;
  }

  // ---------- the close phase ----------

  /** Whether a strategy's call tampers with the engine is decided by the history it was given. */
  ghost predicate TampersByHistory(world: World, strategy: int) {
    forall window, s, t ::
      (world.strategyLeaves(strategy, window, s) == s) == (world.strategyLeaves(strategy, window, t) == t)
  }

  /** Successful closes of equal trading states agree, tampering strategies included. */
  lemma ClosePhaseEssence(world: World, left: State, right: State, bar: Bar)
    requires Essence(left) == Essence(right)
    ensures var l, r := ClosePhase(world, left, bar), ClosePhase(world, right, bar);
      && (l.Ok? && r.Ok? ==> Essence(l.state) == Essence(r.state))
      && (TampersByHistory(world, left.setup.strategy) ==> EssenceOf(l) == EssenceOf(r))
  {
    MarkCloseEssence(left, bar);
    MarkCloseEssence(right, bar);
    hide MarkClose, RecordClose, Trailing;
    var seenL, seenR := MarkClose(left, bar), MarkClose(right, bar);
    assert Essence(seenL) == Essence(seenR);
    var signalL, signalR := NextSignal(world, seenL, bar), NextSignal(world, seenR, bar);
    if signalL.Some? && signalR.Some? {
      RecordCloseEssence(seenL, bar, signalL.value);
      RecordCloseEssence(seenR, bar, signalR.value);
    }
  }

  lemma MarkCloseEssence(s: State, bar: Bar)
    ensures Essence(MarkClose(s, bar)) == MarkClose(Essence(s), bar)
    ensures MarkClose(s, bar).setup == s.setup
  {
    hide MarkAndCheck;
    MarkAndCheckEssence(s, bar.timestamp, bar.close);
    BookUntouchedByMark(s, bar.timestamp, bar.close);
  }

  lemma RecordCloseEssence(s: State, bar: Bar, signal: Signal)
    ensures Essence(RecordClose(s, bar, signal)) == RecordClose(Essence(s), bar, signal)
  {
    var signalled := Emit(s.(pending := Some(signal)), SignalGenerated, bar.timestamp);
    assert PointOf(signalled, bar, signal.targetWeight)
        == PointOf(Essence(s).(pending := Some(signal)), bar, signal.targetWeight);
  }

  // ---------- one bar ----------

  /** Equal trading states process a bar alike; only tampering can make one of them fail alone. */
  lemma ProcessBarEssence(world: World, left: State, right: State, bar: Bar)
    requires Essence(left) == Essence(right)
    ensures var l, r := ProcessBar(world, left, bar), ProcessBar(world, right, bar);
      l.error == None && r.error == None ==> Essence(l.state) == Essence(r.state)
    ensures var l, r := ProcessBar(world, left, bar), ProcessBar(world, right, bar);
      (TampersByHistory(world, left.setup.strategy)
       && left.setup.validatedBars == right.setup.validatedBars && left.failed == right.failed)
      ==> l.error == r.error && l.state.failed == r.state.failed && Essence(l.state) == Essence(r.state)
  {
    hide Advance, DeliverAll;
    var l, r := left.(buffer := Some([])), right.(buffer := Some([]));
    assert Essence(l) == Essence(r);
    AdvanceEssence(world, l, r, bar);
    AdvanceSetup(world, l, bar);
    AdvanceSetup(world, r, bar);
    DeliveryOnlyWarns(world, left, bar);
    DeliveryOnlyWarns(world, right, bar);
  }

  lemma AdvanceEssence(world: World, left: State, right: State, bar: Bar)
    requires Essence(left) == Essence(right)
    ensures var l, r := Advance(world, left, bar), Advance(world, right, bar);
      && (l.Ok? && r.Ok? ==> Essence(l.state) == Essence(r.state))
      && ((TampersByHistory(world, left.setup.strategy)
           && left.setup.validatedBars == right.setup.validatedBars) ==> EssenceOf(l) == EssenceOf(r))
  {
    hide OpenPhase, ClosePhase;
    assert left.setup.validatedBars == right.setup.validatedBars
      ==> EventMatches(left, bar) == EventMatches(right, bar);
    if bar.open.Some? && bar.open.value > 0.0 {
      OpenPhaseEssence(left, bar, bar.open.value);
      OpenPhaseEssence(right, bar, bar.open.value);
      OpenPhaseSetup(left, bar, bar.open.value);
      var l, r := OpenPhase(left, bar, bar.open.value), OpenPhase(right, bar, bar.open.value);
      if l.Ok? && r.Ok? {
        ClosePhaseEssence(world, l.state, r.state, bar);
      }
    }
  }

  lemma AdvanceSetup(world: World, s: State, bar: Bar)
    ensures Advance(world, s, bar).Ok? ==> SameSetting(s, Advance(world, s, bar).state)
  {
    hide OpenPhase, ClosePhase;
    if bar.open.Some? && bar.open.value > 0.0 {
      OpenPhaseSetup(s, bar, bar.open.value);
      if OpenPhase(s, bar, bar.open.value).Ok? {
        ClosePhaseSetup(world, OpenPhase(s, bar, bar.open.value).state, bar);
      }
    }
  }

  /** A committed bar differs from the state after its close only in its delivered events. */
  lemma DeliveryOnlyWarns(world: World, s: State, bar: Bar)
    ensures var p := ProcessBar(world, s, bar);
      !s.failed && Advance(world, s.(buffer := Some([])), bar).Ok? ==>
        && p.error == None
        && Essence(p.state) == Essence(Advance(world, s.(buffer := Some([])), bar).state)
        && p.state.failed == Advance(world, s.(buffer := Some([])), bar).state.failed
  {
    hide Advance, Deliver;
    match Advance(world, s.(buffer := Some([])), bar)
    case Fail(_) =>
    case Ok(committed) =>
      if committed.buffer.Some? {
        DeliverAllOnlyWarns(world, committed.(buffer := None), committed.buffer.value);
      }
  }

  /** Delivering events leaves the engine as it was, plus at most one sink warning. */
  lemma {:induction false} DeliverAllOnlyWarns(world: World, s: State, events: seq<Event>)
    ensures var d := DeliverAll(world, s, events);
      && d == s.(warnings := d.warnings)
      && (d.warnings == s.warnings
          || (|d.warnings| == |s.warnings| + 1 && d.warnings[..|s.warnings|] == s.warnings
              && d.warnings[|s.warnings|].EventSinkFailure?
              && forall w :: w in s.warnings ==> !w.EventSinkFailure?))
    decreases |events|
  {
    if events != [] {
      var once := Deliver(world, s, events[0]);
      assert once == s || (once == s.(warnings := once.warnings)
        && once.warnings[..|s.warnings|] == s.warnings
        && |once.warnings| == |s.warnings| + 1
        && once.warnings[|s.warnings|].EventSinkFailure?
        && forall w :: w in s.warnings ==> !w.EventSinkFailure?);
      DeliverAllOnlyWarns(world, once, events[1..]);
      if once != s {
        assert once.warnings[|s.warnings|] in once.warnings;
      }
    }
  }

  // ---------- controls and deliveries outside a bar ----------

  lemma DeliverKeeps(world: World, s: State, event: Event)
    ensures Deliver(world, s, event) == s.(warnings := Deliver(world, s, event).warnings)
  {
  }

  lemma ExpireKeeps(world: World, s: State, timestamp: int)
    ensures var e := ExpirePending(world, s, timestamp);
      e == s.(pending := None, warnings := e.warnings)
  {
    hide Deliver;
    DeliverKeeps(world, s.(pending := None), Event(PendingSignalExpired, timestamp));
  }

  lemma KillKeeps(world: World, s: State, timestamp: int)
    ensures var k := ActivateKillSwitch(world, s, timestamp);
      && k == s.(pending := None, warnings := k.warnings, halt := k.halt)
      && k.halt.active
      && k.halt == (if s.halt.active then s.halt else HaltState(true, Some(timestamp), [KillSwitch]))
  {
    hide Deliver, ExpirePending;
    ExpireKeeps(world, s, timestamp);
    var latched := ExpirePending(world, s, timestamp).(halt := HaltState(true, Some(timestamp), [KillSwitch]));
    DeliverKeeps(world, latched, Event(RiskRejected, timestamp));
  }

  // ---------- what a bar leaves of the setting ----------

  predicate SameSetting(s: State, t: State) {
    t.setup == s.setup && t.failed == s.failed && t.warnings == s.warnings && t.delivering == s.delivering
  }

  lemma CommitFillSetup(s: State, intent: OrderIntent, e: Execution)
    ensures CommitFill(s, intent, e).Ok? ==> SameSetting(s, CommitFill(s, intent, e).state)
  {
    hide HaltDecision, BookAfter, MarketValue;
  }

  lemma SubmitOrderSetup(s: State, bar: Bar, e: Execution, equity: int)
    requires s.pending.Some?
    ensures SubmitOrder(s, bar, e, equity).Ok? ==> SameSetting(s, SubmitOrder(s, bar, e, equity).state)
  {
    hide CommitFill, OrderDecision, OrderOf, SnapshotAt, IntentOf;
    var intent := IntentOf(s.pending.value, bar, e);
    var decision := OrderDecision(s.setup.policy, OrderOf(s, bar, intent.id, e), SnapshotAt(s, equity));
    CommitFillSetup(Judged(s, bar, intent, decision), intent, e);
  }

  lemma OpenPhaseSetup(s: State, bar: Bar, open: real)
    requires open > 0.0
    ensures OpenPhase(s, bar, open).Ok? ==> SameSetting(s, OpenPhase(s, bar, open).state)
  {
    hide HaltDecision, TargetQuantity, SubmitOrder, ExecutionOf, EquityAt;
    var marked := MarkAndCheck(EnterBar(s, bar), bar.timestamp, open);
    if marked.pending.Some? && !marked.halt.active {
      MarkedEquityPositive(EnterBar(s, bar), bar.timestamp, open);
      BookUntouchedByMark(EnterBar(s, bar), bar.timestamp, open);
      var equity := EquityAt(marked.book, open);
      var delta := TargetDelta(marked, open, equity);
      SubmitOrderSetup(marked, bar, ExecutionOf(marked.setup.cfg, delta, open), equity);
    }
  }

  lemma ClosePhaseSetup(world: World, s: State, bar: Bar)
    ensures ClosePhase(world, s, bar).Ok? ==> SameSetting(s, ClosePhase(world, s, bar).state)
  {
    hide HaltDecision, NextSignal;
  }

  // ---------- whole runs ----------

  lemma ProcessBarSetup(world: World, s: State, bar: Bar)
    ensures ProcessBar(world, s, bar).state.setup == s.setup
    ensures ProcessBar(world, s, bar).error == None ==> !ProcessBar(world, s, bar).state.failed && !s.failed
  {
    hide Advance;
    AdvanceSetup(world, s.(buffer := Some([])), bar);
    var o := Advance(world, s.(buffer := Some([])), bar);
    if o.Ok? && o.state.buffer.Some? {
      DeliverAllOnlyWarns(world, o.state.(buffer := None), o.state.buffer.value);
    }
  }

  lemma {:induction false} RunSetup(world: World, s: State, bars: seq<Bar>)
    ensures Run(world, s, bars).Ok? ==> Run(world, s, bars).state.setup == s.setup
    ensures Run(world, s, bars).Ok? ==> Run(world, s, bars).state.failed == s.failed
    decreases |bars|
  {
    if bars != [] {
      RunSetup(world, s, bars[..|bars| - 1]);
      if Run(world, s, bars[..|bars| - 1]).Ok? {
        ProcessBarSetup(world, Run(world, s, bars[..|bars| - 1]).state, bars[|bars| - 1]);
      }
    }
  }

  /** Runs of equal trading states over the same bars stay equal. */
  lemma {:induction false} RunEssence(world: World, left: State, right: State, bars: seq<Bar>)
    requires Essence(left) == Essence(right)
    ensures var l, r := Run(world, left, bars), Run(world, right, bars);
      l.Ok? && r.Ok? ==> Essence(l.state) == Essence(r.state)
    ensures var l, r := Run(world, left, bars), Run(world, right, bars);
      (TampersByHistory(world, left.setup.strategy)
       && left.setup.validatedBars == right.setup.validatedBars && left.failed == right.failed)
      ==> EssenceOf(l) == EssenceOf(r)
    decreases |bars|
  {
    hide ProcessBar, Essence;
    if bars != [] {
      var front := bars[..|bars| - 1];
      RunEssence(world, left, right, front);
      RunSetup(world, left, front);
      RunSetup(world, right, front);
      var l, r := Run(world, left, front), Run(world, right, front);
      if l.Ok? && r.Ok? {
        ProcessBarEssence(world, l.state, r.state, bars[|bars| - 1]);
      }
    }
  }

  // ---------- no event sink changes trading ----------

  /**
  Batch runs with any sink, raising and overwriting as it likes, and without one have the
  same book, journals and halt whenever both succeed, and the sink costs at most one more
  warning. Unless the strategy itself tampers with the engine depending on more than its
  history, they also fail alike.
  */
  lemma SinkIsInvisible(world: World, setup: Setup, warnings: seq<Warning>)
    ensures var loud := Batch(world, setup, warnings);
      var quiet := Batch(world, setup.(sink := None), warnings);
      && (TampersByHistory(world, setup.strategy) ==> EssenceOf(loud) == EssenceOf(quiet))
      && (loud.Ok? && quiet.Ok? ==>
            && loud.state.book == quiet.state.book
            && loud.state.journal == quiet.state.journal
            && loud.state.halt == quiet.state.halt
            && OneMoreSinkWarning(warnings, loud.state.warnings)
            && quiet.state.warnings == warnings)
  {
    var loud, quiet := Initial(setup, warnings), Initial(setup.(sink := None), warnings);
    RunEssence(world, loud, quiet, setup.validatedBars);
    RunWarnings(world, loud, setup.validatedBars);
    RunWarnings(world, quiet, setup.validatedBars);
  }

  predicate OneMoreSinkWarning(before: seq<Warning>, after: seq<Warning>) {
    after == before
    || (|after| == |before| + 1 && after[..|before|] == before && after[|before|].EventSinkFailure?
        && forall w :: w in before ==> !w.EventSinkFailure?)
  }

  lemma ProcessBarWarnings(world: World, s: State, bar: Bar)
    ensures var after := ProcessBar(world, s, bar).state.warnings;
      && OneMoreSinkWarning(s.warnings, after)
      && (s.setup.sink == None ==> after == s.warnings)
  {
    AdvanceSetup(world, s.(buffer := Some([])), bar);
    hide Advance;
    var o := Advance(world, s.(buffer := Some([])), bar);
    if o.Ok? && o.state.buffer.Some? {
      DeliverAllOnlyWarns(world, o.state.(buffer := None), o.state.buffer.value);
      DeliverAllWithoutSink(world, o.state.(buffer := None), o.state.buffer.value);
    }
  }

  lemma {:induction false} DeliverAllWithoutSink(world: World, s: State, events: seq<Event>)
    ensures s.setup.sink == None ==> DeliverAll(world, s, events) == s
    decreases |events|
  {
    if events != [] && s.setup.sink == None {
      DeliverAllWithoutSink(world, s, events[1..]);
    }
  }

  lemma {:induction false} RunWarnings(world: World, s: State, bars: seq<Bar>)
    ensures Run(world, s, bars).Ok? ==>
      && OneMoreSinkWarning(s.warnings, Run(world, s, bars).state.warnings)
      && (s.setup.sink == None ==> Run(world, s, bars).state.warnings == s.warnings)
    decreases |bars|
  {
    hide ProcessBar;
    if bars != [] {
      var front := bars[..|bars| - 1];
      RunWarnings(world, s, front);
      RunSetup(world, s, front);
      if Run(world, s, front).Ok? {
        var before := Run(world, s, front).state;
        ProcessBarWarnings(world, before, bars[|bars| - 1]);
        if before.warnings != s.warnings {
          assert before.warnings[|s.warnings|] in before.warnings;
        }
      }
    }
  }

  // ---------- no lookahead ----------

  /** The order side of a journal: intents, their decisions, fills and trades. */
  datatype OrderTrace = OrderTrace(
    intents: seq<OrderIntent>, decisions: seq<DecisionRecord>, fills: seq<Fill>, trades: seq<Trade>)

  function IntentDecisions(decisions: seq<DecisionRecord>): seq<DecisionRecord> {
    if decisions == [] then []
    else
      var front, last := IntentDecisions(decisions[..|decisions| - 1]), decisions[|decisions| - 1];
      if last.intent.Some? then front + [last] else front
  }

  function OrdersOf(journal: Journal): OrderTrace {
    OrderTrace(journal.intents, IntentDecisions(journal.decisions), journal.fills, journal.trades)
  }

  /** The same bar as far as its open can tell. */
  predicate SameOpening(left: Bar, right: Bar) {
    left == right.(close := left.close)
  }

  lemma SubmitOrderIgnoresClose(s: State, left: Bar, right: Bar, e: Execution, equity: int)
    requires s.pending.Some? && SameOpening(left, right)
    ensures SubmitOrder(s, left, e, equity) == SubmitOrder(s, right, e, equity)
  {
    hide CommitFill, OrderDecision;
    var intent := IntentOf(s.pending.value, left, e);
    assert intent == IntentOf(s.pending.value, right, e);
    assert OrderOf(s, left, intent.id, e) == OrderOf(s, right, intent.id, e);
    hide OrderOf, IntentOf, SnapshotAt;
  }

  lemma OpenPhaseIgnoresClose(s: State, left: Bar, right: Bar, open: real)
    requires open > 0.0 && SameOpening(left, right)
    ensures OpenPhase(s, left, open) == OpenPhase(s, right, open)
  {
    hide MarkAndCheck, TargetQuantity, SubmitOrder, ExecutionOf, EquityAt;
    assert EnterBar(s, left) == EnterBar(s, right);
    var marked := MarkAndCheck(EnterBar(s, left), left.timestamp, open);
    if marked.pending.Some? && !marked.halt.active {
      MarkedEquityPositive(EnterBar(s, left), left.timestamp, open);
      BookUntouchedByMark(EnterBar(s, left), left.timestamp, open);
      var equity := EquityAt(marked.book, open);
      var delta := TargetDelta(marked, open, equity);
      SubmitOrderIgnoresClose(marked, left, right, ExecutionOf(marked.setup.cfg, delta, open), equity);
    }
  }

  lemma MarkAddsNoOrders(s: State, timestamp: int, price: real)
    ensures OrdersOf(MarkAndCheck(s, timestamp, price).journal) == OrdersOf(s.journal)
  {
    hide HaltDecision;
    var before, after := s.journal.decisions, MarkAndCheck(s, timestamp, price).journal.decisions;
    if after != before {
      assert after[..|after| - 1] == before;
    }
  }

  lemma ClosePhaseAddsNoOrders(world: World, s: State, bar: Bar)
    ensures ClosePhase(world, s, bar).Ok? ==>
      OrdersOf(ClosePhase(world, s, bar).state.journal) == OrdersOf(s.journal)
  {
    MarkAddsNoOrders(s, bar.timestamp, bar.close);
    hide MarkAndCheck, NextSignal, PointOf, IntentDecisions;
    BookUntouchedByMark(s, bar.timestamp, bar.close);
  }

  lemma OrdersAfterBar(world: World, s: State, bar: Bar)
    ensures ProcessBar(world, s, bar).error == None ==>
      && bar.open.Some? && bar.open.value > 0.0
      && OpenPhase(Essence(s), bar, bar.open.value).Ok?
      && OrdersOf(ProcessBar(world, s, bar).state.journal)
         == OrdersOf(OpenPhase(Essence(s), bar, bar.open.value).state.journal)
  {
    var buffered := s.(buffer := Some([]));
    DeliveryOnlyWarns(world, s, bar);
    hide IntentDecisions, OpenPhase, ClosePhase, DeliverAll;
    if bar.open.Some? && bar.open.value > 0.0 {
      OpenPhaseEssence(buffered, bar, bar.open.value);
      assert Essence(buffered) == Essence(s);
      if OpenPhase(buffered, bar, bar.open.value).Ok? {
        ClosePhaseAddsNoOrders(world, OpenPhase(buffered, bar, bar.open.value).state, bar);
      }
    }
  }

  /**
  Two runs whose bars agree before index i, and whose bars at i agree except for the
  close, have the same intents, intent decisions, fills and trades through bar i,
  whatever the close of bar i and all later bars are.
  */
  lemma NoLookahead(
    world: World, left: Setup, right: Setup, warnings: seq<Warning>, moreWarnings: seq<Warning>, i: nat)
    requires right == left.(sink := right.sink, validatedBars := right.validatedBars)
    requires i < |left.validatedBars| && i < |right.validatedBars|
    requires left.validatedBars[..i] == right.validatedBars[..i]
    requires SameOpening(left.validatedBars[i], right.validatedBars[i])
    ensures var l := Run(world, Initial(left, warnings), left.validatedBars[..i + 1]);
      var r := Run(world, Initial(right, moreWarnings), right.validatedBars[..i + 1]);
      l.Ok? && r.Ok? ==> OrdersOf(l.state.journal) == OrdersOf(r.state.journal)
  {
    var startL, startR := Initial(left, warnings), Initial(right, moreWarnings);
    assert Essence(startL) == Essence(startR);
    hide ProcessBar, Essence, Initial, OrdersOf, OpenPhase, Run;
    var common, barL, barR := left.validatedBars[..i], left.validatedBars[i], right.validatedBars[i];
    RunOneMore(world, startL, left.validatedBars, i);
    RunOneMore(world, startR, right.validatedBars, i);
    RunEssence(world, startL, startR, common);
    var l, r := Run(world, startL, common), Run(world, startR, common);
    if l.Ok? && r.Ok? {
      OrdersAfterBar(world, l.state, barL);
      OrdersAfterBar(world, r.state, barR);
      if barL.open.Some? && barL.open.value > 0.0 {
        OpenPhaseIgnoresClose(Essence(l.state), barL, barR, barL.open.value);
      }
    }
  }

  /** A run one bar longer is the shorter run and one more bar. */
  lemma RunOneMore(world: World, s: State, bars: seq<Bar>, i: nat)
    requires i < |bars|
    ensures var front, whole := Run(world, s, bars[..i]), Run(world, s, bars[..i + 1]);
      && (whole.Ok? ==> front.Ok?)
      && (front.Ok? ==>
            var p := ProcessBar(world, front.state, bars[i]);
            if p.error == None then whole == Ok(p.state) else whole == Fail(p.error.value))
  {
    hide ProcessBar;
    assert bars[..i + 1][..i] == bars[..i];
  }

  /** A failed prefix fails the whole run with the same error. */
  lemma {:induction false} RunFailsWithPrefix(world: World, s: State, bars: seq<Bar>, n: nat)
    requires n <= |bars|
    requires Run(world, s, bars[..n]).Fail?
    ensures Run(world, s, bars) == Run(world, s, bars[..n])
    decreases |bars| - n
  {
    if n == |bars| {
      assert bars[..n] == bars;
    } else {
      hide Run, ProcessBar;
      RunOneMore(world, s, bars, n);
      RunFailsOneMore(world, s, bars, n);
      RunFailsWithPrefix(world, s, bars, n + 1);
    }
  }

  lemma RunFailsOneMore(world: World, s: State, bars: seq<Bar>, n: nat)
    requires n < |bars| && Run(world, s, bars[..n]).Fail?
    ensures Run(world, s, bars[..n + 1]) == Run(world, s, bars[..n])
  {
    hide ProcessBar;
    assert bars[..n + 1][..n] == bars[..n];
  }

  lemma RunNothing(world: World, s: State)
    ensures Run(world, s, []) == Ok(s)
  {
  }
}

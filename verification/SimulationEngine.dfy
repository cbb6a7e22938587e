/**
The simulation engine as an object that updates its fields bar by bar. Every
method is proved against the function on protected states that specifies it; a
bar that fails, a strategy that tampers and a sink that misbehaves are rolled
back by assigning the captured fields again.
*/
module Simulation {
  import opened Domain
  import opened Options
  import opened RiskEvaluation
  import opened RiskPolicy
  import opened Rounding
  import opened Sizing
  import Causality
  import Spec = EngineSpec
  import opened EngineSpec
  import opened RunRecords

  /** What a finished simulation hands out. */
  datatype BacktestResult = BacktestResult(
    symbol: string,
    curve: seq<EquityPoint>,
    intents: seq<OrderIntent>,
    decisions: seq<DecisionRecord>,
    fills: seq<Fill>,
    trades: seq<Trade>,
    halt: HaltState,
    warnings: seq<Warning>)

  class SimulationEngine {
    const world: World

    var setup: Setup
    var symbol: Option<string>
    var book: Book
    var marks: Marks
    var pendingSignal: Option<Signal>
    var lastIntentId: Option<IntentId>
    var haltState: HaltState
    var journal: Journal
    var eventBuffer: Option<seq<Event>>
    var deliveringEvent: bool
    var processingFailed: bool
    var warnings: seq<Warning>

    constructor (world: World, requested: Setup, warnings: seq<Warning>)
      ensures this.world == world
      ensures Capture() == Spec.Initial(Effective(requested), warnings)
    {
      this.world := world;
      this.setup := Effective(requested);
      this.warnings := warnings;
      var cash := requested.cfg.initialCash;
      symbol, pendingSignal, lastIntentId := None, None, None;
      book := Book(cash, 0, 0.0, 0, 0, 0);
      marks := Marks(cash, cash, cash, None);
      haltState := NOT_HALTED;
      journal := Journal([], [], [], [], [], []);
      eventBuffer, deliveringEvent, processingFailed := None, false, false;
    }

    // ---------- capture and restore ----------

    /** The value of every protected field. */
    function Capture(): State
      reads this
    {
      State(setup, symbol, book, marks, pendingSignal, lastIntentId, haltState, journal,
            eventBuffer, deliveringEvent, processingFailed, warnings)
    }

    /** Overwrites every protected field. */
    method Restore(state: State)
      modifies this
      ensures Capture() == state
    {
      setup, symbol := state.setup, state.symbol;
      book, marks := state.book, state.marks;
      pendingSignal, lastIntentId, haltState := state.pending, state.lastIntent, state.halt;
      journal := state.journal;
      eventBuffer, deliveringEvent, processingFailed := state.buffer, state.delivering, state.failed;
      warnings := state.warnings;
    }

    // ---------- events ----------

    method Emit(kind: EventKind, timestamp: int)
      modifies `eventBuffer
      ensures Capture() == Spec.Emit(old(Capture()), kind, timestamp)
    {
      if setup.sink.Some? && eventBuffer.Some? {
        eventBuffer := Some(eventBuffer.value + [Event(kind, timestamp)]);
      }
    }

    method RecordSinkWarning(raised: bool)
      modifies `warnings
      ensures Capture() == Spec.RecordSinkWarning(old(Capture()), raised)
    {
      if !exists i | 0 <= i < |warnings| :: warnings[i].EventSinkFailure? {
        warnings := warnings + [EventSinkFailure(raised)];
      }
    }

    /** Hands one event to the sink, which may leave anything in the fields, and undoes what it left. */
    method DeliverEvent(event: Event)
      requires !deliveringEvent
      modifies this
      ensures Capture() == Spec.Deliver(world, old(Capture()), event)
      ensures !deliveringEvent
    {
      if setup.sink.None? {
        return;
      }
      var before := Capture();
      deliveringEvent := true;
      var during := Capture();
      assert during == before.(delivering := true);
      var raised := world.sinkRaises(before.setup.sink.value, event, during);
      Restore(world.sinkLeaves(before.setup.sink.value, event, during));
      deliveringEvent := false;
      if raised {
        Restore(before);
        RecordSinkWarning(true);
      } else if Capture() != before {
        Restore(before);
        RecordSinkWarning(false);
      }
    }

    method DeliverEvents(events: seq<Event>)
      requires !deliveringEvent
      modifies this
      ensures Capture() == Spec.DeliverAll(world, old(Capture()), events)
      ensures !deliveringEvent
    {
      var i := 0;
      while i < |events|
        invariant 0 <= i <= |events|
        invariant !deliveringEvent
        invariant Spec.DeliverAll(world, Capture(), events[i..]) == Spec.DeliverAll(world, old(Capture()), events)
      {
        DeliverEvent(events[i]);
        assert events[i..][1..] == events[i + 1..];
        i := i + 1;
      }
    }

    // ---------- circuit breakers ----------

    method LatchHalt(timestamp: int, reasons: seq<Reason>)
      modifies `haltState, `eventBuffer
      ensures Capture() == Spec.LatchHalt(old(Capture()), timestamp, reasons)
    {
      if !haltState.active {
        haltState := HaltState(true, Some(timestamp), reasons);
        Emit(RiskRejected, timestamp);
      }
    }

    method CheckAndLatchPortfolioHalt(timestamp: int, equity: int)
      modifies `journal, `haltState, `eventBuffer
      ensures Capture() == Spec.CheckHalt(old(Capture()), timestamp, equity)
    {
      if haltState.active {
        return;
      }
      var decision := EvaluatePortfolioHalt(
        setup.policy, SnapshotAt(Capture(), equity), Epsilon(setup.cfg.moneyPrecision));
      if !decision.approved {
        journal := journal.(decisions := journal.decisions + [DecisionRecord(timestamp, decision, None)]);
        LatchHalt(timestamp, decision.reasons);
      }
    }

    method MarkAndCheck(timestamp: int, price: real) returns (equity: int)
      modifies `marks, `journal, `haltState, `eventBuffer
      ensures Capture() == Spec.MarkAndCheck(old(Capture()), timestamp, price)
      ensures equity == Spec.EquityAt(book, price)
      ensures !haltState.active ==> equity > 0
    {
      hide HaltDecision, MarketValue, CheckHalt;
      equity := book.cash + MarketValue(book.quantity, price);
      ghost var before := Capture();
      marks := marks.(peak := MaxInt(marks.peak, equity));
      CheckAndLatchPortfolioHalt(timestamp, equity);
      Spec.UnhaltedEquityPositive(before, timestamp, price);
    }

    // ---------- orders ----------

    /** The sizing loop on the engine's own fields. */
    method CostAwareTargetQuantity(targetWeight: real, price: real, equity: int) returns (target: int)
      requires price > 0.0 && equity > 0
      ensures target == TargetQuantity(setup.cfg, Request(targetWeight, price, equity, book.cash, book.quantity))
    {
      target := ComputeTargetQuantity(setup.cfg, Request(targetWeight, price, equity, book.cash, book.quantity));
    }

    /** Books a fill, unless a guard fires. */
    method UpdateBook(e: Execution) returns (error: Option<StepError>, realizedDelta: int)
      modifies `book
      ensures var before, after := old(book), BookAfter(old(book), e);
        error == (if e.side == Sell && e.quantity > before.quantity then Some(ShortSaleApproved)
                  else if after.cash < 0 || after.quantity < 0 then Some(BookViolated)
                  else None)
        && (error == None ==> book == after && realizedDelta == after.realizedPnl - before.realizedPnl)
    {
      var newCash, newQuantity, newAverageCost := book.cash, book.quantity, book.averageCost;
      realizedDelta := 0;
      if e.side == Buy {
        var totalCost := Times(book.quantity, book.averageCost) + e.notional;
        newQuantity := book.quantity + e.quantity;
        newAverageCost := if newQuantity > 0 then Ratio(totalCost, newQuantity as real) else 0.0;
        newCash := book.cash - e.cashNotional - e.fee;
      } else {
        if e.quantity > book.quantity {
          return Some(ShortSaleApproved), 0;
        }
        realizedDelta := RoundHalfEven(Times(e.quantity, e.price - book.averageCost));
        newCash := book.cash + e.cashNotional - e.fee;
        newQuantity := book.quantity - e.quantity;
        if newQuantity == 0 {
          newAverageCost := 0.0;
        }
      }
      if newCash < 0 || newQuantity < 0 {
        return Some(BookViolated), 0;
      }
      book := Book(newCash, newQuantity, newAverageCost, book.realizedPnl + realizedDelta,
                   book.fees + e.fee, book.slippage + e.slippage);
      error := None;
    }

    /** Applies an approved fill; None unless one of the engine's guards fired. */
    method ApplyFill(intent: OrderIntent, e: Execution) returns (error: Option<StepError>)
      modifies this
      ensures match Spec.CommitFill(old(Capture()), intent, e)
              case Ok(s) => error == None && Capture() == s
              case Fail(x) => error == Some(x)
    {
      hide BookAfter, MarketValue, FillOf, HaltDecision, CheckHalt;
      ghost var s := Capture();
      var realizedDelta;
      error, realizedDelta := UpdateBook(e);
      if error.Some? {
        return;
      }
      assert Capture() == s.(book := BookAfter(s.book, e));
      RecordFill(intent, e, realizedDelta);
      CheckAndLatchPortfolioHalt(
        intent.executionTimestamp, book.cash + MarketValue(book.quantity, e.reference));
    }

    method RecordFill(intent: OrderIntent, e: Execution, realizedDelta: int)
      modifies `journal, `eventBuffer
      ensures var s := old(Capture());
        var trade := Trade(FillOf(intent, e), intent.signalTimestamp, s.book.averageCost, realizedDelta,
                           s.book.cash, s.book.quantity, intent.targetWeight);
        Capture() == Spec.Emit(
          s.(journal := s.journal.(fills := s.journal.fills + [FillOf(intent, e)],
                                   trades := s.journal.trades + [trade])),
          FillCreated, intent.executionTimestamp)
    {
      hide Spec.Emit, FillOf;
      var fill := FillOf(intent, e);
      var trade := Trade(fill, intent.signalTimestamp, book.averageCost, realizedDelta, book.cash,
                         book.quantity, intent.targetWeight);
      journal := journal.(fills := journal.fills + [fill], trades := journal.trades + [trade]);
      Emit(FillCreated, intent.executionTimestamp);
    }

    /** Puts an intent and the policy's verdict on record. */
    method RecordVerdict(bar: Bar, intent: OrderIntent, decision: RiskDecision)
      modifies `journal, `lastIntentId, `eventBuffer
      ensures Capture() == Spec.Judged(old(Capture()), bar, intent, decision)
    {
      hide Spec.Emit;
      journal := journal.(intents := journal.intents + [intent]);
      Emit(IntentCreated, bar.timestamp);
      journal := journal.(
        decisions := journal.decisions + [DecisionRecord(bar.timestamp, decision, Some(intent.id))]);
      lastIntentId := Some(intent.id);
      Emit(if decision.approved then RiskAccepted else RiskRejected, bar.timestamp);
    }

    /** Turns the pending target into an intent, has it judged, and fills it if approved. */
    method ApplyPendingTarget(bar: Bar, price: real, equity: int) returns (error: Option<StepError>)
      requires pendingSignal.Some? && price > 0.0 && equity > 0
      modifies this
      ensures match Spec.ApplyPending(old(Capture()), bar, price, equity)
              case Ok(s) => error == None && Capture() == s
              case Fail(x) => error == Some(x)
    {
      hide TargetQuantity, ExecutionOf, OrderOf, SnapshotAt, OrderDecision, IntentOf, Judged, CommitFill;
      var target := CostAwareTargetQuantity(pendingSignal.value.targetWeight, price, equity);
      var delta := target - book.quantity;
      if delta == 0 {
        return None;
      }
      var e := ExecutionOf(setup.cfg, delta, price);
      var intent := IntentOf(pendingSignal.value, bar, e);
      var decision := EvaluateOrder(
        setup.policy, OrderOf(Capture(), bar, intent.id, e), SnapshotAt(Capture(), equity));
      RecordVerdict(bar, intent, decision);
      if !decision.approved {
        return None;
      }
      error := ApplyFill(intent, e);
    }

    // ---------- bars ----------

    method EnterBar(bar: Bar)
      modifies `eventBuffer, `symbol, `marks
      ensures Capture() == Spec.EnterBar(old(Capture()), bar)
    {
      Emit(BarReceived, bar.timestamp);
      symbol := Some(bar.symbol);
      var today := UtcDate(bar.timestamp);
      if marks.date != Some(today) {
        marks := marks.(date := Some(today), startOfDay := marks.previousClose);
      }
    }

    method ProcessOpen(bar: Bar, open: real) returns (error: Option<StepError>)
      requires open > 0.0
      modifies this
      ensures match Spec.OpenPhase(old(Capture()), bar, open)
              case Ok(s) => error == None && Capture() == s
              case Fail(x) => error == Some(x)
    {
      hide Spec.EnterBar, Spec.MarkAndCheck, EquityAt, ApplyPending;
      EnterBar(bar);
      var equity := MarkAndCheck(bar.timestamp, open);
      if pendingSignal.Some? && !haltState.active {
        error := ApplyPendingTarget(bar, open, equity);
      } else {
        error := None;
      }
    }

    /** Asks the strategy for a signal and refuses it if the call touched the engine. */
    method CallStrategy(window: seq<Bar>) returns (signal: Option<Signal>)
      modifies this
      ensures var s := old(Capture());
        var answer := world.signal(s.setup.strategy, window);
        signal == if answer.Some? && ValidSignal(answer.value)
                     && world.strategyLeaves(s.setup.strategy, window, s) == s then answer else None
      ensures Capture() == old(Capture())
    {
      var before := Capture();
      signal := world.signal(setup.strategy, window);
      Restore(world.strategyLeaves(setup.strategy, window, before));
      if Capture() != before {
        Restore(before);
        signal := None;
      } else if signal.Some? && !ValidSignal(signal.value) {
        signal := None;
      }
    }

    method NextSignal(bar: Bar) returns (signal: Option<Signal>)
      modifies this
      ensures signal == Spec.NextSignal(world, old(Capture()), bar)
      ensures Capture() == old(Capture())
    {
      if |journal.history| <= setup.cfg.warmupBars || haltState.active {
        signal := Some(Signal(bar.timestamp, bar.symbol, 0.0, setup.strategyName));
      } else {
        signal := CallStrategy(Trailing(journal.history, setup.cfg.historyLimit));
      }
    }

    method RecordClose(bar: Bar, signal: Signal)
      modifies `pendingSignal, `eventBuffer, `journal, `marks
      ensures Capture() == Spec.RecordClose(old(Capture()), bar, signal)
    {
      hide PointOf, Spec.Emit;
      pendingSignal := Some(signal);
      Emit(SignalGenerated, bar.timestamp);
      var point := PointOf(Capture(), bar, signal.targetWeight);
      journal := journal.(curve := journal.curve + [point]);
      marks := marks.(previousClose := point.equity);
      Emit(PortfolioUpdated, bar.timestamp);
    }

    method ProcessClose(bar: Bar) returns (error: Option<StepError>)
      modifies this
      ensures match Spec.ClosePhase(world, old(Capture()), bar)
              case Ok(s) => error == None && Capture() == s
              case Fail(x) => error == Some(x)
    {
      hide Spec.MarkAndCheck, Spec.NextSignal, Spec.RecordClose, EquityAt;
      var equity := MarkAndCheck(bar.timestamp, bar.close);
      journal := journal.(history := journal.history + [bar]);
      assert Capture() == MarkClose(old(Capture()), bar);
      var signal := NextSignal(bar);
      match signal {
        case None =>
          error := Some(StrategyFailed);
        case Some(next) =>
          if !SignalMatches(Capture(), next, bar) {
            return Some(SignalMismatch);
          }
          RecordClose(bar, next);
          error := None;
      }
    }

    /** One attempt at a bar; an error may leave fields half updated. */
    method TryProcessBar(bar: Bar) returns (error: Option<StepError>)
      modifies this
      ensures match Spec.Advance(world, old(Capture()), bar)
              case Ok(s) => error == None && Capture() == s
              case Fail(x) => error == Some(x)
    {
      hide OpenPhase, ClosePhase, EventMatches;
      if !EventMatches(Capture(), bar) {
        return Some(EventMismatch);
      }
      if bar.open.None? || bar.open.value <= 0.0 {
        return Some(OpenMissing);
      }
      error := ProcessOpen(bar, bar.open.value);
      if error == None {
        error := ProcessClose(bar);
      }
    }

    /** Processes one bar atomically: a failure restores every field and refuses all later bars. */
    method ProcessBar(bar: Bar) returns (error: Option<StepError>)
      requires !deliveringEvent
      modifies this
      ensures var p := Spec.ProcessBar(world, old(Capture()), bar);
        error == p.error && Capture() == p.state
      ensures error.Some? ==> Capture() == old(Capture()).(failed := true)
      ensures old(processingFailed) ==> error.Some?
      ensures !deliveringEvent
    {
      hide Advance, Deliver;
      if processingFailed {
        return Some(Refused);
      }
      var before := Capture();
      eventBuffer := Some([]);
      Causality.AdvanceSetup(world, Capture(), bar);
      error := TryProcessBar(bar);
      if error.Some? {
        Restore(before);
        processingFailed := true;
        return;
      }
      var events := if eventBuffer.Some? then eventBuffer.value else [];
      eventBuffer := None;
      DeliverEvents(events);
    }

    // ---------- controls ----------

    method ExpirePendingSignal(timestamp: int)
      requires !deliveringEvent
      modifies this
      ensures Capture() == Spec.ExpirePending(world, old(Capture()), timestamp)
      ensures !deliveringEvent
    {
      hide Deliver;
      if pendingSignal.None? {
        return;
      }
      pendingSignal := None;
      if journal.history != [] {
        DeliverEvent(Event(PendingSignalExpired, timestamp));
      }
    }

    method ActivateKillSwitch(timestamp: int)
      requires !deliveringEvent
      modifies this
      ensures Capture() == Spec.ActivateKillSwitch(world, old(Capture()), timestamp)
      ensures !deliveringEvent
    {
      hide Deliver, Spec.ExpirePending;
      ExpirePendingSignal(timestamp);
      if !haltState.active {
        haltState := HaltState(true, Some(timestamp), [KillSwitch]);
        if journal.history != [] {
          DeliverEvent(Event(RiskRejected, timestamp));
        }
      }
    }

    /** The result so far; None before the first processed bar. */
    method Finish() returns (result: Option<BacktestResult>)
      ensures journal.history == [] || symbol.None? ==> result == None
      ensures journal.history != [] && symbol.Some? ==>
        result == Some(BacktestResult(symbol.value, journal.curve, journal.intents, journal.decisions,
                                      journal.fills, journal.trades, haltState, warnings))
    {
      if journal.history == [] || symbol.None? {
        return None;
      }
      return Some(BacktestResult(symbol.value, journal.curve, journal.intents, journal.decisions,
                                 journal.fills, journal.trades, haltState, warnings));
    }
  }

  /** A result that records a run over certain bars: one point per bar, and the journals of the run's last state. */
  predicate Records(result: BacktestResult, s: State, bars: seq<Bar>) {
    && bars != []
    && (forall i | 0 <= i < |bars| :: bars[i].symbol == result.symbol)
    && |result.curve| == |bars|
    && (forall i | 0 <= i < |bars| :: PointFollows(result.curve[i], bars[i]))
    && result.curve == s.journal.curve && result.intents == s.journal.intents
    && result.decisions == s.journal.decisions
    && result.fills == s.journal.fills && result.trades == s.journal.trades
    && result.halt == s.halt && result.warnings == s.warnings
  }

  /** A batch simulation: one engine, every bar in order, and the finished result. */
  method RunBacktest(world: World, requested: Setup, warnings: seq<Warning>)
    returns (error: Option<StepError>, result: Option<BacktestResult>)
    ensures match Batch(world, Effective(requested), warnings)
            case Ok(s) =>
              && error == None
              && (result.Some? <==> requested.validatedBars != [])
              && (result.Some? ==> Records(result.value, s, requested.validatedBars))
            case Fail(x) => error == Some(x) && result == None
  {
    var engine := new SimulationEngine(world, requested, warnings);
    ghost var start := engine.Capture();
    var bars := requested.validatedBars;
    assert bars[..0] == [] && bars[..|bars|] == bars;
    hide Spec.ProcessBar, Initial, Run;
    assert Run(world, start, bars[..0]) == Ok(start) by { Causality.RunNothing(world, start); }
    var i := 0;
    while i < |bars|
      invariant 0 <= i <= |bars|
      invariant engine.world == world && !engine.deliveringEvent && fresh(engine)
      invariant Run(world, start, bars[..i]) == Ok(engine.Capture())
    {
      Causality.RunOneMore(world, start, bars, i);
      error := engine.ProcessBar(bars[i]);
      if error.Some? {
        Causality.RunFailsWithPrefix(world, start, bars, i + 1);
        return error, None;
      }
      i := i + 1;
    }
    RunFollowsBars(world, Effective(requested), warnings, bars);
    result := engine.Finish();
    error := None;
  }
}

/**
The simulation engine as a function on its protected state: what processing one
bar does to the book, the marks, the halt latch and the journals, and what a
structured-event sink can and cannot leave behind.
*/
module EngineSpec {
  import opened Domain
  import opened Options
  import opened RiskPolicy
  import opened Rounding
  import opened Sizing

  // ---------- state ----------

  /** Constant parts of an engine; strategies and sinks are references into a `World`. */
  datatype Setup = Setup(
    strategy: int,
    strategyName: string,
    cfg: Config,
    policy: Policy,
    validatedBars: seq<Bar>,
    sink: Option<int>)

  datatype Book = Book(
    cash: int, quantity: int, averageCost: real, realizedPnl: int, fees: int, slippage: int)

  datatype Marks = Marks(peak: int, previousClose: int, startOfDay: int, date: Option<int>)

  datatype EventKind =
    | BarReceived | IntentCreated | RiskAccepted | RiskRejected | FillCreated | SignalGenerated
    | PortfolioUpdated | PendingSignalExpired | Lifecycle

  datatype Event = Event(kind: EventKind, timestamp: int)

  datatype Warning = DataQuality(code: int) | EventSinkFailure(sinkRaised: bool)

  /** Everything the engine captures before it hands control to code it does not trust. */
  datatype State = State(
    setup: Setup,
    symbol: Option<string>,
    book: Book,
    marks: Marks,
    pending: Option<Signal>,
    lastIntent: Option<IntentId>,
    halt: HaltState,
    journal: Journal,
    buffer: Option<seq<Event>>,
    delivering: bool,
    failed: bool,
    warnings: seq<Warning>)

  /**
  Code the engine calls. A strategy's signal depends on the supplied history alone
  (None when it raises), but the call may leave any values in the engine's fields;
  so may a sink, which may also raise.
  */
  datatype World = World(
    signal: (int, seq<Bar>) -> Option<Signal>,
    strategyLeaves: (int, seq<Bar>, State) -> State,
    sinkRaises: (int, Event, State) -> bool,
    sinkLeaves: (int, Event, State) -> State)

  datatype StepError =
    | Refused | EventMismatch | OpenMissing | ShortSaleApproved | BookViolated | StrategyFailed | SignalMismatch

  datatype Outcome = Ok(state: State) | Fail(error: StepError)

  /** What an engine makes of the setup it is given: the stricter limits take effect. */
  function Effective(requested: Setup): Setup {
    requested.(policy := EffectivePolicy(requested.policy, requested.cfg))
  }

  function Initial(setup: Setup, warnings: seq<Warning>): State {
    var cash := setup.cfg.initialCash;
    State(setup, None, Book(cash, 0, 0.0, 0, 0, 0), Marks(cash, cash, cash, None),
          None, None, NOT_HALTED, Journal([], [], [], [], [], []), None, false, false, warnings)
  }

  // ---------- events ----------

  /** Events raised while a bar is processed wait in the buffer until the bar commits. */
  function Emit(s: State, kind: EventKind, timestamp: int): State {
    if s.setup.sink.None? || s.buffer.None? then s
    else s.(buffer := Some(s.buffer.value + [Event(kind, timestamp)]))
  }

  function RecordSinkWarning(s: State, raised: bool): State {
    if exists i | 0 <= i < |s.warnings| :: s.warnings[i].EventSinkFailure? then s
    else s.(warnings := s.warnings + [EventSinkFailure(raised)])
  }

  /** The state after one delivery: at most one more warning, nothing else. */
  function Deliver(world: World, s: State, event: Event): State {
    if s.setup.sink.None? then s
    else
      var during := s.(delivering := true);
      if world.sinkRaises(s.setup.sink.value, event, during) then RecordSinkWarning(s, true)
      else if world.sinkLeaves(s.setup.sink.value, event, during).(delivering := false) != s
      then RecordSinkWarning(s, false)
      else s
  }

  function DeliverAll(world: World, s: State, events: seq<Event>): State
    decreases |events|
  {
    if events == [] then s
    else DeliverAll(world, Deliver(world, s, events[0]), events[1..])
  }

  // ---------- portfolio halts ----------

  /** The floor put under the start-of-day equity before it is divided by. */
  function TinyEquity(moneyPrecision: nat): real { PowerOfTen(moneyPrecision) as real * 0.000000000001 }

  function SnapshotAt(s: State, equity: int): Snapshot {
    Snapshot(
      equity as real,
      Max(s.marks.startOfDay as real, TinyEquity(s.setup.cfg.moneyPrecision)),
      MaxInt(s.marks.peak, equity) as real,
      (equity - s.marks.startOfDay) as real,
      s.setup.cfg.tradingEnabled,
      s.setup.cfg.killSwitchActive,
      Some(s.book.cash as real),
      if s.book.quantity > 0 then 1 else 0,
      s.halt.active)
  }

  function HaltDecision(s: State, equity: int): RiskDecision {
    PortfolioDecision(s.setup.policy, SnapshotAt(s, equity), Epsilon(s.setup.cfg.moneyPrecision))
  }

  function LatchHalt(s: State, timestamp: int, reasons: seq<Reason>): State {
    if s.halt.active then s
    else Emit(s.(halt := HaltState(true, Some(timestamp), reasons)), RiskRejected, timestamp)
  }

  function CheckHalt(s: State, timestamp: int, equity: int): State {
    if s.halt.active then s
    else
      var decision := HaltDecision(s, equity);
      if decision.approved then s
      else
        var record := DecisionRecord(timestamp, decision, None);
        LatchHalt(s.(journal := s.journal.(decisions := s.journal.decisions + [record])),
                  timestamp, decision.reasons)
  }

  // ---------- orders ----------

  /** A buy or sell of whole units at a slipped price, with its rounded costs. */
  datatype Execution = Execution(
    side: Side, quantity: int, reference: real, price: real,
    notional: real, cashNotional: int, fee: int, slippage: int)

  function ExecutionOf(cfg: Config, delta: int, reference: real): Execution {
    var side := if delta > 0 then Buy else Sell;
    var quantity := if delta > 0 then delta else -delta;
    var price := ExecutionPrice(reference, side, cfg.slippageBps);
    var notional := Times(quantity, price);
    Execution(side, quantity, reference, price, notional, RoundHalfEven(notional),
              RoundHalfEven(TradeFee(notional, cfg)),
              RoundHalfEven(Times(quantity, Abs(price - reference))))
  }

  function WeightText(weight: real): int { RoundHalfEven(weight * 1000000000000.0) }

  function IntentIdOf(signal: Signal, bar: Bar): IntentId {
    IntentId(UtcDate(signal.timestamp), bar.symbol, WeightText(signal.targetWeight), bar.timestamp)
  }

  function IntentOf(signal: Signal, bar: Bar, e: Execution): OrderIntent {
    OrderIntent(IntentIdOf(signal, bar), signal.timestamp, bar.timestamp, bar.symbol, e.side,
                e.quantity, e.reference, e.price, e.fee, signal.targetWeight)
  }

  function OrderOf(s: State, bar: Bar, id: IntentId, e: Execution): Order {
    var resulting := if e.side == Buy then s.book.quantity + e.quantity else s.book.quantity - e.quantity;
    var current, after := Times(s.book.quantity, e.reference), Times(resulting, e.reference);
    Order(
      bar.symbol, e.side, e.quantity as real, e.reference, e.price, e.notional, e.fee as real,
      if e.side == Buy then Some((e.cashNotional + e.fee) as real) else None,
      Some(s.book.cash as real), s.book.quantity as real, current, current,
      after, Max(after, 0.0), resulting as real,
      s.setup.cfg.moneyPrecision, s.setup.cfg.quantityPrecision, s.setup.cfg.dataAgeSeconds,
      if s.book.quantity > 0 then 1 else 0, Some(id), s.lastIntent, true,
      e.side == Sell && after < current, false)
  }

  function BookAfter(book: Book, e: Execution): Book {
    match e.side
    case Buy =>
      var quantity := book.quantity + e.quantity;
      var totalCost := Times(book.quantity, book.averageCost) + e.notional;
      Book(book.cash - e.cashNotional - e.fee, quantity,
           if quantity > 0 then Ratio(totalCost, quantity as real) else 0.0,
           book.realizedPnl, book.fees + e.fee, book.slippage + e.slippage)
    case Sell =>
      var quantity := book.quantity - e.quantity;
      var realized := RoundHalfEven(Times(e.quantity, e.price - book.averageCost));
      Book(book.cash + e.cashNotional - e.fee, quantity,
           if quantity == 0 then 0.0 else book.averageCost,
           book.realizedPnl + realized, book.fees + e.fee, book.slippage + e.slippage)
  }

  function FillOf(intent: OrderIntent, e: Execution): Fill {
    Fill(intent.id, intent.executionTimestamp, intent.symbol, e.side, e.quantity, e.reference,
         e.price, e.fee, e.slippage)
  }

  function TradeOf(intent: OrderIntent, e: Execution, before: Book, after: Book): Trade {
    Trade(FillOf(intent, e), intent.signalTimestamp, after.averageCost,
          after.realizedPnl - before.realizedPnl, after.cash, after.quantity, intent.targetWeight)
  }

  /** Records an approved fill and re-checks the circuit breakers at the execution mark. */
  function CommitFill(s: State, intent: OrderIntent, e: Execution): Outcome {
    var after := BookAfter(s.book, e);
    if e.side == Sell && e.quantity > s.book.quantity then Fail(ShortSaleApproved)
    else if after.cash < 0 || after.quantity < 0 then Fail(BookViolated)
    else
      var journal := s.journal.(
        fills := s.journal.fills + [FillOf(intent, e)],
        trades := s.journal.trades + [TradeOf(intent, e, s.book, after)]);
      var filled := Emit(s.(book := after, journal := journal), FillCreated, intent.executionTimestamp);
      Ok(CheckHalt(filled, intent.executionTimestamp, after.cash + MarketValue(after.quantity, e.reference)))
  }

  function SizingRequest(s: State, price: real, equity: int): Request
    requires s.pending.Some?
  {
    Request(s.pending.value.targetWeight, price, equity, s.book.cash, s.book.quantity)
  }

  /** Units to trade to reach the pending target. */
  function TargetDelta(s: State, price: real, equity: int): int
    requires s.pending.Some? && price > 0.0 && equity > 0
  {
    TargetQuantity(s.setup.cfg, SizingRequest(s, price, equity)) - s.book.quantity
  }

  /** Turns the pending target into an intent, has it judged, and fills it if it is approved. */
  function ApplyPending(s: State, bar: Bar, price: real, equity: int): Outcome
    requires s.pending.Some? && price > 0.0 && equity > 0
  {
    var delta := TargetDelta(s, price, equity);
    if delta == 0 then Ok(s)
    else SubmitOrder(s, bar, ExecutionOf(s.setup.cfg, delta, price), equity)
  }

  /** The state once an intent and the policy's verdict on it are on record. */
  function Judged(s: State, bar: Bar, intent: OrderIntent, decision: RiskDecision): State {
    var proposed := Emit(s.(journal := s.journal.(intents := s.journal.intents + [intent])),
                         IntentCreated, bar.timestamp);
    var record := DecisionRecord(bar.timestamp, decision, Some(intent.id));
    var journal := proposed.journal.(decisions := proposed.journal.decisions + [record]);
    Emit(proposed.(journal := journal, lastIntent := Some(intent.id)),
         if decision.approved then RiskAccepted else RiskRejected, bar.timestamp)
  }

  function SubmitOrder(s: State, bar: Bar, e: Execution, equity: int): Outcome
    requires s.pending.Some?
  {
    var intent := IntentOf(s.pending.value, bar, e);
    var decision := OrderDecision(s.setup.policy, OrderOf(s, bar, intent.id, e), SnapshotAt(s, equity));
    var judged := Judged(s, bar, intent, decision);
    if decision.approved then CommitFill(judged, intent, e) else Ok(judged)
  }

  // ---------- one bar ----------

  predicate EventMatches(s: State, bar: Bar) {
    var history := s.journal.history;
    && |history| < |s.setup.validatedBars|
    && bar == s.setup.validatedBars[|history|]
    && (s.symbol.Some? ==> bar.symbol == s.symbol.value)
    && (history != [] ==>
          && bar.timeframeSeconds == history[0].timeframeSeconds
          && bar.timestamp > history[|history| - 1].timestamp)
  }

  /** The state in which the open is marked: symbol and day boundary taken over. */
  function EnterBar(s: State, bar: Bar): State {
    var received := Emit(s, BarReceived, bar.timestamp);
    var today := UtcDate(bar.timestamp);
    var marks := if received.marks.date == Some(today) then received.marks
                 else received.marks.(date := Some(today), startOfDay := received.marks.previousClose);
    received.(symbol := Some(bar.symbol), marks := marks)
  }

  function EquityAt(book: Book, price: real): int {
    book.cash + MarketValue(book.quantity, price)
  }

  /** Raises the peak to the equity at a mark, then lets the circuit breakers look at it. */
  function MarkAndCheck(s: State, timestamp: int, price: real): State {
    var equity := EquityAt(s.book, price);
    CheckHalt(s.(marks := s.marks.(peak := MaxInt(s.marks.peak, equity))), timestamp, equity)
  }

  lemma MarkedEquityPositive(s: State, timestamp: int, price: real)
    requires !MarkAndCheck(s, timestamp, price).halt.active
    ensures EquityAt(s.book, price) > 0
  {
    var marked := s.(marks := s.marks.(peak := MaxInt(s.marks.peak, EquityAt(s.book, price))));
    assert HaltDecision(marked, EquityAt(s.book, price)).approved;
  }

  lemma UnhaltedEquityPositive(s: State, timestamp: int, price: real)
    ensures MarkAndCheck(s, timestamp, price).halt.active || EquityAt(s.book, price) > 0
    ensures MarkAndCheck(s, timestamp, price).book == s.book
  {
    if !MarkAndCheck(s, timestamp, price).halt.active {
      MarkedEquityPositive(s, timestamp, price);
    }
    hide HaltDecision;
  }

  /** Everything up to and including the fill at the open. */
  function OpenPhase(s: State, bar: Bar, open: real): Outcome
    requires open > 0.0
  {
    var marked := MarkAndCheck(EnterBar(s, bar), bar.timestamp, open);
    if marked.pending.Some? && !marked.halt.active then
      MarkedEquityPositive(EnterBar(s, bar), bar.timestamp, open);
      ApplyPending(marked, bar, open, EquityAt(marked.book, open))
    else Ok(marked)
  }

  function Trailing(history: seq<Bar>, limit: nat): seq<Bar> {
    if |history| <= limit then history else history[|history| - limit..]
  }

  /** The next target: zero while warming up or halted, else the strategy's checked signal. */
  function NextSignal(world: World, s: State, bar: Bar): Option<Signal> {
    var setup := s.setup;
    if |s.journal.history| <= setup.cfg.warmupBars || s.halt.active then
      Some(Signal(bar.timestamp, bar.symbol, 0.0, setup.strategyName))
    else
      var window := Trailing(s.journal.history, setup.cfg.historyLimit);
      match world.signal(setup.strategy, window)
      case None => None
      case Some(signal) =>
        if !ValidSignal(signal) || world.strategyLeaves(setup.strategy, window, s) != s then None
        else Some(signal)
  }

  predicate SignalMatches(s: State, signal: Signal, bar: Bar) {
    signal.timestamp == bar.timestamp && signal.symbol == bar.symbol
    && signal.strategyName == s.setup.strategyName
  }

  function PointOf(s: State, bar: Bar, target: real): EquityPoint {
    var value := MarketValue(s.book.quantity, bar.close);
    var equity := s.book.cash + value;
    EquityPoint(
      bar.timestamp, bar.close, s.book.cash, s.book.quantity, s.book.averageCost, value, equity,
      s.marks.startOfDay, equity - s.marks.startOfDay, s.marks.peak,
      if equity > 0 then Ratio(value as real, equity as real) else 0.0,
      s.book.realizedPnl,
      RoundHalfEven(Times(s.book.quantity, bar.close - s.book.averageCost)),
      s.book.fees, s.book.slippage,
      if s.marks.peak > 0 then Ratio((s.marks.peak - equity) as real, s.marks.peak as real) else 0.0,
      s.halt, target)
  }

  /** Takes over the next target and records the bar's equity point. */
  function RecordClose(s: State, bar: Bar, signal: Signal): State {
    var signalled := Emit(s.(pending := Some(signal)), SignalGenerated, bar.timestamp);
    var point := PointOf(signalled, bar, signal.targetWeight);
    Emit(
      signalled.(
        journal := signalled.journal.(curve := signalled.journal.curve + [point]),
        marks := signalled.marks.(previousClose := point.equity)),
      PortfolioUpdated, bar.timestamp)
  }

  /** The closing mark, with the bar added to the history. */
  function MarkClose(s: State, bar: Bar): State {
    var marked := MarkAndCheck(s, bar.timestamp, bar.close);
    marked.(journal := marked.journal.(history := marked.journal.history + [bar]))
  }

  /** Everything from the closing mark on. */
  function ClosePhase(world: World, s: State, bar: Bar): Outcome {
    var seen := MarkClose(s, bar);
    match NextSignal(world, seen, bar)
    case None => Fail(StrategyFailed)
    case Some(signal) =>
      if SignalMatches(seen, signal, bar) then Ok(RecordClose(seen, bar, signal))
      else Fail(SignalMismatch)
  }

  function Advance(world: World, s: State, bar: Bar): Outcome {
    if !EventMatches(s, bar) then Fail(EventMismatch)
    else if bar.open.None? || bar.open.value <= 0.0 then Fail(OpenMissing)
    else
      match OpenPhase(s, bar, bar.open.value)
      case Fail(error) => Fail(error)
      case Ok(begun) => ClosePhase(world, begun, bar)
  }

  /** What a call to process a bar leaves behind, and whether it raised. */
  datatype Processed = Processed(state: State, error: Option<StepError>)

  function ProcessBar(world: World, s: State, bar: Bar): Processed {
    if s.failed then Processed(s, Some(Refused))
    else
      match Advance(world, s.(buffer := Some([])), bar)
      case Fail(error) => Processed(s.(failed := true), Some(error))
      case Ok(committed) =>
        var events := if committed.buffer.Some? then committed.buffer.value else [];
        Processed(DeliverAll(world, committed.(buffer := None), events), None)
  }

  // ---------- controls ----------

  /** Cancels a pending target; outside a bar the event is delivered at once. */
  function ExpirePending(world: World, s: State, timestamp: int): State {
    if s.pending.None? then s
    else
      var expired := s.(pending := None);
      if s.journal.history == [] then expired
      else Deliver(world, expired, Event(PendingSignalExpired, timestamp))
  }

  function ActivateKillSwitch(world: World, s: State, timestamp: int): State {
    var expired := ExpirePending(world, s, timestamp);
    if expired.halt.active then expired
    else
      var latched := expired.(halt := HaltState(true, Some(timestamp), [KillSwitch]));
      if latched.journal.history == [] then latched
      else Deliver(world, latched, Event(RiskRejected, timestamp))
  }

  // ---------- runs ----------

  /** The engine after a whole sequence of bars, or the first failure. */
  function Run(world: World, s: State, bars: seq<Bar>): Outcome {
    if bars == [] then Ok(s)
    else
      match Run(world, s, bars[..|bars| - 1])
      case Fail(error) => Fail(error)
      case Ok(before) =>
        var processed := ProcessBar(world, before, bars[|bars| - 1]);
        match processed.error
        case Some(error) => Fail(error)
        case None => Ok(processed.state)
  }

  /** A batch run over the bars the engine was built with. */
  function Batch(world: World, setup: Setup, warnings: seq<Warning>): Outcome {
    Run(world, Initial(setup, warnings), setup.validatedBars)
  }
}

/**
How a bar ends and what the outside hears of it: exactly when it is refused and with which
error, and which events a committed bar publishes, in which order.
*/
module BarOutcomes {
  import opened Domain
  import opened EngineInvariants
  import opened EngineSpec
  import opened Options
  import opened RiskPolicy
  import opened Rounding
  import Causality

  // ---------- errors ----------

  /** The bar is the next validated one, and goes on with the symbol, timeframe and time of those before. */
  predicate IsNext(s: State, bar: Bar) {
    var seen := s.journal.history;
    && |seen| < |s.setup.validatedBars| && s.setup.validatedBars[|seen|] == bar
    && (s.symbol == None || s.symbol == Some(bar.symbol))
    && (|seen| > 0 ==> bar.timeframeSeconds == seen[0].timeframeSeconds && bar.timestamp > seen[|seen| - 1].timestamp)
  }

  predicate HasOpen(bar: Bar) { bar.open.Some? && bar.open.value > 0.0 }

  /** The engine as the strategy finds it, with the bar in its history. */
  function AtClose(s: State, bar: Bar): State
    requires HasOpen(bar) && OpenPhase(s.(buffer := Some([])), bar, bar.open.value).Ok?
  {
    MarkClose(OpenPhase(s.(buffer := Some([])), bar, bar.open.value).state, bar)
  }

  predicate StrategyAsked(seen: State) { |seen.journal.history| > seen.setup.cfg.warmupBars && !seen.halt.active }

  /** What the strategy makes of the latest bars, and what it leaves of the engine. */
  function SignalOf(world: World, seen: State): Option<Signal> {
    world.signal(seen.setup.strategy, Latest(seen.journal.history, seen.setup.cfg.historyLimit))
  }

  function Latest(bars: seq<Bar>, limit: nat): seq<Bar> {
    bars[(if |bars| <= limit then 0 else |bars| - limit)..]
  }

  predicate StrategyTampers(world: World, seen: State) {
    world.strategyLeaves(seen.setup.strategy, Latest(seen.journal.history, seen.setup.cfg.historyLimit), seen) != seen
  }

  /** The strategy raised, asked for less than nothing or more than everything, or touched the engine. */
  predicate StrategyMisbehaves(world: World, seen: State) {
    || SignalOf(world, seen).None?
    || SignalOf(world, seen).value.targetWeight < 0.0 || SignalOf(world, seen).value.targetWeight > 1.0
    || StrategyTampers(world, seen)
  }

  predicate SignalForeign(seen: State, signal: Signal, bar: Bar) {
    signal.timestamp != bar.timestamp || signal.symbol != bar.symbol || signal.strategyName != seen.setup.strategyName
  }

  /** How the bar ends, if the strategy is asked. */
  function CloseError(world: World, seen: State, bar: Bar): Option<StepError> {
    if !StrategyAsked(seen) then None
    else if StrategyMisbehaves(world, seen) then Some(StrategyFailed)
    else if SignalForeign(seen, SignalOf(world, seen).value, bar) then Some(SignalMismatch)
    else None
  }

  lemma CloseEnds(world: World, t: State, bar: Bar)
    ensures var c, error := ClosePhase(world, t, bar), CloseError(world, MarkClose(t, bar), bar);
      if error == None then c.Ok? else c == Fail(error.value)
  {
    hide MarkAndCheck, RecordClose;
    var seen := MarkClose(t, bar);
    assert Trailing(seen.journal.history, seen.setup.cfg.historyLimit)
      == Latest(seen.journal.history, seen.setup.cfg.historyLimit);
  }

  /**
  A bar a sound engine is given fails exactly if an earlier one failed, it is not the next bar,
  it has no open, or the strategy is asked and misbehaves or signals for something else.
  */
  lemma BarErrorExact(world: World, s: State, bar: Bar)
    requires Sound(s)
    ensures !s.failed && IsNext(s, bar) && HasOpen(bar) ==>
      OpenPhase(s.(buffer := Some([])), bar, bar.open.value).Ok?
    ensures ProcessBar(world, s, bar).error
      == if s.failed then Some(Refused)
         else if !IsNext(s, bar) then Some(EventMismatch)
         else if !HasOpen(bar) then Some(OpenMissing)
         else CloseError(world, AtClose(s, bar), bar)
  {
    var buffered := s.(buffer := Some([]));
    assert EventMatches(buffered, bar) <==> IsNext(s, bar);
    assert Sound(buffered) by { SoundIgnoresEvents(s); }
    hide Sound, OpenPhase, ClosePhase, EventMatches, IsNext, MarkClose, CloseError;
    if !s.failed && IsNext(s, bar) && HasOpen(bar) {
      OpenPhaseSound(buffered, bar, bar.open.value);
      CloseEnds(world, OpenPhase(buffered, bar, bar.open.value).state, bar);
    }
  }

  // ---------- events ----------

  /** What a decision on record is announced by: an order with its verdict and fill, or a halt. */
  function Announced(decision: DecisionRecord): seq<Event> {
    var time := decision.timestamp;
    if decision.intent.None? then [Event(RiskRejected, time)]
    else if decision.decision.approved then
      [Event(IntentCreated, time), Event(RiskAccepted, time), Event(FillCreated, time)]
    else [Event(IntentCreated, time), Event(RiskRejected, time)]
  }

  function AnnouncedAll(decisions: seq<DecisionRecord>): seq<Event> {
    if decisions == [] then []
    else AnnouncedAll(decisions[..|decisions| - 1]) + Announced(decisions[|decisions| - 1])
  }

  lemma {:induction false} AnnouncedConcat(front: seq<DecisionRecord>, back: seq<DecisionRecord>)
    ensures AnnouncedAll(front + back) == AnnouncedAll(front) + AnnouncedAll(back)
    decreases |back|
  {
    hide AnnouncedAll, Announced;
    if back == [] {
      assert front + back == front;
      AnnouncedNone();
    } else {
      var fewer, last := back[..|back| - 1], back[|back| - 1];
      assert back == fewer + [last] && front + back == (front + fewer) + [last];
      AnnouncedConcat(front, fewer);
      AnnouncedSnoc(front + fewer, last);
      AnnouncedSnoc(fewer, last);
      Regrouped(AnnouncedAll(front), AnnouncedAll(fewer), Announced(last));
    }
  }

  lemma AnnouncedNone()
    ensures AnnouncedAll([]) == []
  {
  }

  lemma AnnouncedSnoc(decisions: seq<DecisionRecord>, last: DecisionRecord)
    ensures AnnouncedAll(decisions + [last]) == AnnouncedAll(decisions) + Announced(last)
  {
    hide Announced;
    assert (decisions + [last])[..|decisions|] == decisions;
  }

  lemma AnnouncedOne(decision: DecisionRecord)
    ensures AnnouncedAll([decision]) == Announced(decision) && AnnouncedAll([]) == []
  {
    assert [decision][..0] == [];
  }

  /** An engine with a sink, within a bar. */
  predicate Listening(s: State) { s.setup.sink.Some? && s.buffer.Some? }

  /** From s to t exactly the decisions that were added have been announced. */
  ghost predicate AnnouncesNew(s: State, t: State) {
    && Listening(s) && Listening(t)
    && |s.journal.decisions| <= |t.journal.decisions|
    && t.journal.decisions[..|s.journal.decisions|] == s.journal.decisions
    && t.buffer.value == s.buffer.value + AnnouncedAll(t.journal.decisions[|s.journal.decisions|..])
  }

  lemma AnnouncesOneMore(s: State, t: State, decision: DecisionRecord)
    requires Listening(s) && Listening(t)
    requires t.journal.decisions == s.journal.decisions + [decision]
    requires t.buffer.value == s.buffer.value + Announced(decision)
    ensures AnnouncesNew(s, t)
  {
    AnnouncedOne(decision);
    assert t.journal.decisions[|s.journal.decisions|..] == [decision];
  }

  lemma AnnouncesNothing(s: State, t: State)
    requires Listening(s) && t.setup.sink == s.setup.sink
    requires t.buffer == s.buffer && t.journal.decisions == s.journal.decisions
    ensures AnnouncesNew(s, t)
  {
    assert t.journal.decisions[|s.journal.decisions|..] == [];
  }

  lemma NewDecisions(a: seq<DecisionRecord>, b: seq<DecisionRecord>, c: seq<DecisionRecord>)
    requires |a| <= |b| <= |c| && b[..|a|] == a && c[..|b|] == b
    ensures c[..|a|] == a && c[|a|..] == b[|a|..] + c[|b|..]
  {
    assert c == b + c[|b|..] && b == a + b[|a|..];
  }

  lemma AnnouncesBoth(s: State, t: State, u: State)
    requires AnnouncesNew(s, t) && AnnouncesNew(t, u)
    ensures AnnouncesNew(s, u)
  {
    hide AnnouncedAll;
    var a, b, c := s.journal.decisions, t.journal.decisions, u.journal.decisions;
    NewDecisions(a, b, c);
    var first, second := AnnouncedAll(b[|a|..]), AnnouncedAll(c[|b|..]);
    AnnouncedConcat(b[|a|..], c[|b|..]);
    Regrouped(s.buffer.value, first, second);
  }

  lemma Regrouped(a: seq<Event>, b: seq<Event>, c: seq<Event>)
    ensures (a + b) + c == a + (b + c)
  {
  }

  lemma CheckAnnounces(s: State, timestamp: int, equity: int)
    requires Listening(s)
    ensures AnnouncesNew(s, CheckHalt(s, timestamp, equity))
    ensures CheckHalt(s, timestamp, equity).setup == s.setup
  {
    hide HaltDecision;
    var t, decision := CheckHalt(s, timestamp, equity), HaltDecision(s, equity);
    if s.halt.active || decision.approved {
      AnnouncesNothing(s, t);
    } else {
      AnnouncesOneMore(s, t, DecisionRecord(timestamp, decision, None));
    }
  }

  lemma MarkAnnounces(s: State, timestamp: int, price: real)
    requires Listening(s)
    ensures AnnouncesNew(s, MarkAndCheck(s, timestamp, price))
    ensures MarkAndCheck(s, timestamp, price).setup == s.setup
  {
    hide CheckHalt, EquityAt, AnnouncesNew;
    var marked := s.(marks := s.marks.(peak := MaxInt(s.marks.peak, EquityAt(s.book, price))));
    AnnouncesNothing(s, marked);
    CheckAnnounces(marked, timestamp, EquityAt(s.book, price));
    AnnouncesBoth(s, marked, MarkAndCheck(s, timestamp, price));
  }

  lemma JudgedAnnounces(s: State, bar: Bar, intent: OrderIntent, decision: RiskDecision)
    requires Listening(s)
    ensures var j := Judged(s, bar, intent, decision);
      && Listening(j) && j.setup == s.setup
      && j.journal.decisions == s.journal.decisions + [DecisionRecord(bar.timestamp, decision, Some(intent.id))]
      && j.buffer.value == s.buffer.value + [Event(IntentCreated, bar.timestamp)]
           + [Event(if decision.approved then RiskAccepted else RiskRejected, bar.timestamp)]
  {
  }

  lemma SubmitAnnounces(s: State, bar: Bar, e: Execution, equity: int)
    requires Listening(s) && s.pending.Some?
    ensures SubmitOrder(s, bar, e, equity).Ok? ==>
      AnnouncesNew(s, SubmitOrder(s, bar, e, equity).state) && SubmitOrder(s, bar, e, equity).state.setup == s.setup
  {
    hide OrderDecision, OrderOf, SnapshotAt, CheckHalt, BookAfter, MarketValue, FillOf, TradeOf, Judged, AnnouncesNew;
    var intent := IntentOf(s.pending.value, bar, e);
    assert intent.executionTimestamp == bar.timestamp;
    hide IntentOf;
    var decision := OrderDecision(s.setup.policy, OrderOf(s, bar, intent.id, e), SnapshotAt(s, equity));
    var record := DecisionRecord(bar.timestamp, decision, Some(intent.id));
    var j := Judged(s, bar, intent, decision);
    JudgedAnnounces(s, bar, intent, decision);
    if !decision.approved {
      assert s.buffer.value + [Event(IntentCreated, bar.timestamp)] + [Event(RiskRejected, bar.timestamp)]
        == s.buffer.value + Announced(record);
      AnnouncesOneMore(s, j, record);
    } else if CommitFill(j, intent, e).Ok? {
      FillAnnounces(s, j, bar, intent, e, record);
    }
  }

  lemma FillAnnounces(s: State, j: State, bar: Bar, intent: OrderIntent, e: Execution, record: DecisionRecord)
    requires Listening(s) && Listening(j) && j.setup == s.setup && intent.executionTimestamp == bar.timestamp
    requires record.timestamp == bar.timestamp && record.intent.Some? && record.decision.approved
    requires j.journal.decisions == s.journal.decisions + [record]
    requires j.buffer.value
      == s.buffer.value + [Event(IntentCreated, bar.timestamp)] + [Event(RiskAccepted, bar.timestamp)]
    requires CommitFill(j, intent, e).Ok?
    ensures AnnouncesNew(s, CommitFill(j, intent, e).state) && CommitFill(j, intent, e).state.setup == s.setup
  {
    hide CheckHalt, BookAfter, MarketValue, FillOf, TradeOf, AnnouncesNew;
    var after := BookAfter(j.book, e);
    var journal := j.journal.(
      fills := j.journal.fills + [FillOf(intent, e)],
      trades := j.journal.trades + [TradeOf(intent, e, j.book, after)]);
    var filled := Emit(j.(book := after, journal := journal), FillCreated, intent.executionTimestamp);
    assert filled.buffer.value == s.buffer.value + Announced(record);
    AnnouncesOneMore(s, filled, record);
    var equity := after.cash + MarketValue(after.quantity, e.reference);
    CheckAnnounces(filled, intent.executionTimestamp, equity);
    AnnouncesBoth(s, filled, CheckHalt(filled, intent.executionTimestamp, equity));
  }

  /** The open announces the bar, and then every decision. */
  lemma OpenAnnounces(s: State, bar: Bar, open: real)
    requires Listening(s) && open > 0.0
    ensures OpenPhase(s, bar, open).Ok? ==>
      var t := OpenPhase(s, bar, open).state;
      && AnnouncesNew(s.(buffer := Some(s.buffer.value + [Event(BarReceived, bar.timestamp)])), t)
      && t.setup == s.setup
  {
    var heard := s.(buffer := Some(s.buffer.value + [Event(BarReceived, bar.timestamp)]));
    var entered := EnterBar(s, bar);
    assert entered.buffer == heard.buffer && entered.journal == s.journal && entered.setup == s.setup;
    AnnouncesNothing(heard, entered);
    hide MarkAndCheck, SubmitOrder, EnterBar, TargetDelta, ExecutionOf, EquityAt, AnnouncesNew;
    MarkAnnounces(entered, bar.timestamp, open);
    var marked := MarkAndCheck(entered, bar.timestamp, open);
    AnnouncesBoth(heard, entered, marked);
    if marked.pending.Some? && !marked.halt.active {
      MarkedEquityPositive(entered, bar.timestamp, open);
      Causality.BookUntouchedByMark(entered, bar.timestamp, open);
      var equity := EquityAt(marked.book, open);
      var delta := TargetDelta(marked, open, equity);
      if delta != 0 {
        var e := ExecutionOf(marked.setup.cfg, delta, open);
        assert Listening(marked) by { AnnouncedListens(heard, marked); }
        SubmitAnnounces(marked, bar, e, equity);
        if SubmitOrder(marked, bar, e, equity).Ok? {
          AnnouncesBoth(heard, marked, SubmitOrder(marked, bar, e, equity).state);
        }
      }
    }
  }

  lemma AnnouncedListens(s: State, t: State)
    requires AnnouncesNew(s, t)
    ensures Listening(t)
  {
  }

  /** The close announces a halt, the next target and the new point. */
  lemma CloseAnnounces(world: World, t: State, bar: Bar)
    requires Listening(t)
    ensures ClosePhase(world, t, bar).Ok? ==>
      var c, marked := ClosePhase(world, t, bar).state, MarkAndCheck(t, bar.timestamp, bar.close);
      && AnnouncesNew(t, marked) && c.journal.decisions == marked.journal.decisions
      && c.buffer == Some(marked.buffer.value
           + ([Event(SignalGenerated, bar.timestamp)] + [Event(PortfolioUpdated, bar.timestamp)]))
  {
    var marked := MarkAndCheck(t, bar.timestamp, bar.close);
    MarkAnnounces(t, bar.timestamp, bar.close);
    AnnouncedListens(t, marked);
    hide MarkAndCheck, NextSignal, AnnouncesNew, RecordClose;
    var seen := MarkClose(t, bar);
    if NextSignal(world, seen, bar).Some? {
      RecordAnnounces(seen, bar, NextSignal(world, seen, bar).value);
    }
  }

  lemma RecordAnnounces(seen: State, bar: Bar, signal: Signal)
    requires Listening(seen)
    ensures var c := RecordClose(seen, bar, signal);
      && c.journal.decisions == seen.journal.decisions
      && c.buffer == Some(seen.buffer.value
           + ([Event(SignalGenerated, bar.timestamp)] + [Event(PortfolioUpdated, bar.timestamp)]))
  {
    hide PointOf;
    Regrouped(seen.buffer.value, [Event(SignalGenerated, bar.timestamp)], [Event(PortfolioUpdated, bar.timestamp)]);
  }

  /**
  The events of a bar a sink is going to hear: the bar, every decision the bar adds to the
  journal, with its intent before and its fill behind it, the next target, and the new point.
  */
  lemma EventsOfBar(world: World, s: State, bar: Bar)
    requires s.setup.sink.Some? && Advance(world, s.(buffer := Some([])), bar).Ok?
    ensures var after, before := Advance(world, s.(buffer := Some([])), bar).state, s.journal.decisions;
      && |before| <= |after.journal.decisions| && after.journal.decisions[..|before|] == before
      && after.buffer == Some(
           [Event(BarReceived, bar.timestamp)] + AnnouncedAll(after.journal.decisions[|before|..])
           + ([Event(SignalGenerated, bar.timestamp)] + [Event(PortfolioUpdated, bar.timestamp)]))
  {
    var buffered := s.(buffer := Some([]));
    var open := bar.open.value;
    OpenAnnounces(buffered, bar, open);
    var heard := buffered.(buffer := Some(buffered.buffer.value + [Event(BarReceived, bar.timestamp)]));
    var t := OpenPhase(buffered, bar, open).state;
    AnnouncedListens(heard, t);
    CloseAnnounces(world, t, bar);
    var marked := MarkAndCheck(t, bar.timestamp, bar.close);
    AnnouncesBoth(heard, t, marked);
    hide OpenPhase, ClosePhase, MarkAndCheck, EventMatches;
    assert heard.buffer.value == [Event(BarReceived, bar.timestamp)];
  }

  // ---------- deliveries ----------

  /** The sink raises, or leaves anything in the engine other than it was. */
  predicate SinkMisbehaves(world: World, s: State, event: Event)
    requires s.setup.sink.Some?
  {
    var during := s.(delivering := true);
    || world.sinkRaises(s.setup.sink.value, event, during)
    || world.sinkLeaves(s.setup.sink.value, event, during).(delivering := false) != s
  }

  predicate AlreadyWarned(s: State) { exists w :: w in s.warnings && w.EventSinkFailure? }

  /** One warning for the first event a sink misbehaves on, saying whether it raised; none else. */
  lemma {:induction false} WarnedForTheFirst(world: World, s: State, events: seq<Event>, k: nat)
    requires s.setup.sink.Some? && k <= |events|
    requires forall i :: 0 <= i < k ==> !SinkMisbehaves(world, s, events[i])
    requires k < |events| ==> SinkMisbehaves(world, s, events[k])
    ensures DeliverAll(world, s, events)
      == if k == |events| || AlreadyWarned(s) then s
         else s.(warnings := s.warnings + [EventSinkFailure(
                   world.sinkRaises(s.setup.sink.value, events[k], s.(delivering := true)))])
    decreases |events|
  {
    if events != [] {
      if k == 0 {
        FirstWarning(world, s, events[0]);
        var once := Deliver(world, s, events[0]);
        WarnedStays(world, once, events[1..]);
      } else {
        assert !SinkMisbehaves(world, s, events[0]);
        assert Deliver(world, s, events[0]) == s;
        assert forall i :: 0 <= i < k - 1 ==> events[1..][i] == events[i + 1];
        WarnedForTheFirst(world, s, events[1..], k - 1);
      }
    }
  }

  lemma FirstWarning(world: World, s: State, event: Event)
    requires s.setup.sink.Some? && SinkMisbehaves(world, s, event)
    ensures var once := Deliver(world, s, event);
      && once == (if AlreadyWarned(s) then s
                  else s.(warnings := s.warnings + [EventSinkFailure(
                            world.sinkRaises(s.setup.sink.value, event, s.(delivering := true)))]))
      && AlreadyWarned(once)
  {
    var warning := EventSinkFailure(world.sinkRaises(s.setup.sink.value, event, s.(delivering := true)));
    assert warning in s.warnings + [warning];
    if AlreadyWarned(s) {
      var w :| w in s.warnings && w.EventSinkFailure?;
      var i :| 0 <= i < |s.warnings| && s.warnings[i] == w;
    }
  }

  lemma {:induction false} WarnedStays(world: World, s: State, events: seq<Event>)
    requires s.setup.sink.Some? && AlreadyWarned(s)
    ensures DeliverAll(world, s, events) == s
    decreases |events|
  {
    if events != [] {
      if SinkMisbehaves(world, s, events[0]) {
        FirstWarning(world, s, events[0]);
      }
      WarnedStays(world, s, events[1..]);
    }
  }

  /** Cancelling a target is heard once bars exist, a halt by hand after it: what the sink is told. */
  function ControlEvents(s: State, timestamp: int, halts: bool): seq<Event> {
    if s.journal.history == [] then []
    else
      (if s.pending.Some? then [Event(PendingSignalExpired, timestamp)] else [])
      + (if halts && !s.halt.active then [Event(RiskRejected, timestamp)] else [])
  }

  lemma DeliversOne(world: World, s: State, event: Event)
    ensures DeliverAll(world, s, [event]) == Deliver(world, s, event) && DeliverAll(world, s, []) == s
  {
    assert [event][1..] == [];
  }

  /** A cancellation clears the target and is announced. */
  lemma CancellationAnnounced(world: World, s: State, timestamp: int)
    ensures ExpirePending(world, s, timestamp)
         == DeliverAll(world, s.(pending := None), ControlEvents(s, timestamp, false))
  {
    hide Deliver;
    DeliversOne(world, s.(pending := None), Event(PendingSignalExpired, timestamp));
    assert s.pending.None? ==> s == s.(pending := None);
  }

  /** A halt by hand cancels first, then latches, and announces both. */
  lemma KillAnnounced(world: World, s: State, timestamp: int)
    ensures var cancelled := ExpirePending(world, s, timestamp);
      ActivateKillSwitch(world, s, timestamp)
      == if s.halt.active then cancelled
         else DeliverAll(world, cancelled.(halt := HaltState(true, Some(timestamp), [KillSwitch])),
                         ControlEvents(s.(pending := None), timestamp, true))
  {
    Causality.ExpireKeeps(world, s, timestamp);
    hide Deliver, ExpirePending;
    var cancelled := ExpirePending(world, s, timestamp);
    var latched := cancelled.(halt := HaltState(true, Some(timestamp), [KillSwitch]));
    DeliversOne(world, latched, Event(RiskRejected, timestamp));
  }

  /** A committed bar is heard: its events are delivered, in that order, to the engine the bar left. */
  lemma CommittedBarHeard(world: World, s: State, bar: Bar)
    requires s.setup.sink.Some? && ProcessBar(world, s, bar).error == None
    ensures var a := Advance(world, s.(buffer := Some([])), bar);
      && a.Ok? && |s.journal.decisions| <= |a.state.journal.decisions|
      && ProcessBar(world, s, bar).state == DeliverAll(world, a.state.(buffer := None),
           [Event(BarReceived, bar.timestamp)] + AnnouncedAll(a.state.journal.decisions[|s.journal.decisions|..])
           + ([Event(SignalGenerated, bar.timestamp)] + [Event(PortfolioUpdated, bar.timestamp)]))
  {
    hide Advance, DeliverAll;
    EventsOfBar(world, s, bar);
  }

  // ---------- intents ----------

  /** The engine remembers the last intent it recorded. */
  predicate Remembers(s: State) {
    var intents := s.journal.intents;
    s.lastIntent == if intents == [] then None else Some(intents[|intents| - 1].id)
  }

  lemma MarkRemembers(s: State, timestamp: int, price: real)
    ensures MarkAndCheck(s, timestamp, price).lastIntent == s.lastIntent
    ensures MarkAndCheck(s, timestamp, price).journal.intents == s.journal.intents
  {
    hide HaltDecision, EquityAt;
  }

  lemma SubmitRemembers(s: State, bar: Bar, e: Execution, equity: int)
    requires s.pending.Some?
    ensures SubmitOrder(s, bar, e, equity).Ok? ==> Remembers(SubmitOrder(s, bar, e, equity).state)
  {
    hide OrderDecision, OrderOf, SnapshotAt, IntentOf, CommitFill;
    var intent := IntentOf(s.pending.value, bar, e);
    var decision := OrderDecision(s.setup.policy, OrderOf(s, bar, intent.id, e), SnapshotAt(s, equity));
    var j := Judged(s, bar, intent, decision);
    assert Remembers(j);
    FillRemembers(j, intent, e);
    hide Judged, Remembers;
  }

  lemma FillRemembers(s: State, intent: OrderIntent, e: Execution)
    requires Remembers(s)
    ensures CommitFill(s, intent, e).Ok? ==> Remembers(CommitFill(s, intent, e).state)
  {
    hide BookAfter, MarketValue, FillOf, TradeOf, HaltDecision;
  }

  lemma OpenRemembers(s: State, bar: Bar, open: real)
    requires open > 0.0 && Remembers(s)
    ensures OpenPhase(s, bar, open).Ok? ==> Remembers(OpenPhase(s, bar, open).state)
  {
    var entered := EnterBar(s, bar);
    assert entered.lastIntent == s.lastIntent && entered.journal == s.journal;
    var marked := MarkAndCheck(entered, bar.timestamp, open);
    MarkRemembers(entered, bar.timestamp, open);
    assert Remembers(marked);
    hide MarkAndCheck, SubmitOrder, EnterBar, TargetDelta, ExecutionOf, EquityAt, Remembers;
    if marked.pending.Some? && !marked.halt.active {
      MarkedEquityPositive(entered, bar.timestamp, open);
      Causality.BookUntouchedByMark(entered, bar.timestamp, open);
      var equity := EquityAt(marked.book, open);
      SubmitRemembers(marked, bar, ExecutionOf(marked.setup.cfg, TargetDelta(marked, open, equity), open), equity);
    }
  }

  lemma CloseRemembers(world: World, t: State, bar: Bar)
    requires Remembers(t)
    ensures ClosePhase(world, t, bar).Ok? ==> Remembers(ClosePhase(world, t, bar).state)
  {
    MarkRemembers(t, bar.timestamp, bar.close);
    hide MarkAndCheck, NextSignal, PointOf;
  }

  lemma BarRemembers(world: World, s: State, bar: Bar)
    requires Remembers(s)
    ensures Remembers(ProcessBar(world, s, bar).state)
  {
    var buffered := s.(buffer := Some([]));
    Causality.DeliveryOnlyWarns(world, s, bar);
    hide OpenPhase, ClosePhase, EventMatches, DeliverAll;
    if !s.failed && Advance(world, buffered, bar).Ok? {
      var open := bar.open.value;
      OpenRemembers(buffered, bar, open);
      CloseRemembers(world, OpenPhase(buffered, bar, open).state, bar);
      EssenceRemembers(ProcessBar(world, s, bar).state, Advance(world, buffered, bar).state);
    }
  }

  lemma EssenceRemembers(s: State, t: State)
    requires Causality.Essence(s) == Causality.Essence(t)
    ensures Remembers(s) == Remembers(t)
  {
  }

  /** After every run the last intent on record is the one the next order is compared with. */
  lemma {:induction false} RunRemembers(world: World, setup: Setup, warnings: seq<Warning>, bars: seq<Bar>)
    ensures var r := Run(world, Initial(setup, warnings), bars);
      r.Ok? ==> Remembers(r.state)
    decreases |bars|
  {
    if bars != [] {
      hide ProcessBar, Initial, Remembers;
      var front := bars[..|bars| - 1];
      RunRemembers(world, setup, warnings, front);
      if Run(world, Initial(setup, warnings), front).Ok? {
        BarRemembers(world, Run(world, Initial(setup, warnings), front).state, bars[|bars| - 1]);
      }
    }
  }
}

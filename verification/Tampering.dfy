/**
A strategy that looks at the engine's warnings before it tampers with the engine. With a
sink that raises it fails where it would not fail without one, in a batch run and in a
replay: what two runs agree on when only one of them succeeds depends on such strategies.
*/
module Tampering {
  import opened Domain
  import opened EngineSpec
  import opened Options
  import opened ReplayLifecycle
  import opened ReplaySpec
  import opened RiskAgreement
  import opened RiskPolicy
  import opened Rounding
  import Causality
  import ReplayTheorems
  import Sizing

  // ---------- the world, the setup and the bars ----------

  /** A flat signal for the latest bar. */
  function FlatSignal(window: seq<Bar>): Option<Signal> {
    if window == [] then None
    else
      var last := window[|window| - 1];
      Some(Signal(last.timestamp, last.symbol, 0.0, ""))
  }

  function TamperIfWarned(s: State): State {
    if s.warnings == [] then s else s.(symbol := None)
  }

  /** Every delivery raises, and the strategy tampers once the engine holds a warning. */
  const WORLD := World(
    (strategy, window) => FlatSignal(window),
    (strategy, window, s) => TamperIfWarned(s),
    (sink, event, s) => true,
    (sink, event, s) => s)

  const CONFIG := Config(1000, 0.0, 0.0, 0.0, 1.0, 1.0, 1.0, 1.0, 1.0, 1, 0, 0, true, false, 8, 8, 1)
  const POLICY := Policy(1.0, 1.0, 1.0, 1.0, 1.0, 0, 1, ["SPY"])
  const FIRST := Bar(0, "SPY", Some(1.0), 1.0, 60)
  const SECOND := Bar(60, "SPY", Some(1.0), 1.0, 60)

  function Loud(bars: seq<Bar>): Setup { Setup(0, "", CONFIG, POLICY, bars, Some(0)) }

  // ---------- one flat bar ----------

  /** Nothing held, nothing lost, and nothing but a flat target pending. */
  predicate Flat(s: State) {
    && s.setup.cfg == CONFIG && s.setup.policy == POLICY && s.setup.strategyName == ""
    && s.book == Book(1000, 0, 0.0, 0, 0, 0)
    && s.marks == Marks(1000, 1000, 1000, s.marks.date)
    && s.halt == NOT_HALTED
    && (s.pending.Some? ==> s.pending.value.targetWeight == 0.0)
  }

  lemma NothingWorth(price: real)
    ensures MarketValue(0, price) == 0
  {
    TimesAdds(0, 0, price);
    RoundFixesGrid(0);
  }

  lemma FlatMark(s: State, timestamp: int, price: real)
    requires Flat(s)
    ensures MarkAndCheck(s, timestamp, price) == s && EquityAt(s.book, price) == 1000
  {
    NothingWorth(price);
    TinyEquityBelowOne();
    HaltExactly(s, 1000);
    hide TinyEquity, HaltDecision, MarketValue;
    assert DailyLossPct(SnapshotAt(s, 1000)) == 0.0 && DrawdownPct(SnapshotAt(s, 1000)) == 0.0;
    assert s.marks.(peak := MaxInt(s.marks.peak, 1000)) == s.marks;
  }

  lemma FlatOpen(s: State, bar: Bar)
    requires Flat(s)
    ensures Flat(EnterBar(s, bar)) && OpenPhase(s, bar, 1.0) == Ok(EnterBar(s, bar))
  {
    var entered := EnterBar(s, bar);
    assert Flat(entered);
    hide EnterBar, MarkAndCheck, Flat, EquityAt;
    FlatMark(entered, bar.timestamp, 1.0);
    if entered.pending.Some? {
      NoTarget(entered);
    }
  }

  lemma NoTarget(s: State)
    requires Flat(s) && s.pending.Some?
    ensures TargetDelta(s, 1.0, 1000) == 0
  {
    hide Sizing.SearchLow, Sizing.SearchHigh;
  }

  lemma FlatClose(s: State, bar: Bar)
    requires Flat(s) && s.symbol == Some(bar.symbol)
    ensures var c := ClosePhase(WORLD, s, bar);
      if s.warnings == [] then
        && c.Ok? && Flat(c.state) && c.state.symbol == s.symbol && c.state.warnings == []
        && c.state.journal.history == s.journal.history + [bar]
      else c == Fail(StrategyFailed)
  {
    FlatMark(s, bar.timestamp, bar.close);
    hide MarkAndCheck, RecordClose;
    var seen := s.(journal := s.journal.(history := s.journal.history + [bar]));
    assert MarkClose(s, bar) == seen;
    hide MarkClose;
    FlatSignalled(seen, bar);
    FlatRecord(seen, bar);
    assert seen.setup.strategyName == "";
    hide NextSignal, Flat;
  }

  lemma FlatRecord(seen: State, bar: Bar)
    requires Flat(seen)
    ensures var after := RecordClose(seen, bar, Signal(bar.timestamp, bar.symbol, 0.0, ""));
      && Flat(after) && after.symbol == seen.symbol && after.warnings == seen.warnings
      && after.journal.history == seen.journal.history
  {
    NothingWorth(bar.close);
    hide MarketValue;
  }

  lemma FlatSignalled(seen: State, bar: Bar)
    requires Flat(seen) && seen.symbol == Some(bar.symbol)
    requires seen.journal.history != [] && seen.journal.history[|seen.journal.history| - 1] == bar
    ensures NextSignal(WORLD, seen, bar)
      == if seen.warnings == [] then Some(Signal(bar.timestamp, bar.symbol, 0.0, "")) else None
  {
    assert Trailing(seen.journal.history, 1) == [bar];
  }

  /** A flat bar goes through exactly as long as there is no warning. */
  lemma FlatAdvance(s: State, bar: Bar)
    requires Flat(s) && EventMatches(s, bar) && bar.open == Some(1.0)
    ensures var a := Advance(WORLD, s, bar);
      if s.warnings == [] then
        && a.Ok? && Flat(a.state) && a.state.symbol == Some(bar.symbol)
        && a.state.journal.history == s.journal.history + [bar]
      else a == Fail(StrategyFailed)
  {
    FlatOpen(s, bar);
    assert EnterBar(s, bar).symbol == Some(bar.symbol) && EnterBar(s, bar).journal == s.journal;
    assert EnterBar(s, bar).warnings == s.warnings;
    hide Flat, OpenPhase, ClosePhase, EventMatches, EnterBar;
    FlatClose(EnterBar(s, bar), bar);
  }

  /** What such a bar leaves: a sink has been heard, and has left its warning. */
  lemma FlatBar(s: State, bar: Bar)
    requires Flat(s) && EventMatches(s, bar) && bar.open == Some(1.0) && !s.failed && !s.delivering
    ensures var p := ProcessBar(WORLD, s, bar);
      if s.warnings == [] then
        && p.error == None && Flat(p.state) && p.state.symbol == Some(bar.symbol) && !p.state.failed
        && p.state.journal.history == s.journal.history + [bar] && p.state.setup == s.setup
        && p.state.delivering == s.delivering
        && (p.state.warnings == [] <==> s.setup.sink == None)
      else p.error == Some(StrategyFailed)
  {
    var buffered := s.(buffer := Some([]));
    assert Flat(buffered) && EventMatches(buffered, bar);
    FlatAdvance(buffered, bar);
    hide Flat, Advance, EventMatches;
    if s.warnings == [] {
      var a := Advance(WORLD, buffered, bar).state;
      Causality.AdvanceSetup(WORLD, buffered, bar);
      FlatEvents(buffered, bar);
      var quiet := a.(buffer := None);
      assert Flat(quiet) by { FlatIgnoresEvents(a, None, a.warnings); }
      Delivered(quiet, a.buffer.value);
      var d := DeliverAll(WORLD, quiet, a.buffer.value);
      FlatIgnoresEvents(quiet, None, d.warnings);
    }
  }

  lemma FlatIgnoresEvents(s: State, buffer: Option<seq<Event>>, warnings: seq<Warning>)
    requires Flat(s)
    ensures Flat(s.(buffer := buffer, warnings := warnings))
  {
  }

  /** The bar at least reports its point, if anyone listens. */
  lemma FlatEvents(s: State, bar: Bar)
    requires Flat(s) && EventMatches(s, bar) && bar.open == Some(1.0)
    requires s.buffer == Some([]) && Advance(WORLD, s, bar).Ok?
    ensures var a := Advance(WORLD, s, bar).state;
      a.buffer.Some? && (s.setup.sink.Some? ==> a.buffer.value != [])
  {
    FlatOpen(s, bar);
    var entered := EnterBar(s, bar);
    assert entered.buffer.Some? && entered.setup == s.setup;
    hide OpenPhase, EnterBar, NextSignal, RecordClose, EventMatches, Flat;
    FlatMark(entered, bar.timestamp, bar.close);
    hide MarkAndCheck;
    forall signal
      ensures var r := RecordClose(MarkClose(entered, bar), bar, signal);
        r.buffer.Some? && (s.setup.sink.Some? ==> r.buffer.value != [])
    {
      RecordReports(MarkClose(entered, bar), bar, signal);
    }
    hide MarkClose;
  }

  lemma RecordReports(seen: State, bar: Bar, signal: Signal)
    requires seen.buffer.Some?
    ensures var r := RecordClose(seen, bar, signal);
      r.buffer.Some? && (seen.setup.sink.Some? ==> r.buffer.value != [])
  {
    hide PointOf;
  }

  /** A sink that raises leaves a warning with the first event. */
  lemma Delivered(s: State, events: seq<Event>)
    requires s.warnings == [] && (s.setup.sink.Some? ==> events != [])
    ensures var d := DeliverAll(WORLD, s, events);
      d == s.(warnings := d.warnings) && (d.warnings == [] <==> s.setup.sink == None)
  {
    Causality.DeliverAllOnlyWarns(WORLD, s, events);
    if s.setup.sink == None {
      Causality.DeliverAllWithoutSink(WORLD, s, events);
    } else {
      Causality.DeliverAllOnlyWarns(WORLD, Deliver(WORLD, s, events[0]), events[1..]);
    }
  }

  // ---------- a batch run that fails because of its sink ----------

  lemma StartsFlat(setup: Setup)
    requires setup.cfg == CONFIG && setup.policy == POLICY && setup.strategyName == ""
    requires setup.validatedBars != [] && setup.validatedBars[0] == FIRST
    ensures var start := Initial(setup, []);
      && Flat(start) && EventMatches(start, FIRST) && !start.delivering && !start.failed
      && start.warnings == [] && start.setup == setup && start.journal.history == []
  {
  }

  lemma SecondMatches(once: State)
    requires once.journal.history == [FIRST] && once.symbol == Some("SPY")
    requires once.setup.validatedBars == [FIRST, SECOND]
    ensures EventMatches(once, SECOND)
  {
  }

  lemma BatchOf(setup: Setup)
    requires setup.cfg == CONFIG && setup.policy == POLICY && setup.strategyName == ""
    requires setup.validatedBars == [FIRST, SECOND]
    ensures if setup.sink == None then Batch(WORLD, setup, []).Ok?
            else Batch(WORLD, setup, []) == Fail(StrategyFailed)
  {
    var start, bars := Initial(setup, []), setup.validatedBars;
    StartsFlat(setup);
    hide ProcessBar, Initial, Flat, EventMatches, Run;
    FlatBar(start, FIRST);
    var once := ProcessBar(WORLD, start, FIRST).state;
    SecondMatches(once);
    FlatTwice(once);
    Causality.RunOneMore(WORLD, start, bars, 0);
    Causality.RunOneMore(WORLD, start, bars, 1);
    Causality.RunNothing(WORLD, start);
    assert bars[..0] == [] && bars[..2] == bars;
  }

  lemma FlatTwice(once: State)
    requires Flat(once) && EventMatches(once, SECOND) && !once.failed && !once.delivering
    ensures var p := ProcessBar(WORLD, once, SECOND);
      if once.warnings == [] then p.error == None else p.error == Some(StrategyFailed)
  {
    FlatBar(once, SECOND);
  }

  /** With the sink the run fails on its second bar, without it the run succeeds. */
  lemma SinkMakesTampererFail()
    ensures Batch(WORLD, Loud([FIRST, SECOND]), []) == Fail(StrategyFailed)
    ensures Batch(WORLD, Loud([FIRST, SECOND]).(sink := None), []).Ok?
    ensures !Causality.TampersByHistory(WORLD, 0)
  {
    BatchOf(Loud([FIRST, SECOND]));
    BatchOf(Loud([FIRST, SECOND]).(sink := None));
    hide Batch;
    Causality.SinkIsInvisible(WORLD, Loud([FIRST, SECOND]), []);
  }

  // ---------- a replay that fails alone ----------

  /** The batch run of one bar succeeds; the replay has announced itself to the sink before, and fails on that bar. */
  lemma ReplayMakesTampererFail()
    ensures Batch(WORLD, Loud([FIRST]), []).Ok?
    ensures var s := ApplyAll(WORLD, [FIRST], Open(WORLD, Loud([FIRST]), []).session, [Start, Step]);
      s.status == Failed && s.cursor == 0 && ReplayTheorems.FailedWith(s) == Some(StrategyFailed)
  {
    OneBarBatch();
    var start, bars := Initial(Loud([FIRST]), []), [FIRST];
    StartsFlat(Loud([FIRST]));
    hide ProcessBar, Initial, Flat, EventMatches, Apply, Open, Run, ReplayTheorems.FailedWith;
    OpenedWarned(start);
    var ready := Open(WORLD, Loud([FIRST]), []).session;
    var running := Apply(WORLD, bars, ready, Start).session;
    assert [Start, Step][..1] == [Start] && [Start][..0] == [];
    assert ApplyAll(WORLD, bars, ready, [Start]) == running;
    StartsWarned(ready, start);
    FlatBar(running.engine, FIRST);
    FailsOnBar(running);
  }

  lemma OneBarBatch()
    ensures Batch(WORLD, Loud([FIRST]), []).Ok?
  {
    var start, bars := Initial(Loud([FIRST]), []), [FIRST];
    StartsFlat(Loud([FIRST]));
    hide ProcessBar, Initial, Flat, EventMatches, Run;
    FlatBar(start, FIRST);
    Causality.RunOneMore(WORLD, start, bars, 0);
    Causality.RunNothing(WORLD, start);
    assert bars[..0] == [] && bars[..1] == bars;
  }

  lemma OpenedWarned(start: State)
    requires start == Initial(Loud([FIRST]), [])
    ensures var ready := Open(WORLD, Loud([FIRST]), []).session;
      && ready.status == Validated && ready.cursor == 0 && ready.engine.warnings != []
      && ready.engine == start.(warnings := ready.engine.warnings)
  {
    Delivered(start, [Event(Lifecycle, 0)]);
  }

  lemma StartsWarned(ready: Session, start: State)
    requires ready.status == Validated && ready.cursor == 0 && ready.engine.warnings != []
    requires ready.engine == start.(warnings := ready.engine.warnings)
    requires Flat(start) && EventMatches(start, FIRST) && !start.delivering && !start.failed
    ensures var running := Apply(WORLD, [FIRST], ready, Start).session;
      && running.status == Running && running.cursor == 0 && running.engine.warnings != []
      && Flat(running.engine) && EventMatches(running.engine, FIRST)
      && !running.engine.failed && !running.engine.delivering
  {
    MoveKeeps(WORLD, ready, Running, SessionStarted, 0);
    hide LegalPath;
  }

  lemma FailsOnBar(running: Session)
    requires running.status == Running && running.cursor == 0
    requires ProcessBar(WORLD, running.engine, FIRST).error == Some(StrategyFailed)
    ensures var s := Apply(WORLD, [FIRST], running, Step).session;
      s.status == Failed && s.cursor == 0 && ReplayTheorems.FailedWith(s) == Some(StrategyFailed)
  {
    hide ProcessBar, LegalPath;
    var cause := BarProcessingFailed(StrategyFailed);
    var p := ProcessBar(WORLD, running.engine, FIRST);
    MoveKeeps(WORLD, running.(engine := p.state, failure := Some(cause)), Failed, cause, 0);
  }
}

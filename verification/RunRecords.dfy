/**
What runs record: journals only ever grow, by one bar and one point of the curve for
every bar processed.
*/
module RunRecords {
  import opened Domain
  import opened EngineSpec
  import opened Options
  import opened RiskPolicy
  import opened Rounding
  import Causality

  /** Two states with the same journals, book and marks. */
  predicate SameRecord(s: State, batch: State) {
    s.journal == batch.journal && s.book == batch.book && s.marks == batch.marks
  }

  lemma EssenceGivesRecord(s: State, t: State)
    requires Causality.Essence(s) == Causality.Essence(t)
    ensures SameRecord(s, t) && s.halt == t.halt
  {
  }

  predicate IsPrefix<T(==)>(front: seq<T>, whole: seq<T>) {
    |front| <= |whole| && whole[..|front|] == front
  }

  predicate JournalPrefix(front: Journal, whole: Journal) {
    && IsPrefix(front.history, whole.history)
    && IsPrefix(front.curve, whole.curve)
    && IsPrefix(front.intents, whole.intents)
    && IsPrefix(front.decisions, whole.decisions)
    && IsPrefix(front.fills, whole.fills)
    && IsPrefix(front.trades, whole.trades)
  }

  lemma PrefixTransitive(a: Journal, b: Journal, c: Journal)
    requires JournalPrefix(a, b) && JournalPrefix(b, c)
    ensures JournalPrefix(a, c)
  {
  }

  /** Only the order-side journals grow. */
  predicate OrdersGrow(front: Journal, whole: Journal) {
    JournalPrefix(front, whole) && whole.history == front.history && whole.curve == front.curve
  }

  lemma CheckHaltGrows(s: State, timestamp: int, equity: int)
    ensures OrdersGrow(s.journal, CheckHalt(s, timestamp, equity).journal)
  {
    hide HaltDecision;
  }

  lemma MarkGrows(s: State, timestamp: int, price: real)
    ensures OrdersGrow(s.journal, MarkAndCheck(s, timestamp, price).journal)
  {
    hide CheckHalt, EquityAt, OrdersGrow;
    var equity := EquityAt(s.book, price);
    CheckHaltGrows(s.(marks := s.marks.(peak := MaxInt(s.marks.peak, equity))), timestamp, equity);
  }

  lemma CommitFillGrows(s: State, intent: OrderIntent, e: Execution)
    ensures CommitFill(s, intent, e).Ok? ==> OrdersGrow(s.journal, CommitFill(s, intent, e).state.journal)
  {
    hide CheckHalt, BookAfter, MarketValue, FillOf, TradeOf;
    var after := BookAfter(s.book, e);
    var journal := s.journal.(
      fills := s.journal.fills + [FillOf(intent, e)],
      trades := s.journal.trades + [TradeOf(intent, e, s.book, after)]);
    var filled := Emit(s.(book := after, journal := journal), FillCreated, intent.executionTimestamp);
    assert OrdersGrow(s.journal, filled.journal);
    CheckHaltGrows(filled, intent.executionTimestamp, after.cash + MarketValue(after.quantity, e.reference));
    OrdersTransitive(s.journal, filled.journal, CheckHalt(filled, intent.executionTimestamp,
      after.cash + MarketValue(after.quantity, e.reference)).journal);
    hide OrdersGrow;
  }

  lemma OrdersTransitive(a: Journal, b: Journal, c: Journal)
    requires OrdersGrow(a, b) && OrdersGrow(b, c)
    ensures OrdersGrow(a, c)
  {
  }

  lemma SubmitGrows(s: State, bar: Bar, e: Execution, equity: int)
    requires s.pending.Some?
    ensures SubmitOrder(s, bar, e, equity).Ok? ==>
      OrdersGrow(s.journal, SubmitOrder(s, bar, e, equity).state.journal)
  {
    hide OrderDecision, OrderOf, SnapshotAt, IntentOf, CommitFill;
    var intent := IntentOf(s.pending.value, bar, e);
    var decision := OrderDecision(s.setup.policy, OrderOf(s, bar, intent.id, e), SnapshotAt(s, equity));
    var judged := Judged(s, bar, intent, decision);
    assert OrdersGrow(s.journal, judged.journal);
    hide Judged;
    CommitFillGrows(judged, intent, e);
    if CommitFill(judged, intent, e).Ok? {
      OrdersTransitive(s.journal, judged.journal, CommitFill(judged, intent, e).state.journal);
    }
    hide OrdersGrow;
  }

  lemma OpenPhaseGrows(s: State, bar: Bar, open: real)
    requires open > 0.0
    ensures OpenPhase(s, bar, open).Ok? ==> OrdersGrow(s.journal, OpenPhase(s, bar, open).state.journal)
  {
    var entered := EnterBar(s, bar);
    assert entered.journal == s.journal;
    MarkGrows(entered, bar.timestamp, open);
    hide MarkAndCheck, SubmitOrder, EnterBar, TargetDelta, ExecutionOf, EquityAt, OrdersGrow;
    var marked := MarkAndCheck(entered, bar.timestamp, open);
    if marked.pending.Some? && !marked.halt.active {
      MarkedEquityPositive(entered, bar.timestamp, open);
      Causality.BookUntouchedByMark(entered, bar.timestamp, open);
      var equity := EquityAt(marked.book, open);
      var delta := TargetDelta(marked, open, equity);
      if delta != 0 {
        var e := ExecutionOf(marked.setup.cfg, delta, open);
        SubmitGrows(marked, bar, e, equity);
        if SubmitOrder(marked, bar, e, equity).Ok? {
          OrdersTransitive(entered.journal, marked.journal, SubmitOrder(marked, bar, e, equity).state.journal);
        }
      }
    }
  }

  /** A point records the time and the close of its bar. */
  predicate PointFollows(p: EquityPoint, bar: Bar) { p.timestamp == bar.timestamp && p.close == bar.close }

  /** The close adds the bar to the history and one point to the curve. */
  lemma ClosePhaseGrows(world: World, s: State, bar: Bar)
    ensures ClosePhase(world, s, bar).Ok? ==>
      var after := ClosePhase(world, s, bar).state;
      && JournalPrefix(s.journal, after.journal)
      && after.journal.history == s.journal.history + [bar]
      && |after.journal.curve| == |s.journal.curve| + 1
      && PointFollows(after.journal.curve[|s.journal.curve|], bar)
      && after.journal.curve[|s.journal.curve|].halt == after.halt
  {
    MarkGrows(s, bar.timestamp, bar.close);
    hide MarkAndCheck, NextSignal;
  }

  lemma ProcessBarGrows(world: World, s: State, bar: Bar)
    ensures ProcessBar(world, s, bar).error == None ==>
      var after := ProcessBar(world, s, bar).state;
      && JournalPrefix(s.journal, after.journal)
      && after.journal.history == s.journal.history + [bar]
      && |after.journal.curve| == |s.journal.curve| + 1
      && PointFollows(after.journal.curve[|s.journal.curve|], bar)
      && after.journal.curve[|s.journal.curve|].halt == after.halt
  {
    var buffered := s.(buffer := Some([]));
    Causality.DeliveryOnlyWarns(world, s, bar);
    hide OpenPhase, ClosePhase, JournalPrefix, Causality.Essence, DeliverAll;
    if bar.open.Some? && bar.open.value > 0.0 {
      OpenPhaseGrows(buffered, bar, bar.open.value);
      var o := OpenPhase(buffered, bar, bar.open.value);
      if o.Ok? {
        ClosePhaseGrows(world, o.state, bar);
        var c := ClosePhase(world, o.state, bar);
        if c.Ok? && !s.failed && EventMatches(buffered, bar) {
          PrefixTransitive(s.journal, o.state.journal, c.state.journal);
          EssenceGivesRecord(ProcessBar(world, s, bar).state, c.state);
        }
      }
    }
  }

  lemma PrefixReflexive(j: Journal)
    ensures JournalPrefix(j, j)
  {
  }

  /** What a run has recorded after n bars is a prefix of what it records in the end. */
  lemma {:induction false} RunGrows(world: World, s: State, bars: seq<Bar>, n: nat)
    requires n <= |bars|
    ensures Run(world, s, bars).Ok? ==>
      && Run(world, s, bars[..n]).Ok?
      && JournalPrefix(Run(world, s, bars[..n]).state.journal, Run(world, s, bars).state.journal)
    decreases |bars| - n
  {
    if n == |bars| {
      assert bars[..n] == bars;
      if Run(world, s, bars).Ok? {
        PrefixReflexive(Run(world, s, bars).state.journal);
      }
    } else {
      hide Run, ProcessBar, JournalPrefix;
      RunGrows(world, s, bars, n + 1);
      Causality.RunOneMore(world, s, bars, n);
      if Run(world, s, bars).Ok? {
        var before := Run(world, s, bars[..n]).state;
        ProcessBarGrows(world, before, bars[n]);
        PrefixTransitive(before.journal, Run(world, s, bars[..n + 1]).state.journal,
                         Run(world, s, bars).state.journal);
      }
    }
  }

  // ---------- a run follows its bars ----------

  /** One point per bar, each at the time and close of its bar, for one symbol throughout. */
  ghost predicate Follows(s: State, bars: seq<Bar>) {
    && s.journal.history == bars
    && |s.journal.curve| == |bars|
    && (forall i | 0 <= i < |bars| :: PointFollows(s.journal.curve[i], bars[i]))
    && (forall i | 0 <= i < |bars| :: s.symbol == Some(bars[i].symbol))
  }

  lemma SymbolAfterFill(s: State, intent: OrderIntent, e: Execution)
    ensures CommitFill(s, intent, e).Ok? ==> CommitFill(s, intent, e).state.symbol == s.symbol
  {
    hide HaltDecision, BookAfter, FillOf, TradeOf, MarketValue;
  }

  lemma SymbolAfterOrder(s: State, bar: Bar, e: Execution, equity: int)
    requires s.pending.Some?
    ensures SubmitOrder(s, bar, e, equity).Ok? ==> SubmitOrder(s, bar, e, equity).state.symbol == s.symbol
  {
    hide OrderDecision, OrderOf, SnapshotAt, IntentOf, CommitFill;
    var intent := IntentOf(s.pending.value, bar, e);
    var decision := OrderDecision(s.setup.policy, OrderOf(s, bar, intent.id, e), SnapshotAt(s, equity));
    SymbolAfterFill(Judged(s, bar, intent, decision), intent, e);
  }

  lemma SymbolAfterOpen(s: State, bar: Bar, open: real)
    requires open > 0.0
    ensures OpenPhase(s, bar, open).Ok? ==> OpenPhase(s, bar, open).state.symbol == Some(bar.symbol)
  {
    var entered := EnterBar(s, bar);
    assert entered.symbol == Some(bar.symbol);
    hide MarkAndCheck, SubmitOrder, EnterBar, TargetDelta, ExecutionOf, EquityAt;
    Causality.BookUntouchedByMark(entered, bar.timestamp, open);
    var marked := MarkAndCheck(entered, bar.timestamp, open);
    if marked.pending.Some? && !marked.halt.active {
      MarkedEquityPositive(entered, bar.timestamp, open);
      var equity := EquityAt(marked.book, open);
      SymbolAfterOrder(marked, bar, ExecutionOf(marked.setup.cfg, TargetDelta(marked, open, equity), open), equity);
    }
  }

  lemma SymbolAfterClose(world: World, s: State, bar: Bar)
    ensures ClosePhase(world, s, bar).Ok? ==> ClosePhase(world, s, bar).state.symbol == s.symbol
  {
    hide HaltDecision, PointOf, NextSignal;
  }

  lemma SymbolAfterBar(world: World, s: State, bar: Bar)
    ensures var p := ProcessBar(world, s, bar);
      p.error == None ==>
        && p.state.symbol == Some(bar.symbol)
        && (s.symbol.Some? ==> s.symbol == Some(bar.symbol))
  {
    var buffered := s.(buffer := Some([]));
    Causality.DeliveryOnlyWarns(world, s, bar);
    hide OpenPhase, ClosePhase, DeliverAll;
    if bar.open.Some? && bar.open.value > 0.0 {
      SymbolAfterOpen(buffered, bar, bar.open.value);
      var o := OpenPhase(buffered, bar, bar.open.value);
      if o.Ok? {
        SymbolAfterClose(world, o.state, bar);
      }
    }
  }

  lemma InitialFollows(setup: Setup, warnings: seq<Warning>)
    ensures Follows(Initial(setup, warnings), [])
  {
  }

  /** A run that succeeds has followed its bars, one by one. */
  lemma {:induction false} RunFollowsBars(world: World, setup: Setup, warnings: seq<Warning>, bars: seq<Bar>)
    ensures var r := Run(world, Initial(setup, warnings), bars);
      r.Ok? ==> Follows(r.state, bars)
    decreases |bars|
  {
    var start := Initial(setup, warnings);
    if bars == [] {
      InitialFollows(setup, warnings);
    } else {
      hide ProcessBar, Initial, Follows;
      var front, bar := bars[..|bars| - 1], bars[|bars| - 1];
      assert front + [bar] == bars;
      RunFollowsBars(world, setup, warnings, front);
      if Run(world, start, front).Ok? {
        BarFollows(world, Run(world, start, front).state, front, bar);
      }
    }
  }

  lemma BarFollows(world: World, before: State, front: seq<Bar>, bar: Bar)
    requires Follows(before, front)
    ensures ProcessBar(world, before, bar).error == None ==>
      Follows(ProcessBar(world, before, bar).state, front + [bar])
  {
    hide ProcessBar, Follows, JournalPrefix, PointFollows;
    ProcessBarGrows(world, before, bar);
    SymbolAfterBar(world, before, bar);
    if ProcessBar(world, before, bar).error == None {
      OneMoreFollows(before, ProcessBar(world, before, bar).state, front, bar);
    }
  }

  lemma OneMoreFollows(before: State, after: State, front: seq<Bar>, bar: Bar)
    requires Follows(before, front)
    requires JournalPrefix(before.journal, after.journal)
    requires after.journal.history == before.journal.history + [bar]
    requires |after.journal.curve| == |before.journal.curve| + 1
    requires PointFollows(after.journal.curve[|before.journal.curve|], bar)
    requires after.symbol == Some(bar.symbol) && (before.symbol.Some? ==> before.symbol == Some(bar.symbol))
    ensures Follows(after, front + [bar])
  {
    var bars := front + [bar];
    forall i | 0 <= i < |bars|
      ensures PointFollows(after.journal.curve[i], bars[i]) && after.symbol == Some(bars[i].symbol)
    {
      if i < |front| {
        assert after.journal.curve[i] == before.journal.curve[i];
        assert before.symbol == Some(front[i].symbol);
      }
    }
  }
}

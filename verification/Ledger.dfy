/**
The ledger identity under rounding: equity is the initial cash plus realised and
unrealised profit minus fees, up to what rounding the trades and the closing mark
left over, which is at most half a quantum per purchase, one quantum per sale and
one quantum for the mark, and nothing where nothing had to be rounded.
*/
module Ledger {
  import opened Domain
  import opened Options
  import opened RiskPolicy
  import opened Rounding
  import opened EngineSpec
  import Causality
  import RunRecords
  import opened EngineInvariants

  function CountSide(fills: seq<Fill>, side: Side): nat {
    if fills == [] then 0
    else CountSide(fills[..|fills| - 1], side) + (if fills[|fills| - 1].side == side then 1 else 0)
  }

  /** The rounding a book may have accumulated: a half per purchase and one per sale. */
  function Allowance(fills: seq<Fill>): real {
    CountSide(fills, Buy) as real * 0.5 + CountSide(fills, Sell) as real
  }

  /** Cash plus position at cost, against what the ledger says it should be. */
  function BookDrift(book: Book, initialCash: int): real {
    book.cash as real + Times(book.quantity, book.averageCost)
      - (initialCash + book.realizedPnl - book.fees) as real
  }

  /** Equity at a recorded point, against initial cash, profits and fees. */
  function PointDrift(p: EquityPoint, initialCash: int): int {
    p.equity - (initialCash + p.realizedPnl + p.unrealizedPnl - p.cumulativeFees)
  }

  predicate Executed(book: Book, e: Execution) {
    && e.quantity > 0
    && e.notional == Times(e.quantity, e.price)
    && e.cashNotional == RoundHalfEven(e.notional)
    && book.quantity >= 0
    && (e.side == Sell ==> e.quantity <= book.quantity)
  }

  /** Averaging the cost spreads it without losing any of it. */
  lemma AverageCostIsExact(total: real, quantity: int)
    requires quantity > 0
    ensures Times(quantity, Ratio(total, quantity as real)) == total
  {
  }

  lemma TimesSplitsPrice(units: int, a: real, b: real)
    ensures Times(units, a - b) == Times(units, a) - Times(units, b)
  {
  }

  /** One fill moves the drift by at most a half (buying) or one (selling). */
  lemma FillDrift(book: Book, e: Execution, initialCash: int)
    requires Executed(book, e)
    ensures var moved := BookDrift(BookAfter(book, e), initialCash) - BookDrift(book, initialCash);
      Abs(moved) <= if e.side == Buy then 0.5 else 1.0
    ensures e.side == Buy ==>
      BookDrift(BookAfter(book, e), initialCash) - BookDrift(book, initialCash)
        == e.notional - e.cashNotional as real
    ensures e.side == Sell ==>
      BookDrift(BookAfter(book, e), initialCash) - BookDrift(book, initialCash)
        == (e.cashNotional as real - e.notional)
         + (Times(e.quantity, e.price - book.averageCost)
            - RoundHalfEven(Times(e.quantity, e.price - book.averageCost)) as real)
  {
    hide Product, RoundHalfEven, Ratio;
    var after := BookAfter(book, e);
    match e.side {
      case Buy =>
        AverageCostIsExact(Times(book.quantity, book.averageCost) + e.notional, after.quantity);
      case Sell =>
        TimesAdds(after.quantity, e.quantity, book.averageCost);
        TimesSplitsPrice(e.quantity, e.price, book.averageCost);
        TimesAdds(0, 0, after.averageCost);
        TimesAdds(0, 0, book.averageCost);
    }
  }

  // ---------- residues ----------

  /** What rounding an amount to a quantum adds to it. */
  function Excess(x: real): real { RoundHalfEven(x) as real - x }

  /** What rounding one trade leaves over; a sale also rounds the profit it realises. */
  function Residue(costBefore: real, t: Trade): real {
    var f := t.fill;
    var worth := Times(f.quantity, f.executionPrice);
    match f.side
    case Buy => -Excess(worth)
    case Sell => Excess(worth) - Excess(Times(f.quantity, f.executionPrice - costBefore))
  }

  function LastCost(trades: seq<Trade>): real {
    if trades == [] then 0.0 else trades[|trades| - 1].averageCostAfter
  }

  function Residues(trades: seq<Trade>): real {
    if trades == [] then 0.0
    else
      var before := trades[..|trades| - 1];
      Residues(before) + Residue(LastCost(before), trades[|trades| - 1])
  }

  /** What rounding a closing mark leaves over. */
  function MarkResidue(p: EquityPoint): real {
    Excess(Times(p.quantity, p.close)) - Excess(Times(p.quantity, p.close - p.averageCost))
  }

  /** How many trades had been made at a time. */
  function MadeBy(trades: seq<Trade>, time: int): (n: nat)
    ensures n <= |trades|
    ensures n > 0 ==> trades[n - 1].fill.timestamp <= time
    ensures forall i | n <= i < |trades| :: trades[i].fill.timestamp > time
  {
    if trades == [] || trades[|trades| - 1].fill.timestamp <= time then |trades|
    else MadeBy(trades[..|trades| - 1], time)
  }

  /** The trades made by the time a point was recorded, and its own mark, explain its drift. */
  predicate Explained(trades: seq<Trade>, p: EquityPoint, initialCash: int) {
    PointDrift(p, initialCash) as real == Residues(trades[..MadeBy(trades, p.timestamp)]) + MarkResidue(p)
  }

  lemma ExplainedByMore(trades: seq<Trade>, t: Trade, p: EquityPoint, initialCash: int)
    requires Explained(trades, p, initialCash) && p.timestamp < t.fill.timestamp
    ensures Explained(trades + [t], p, initialCash)
  {
    hide PointDrift, Residues, MarkResidue;
    var n := MadeBy(trades, p.timestamp);
    assert (trades + [t])[..|trades|] == trades;
    assert MadeBy(trades + [t], p.timestamp) == n;
    assert (trades + [t])[..n] == trades[..n];
  }

  // ---------- the invariant ----------

  predicate SameFills(trades: seq<Trade>, fills: seq<Fill>) {
    |trades| == |fills| && forall i | 0 <= i < |trades| :: trades[i].fill == fills[i]
  }

  /** Points recorded before a time, and trades made no later than it. */
  predicate Timely(journal: Journal, now: int) {
    && (forall i | 0 <= i < |journal.curve| :: journal.curve[i].timestamp < now)
    && (journal.trades != [] ==> journal.trades[|journal.trades| - 1].fill.timestamp <= now)
  }

  predicate Accounted(s: State) {
    var initialCash, trades := s.setup.cfg.initialCash, s.journal.trades;
    && BookDrift(s.book, initialCash) == Residues(trades)
    && s.book.averageCost == LastCost(trades)
    && SameFills(trades, s.journal.fills)
    && forall i | 0 <= i < |s.journal.curve| :: Explained(trades, s.journal.curve[i], initialCash)
  }

  /** Within a bar at a certain time. */
  predicate Balanced(s: State, now: int) { Accounted(s) && Timely(s.journal, now) }

  /** Between two bars: ready for any later one. */
  predicate Settled(s: State) {
    var history, trades := s.journal.history, s.journal.trades;
    && Accounted(s)
    && (if history == [] then s.journal.curve == [] && trades == []
        else Timely(s.journal, history[|history| - 1].timestamp + 1))
  }

  lemma BalancedByParts(s: State, t: State, now: int)
    requires t.book == s.book && t.setup == s.setup && t.journal.fills == s.journal.fills
    requires t.journal.trades == s.journal.trades && t.journal.curve == s.journal.curve
    ensures Balanced(t, now) == Balanced(s, now)
  {
    hide BookDrift, Residues, LastCost, SameFills, Explained;
  }

  lemma SettledByParts(s: State, t: State)
    requires t.book == s.book && t.setup == s.setup && t.journal == s.journal
    ensures Settled(t) == Settled(s)
  {
    hide BookDrift, Residues, LastCost, SameFills, Explained, Timely;
  }

  lemma CommitFillJournals(s: State, intent: OrderIntent, e: Execution)
    ensures CommitFill(s, intent, e).Ok? ==>
      var t := CommitFill(s, intent, e).state;
      && t.book == BookAfter(s.book, e) && t.setup == s.setup && t.journal.curve == s.journal.curve
      && t.journal.fills == s.journal.fills + [FillOf(intent, e)]
      && t.journal.trades == s.journal.trades + [TradeOf(intent, e, s.book, t.book)]
  {
    hide HaltDecision, BookAfter, MarketValue, TradeOf;
  }

  /** A fill moves the drift by exactly its trade's residue. */
  lemma FillResidue(book: Book, intent: OrderIntent, e: Execution, initialCash: int)
    requires Executed(book, e)
    ensures var after := BookAfter(book, e);
      BookDrift(after, initialCash) - BookDrift(book, initialCash)
      == Residue(book.averageCost, TradeOf(intent, e, book, after))
  {
    FillDrift(book, e, initialCash);
    hide BookDrift, BookAfter, Times, RoundHalfEven;
  }

  lemma ResiduesGrow(trades: seq<Trade>, t: Trade)
    ensures Residues(trades + [t]) == Residues(trades) + Residue(LastCost(trades), t)
    ensures LastCost(trades + [t]) == t.averageCostAfter
  {
    assert (trades + [t])[..|trades|] == trades;
  }

  lemma CommitFillBalanced(s: State, intent: OrderIntent, e: Execution)
    requires Balanced(s, intent.executionTimestamp) && Executed(s.book, e)
    ensures CommitFill(s, intent, e).Ok? ==> Balanced(CommitFill(s, intent, e).state, intent.executionTimestamp)
  {
    hide CommitFill, BookAfter, BookDrift, Executed, Explained, Residues, Residue, LastCost, PointDrift, MarkResidue;
    var initialCash := s.setup.cfg.initialCash;
    CommitFillJournals(s, intent, e);
    FillResidue(s.book, intent, e, initialCash);
    var trade := TradeOf(intent, e, s.book, BookAfter(s.book, e));
    ResiduesGrow(s.journal.trades, trade);
    forall i | 0 <= i < |s.journal.curve|
      ensures Explained(s.journal.trades + [trade], s.journal.curve[i], initialCash)
    {
      ExplainedByMore(s.journal.trades, trade, s.journal.curve[i], initialCash);
    }
  }

  /** A closing mark adds exactly its own residue. */
  lemma PointDrifts(s: State, bar: Bar, target: real)
    ensures var p := PointOf(s, bar, target);
      PointDrift(p, s.setup.cfg.initialCash) as real
      == BookDrift(s.book, s.setup.cfg.initialCash) + MarkResidue(p)
  {
    hide Product, RoundHalfEven, Ratio;
    TimesSplitsPrice(s.book.quantity, bar.close, s.book.averageCost);
  }

  /** The newest point is explained by all trades so far. */
  lemma PointExplained(s: State, bar: Bar, target: real)
    requires Balanced(s, bar.timestamp)
    ensures Explained(s.journal.trades, PointOf(s, bar, target), s.setup.cfg.initialCash)
  {
    PointDrifts(s, bar, target);
    var p := PointOf(s, bar, target);
    assert p.timestamp == bar.timestamp;
    hide PointOf, BookDrift, Residues, LastCost, SameFills, PointDrift, MarkResidue;
    assert MadeBy(s.journal.trades, p.timestamp) == |s.journal.trades|;
    assert s.journal.trades[..|s.journal.trades|] == s.journal.trades;
  }

  lemma SubmitOrderBalanced(s: State, bar: Bar, e: Execution, equity: int)
    requires s.pending.Some? && Balanced(s, bar.timestamp) && Executed(s.book, e)
    ensures SubmitOrder(s, bar, e, equity).Ok? ==> Balanced(SubmitOrder(s, bar, e, equity).state, bar.timestamp)
  {
    hide CommitFill, OrderDecision, OrderOf, SnapshotAt, Balanced, Executed, IntentOf;
    var intent := IntentOf(s.pending.value, bar, e);
    IntentIsForBar(s.pending.value, bar, e);
    var decision := OrderDecision(s.setup.policy, OrderOf(s, bar, intent.id, e), SnapshotAt(s, equity));
    var judged := Judged(s, bar, intent, decision);
    BalancedByParts(s, judged, bar.timestamp);
    CommitFillBalanced(judged, intent, e);
  }

  lemma IntentIsForBar(signal: Signal, bar: Bar, e: Execution)
    ensures IntentOf(signal, bar, e).executionTimestamp == bar.timestamp
  {
  }

  // ---------- one bar and whole runs ----------

  lemma ApplyPendingBalanced(s: State, bar: Bar, open: real, equity: int)
    requires s.pending.Some? && ValidSignal(s.pending.value) && open > 0.0
    requires equity > 0 && equity == EquityAt(s.book, open)
    requires Balanced(s, bar.timestamp) && SoundBook(s.book)
    ensures ApplyPending(s, bar, open, equity).Ok? ==>
      Balanced(ApplyPending(s, bar, open, equity).state, bar.timestamp)
  {
    TargetDeltaCovered(s, open);
    hide TargetDelta, SubmitOrder, Balanced, ExecutionOf, Executed, EquityAt;
    var delta := TargetDelta(s, open, equity);
    if delta != 0 {
      ExecutionIsExecuted(s.book, s.setup.cfg, delta, open);
      SubmitOrderBalanced(s, bar, ExecutionOf(s.setup.cfg, delta, open), equity);
    }
  }

  lemma OpenPhaseBalanced(s: State, bar: Bar, open: real)
    requires Balanced(s, bar.timestamp) && SoundBook(s.book) && open > 0.0
    requires s.pending.Some? ==> ValidSignal(s.pending.value)
    ensures OpenPhase(s, bar, open).Ok? ==> Balanced(OpenPhase(s, bar, open).state, bar.timestamp)
  {
    var entered := EnterBar(s, bar);
    Causality.BookUntouchedByMark(entered, bar.timestamp, open);
    hide MarkAndCheck, EnterBar, Balanced, EquityAt, ApplyPending;
    assert entered.book == s.book && entered.setup == s.setup && entered.journal == s.journal
      && entered.pending == s.pending by { EnterBarKeeps(s, bar); }
    var marked := MarkAndCheck(entered, bar.timestamp, open);
    BalancedByParts(s, marked, bar.timestamp);
    if marked.pending.Some? && !marked.halt.active {
      MarkedEquityPositive(entered, bar.timestamp, open);
      ApplyPendingBalanced(marked, bar, open, EquityAt(marked.book, open));
    }
  }

  lemma EnterBarKeeps(s: State, bar: Bar)
    ensures var e := EnterBar(s, bar);
      && e.book == s.book && e.setup == s.setup && e.journal == s.journal && e.pending == s.pending
  {
  }

  lemma ExecutionIsExecuted(book: Book, cfg: Config, delta: int, price: real)
    requires delta != 0 && book.quantity >= 0 && book.quantity + delta >= 0
    ensures Executed(book, ExecutionOf(cfg, delta, price))
  {
    hide Product, RoundHalfEven;
  }

  lemma MarkCloseKeepsBook(s: State, bar: Bar)
    ensures MarkClose(s, bar).book == s.book && MarkClose(s, bar).setup == s.setup
    ensures MarkClose(s, bar).journal.fills == s.journal.fills
    ensures MarkClose(s, bar).journal.trades == s.journal.trades
    ensures MarkClose(s, bar).journal.curve == s.journal.curve
  {
    hide MarkAndCheck;
    Causality.BookUntouchedByMark(s, bar.timestamp, bar.close);
  }

  lemma RecordCloseBalanced(s: State, bar: Bar, signal: Signal)
    requires Balanced(s, bar.timestamp)
    ensures Balanced(RecordClose(s, bar, signal), bar.timestamp + 1)
  {
    var signalled := Emit(s.(pending := Some(signal)), SignalGenerated, bar.timestamp);
    BalancedByParts(s, signalled, bar.timestamp);
    PointExplained(signalled, bar, signal.targetWeight);
    assert PointOf(signalled, bar, signal.targetWeight).timestamp == bar.timestamp;
    hide PointOf, BookDrift, Residues, LastCost, SameFills, Explained;
  }

  lemma ClosePhaseBalanced(world: World, s: State, bar: Bar)
    requires Balanced(s, bar.timestamp)
    ensures ClosePhase(world, s, bar).Ok? ==> Balanced(ClosePhase(world, s, bar).state, bar.timestamp + 1)
  {
    MarkCloseKeepsBook(s, bar);
    hide MarkClose, Balanced, RecordClose;
    var seen := MarkClose(s, bar);
    BalancedByParts(s, seen, bar.timestamp);
    match NextSignal(world, seen, bar) {
      case None =>
      case Some(signal) => RecordCloseBalanced(seen, bar, signal);
    }
  }

  lemma SettledIsReady(s: State, bar: Bar)
    requires Settled(s) && EventMatches(s, bar)
    ensures Balanced(s, bar.timestamp)
  {
    hide Accounted;
  }

  lemma BalancedIsSettled(s: State, bar: Bar)
    requires Balanced(s, bar.timestamp + 1)
    requires s.journal.history != [] && s.journal.history[|s.journal.history| - 1] == bar
    ensures Settled(s)
  {
    hide Accounted, Timely;
  }

  lemma ProcessBarBalanced(world: World, s: State, bar: Bar)
    requires Sound(s) && Settled(s)
    ensures var p := ProcessBar(world, s, bar);
      p.error == None ==> Settled(p.state)
  {
    var buffered := s.(buffer := Some([]));
    SettledByParts(s, buffered);
    hide OpenPhase, ClosePhase, Balanced, Settled, Sound, DeliverAll, SoundBook, EventMatches, RunRecords.JournalPrefix,
      RunRecords.PointFollows;
    Causality.DeliveryOnlyWarns(world, s, bar);
    RunRecords.ProcessBarGrows(world, s, bar);
    if bar.open.Some? && bar.open.value > 0.0 && EventMatches(buffered, bar) {
      assert SoundBook(buffered.book) && (buffered.pending.Some? ==> ValidSignal(buffered.pending.value)) by {
        SoundParts(s);
      }
      SettledIsReady(buffered, bar);
      OpenPhaseBalanced(buffered, bar, bar.open.value);
      var o := OpenPhase(buffered, bar, bar.open.value);
      if o.Ok? {
        ClosePhaseBalanced(world, o.state, bar);
        var c := ClosePhase(world, o.state, bar);
        if c.Ok? {
          Causality.ClosePhaseSetup(world, o.state, bar);
          var p := ProcessBar(world, s, bar);
          if p.error == None {
            Causality.ProcessBarSetup(world, s, bar);
            Causality.OpenPhaseSetup(buffered, bar, bar.open.value);
            BalancedByParts(c.state, p.state, bar.timestamp + 1);
            BalancedIsSettled(p.state, bar);
          }
        }
      }
    }
  }

  lemma SoundParts(s: State)
    requires Sound(s)
    ensures SoundBook(s.book) && (s.pending.Some? ==> ValidSignal(s.pending.value))
  {
  }

  /**
  After any number of bars the book is explained by the residues of all trades, and every
  recorded point by those of the trades made by its time and by its own mark.
  */
  lemma {:induction false} RunBalanced(world: World, setup: Setup, warnings: seq<Warning>, bars: seq<Bar>)
    requires ValidConfig(setup.cfg)
    ensures var r := Run(world, Initial(setup, warnings), bars);
      r.Ok? ==> Settled(r.state) && r.state.setup.cfg == setup.cfg
    decreases |bars|
  {
    var start := Initial(setup, warnings);
    if bars == [] {
      TimesAdds(0, 0, 0.0);
      assert Settled(start);
    } else {
      hide Settled, Sound, ProcessBar, Initial;
      var front := bars[..|bars| - 1];
      RunBalanced(world, setup, warnings, front);
      InitialSound(setup, warnings);
      RunSound(world, start, front);
      var r := Run(world, start, front);
      if r.Ok? {
        ProcessBarBalanced(world, r.state, bars[|bars| - 1]);
        Causality.ProcessBarSetup(world, r.state, bars[|bars| - 1]);
      }
    }
  }

  // ---------- the ledger identity ----------

  lemma {:induction false} ResiduesBounded(trades: seq<Trade>, fills: seq<Fill>)
    requires SameFills(trades, fills)
    ensures Abs(Residues(trades)) <= Allowance(fills)
  {
    if trades != [] {
      hide RoundHalfEven, Times;
      var n := |trades| - 1;
      ResiduesBounded(trades[..n], fills[..n]);
      ResidueBounded(LastCost(trades[..n]), trades[n]);
    }
  }

  lemma ResidueBounded(costBefore: real, t: Trade)
    ensures Abs(Residue(costBefore, t)) <= if t.fill.side == Buy then 0.5 else 1.0
  {
    hide Times;
  }

  lemma {:induction false} AllowanceOfPrefix(fills: seq<Fill>, n: nat)
    requires n <= |fills|
    ensures Allowance(fills[..n]) <= Allowance(fills)
    decreases |fills|
  {
    if n == |fills| {
      assert fills[..n] == fills;
    } else {
      AllowanceOfPrefix(fills[..|fills| - 1], n);
      assert fills[..|fills| - 1][..n] == fills[..n];
    }
  }

  lemma ExplainedBounded(trades: seq<Trade>, fills: seq<Fill>, p: EquityPoint, initialCash: int)
    requires Explained(trades, p, initialCash) && SameFills(trades, fills)
    ensures Abs(PointDrift(p, initialCash) as real) <= Allowance(fills) + 1.0
  {
    var n := MadeBy(trades, p.timestamp);
    ResiduesBounded(trades[..n], fills[..n]);
    AllowanceOfPrefix(fills, n);
    hide Residues, Allowance, PointDrift, Times;
  }

  /**
  At every point recorded by any run the ledger identity holds up to half a quantum per
  purchase, one quantum per sale and one quantum for the mark.
  */
  lemma LedgerIdentity(world: World, setup: Setup, warnings: seq<Warning>, bars: seq<Bar>)
    requires ValidConfig(setup.cfg)
    ensures var r := Run(world, Initial(setup, warnings), bars);
      r.Ok? ==>
        forall i | 0 <= i < |r.state.journal.curve| ::
          Abs(PointDrift(r.state.journal.curve[i], setup.cfg.initialCash) as real)
          <= CountSide(r.state.journal.fills, Buy) as real * 0.5 + CountSide(r.state.journal.fills, Sell) as real + 1.0
  {
    RunBalanced(world, setup, warnings, bars);
    hide Run, Initial, BookDrift, Residues, LastCost, SameFills, Explained, CountSide, PointDrift;
    var r := Run(world, Initial(setup, warnings), bars);
    if r.Ok? {
      var journal := r.state.journal;
      forall i | 0 <= i < |journal.curve|
        ensures Abs(PointDrift(journal.curve[i], setup.cfg.initialCash) as real) <= Allowance(journal.fills) + 1.0
      {
        ExplainedBounded(journal.trades, journal.fills, journal.curve[i], setup.cfg.initialCash);
      }
    }
  }

  /** No trade so far had to be rounded. */
  ghost predicate TradesExact(trades: seq<Trade>) {
    forall i | 0 <= i < |trades| :: Residue(LastCost(trades[..i]), trades[i]) == 0.0
  }

  lemma {:induction false} ExactResidues(trades: seq<Trade>, n: nat)
    requires TradesExact(trades) && n <= |trades|
    ensures Residues(trades[..n]) == 0.0
  {
    hide Residue, LastCost;
    if n > 0 {
      ExactResidues(trades, n - 1);
      assert trades[..n][..n - 1] == trades[..n - 1];
      assert Residue(LastCost(trades[..n - 1]), trades[n - 1]) == 0.0;
    }
  }

  /** Where no trade was rounded, a point whose mark needs no rounding meets the identity exactly. */
  lemma LedgerExactWithoutRounding(world: World, setup: Setup, warnings: seq<Warning>, bars: seq<Bar>)
    requires ValidConfig(setup.cfg)
    ensures var r := Run(world, Initial(setup, warnings), bars);
      r.Ok? && TradesExact(r.state.journal.trades) ==>
        forall i | 0 <= i < |r.state.journal.curve| && MarkResidue(r.state.journal.curve[i]) == 0.0 ::
          PointDrift(r.state.journal.curve[i], setup.cfg.initialCash) == 0
  {
    RunBalanced(world, setup, warnings, bars);
    hide Run, Initial, BookDrift, Residues, LastCost, SameFills, Residue, PointDrift, MarkResidue, TradesExact;
    var r := Run(world, Initial(setup, warnings), bars);
    if r.Ok? && TradesExact(r.state.journal.trades) {
      var curve, trades := r.state.journal.curve, r.state.journal.trades;
      forall i | 0 <= i < |curve| && MarkResidue(curve[i]) == 0.0
        ensures PointDrift(curve[i], setup.cfg.initialCash) == 0
      {
        assert Explained(trades, curve[i], setup.cfg.initialCash);
        ExactResidues(trades, MadeBy(trades, curve[i].timestamp));
      }
    }
  }
}

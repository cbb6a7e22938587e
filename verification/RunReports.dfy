/**
What a reader of a result may rely on, each in the result's own terms: what a day starts
with, which bars a target was chosen from, what was traded towards it, when and why trading
stopped, and how the fills make up the portfolio.
*/
module RunReports {
  import opened Audit
  import opened AuditTheorems
  import opened Bisection
  import opened Domain
  import opened EngineSpec
  import opened Options
  import opened Rounding
  import opened RunRecords
  import Causality
  import Sizing
  import SizingExactness
  import SizingTheorems

  /** The journals of a run, as far as bar i. */
  function JournalAt(world: World, setup: Setup, warnings: seq<Warning>, bars: seq<Bar>, i: nat): Journal
    requires i <= |bars| && Run(world, Initial(setup, warnings), bars[..i]).Ok?
  {
    Run(world, Initial(setup, warnings), bars[..i]).state.journal
  }

  ghost predicate Succeeds(world: World, setup: Setup, warnings: seq<Warning>, bars: seq<Bar>) {
    ValidConfig(setup.cfg) && Run(world, Initial(setup, warnings), bars).Ok?
  }

  function JournalOf(world: World, setup: Setup, warnings: seq<Warning>, bars: seq<Bar>): Journal
    requires Run(world, Initial(setup, warnings), bars).Ok?
  {
    Run(world, Initial(setup, warnings), bars).state.journal
  }

  /** The audit of bar i, on the run's own curve. */
  lemma AuditAt(world: World, setup: Setup, warnings: seq<Warning>, bars: seq<Bar>, i: nat)
    returns (before: Journal, after: Journal)
    requires Succeeds(world, setup, warnings, bars) && i < |bars|
    ensures var whole := JournalOf(world, setup, warnings, bars);
      && Run(world, Initial(setup, warnings), bars[..i]).Ok? && before == JournalAt(world, setup, warnings, bars, i)
      && Run(world, Initial(setup, warnings), bars[..i + 1]).Ok?
      && after == JournalAt(world, setup, warnings, bars, i + 1)
      && |whole.curve| == |bars|
      && before.curve == whole.curve[..i] && after.curve == whole.curve[..i + 1]
      && after.history == bars[..i + 1]
      && JournalPrefix(after, whole)
      && bars[i].open.Some? && bars[i].open.value > 0.0
      && Between(setup.cfg, before.curve).peak > 0
      && BarAudited(StrategyOf(world, setup), setup.strategyName, setup.cfg, setup.policy,
                    before, after, bars[i], bars[i].open.value)
  {
    hide Run, Initial, BarAudited, PointFollows;
    RunIsAudited(world, setup, warnings, bars, i);
    RunFollowsBars(world, setup, warnings, bars);
    RunFollowsBars(world, setup, warnings, bars[..i]);
    RunFollowsBars(world, setup, warnings, bars[..i + 1]);
    RunGrows(world, Initial(setup, warnings), bars, i);
    before, after := JournalAt(world, setup, warnings, bars, i), JournalAt(world, setup, warnings, bars, i + 1);
  }

  // ---------- the start of a day ----------

  /** A point takes over the day's start of the point before it, or on a new day that point's equity. */
  predicate TakesOverDay(cfg: Config, curve: seq<EquityPoint>, i: nat)
    requires i < |curve|
  {
    curve[i].startOfDayEquity
    == if i == 0 then cfg.initialCash
       else if DayOf(curve[i - 1].timestamp) == DayOf(curve[i].timestamp) then curve[i - 1].startOfDayEquity
       else curve[i - 1].equity
  }

  predicate DaysTakenOver(cfg: Config, curve: seq<EquityPoint>) {
    forall i :: 0 <= i < |curve| ==> TakesOverDay(cfg, curve, i)
  }

  lemma RunTakesOverDays(world: World, setup: Setup, warnings: seq<Warning>, bars: seq<Bar>)
    requires Succeeds(world, setup, warnings, bars)
    ensures DaysTakenOver(setup.cfg, JournalOf(world, setup, warnings, bars).curve)
  {
    hide Run, Initial, BarAudited, JournalPrefix;
    var curve := JournalOf(world, setup, warnings, bars).curve;
    RunFollowsBars(world, setup, warnings, bars);
    forall i | 0 <= i < |curve|
      ensures TakesOverDay(setup.cfg, curve, i)
    {
      var before, after := AuditAt(world, setup, warnings, bars, i);
      DayOfBar(StrategyOf(world, setup), setup.strategyName, setup.cfg, setup.policy, before, after, bars[i],
               bars[i].open.value);
    }
  }

  lemma DayOfBar(
    strategy: seq<Bar> -> Option<Signal>, name: string, cfg: Config, policy: Policy,
    before: Journal, after: Journal, bar: Bar, open: real)
    requires open > 0.0 && Between(cfg, before.curve).peak > 0
    requires BarAudited(strategy, name, cfg, policy, before, after, bar, open)
    ensures after.curve != []
    ensures var p := after.curve[|after.curve| - 1];
      && p.timestamp == bar.timestamp
      && p.startOfDayEquity == DayStart(Between(cfg, before.curve), before.curve, bar)
      && p.dailyPnl == p.equity - p.startOfDayEquity
  {
    hide Breaches, OpenAudited, TargetChosen, Extends, Worth, RoundHalfEven, Ratio;
  }

  /** The last point that lies on another day than point i. */
  predicate LastOfEarlierDay(curve: seq<EquityPoint>, j: nat, i: nat)
    requires j < i < |curve|
  {
    && DayOf(curve[j].timestamp) != DayOf(curve[i].timestamp)
    && forall k :: j < k < i ==> DayOf(curve[k].timestamp) == DayOf(curve[i].timestamp)
  }

  /**
  A day starts with the initial cash if the run has not seen an earlier day, and else with the
  equity of the last point of the day before it in the run; the day's profit is measured from there.
  */
  lemma DaysStartWithLastEquity(world: World, setup: Setup, warnings: seq<Warning>, bars: seq<Bar>, i: nat)
    requires Succeeds(world, setup, warnings, bars) && i < |bars|
    ensures var curve := JournalOf(world, setup, warnings, bars).curve;
      && |curve| == |bars|
      && ((forall j :: 0 <= j < i ==> DayOf(curve[j].timestamp) == DayOf(curve[i].timestamp)) ==>
            curve[i].startOfDayEquity == setup.cfg.initialCash)
      && (forall j :: 0 <= j < i && LastOfEarlierDay(curve, j, i) ==>
            curve[i].startOfDayEquity == curve[j].equity)
      && curve[i].dailyPnl == curve[i].equity - curve[i].startOfDayEquity
  {
    hide Run, Initial, BarAudited, JournalPrefix, PointFollows;
    var curve := JournalOf(world, setup, warnings, bars).curve;
    RunTakesOverDays(world, setup, warnings, bars);
    var before, after := AuditAt(world, setup, warnings, bars, i);
    DayOfBar(StrategyOf(world, setup), setup.strategyName, setup.cfg, setup.policy, before, after, bars[i],
             bars[i].open.value);
    if forall j :: 0 <= j < i ==> DayOf(curve[j].timestamp) == DayOf(curve[i].timestamp) {
      SameDaySince(setup.cfg, curve, 0, i);
      assert TakesOverDay(setup.cfg, curve, 0);
    }
    forall j | 0 <= j < i && LastOfEarlierDay(curve, j, i)
      ensures curve[i].startOfDayEquity == curve[j].equity
    {
      SameDaySince(setup.cfg, curve, j + 1, i);
      assert TakesOverDay(setup.cfg, curve, j + 1);
    }
  }

  lemma {:induction false} SameDaySince(cfg: Config, curve: seq<EquityPoint>, from: nat, i: nat)
    requires from <= i < |curve| && DaysTakenOver(cfg, curve)
    requires forall k :: from <= k < i ==> DayOf(curve[k].timestamp) == DayOf(curve[i].timestamp)
    ensures curve[i].startOfDayEquity == curve[from].startOfDayEquity
    decreases i
  {
    if from < i {
      assert TakesOverDay(cfg, curve, i);
      SameDaySince(cfg, curve, from, i - 1);
    }
  }

  // ---------- what a target was chosen from ----------

  /**
  While warming up or halted a point asks for nothing; any other point's target is what the
  strategy makes of the latest bars up to that point, at most as many as the history limit.
  */
  lemma TargetsFromLatestBars(world: World, setup: Setup, warnings: seq<Warning>, bars: seq<Bar>, i: nat)
    requires Succeeds(world, setup, warnings, bars) && i < |bars|
    ensures var curve := JournalOf(world, setup, warnings, bars).curve;
      && |curve| == |bars|
      && var seen, limit := i + 1, setup.cfg.historyLimit;
         if seen <= setup.cfg.warmupBars || curve[i].halt.active then curve[i].targetWeightForNextBar == 0.0
         else
           world.signal(setup.strategy, bars[(if seen <= limit then 0 else seen - limit)..seen])
           == Some(Signal(bars[i].timestamp, bars[i].symbol, curve[i].targetWeightForNextBar, setup.strategyName))
  {
    hide Run, Initial, JournalPrefix, OpenAudited, CloseAudited;
    var before, after := AuditAt(world, setup, warnings, bars, i);
    var limit := setup.cfg.historyLimit;
    var first := if i + 1 <= limit then 0 else i + 1 - limit;
    assert bars[..i + 1][first..] == bars[first..i + 1];
  }

  // ---------- what was traded towards it ----------

  /** The portfolio before bar i. */
  function Held(cfg: Config, curve: seq<EquityPoint>, i: nat): Standing
    requires i <= |curve|
  {
    Between(cfg, curve[..i])
  }

  function EquityAtOpen(cfg: Config, curve: seq<EquityPoint>, bars: seq<Bar>, i: nat): int
    requires i <= |curve| && i < |bars| && bars[i].open.Some?
  {
    Held(cfg, curve, i).cash + Worth(Held(cfg, curve, i).quantity, bars[i].open.value)
  }

  /** What is wrong with the portfolio at the open of bar i. */
  function BreachesAtOpen(setup: Setup, curve: seq<EquityPoint>, bars: seq<Bar>, i: nat): seq<Reason>
    requires i < |curve| && i < |bars| && bars[i].open.Some? && Held(setup.cfg, curve, i).peak > 0
  {
    var equity := EquityAtOpen(setup.cfg, curve, bars, i);
    Breaches(setup.cfg, setup.policy, curve[i].startOfDayEquity, MaxOf(Held(setup.cfg, curve, i).peak, equity), equity)
  }

  /** The quantity the sizing search finds for the target of the point before. */
  function Sought(cfg: Config, curve: seq<EquityPoint>, bars: seq<Bar>, i: nat): int
    requires 0 < i <= |curve| && i < |bars| && bars[i].open.Some? && bars[i].open.value > 0.0
    requires EquityAtOpen(cfg, curve, bars, i) > 0
  {
    var k := Held(cfg, curve, i);
    Sizing.TargetQuantity(cfg, Sizing.Request(
      curve[i - 1].targetWeightForNextBar, bars[i].open.value, EquityAtOpen(cfg, curve, bars, i), k.cash, k.quantity))
  }

  /** Bar i has a target to trade towards, trading goes on, and what is sought is not held already. */
  predicate Trades(setup: Setup, curve: seq<EquityPoint>, bars: seq<Bar>, i: nat)
    requires i < |curve| && i < |bars| && bars[i].open.Some? && bars[i].open.value > 0.0
    requires Held(setup.cfg, curve, i).peak > 0
  {
    && i > 0 && !Held(setup.cfg, curve, i).halt.active && BreachesAtOpen(setup, curve, bars, i) == []
    && EquityAtOpen(setup.cfg, curve, bars, i) > 0
    && Sought(setup.cfg, curve, bars, i) != Held(setup.cfg, curve, i).quantity
  }

  /** The usable facts about bar i. */
  ghost predicate BarReported(setup: Setup, curve: seq<EquityPoint>, bars: seq<Bar>, i: nat) {
    && i < |curve| == |bars|
    && bars[i].open.Some? && bars[i].open.value > 0.0
    && Held(setup.cfg, curve, i).peak > 0
  }

  /** The order a bar makes, if it makes one. */
  predicate OrderFollows(
    setup: Setup, curve: seq<EquityPoint>, bars: seq<Bar>, i: nat, intents: seq<OrderIntent>, fills: seq<Fill>)
    requires i < |curve| && i < |bars| && bars[i].open.Some? && bars[i].open.value > 0.0
    requires Held(setup.cfg, curve, i).peak > 0
  {
    var held, p := Held(setup.cfg, curve, i), curve[i];
    if Trades(setup, curve, bars, i) then
      var sought := Sought(setup.cfg, curve, bars, i);
      && |intents| == 1 && |fills| <= 1
      && intents[0].side == (if sought > held.quantity then Buy else Sell)
      && intents[0].quantity == (if sought > held.quantity then sought - held.quantity else held.quantity - sought)
      && intents[0].referencePrice == bars[i].open.value && intents[0].executionTimestamp == bars[i].timestamp
      && (if fills == [] then p.quantity == held.quantity && p.cash == held.cash
          else p.quantity == sought && fills[0].side == intents[0].side && fills[0].quantity == intents[0].quantity)
    else intents == [] && fills == [] && p.quantity == held.quantity && p.cash == held.cash
  }

  /**
  A bar intends an order exactly if there is a target from the bar before, no halt, and the
  sizing search finds another quantity than is held: for exactly the difference. A fill leaves
  exactly the quantity found; without one the portfolio stays as it was.
  */
  lemma TargetsAreTraded(world: World, setup: Setup, warnings: seq<Warning>, bars: seq<Bar>, i: nat)
    returns (before: Journal, after: Journal, intents: seq<OrderIntent>, fills: seq<Fill>)
    requires Succeeds(world, setup, warnings, bars) && i < |bars|
    ensures var whole := JournalOf(world, setup, warnings, bars);
      && Run(world, Initial(setup, warnings), bars[..i]).Ok? && before == JournalAt(world, setup, warnings, bars, i)
      && Run(world, Initial(setup, warnings), bars[..i + 1]).Ok?
      && after == JournalAt(world, setup, warnings, bars, i + 1)
      && JournalPrefix(after, whole)
      && after.intents == before.intents + intents && after.fills == before.fills + fills
      && BarReported(setup, whole.curve, bars, i)
      && OrderFollows(setup, whole.curve, bars, i, intents, fills)
  {
    hide Run, Initial, JournalPrefix, BarAudited, OpenAudited, CloseAudited, BarReported, OrderFollows, JournalOf;
    var whole := JournalOf(world, setup, warnings, bars);
    before, after := AuditAt(world, setup, warnings, bars, i);
    var traded, verdict, added, decisions := AuditedBar(
      StrategyOf(world, setup), setup.strategyName, setup.cfg, setup.policy, before, after, bars[i],
      bars[i].open.value);
    intents, fills := added.intents, added.fills;
    assert after.curve[|after.curve| - 1] == whole.curve[i];
    CloseFacts(setup.cfg, setup.policy, before, after, bars[i], bars[i].open.value, traded, added, decisions,
               whole.curve[i]);
    OpeningReported(setup, whole.curve, before.curve, bars, i, traded);
    OrderReported(setup, whole.curve, before.curve, bars, i, traded, verdict, added, decisions);
  }

  /** What an audited bar was made of. */
  lemma AuditedBar(
    strategy: seq<Bar> -> Option<Signal>, name: string, cfg: Config, policy: Policy,
    before: Journal, after: Journal, bar: Bar, open: real)
    returns (traded: Standing, verdict: RiskDecision, added: Entries, decisions: seq<DecisionRecord>)
    requires open > 0.0 && Between(cfg, before.curve).peak > 0
    requires BarAudited(strategy, name, cfg, policy, before, after, bar, open)
    ensures after.curve != []
    ensures OpenAudited(cfg, policy, before.curve, bar, open, traded, verdict, added, decisions)
    ensures CloseAudited(cfg, policy, before, after, bar, open, traded, added, decisions,
                         after.curve[|after.curve| - 1])
  {
    hide TargetChosen, OpenAudited, CloseAudited, Between;
    traded, verdict, added, decisions :|
      && OpenAudited(cfg, policy, before.curve, bar, open, traded, verdict, added, decisions)
      && CloseAudited(cfg, policy, before, after, bar, open, traded, added, decisions, after.curve[|after.curve| - 1]);
  }

  lemma CloseFacts(
    cfg: Config, policy: Policy, before: Journal, after: Journal, bar: Bar, open: real, traded: Standing,
    added: Entries, decisions: seq<DecisionRecord>, p: EquityPoint)
    requires open > 0.0 && Between(cfg, before.curve).peak > 0
    requires CloseAudited(cfg, policy, before, after, bar, open, traded, added, decisions, p)
    ensures PointOfBar(bar, OpeningOf(cfg, policy, before.curve, bar, open), traded, p)
    ensures after.intents == before.intents + added.intents && after.fills == before.fills + added.fills
  {
    hide PointOfBar, OpeningOf, Between, OpenHalt, Breaches, HaltAfter, HaltRecord;
  }

  lemma OpeningReported(
    setup: Setup, curve: seq<EquityPoint>, front: seq<EquityPoint>, bars: seq<Bar>, i: nat, traded: Standing)
    requires i < |curve| == |bars| && front == curve[..i] && bars[i].open.Some? && bars[i].open.value > 0.0
    requires Between(setup.cfg, front).peak > 0
    requires PointOfBar(bars[i], OpeningOf(setup.cfg, setup.policy, front, bars[i], bars[i].open.value), traded,
                        curve[i])
    ensures BarReported(setup, curve, bars, i)
    ensures var o := OpeningOf(setup.cfg, setup.policy, front, bars[i], bars[i].open.value);
      && o.breaches == BreachesAtOpen(setup, curve, bars, i)
      && o.equity == EquityAtOpen(setup.cfg, curve, bars, i)
      && (o.halt.active <==> Held(setup.cfg, curve, i).halt.active || o.breaches != [])
      && curve[i].cash == traded.cash && curve[i].quantity == traded.quantity
      && (OrderDue(setup.cfg, front, o, bars[i].open.value) <==> Trades(setup, curve, bars, i))
      && (Trades(setup, curve, bars, i) ==>
            DueTicket(setup.cfg, front, o, bars[i].open.value)
            == TicketFor(setup.cfg, Held(setup.cfg, curve, i).quantity, Sought(setup.cfg, curve, bars, i),
                         bars[i].open.value))
  {
    hide Breaches, Worth, RoundHalfEven, Ratio, Sizing.TargetQuantity, TicketFor;
    assert front != [] ==> front[|front| - 1] == curve[i - 1];
  }

  lemma OrderReported(
    setup: Setup, curve: seq<EquityPoint>, front: seq<EquityPoint>, bars: seq<Bar>, i: nat, traded: Standing,
    verdict: RiskDecision, added: Entries, decisions: seq<DecisionRecord>)
    requires i < |curve| == |bars| && front == curve[..i] && bars[i].open.Some? && bars[i].open.value > 0.0
    requires Between(setup.cfg, front).peak > 0
    requires PointOfBar(bars[i], OpeningOf(setup.cfg, setup.policy, front, bars[i], bars[i].open.value), traded,
                        curve[i])
    requires OpenAudited(setup.cfg, setup.policy, front, bars[i], bars[i].open.value, traded, verdict, added, decisions)
    ensures OrderFollows(setup, curve, bars, i, added.intents, added.fills)
  {
    OpeningReported(setup, curve, front, bars, i, traded);
    hide OpeningOf, OrderDue, DueTicket, Trades, Sought, PointOfBar, Worth, RoundHalfEven, Passes, OpenDecisions,
      Between, EquityAtOpen, BreachesAtOpen;
  }

  /** So where the search is exact, a filled order leaves the greatest safe quantity. */
  lemma FilledToTheGreatestSafe(setup: Setup, curve: seq<EquityPoint>, bars: seq<Bar>, i: nat,
    intents: seq<OrderIntent>, fills: seq<Fill>, r: Sizing.Request, greatest: int)
    requires BarReported(setup, curve, bars, i) && OrderFollows(setup, curve, bars, i, intents, fills)
    requires Trades(setup, curve, bars, i) && fills != []
    requires var k := Held(setup.cfg, curve, i);
      r == Sizing.Request(curve[i - 1].targetWeightForNextBar, bars[i].open.value,
                          EquityAtOpen(setup.cfg, curve, bars, i), k.cash, k.quantity)
    requires Sizing.ValidRequest(r) && r.target > 0.0
    requires SizingTheorems.IsGreatestSafe(setup.cfg, r, greatest)
    ensures curve[i].quantity == greatest
       <==> WayIsAccepted(Sizing.Acceptance(setup.cfg, r), Sizing.SearchLow(r), Sizing.SearchHigh(r), greatest)
  {
    hide Sizing.TargetQuantity, Sizing.Acceptance, Sizing.ValidRequest, SizingTheorems.IsGreatestSafe, BreachesAtOpen;
    SizingExactness.SearchExactIff(setup.cfg, r, greatest);
  }

  // ---------- when and why trading stopped ----------

  /** What is wrong after a fill at the open of bar i, if there was one. */
  function BreachesAfterFill(setup: Setup, curve: seq<EquityPoint>, bars: seq<Bar>, i: nat, filled: bool): seq<Reason>
    requires BarReported(setup, curve, bars, i)
  {
    if !filled then []
    else
      var p, open := curve[i], bars[i].open.value;
      var equity := p.cash + Worth(p.quantity, open);
      var peak := MaxOf(Held(setup.cfg, curve, i).peak, EquityAtOpen(setup.cfg, curve, bars, i));
      Breaches(setup.cfg, setup.policy, p.startOfDayEquity, MaxOf(peak, equity), equity)
  }

  /** What is wrong at the close of bar i. */
  function BreachesAtClose(setup: Setup, curve: seq<EquityPoint>, i: nat): seq<Reason>
    requires i < |curve| && curve[i].peakEquity > 0
  {
    Breaches(setup.cfg, setup.policy, curve[i].startOfDayEquity, curve[i].peakEquity, curve[i].equity)
  }

  function FirstBreach(open: seq<Reason>, filled: seq<Reason>, close: seq<Reason>): seq<Reason> {
    if open != [] then open else if filled != [] then filled else close
  }

  predicate HaltFollows(setup: Setup, curve: seq<EquityPoint>, bars: seq<Bar>, i: nat, filled: bool)
    requires BarReported(setup, curve, bars, i)
  {
    && curve[i].peakEquity > 0
    && curve[i].peakEquity
       == MaxOf(MaxOf(Held(setup.cfg, curve, i).peak, EquityAtOpen(setup.cfg, curve, bars, i)), curve[i].equity)
    && curve[i].drawdown == Ratio((curve[i].peakEquity - curve[i].equity) as real, curve[i].peakEquity as real)
    && var breach := FirstBreach(BreachesAtOpen(setup, curve, bars, i),
                                 BreachesAfterFill(setup, curve, bars, i, filled), BreachesAtClose(setup, curve, i));
       curve[i].halt
       == if Held(setup.cfg, curve, i).halt.active then Held(setup.cfg, curve, i).halt
          else if breach == [] then Held(setup.cfg, curve, i).halt
          else HaltState(true, Some(bars[i].timestamp), breach)
  }

  /**
  Trading stops with the first breach that the open, the portfolio after a fill, or the close
  shows, for exactly its reasons, and never for anything else; the peak is the highest equity
  of any open or close so far.
  */
  lemma HaltsWithTheFirstBreach(world: World, setup: Setup, warnings: seq<Warning>, bars: seq<Bar>, i: nat)
    returns (before: Journal, after: Journal)
    requires Succeeds(world, setup, warnings, bars) && i < |bars|
    ensures var whole := JournalOf(world, setup, warnings, bars);
      && Run(world, Initial(setup, warnings), bars[..i]).Ok? && before == JournalAt(world, setup, warnings, bars, i)
      && Run(world, Initial(setup, warnings), bars[..i + 1]).Ok?
      && after == JournalAt(world, setup, warnings, bars, i + 1)
      && BarReported(setup, whole.curve, bars, i)
      && HaltFollows(setup, whole.curve, bars, i, after.fills != before.fills)
  {
    hide Run, Initial, JournalPrefix, BarAudited, OpenAudited, CloseAudited, BarReported, HaltFollows, JournalOf;
    var whole := JournalOf(world, setup, warnings, bars);
    before, after := AuditAt(world, setup, warnings, bars, i);
    var traded, verdict, added, decisions := AuditedBar(
      StrategyOf(world, setup), setup.strategyName, setup.cfg, setup.policy, before, after, bars[i],
      bars[i].open.value);
    assert after.curve[|after.curve| - 1] == whole.curve[i];
    CloseFacts(setup.cfg, setup.policy, before, after, bars[i], bars[i].open.value, traded, added, decisions,
               whole.curve[i]);
    assert |before.fills + added.fills| == |before.fills| + |added.fills|;
    HaltReported(setup, whole.curve, before, after, bars, i, traded, added, decisions);
  }

  lemma HaltReported(
    setup: Setup, curve: seq<EquityPoint>, before: Journal, after: Journal, bars: seq<Bar>, i: nat, traded: Standing,
    added: Entries, decisions: seq<DecisionRecord>)
    requires i < |curve| == |bars| && before.curve == curve[..i] && bars[i].open.Some? && bars[i].open.value > 0.0
    requires Between(setup.cfg, before.curve).peak > 0
    requires CloseAudited(setup.cfg, setup.policy, before, after, bars[i], bars[i].open.value, traded, added, decisions,
                          curve[i])
    ensures BarReported(setup, curve, bars, i)
    ensures HaltFollows(setup, curve, bars, i, added.fills != [])
  {
    OpeningReported(setup, curve, before.curve, bars, i, traded);
    var o := OpeningOf(setup.cfg, setup.policy, before.curve, bars[i], bars[i].open.value);
    assert o.dayStart == curve[i].startOfDayEquity
      && o.peak == MaxOf(Held(setup.cfg, curve, i).peak, EquityAtOpen(setup.cfg, curve, bars, i));
    hide Breaches, Worth, RoundHalfEven, Ratio, Extends, OrderDue, DueTicket, Trades, Between, EquityAtOpen;
  }

  // ---------- how the fills make up the portfolio ----------

  function Signed(side: Side, amount: int): int { if side == Buy then amount else -amount }

  function NetUnits(fills: seq<Fill>): int {
    if fills == [] then 0
    else
      var f := fills[|fills| - 1];
      NetUnits(fills[..|fills| - 1]) + Signed(f.side, f.quantity)
  }

  /** Cash paid for purchases less cash received for sales, without fees. */
  function NetPaid(fills: seq<Fill>): int {
    if fills == [] then 0
    else
      var f := fills[|fills| - 1];
      NetPaid(fills[..|fills| - 1]) + Signed(f.side, Worth(f.quantity, f.executionPrice))
  }

  function TotalFees(fills: seq<Fill>): int {
    if fills == [] then 0 else TotalFees(fills[..|fills| - 1]) + fills[|fills| - 1].fee
  }

  function TotalSlippage(fills: seq<Fill>): int {
    if fills == [] then 0 else TotalSlippage(fills[..|fills| - 1]) + fills[|fills| - 1].slippageCost
  }

  /** Slippage works against the trader, the fee is the rate or the minimum, the cost is the distance to the open. */
  predicate Priced(cfg: Config, f: Fill) {
    var rate := Product(Times(f.quantity, f.executionPrice), cfg.feeBps / 10000.0);
    && f.quantity > 0
    && f.executionPrice == Product(f.referencePrice,
         if f.side == Buy then 1.0 + cfg.slippageBps / 10000.0 else 1.0 - cfg.slippageBps / 10000.0)
    && f.fee == RoundHalfEven(if rate >= cfg.minimumFee then rate else cfg.minimumFee)
    && f.slippageCost == RoundHalfEven(Times(f.quantity,
         if f.side == Buy then f.executionPrice - f.referencePrice else f.referencePrice - f.executionPrice))
  }

  predicate MadeUp(cfg: Config, fills: seq<Fill>, k: Standing) {
    && k.quantity == NetUnits(fills)
    && k.cash == cfg.initialCash - NetPaid(fills) - TotalFees(fills)
    && k.fees == TotalFees(fills) && k.slippage == TotalSlippage(fills)
    && forall f :: f in fills ==> Priced(cfg, f)
  }

  lemma OneMoreFill(cfg: Config, fills: seq<Fill>, k: Standing, t: Ticket, f: Fill, after: Standing)
    requires MadeUp(cfg, fills, k) && Books(k, t, after)
    requires f.side == t.side && f.quantity == t.quantity && f.executionPrice == t.price && f.referencePrice == t.open
    requires f.fee == t.fee && f.slippageCost == t.slippage && t.cashNotional == Worth(t.quantity, t.price)
    requires Priced(cfg, f)
    ensures MadeUp(cfg, fills + [f], after)
  {
    hide Worth, Priced, RoundHalfEven, Times, Ratio;
    assert (fills + [f])[..|fills|] == fills;
  }

  lemma TicketPriced(cfg: Config, held: int, wanted: int, open: real, f: Fill)
    requires held != wanted
    requires var t := TicketFor(cfg, held, wanted, open);
      && f.side == t.side && f.quantity == t.quantity && f.executionPrice == t.price && f.referencePrice == t.open
      && f.fee == t.fee && f.slippageCost == t.slippage
    ensures Priced(cfg, f)
    ensures TicketFor(cfg, held, wanted, open).cashNotional
         == Worth(TicketFor(cfg, held, wanted, open).quantity, TicketFor(cfg, held, wanted, open).price)
  {
    hide RoundHalfEven;
  }

  lemma NothingFilled(cfg: Config)
    ensures MadeUp(cfg, [], Between(cfg, []))
  {
  }

  /** One bar keeps the portfolio made up of its fills. */
  lemma BarMadeUp(
    cfg: Config, policy: Policy, before: Journal, after: Journal, bar: Bar, open: real, traded: Standing,
    verdict: RiskDecision, added: Entries, decisions: seq<DecisionRecord>, p: EquityPoint)
    requires open > 0.0 && Between(cfg, before.curve).peak > 0
    requires OpenAudited(cfg, policy, before.curve, bar, open, traded, verdict, added, decisions)
    requires CloseAudited(cfg, policy, before, after, bar, open, traded, added, decisions, p)
    requires MadeUp(cfg, before.fills, Between(cfg, before.curve))
    ensures MadeUp(cfg, after.fills, Between(cfg, after.curve))
  {
    var curve := before.curve;
    var k, o := Between(cfg, curve), OpeningOf(cfg, policy, curve, bar, open);
    AfterPoint(cfg, policy, before, after, bar, open, traded, added, decisions, p);
    hide OpeningOf, Between, MadeUp, Breaches, Worth, RoundHalfEven, OpenDecisions, Passes, CloseAudited, OrderDue,
         Books,
      TicketFor;
    if OrderDue(cfg, curve, o, open) {
      var t := DueTicket(cfg, curve, o, open);
      if verdict.approved {
        DueIsTrade(cfg, curve, o, open);
        TicketPriced(cfg, k.quantity, Wanted(cfg, k, curve[|curve| - 1].targetWeightForNextBar, open, o.equity), open,
                     added.fills[0]);
        OneMoreFill(cfg, before.fills, k, t, added.fills[0], traded);
      } else {
        assert before.fills + [] == before.fills;
      }
    } else {
      assert before.fills + [] == before.fills;
    }
    MadeUpReads(cfg, after.fills, traded, Between(cfg, after.curve));
  }

  lemma DueIsTrade(cfg: Config, curve: seq<EquityPoint>, o: Opening, open: real)
    requires open > 0.0 && OrderDue(cfg, curve, o, open)
    ensures var k := Between(cfg, curve);
      var wanted := Wanted(cfg, k, curve[|curve| - 1].targetWeightForNextBar, open, o.equity);
      wanted != k.quantity && DueTicket(cfg, curve, o, open) == TicketFor(cfg, k.quantity, wanted, open)
  {
    hide Sizing.TargetQuantity, TicketFor;
  }

  lemma AfterPoint(
    cfg: Config, policy: Policy, before: Journal, after: Journal, bar: Bar, open: real, traded: Standing,
    added: Entries, decisions: seq<DecisionRecord>, p: EquityPoint)
    requires open > 0.0 && Between(cfg, before.curve).peak > 0
    requires CloseAudited(cfg, policy, before, after, bar, open, traded, added, decisions, p)
    ensures var k := Between(cfg, after.curve);
      && k.cash == traded.cash && k.quantity == traded.quantity && k.fees == traded.fees
      && k.slippage == traded.slippage
    ensures after.fills == before.fills + added.fills
  {
    hide Breaches, Worth, RoundHalfEven, Ratio, OpeningOf, OpenHalt;
    assert after.curve[|after.curve| - 1] == p;
  }

  lemma MadeUpReads(cfg: Config, fills: seq<Fill>, k: Standing, l: Standing)
    requires l.cash == k.cash && l.quantity == k.quantity && l.fees == k.fees && l.slippage == k.slippage
    ensures MadeUp(cfg, fills, k) ==> MadeUp(cfg, fills, l)
  {
    hide Priced;
  }

  /**
  After any run the portfolio is what its fills make of the initial cash: units bought less units
  sold, cash less what they cost and their fees, the fees and the slippage their sums; and every
  fill is priced as configured.
  */
  lemma {:induction false} FillsMakeThePortfolio(world: World, setup: Setup, warnings: seq<Warning>, bars: seq<Bar>)
    requires Succeeds(world, setup, warnings, bars)
    ensures var journal := JournalOf(world, setup, warnings, bars);
      MadeUp(setup.cfg, journal.fills, Between(setup.cfg, journal.curve))
    decreases |bars|
  {
    hide Run, Initial, JournalPrefix, TargetChosen, MadeUp, OpenAudited, CloseAudited;
    if bars == [] {
      Causality.RunNothing(world, Initial(setup, warnings));
      InitialJournal(setup, warnings);
      NothingFilled(setup.cfg);
    } else {
      var i := |bars| - 1;
      var before, after := AuditAt(world, setup, warnings, bars, i);
      assert bars[..i + 1] == bars;
      FillsMakeThePortfolio(world, setup, warnings, bars[..i]);
      var open, cfg, policy := bars[i].open.value, setup.cfg, setup.policy;
      var p := after.curve[|after.curve| - 1];
      var traded, verdict, added, decisions := AuditedBar(
        StrategyOf(world, setup), setup.strategyName, cfg, policy, before, after, bars[i], open);
      BarMadeUp(cfg, policy, before, after, bars[i], open, traded, verdict, added, decisions, p);
    }
  }

  lemma InitialJournal(setup: Setup, warnings: seq<Warning>)
    ensures Initial(setup, warnings).journal == Journal([], [], [], [], [], [])
  {
  }
}

/**
Every bar of every run passes the audit, so a run is determined by its published journals.
*/
module AuditTheorems {
  import opened Audit
  import opened Domain
  import opened EngineInvariants
  import opened EngineSpec
  import opened Options
  import opened RiskAgreement
  import opened RiskPolicy
  import opened Rounding
  import Causality
  import RunRecords
  import Sizing

  // ---------- the engine between two bars ----------

  /** The engine's fields say the same as the last point of its curve. */
  ghost predicate StandsOn(s: State) {
    var curve := s.journal.curve;
    var k := Between(s.setup.cfg, curve);
    && s.book == Book(k.cash, k.quantity, k.averageCost, k.realizedPnl, k.fees, k.slippage)
    && s.marks.peak == k.peak && s.marks.previousClose == k.equity && s.halt == k.halt
    && k.peak > 0 && (k.halt.active || (k.equity >= 0 && k.dayStart >= 0))
    && (if curve == [] then s.marks.date == None && s.pending == None
        else
          var last := curve[|curve| - 1];
          && s.marks.date == Some(DayOf(last.timestamp)) && s.marks.startOfDay == k.dayStart
          && s.pending.Some?
          && s.pending.value.timestamp == last.timestamp
          && s.pending.value.targetWeight == last.targetWeightForNextBar)
  }

  lemma InitialStands(setup: Setup, warnings: seq<Warning>)
    requires ValidConfig(setup.cfg)
    ensures StandsOn(Initial(setup, warnings))
  {
  }

  // ---------- the breakers ----------

  lemma DistinctKept(reasons: seq<Reason>)
    requires forall i, j :: 0 <= i < j < |reasons| ==> reasons[i] != reasons[j]
    ensures Decide(reasons).reasons == reasons
    decreases |reasons|
  {
    if reasons != [] {
      var front, last := reasons[..|reasons| - 1], reasons[|reasons| - 1];
      assert forall i, j :: 0 <= i < j < |front| ==> front[i] != front[j];
      DistinctKept(front);
      assert forall i :: 0 <= i < |front| ==> reasons[i] == front[i];
      assert last !in front;
      assert reasons == front + [last];
    }
  }

  /** What the portfolio and loss checks find is what the audit calls a breach. */
  lemma ReasonsAreBreaches(s: State, equity: int)
    requires ValidConfig(s.setup.cfg) && SoundBook(s.book) && !s.halt.active
    requires s.marks.peak > 0 && s.marks.startOfDay >= 0
    ensures LossReasons(s.setup.policy, SnapshotAt(s, equity),
              PortfolioReasons(SnapshotAt(s, equity), Epsilon(s.setup.cfg.moneyPrecision), []))
         == Breaches(s.setup.cfg, s.setup.policy, s.marks.startOfDay, MaxOf(s.marks.peak, equity), equity)
  {
    var cfg, policy, p := s.setup.cfg, s.setup.policy, SnapshotAt(s, equity);
    var peak := MaxOf(s.marks.peak, equity);
    SnapshotFits(s, equity);
    LossesAgree(cfg, s.marks.startOfDay, peak, equity, p);
    hide SnapshotAt, Matches, Epsilon, Lost, DayBase, DailyLossPct, DrawdownPct;
    var found := PortfolioReasons(p, Epsilon(cfg.moneyPrecision), []);
    assert found == If(equity <= 0, EquityNonPositive) + If(!cfg.tradingEnabled, TradingDisabled)
      + If(cfg.killSwitchActive, KillSwitch);
  }

  /** A snapshot's own fields agree with each other. */
  lemma SnapshotFits(s: State, equity: int)
    requires ValidConfig(s.setup.cfg) && SoundBook(s.book) && !s.halt.active
    requires s.marks.peak > 0 && s.marks.startOfDay >= 0
    ensures var p := SnapshotAt(s, equity);
      && p.equity == equity as real
      && p.startOfDayEquity == DayBase(s.setup.cfg, s.marks.startOfDay) > 0.0
      && p.peakEquity == MaxOf(s.marks.peak, equity) as real > 0.0
      && Matches(p.dailyPnl, p.equity - p.startOfDayEquity, Epsilon(s.setup.cfg.moneyPrecision))
      && p.cash.Some? && p.cash.value >= 0.0 && p.openPositions >= 0 && !p.halted
      && p.tradingEnabled == s.setup.cfg.tradingEnabled && p.killSwitchActive == s.setup.cfg.killSwitchActive
  {
    var power := PowerOfTen(s.setup.cfg.moneyPrecision) as real;
    assert power >= 1.0;
  }

  lemma LossesAgree(cfg: Config, dayStart: int, peak: int, equity: int, p: Snapshot)
    requires p.equity == equity as real && p.startOfDayEquity == DayBase(cfg, dayStart) > 0.0
    requires p.peakEquity == peak as real > 0.0 && peak >= equity
    ensures DailyLossPct(p) == Lost(DayBase(cfg, dayStart), equity)
    ensures DrawdownPct(p) == Lost(peak as real, equity)
  {
  }

  lemma HaltDecided(s: State, equity: int)
    requires ValidConfig(s.setup.cfg) && SoundBook(s.book) && !s.halt.active
    requires s.marks.peak > 0 && s.marks.startOfDay >= 0
    ensures var breaches :=
        Breaches(s.setup.cfg, s.setup.policy, s.marks.startOfDay, MaxOf(s.marks.peak, equity), equity);
      HaltDecision(s, equity) == RiskDecision(breaches == [], breaches)
  {
    ReasonsAreBreaches(s, equity);
    BreachesDistinct(s.setup.cfg, s.setup.policy, s.marks.startOfDay, MaxOf(s.marks.peak, equity), equity);
    hide Breaches, LossReasons, PortfolioReasons, SnapshotAt, Unique;
    DistinctKept(Breaches(s.setup.cfg, s.setup.policy, s.marks.startOfDay, MaxOf(s.marks.peak, equity), equity));
  }

  lemma CheckShape(s: State, timestamp: int, equity: int)
    ensures var t, decision := CheckHalt(s, timestamp, equity), HaltDecision(s, equity);
      && t == s.(halt := t.halt, journal := t.journal, buffer := t.buffer)
      && (if s.halt.active || decision.approved then t.halt == s.halt && t.journal == s.journal
          else
            && t.halt == HaltState(true, Some(timestamp), decision.reasons)
            && t.journal == s.journal.(decisions := s.journal.decisions + [DecisionRecord(timestamp, decision, None)]))
  {
    hide HaltDecision;
  }

  lemma NoRecords(journal: Journal)
    ensures journal.(decisions := journal.decisions + []) == journal
  {
    assert journal.decisions + [] == journal.decisions;
  }

  /** A check halts the engine exactly for a breach, and records why. */
  lemma CheckExact(s: State, timestamp: int, equity: int)
    requires ValidConfig(s.setup.cfg) && SoundBook(s.book)
    requires s.marks.peak > 0 && (s.halt.active || s.marks.startOfDay >= 0)
    ensures var t := CheckHalt(s, timestamp, equity);
      var breaches := Breaches(s.setup.cfg, s.setup.policy, s.marks.startOfDay, MaxOf(s.marks.peak, equity), equity);
      && t == s.(halt := t.halt, journal := t.journal, buffer := t.buffer)
      && t.halt == HaltAfter(s.halt, timestamp, breaches)
      && t.journal == s.journal.(decisions := s.journal.decisions + HaltRecord(s.halt, timestamp, breaches))
  {
    if !s.halt.active {
      HaltDecided(s, equity);
    }
    hide Breaches, HaltDecision, ValidConfig, SoundBook, CheckHalt;
    CheckShape(s, timestamp, equity);
    NoRecords(s.journal);
  }

  lemma BreachesDistinct(cfg: Config, policy: Policy, dayStart: int, peak: int, equity: int)
    requires peak > 0
    ensures var b := Breaches(cfg, policy, dayStart, peak, equity);
      forall i, j :: 0 <= i < j < |b| ==> b[i] != b[j]
  {
    hide Lost, DayBase;
  }

  // ---------- the open ----------

  /** A mark raises the peak to the equity it sees, and checks it. */
  lemma MarkExact(s: State, timestamp: int, price: real)
    requires ValidConfig(s.setup.cfg) && SoundBook(s.book)
    requires s.marks.peak > 0 && (s.halt.active || s.marks.startOfDay >= 0)
    ensures var m := MarkAndCheck(s, timestamp, price);
      var equity := s.book.cash + Worth(s.book.quantity, price);
      var peak := MaxOf(s.marks.peak, equity);
      var breaches := Breaches(s.setup.cfg, s.setup.policy, s.marks.startOfDay, peak, equity);
      && m == s.(marks := s.marks.(peak := peak), halt := m.halt, journal := m.journal, buffer := m.buffer)
      && m.halt == HaltAfter(s.halt, timestamp, breaches)
      && m.journal == s.journal.(decisions := s.journal.decisions + HaltRecord(s.halt, timestamp, breaches))
      && equity == EquityAt(s.book, price)
  {
    hide CheckHalt, Breaches, ValidConfig;
    var equity := EquityAt(s.book, price);
    CheckExact(s.(marks := s.marks.(peak := MaxInt(s.marks.peak, equity))), timestamp, equity);
  }

  /** The engine at the open, before it trades. */
  ghost predicate Opened(s: State, m: State, bar: Bar, open: real)
    requires StandsOn(s)
  {
    var o := OpeningOf(s.setup.cfg, s.setup.policy, s.journal.curve, bar, open);
    && m.setup == s.setup && m.book == s.book && m.pending == s.pending && m.lastIntent == s.lastIntent
    && m.marks == Marks(o.peak, s.marks.previousClose, o.dayStart, Some(DayOf(bar.timestamp)))
    && m.halt == o.halt
    && m.journal == s.journal.(decisions := s.journal.decisions + HaltRecord(s.halt, bar.timestamp, o.breaches))
    && o.equity == EquityAt(s.book, open)
  }

  lemma OpenedExactly(s: State, bar: Bar, open: real)
    requires StandsOn(s) && ValidConfig(s.setup.cfg) && SoundBook(s.book)
    ensures Opened(s, MarkAndCheck(EnterBar(s, bar), bar.timestamp, open), bar, open)
  {
    hide MarkAndCheck, Breaches, ValidConfig, SoundBook, HaltRecord, HaltAfter, EquityAt, Worth, EnterBar, DayStart,
      StandsOn, Between, Opened;
    StandingParts(s);
    EnteredExactly(s, bar);
    MarkExact(EnterBar(s, bar), bar.timestamp, open);
    OpenedFrom(s, EnterBar(s, bar), MarkAndCheck(EnterBar(s, bar), bar.timestamp, open), bar, open);
  }

  lemma StandingParts(s: State)
    requires StandsOn(s)
    ensures var k := Between(s.setup.cfg, s.journal.curve);
      s.book == BookOf(k) && s.halt == k.halt && s.marks.peak == k.peak > 0
  {
  }

  /** A marked open, from what entering and marking do. */
  lemma OpenedFrom(s: State, e: State, m: State, bar: Bar, open: real)
    requires StandsOn(s)
    requires e.setup == s.setup && e.book == s.book && e.pending == s.pending && e.lastIntent == s.lastIntent
    requires e.halt == s.halt && e.journal == s.journal
    requires e.marks == Marks(s.marks.peak, s.marks.previousClose,
      DayStart(Between(s.setup.cfg, s.journal.curve), s.journal.curve, bar), Some(DayOf(bar.timestamp)))
    requires s.marks.peak > 0
    requires var equity := e.book.cash + Worth(e.book.quantity, open);
      var peak := MaxOf(e.marks.peak, equity);
      var breaches := Breaches(e.setup.cfg, e.setup.policy, e.marks.startOfDay, peak, equity);
      && m == e.(marks := e.marks.(peak := peak), halt := m.halt, journal := m.journal, buffer := m.buffer)
      && m.halt == HaltAfter(e.halt, bar.timestamp, breaches)
      && m.journal == e.journal.(decisions := e.journal.decisions + HaltRecord(e.halt, bar.timestamp, breaches))
      && equity == EquityAt(e.book, open)
    ensures Opened(s, m, bar, open)
  {
    hide Breaches, HaltRecord, HaltAfter, EquityAt, Worth, DayStart, StandsOn, Between;
    StandingParts(s);
  }

  lemma EnteredExactly(s: State, bar: Bar)
    requires StandsOn(s)
    ensures var e := EnterBar(s, bar);
      && e.setup == s.setup && e.book == s.book && e.pending == s.pending && e.lastIntent == s.lastIntent
      && e.halt == s.halt && e.journal == s.journal
      && e.marks == Marks(s.marks.peak, s.marks.previousClose,
                          DayStart(Between(s.setup.cfg, s.journal.curve), s.journal.curve, bar),
                          Some(DayOf(bar.timestamp)))
      && (e.halt.active || e.marks.startOfDay >= 0)
  {
  }

  // ---------- the order ----------

  lemma TicketIsExecution(cfg: Config, held: int, wanted: int, open: real)
    requires ValidConfig(cfg) && open > 0.0 && wanted != held
    ensures IsTicket(ExecutionOf(cfg, wanted - held, open), TicketFor(cfg, held, wanted, open))
  {
    SlippageDirection(open, cfg.slippageBps);
    hide Product, RoundHalfEven;
  }

  /** Buyers pay more than the reference, sellers get less. */
  lemma SlippageDirection(open: real, slippageBps: real)
    requires open > 0.0 && slippageBps >= 0.0
    ensures ExecutionPrice(open, Buy, slippageBps) >= open >= ExecutionPrice(open, Sell, slippageBps)
  {
    var rate := slippageBps / 10000.0;
    ScaleMonotone(open, 0.0, rate);
  }

  /** The standing with the amounts of a book. */
  function Rebooked(k: Standing, book: Book): Standing {
    k.(cash := book.cash, quantity := book.quantity, averageCost := book.averageCost,
       realizedPnl := book.realizedPnl, fees := book.fees, slippage := book.slippage)
  }

  predicate IsTicket(e: Execution, t: Ticket) {
    e == Execution(t.side, t.quantity, t.open, t.price, t.notional, t.cashNotional, t.fee, t.slippage)
  }

  /** The policy's verdict is the audit's. */
  lemma VerdictAgrees(s: State, bar: Bar, id: IntentId, e: Execution, equity: int, k: Standing, t: Ticket)
    requires OrderContext(s, bar, id, e, equity) && IsTicket(e, t) && equity > 0
    requires k.cash == s.book.cash && k.quantity == s.book.quantity
    ensures OrderDecision(s.setup.policy, OrderOf(s, bar, id, e), SnapshotAt(s, equity)).approved
       <==> Passes(s.setup.cfg, s.setup.policy, bar, k, t, equity)
  {
    hide OrderReasons, OrderOf, SnapshotAt, HaltDecision, RoundHalfEven, ExecutionOf, OrderDecision;
    if e.side == Buy {
      PurchaseApprovedIff(s, bar, id, e, equity);
    } else {
      SaleApprovedIff(s, bar, id, e, equity);
    }
    hide OrderContext, Times, Ratio;
  }

  lemma BooksAgree(k: Standing, book: Book, e: Execution, t: Ticket)
    requires IsTicket(e, t) && Rebooked(k, book) == k && t.quantity > 0
    requires t.side == Buy ==> k.quantity >= 0
    ensures Books(k, t, Rebooked(k, BookAfter(book, e)))
  {
    hide RoundHalfEven, Times, Ratio;
  }

  // ---------- the open phase ----------

  function BookOf(k: Standing): Book {
    Book(k.cash, k.quantity, k.averageCost, k.realizedPnl, k.fees, k.slippage)
  }

  /** The engine after the open phase, with everything it has recorded. */
  ghost predicate Traded(
    s: State, t: State, bar: Bar, open: real, traded: Standing, verdict: RiskDecision, added: Entries,
    decisions: seq<DecisionRecord>)
    requires StandsOn(s) && open > 0.0
  {
    var cfg, policy := s.setup.cfg, s.setup.policy;
    var o := OpeningOf(cfg, policy, s.journal.curve, bar, open);
    && t.setup == s.setup && t.book == BookOf(traded)
    && t.marks == Marks(o.peak, s.marks.previousClose, o.dayStart, Some(DayOf(bar.timestamp)))
    && t.halt == OpenHalt(cfg, policy, bar.timestamp, o, open, traded, added)
    && t.journal == s.journal.(
         intents := s.journal.intents + added.intents, decisions := s.journal.decisions + decisions,
         fills := s.journal.fills + added.fills, trades := s.journal.trades + added.trades)
    && OpenAudited(cfg, policy, s.journal.curve, bar, open, traded, verdict, added, decisions)
  }

  /** An approved fill: the book it leaves, the records it makes, and the check after it. */
  lemma FillExact(j: State, intent: OrderIntent, e: Execution)
    requires ValidConfig(j.setup.cfg) && SoundBook(BookAfter(j.book, e))
    requires j.marks.peak > 0 && (j.halt.active || j.marks.startOfDay >= 0)
    requires e.side == Sell ==> e.quantity <= j.book.quantity
    ensures CommitFill(j, intent, e).Ok?
    ensures var left := BookAfter(j.book, e).cash + Worth(BookAfter(j.book, e).quantity, e.reference);
      IsFilled(j, CommitFill(j, intent, e).state, intent, e,
               Breaches(j.setup.cfg, j.setup.policy, j.marks.startOfDay, MaxOf(j.marks.peak, left), left))
  {
    hide CheckHalt, BookAfter, Breaches, ValidConfig, FillOf, TradeOf, Times, RoundHalfEven, HaltAfter, HaltRecord;
    var book := BookAfter(j.book, e);
    var journal := j.journal.(
      fills := j.journal.fills + [FillOf(intent, e)],
      trades := j.journal.trades + [TradeOf(intent, e, j.book, book)]);
    var filled := Emit(j.(book := book, journal := journal), FillCreated, intent.executionTimestamp);
    CheckExact(filled, intent.executionTimestamp, book.cash + MarketValue(book.quantity, e.reference));
  }

  lemma IntentAgrees(signal: Signal, last: EquityPoint, bar: Bar, e: Execution, t: Ticket)
    requires IsTicket(e, t)
    requires signal.timestamp == last.timestamp && signal.targetWeight == last.targetWeightForNextBar
    ensures IntentOf(signal, bar, e) == IntentFor(last, bar, t)
    ensures FillOf(IntentOf(signal, bar, e), e) == FillFor(IntentFor(last, bar, t), t)
    ensures IntentFor(last, bar, t).signalTimestamp == last.timestamp
  {
    hide RoundHalfEven;
  }

  /** An intent and its verdict go on record before anything is filled. */
  lemma JudgedExact(m: State, bar: Bar, intent: OrderIntent, decision: RiskDecision)
    ensures IsJudged(m, Judged(m, bar, intent, decision), bar, intent, decision)
  {
  }

  /** What the engine holds once an order has been judged and, if it passed, filled. */
  ghost predicate Settles(
    m: State, t: State, bar: Bar, e: Execution, intent: OrderIntent, verdict: RiskDecision, breaches: seq<Reason>)
  {
    var record, book := DecisionRecord(bar.timestamp, verdict, Some(intent.id)), BookAfter(m.book, e);
    && t.setup == m.setup && t.marks == m.marks
    && (if verdict.approved then
          && t.book == book && t.halt == HaltAfter(m.halt, bar.timestamp, breaches)
          && t.journal == m.journal.(
               intents := m.journal.intents + [intent],
               decisions := m.journal.decisions + [record] + HaltRecord(m.halt, bar.timestamp, breaches),
               fills := m.journal.fills + [FillOf(intent, e)],
               trades := m.journal.trades + [TradeOf(intent, e, m.book, book)])
        else
          && t.book == m.book && t.halt == m.halt
          && t.journal == m.journal.(
               intents := m.journal.intents + [intent], decisions := m.journal.decisions + [record]))
  }

  /** An intent and its verdict on record, nothing else. */
  ghost predicate IsJudged(m: State, j: State, bar: Bar, intent: OrderIntent, decision: RiskDecision) {
    && j.setup == m.setup && j.book == m.book && j.marks == m.marks && j.halt == m.halt
    && j.journal == m.journal.(
         intents := m.journal.intents + [intent],
         decisions := m.journal.decisions + [DecisionRecord(bar.timestamp, decision, Some(intent.id))])
  }

  /** A fill and the check after it, nothing else. */
  ghost predicate IsFilled(j: State, f: State, intent: OrderIntent, e: Execution, breaches: seq<Reason>) {
    var book := BookAfter(j.book, e);
    && f.setup == j.setup && f.book == book && f.marks == j.marks
    && f.halt == HaltAfter(j.halt, intent.executionTimestamp, breaches)
    && f.journal == j.journal.(
         fills := j.journal.fills + [FillOf(intent, e)],
         trades := j.journal.trades + [TradeOf(intent, e, j.book, book)],
         decisions := j.journal.decisions + HaltRecord(j.halt, intent.executionTimestamp, breaches))
  }

  lemma FilledSettles(
    m: State, j: State, f: State, bar: Bar, e: Execution, intent: OrderIntent, verdict: RiskDecision,
    breaches: seq<Reason>)
    requires intent.executionTimestamp == bar.timestamp && verdict.approved
    requires IsJudged(m, j, bar, intent, verdict) && IsFilled(j, f, intent, e, breaches)
    ensures Settles(m, f, bar, e, intent, verdict, breaches)
  {
    hide BookAfter, FillOf, TradeOf, HaltAfter, HaltRecord;
  }

  lemma RefusedSettles(
    m: State, j: State, bar: Bar, e: Execution, intent: OrderIntent, verdict: RiskDecision, breaches: seq<Reason>)
    requires !verdict.approved && IsJudged(m, j, bar, intent, verdict)
    ensures Settles(m, j, bar, e, intent, verdict, breaches)
  {
    hide BookAfter, FillOf, TradeOf, HaltAfter, HaltRecord;
  }

  lemma SubmitUnfolds(m: State, bar: Bar, e: Execution, equity: int, intent: OrderIntent, verdict: RiskDecision)
    requires m.pending.Some? && intent == IntentOf(m.pending.value, bar, e)
    requires verdict == OrderDecision(m.setup.policy, OrderOf(m, bar, intent.id, e), SnapshotAt(m, equity))
    ensures SubmitOrder(m, bar, e, equity)
      == if verdict.approved then CommitFill(Judged(m, bar, intent, verdict), intent, e)
         else Ok(Judged(m, bar, intent, verdict))
  {
    hide OrderDecision, OrderOf, SnapshotAt, IntentOf, Judged, CommitFill;
  }

  /** A submitted order is judged, and booked if it passes. */
  lemma SubmitSettles(m: State, bar: Bar, e: Execution, equity: int, intent: OrderIntent, verdict: RiskDecision)
    requires m.pending.Some? && SoundBook(m.book)
    requires m.marks.peak > 0 && (m.halt.active || m.marks.startOfDay >= 0)
    requires intent == IntentOf(m.pending.value, bar, e) && intent.executionTimestamp == bar.timestamp
    requires verdict == OrderDecision(m.setup.policy, OrderOf(m, bar, intent.id, e), SnapshotAt(m, equity))
    requires OrderContext(m, bar, intent.id, e, equity)
    ensures SubmitOrder(m, bar, e, equity).Ok?
    ensures var left := BookAfter(m.book, e).cash + Worth(BookAfter(m.book, e).quantity, e.reference);
      Settles(m, SubmitOrder(m, bar, e, equity).state, bar, e, intent, verdict,
              Breaches(m.setup.cfg, m.setup.policy, m.marks.startOfDay, MaxOf(m.marks.peak, left), left))
  {
    hide OrderDecision, OrderOf, SnapshotAt, BookAfter, Breaches, IntentOf, Worth, Judged, CommitFill, OrderContext,
      Settles, IsJudged, IsFilled, SubmitOrder, SoundBook, ValidConfig, PurchaseCapped, TradeOf, FillOf;
    SubmitUnfolds(m, bar, e, equity, intent, verdict);
    ContextFacts(m, bar, intent.id, e, equity);
    var j := Judged(m, bar, intent, verdict);
    var left := BookAfter(m.book, e).cash + Worth(BookAfter(m.book, e).quantity, e.reference);
    var breaches := Breaches(m.setup.cfg, m.setup.policy, m.marks.startOfDay, MaxOf(m.marks.peak, left), left);
    JudgedExact(m, bar, intent, verdict);
    if verdict.approved {
      ApprovedFillIsSound(m, bar, e, equity);
      JudgedParts(m, j, bar, intent, verdict);
      FillExact(j, intent, e);
      FilledSettles(m, j, CommitFill(j, intent, e).state, bar, e, intent, verdict, breaches);
    } else {
      RefusedSettles(m, j, bar, e, intent, verdict, breaches);
    }
  }

  lemma ContextFacts(m: State, bar: Bar, id: IntentId, e: Execution, equity: int)
    requires OrderContext(m, bar, id, e, equity)
    ensures ValidConfig(m.setup.cfg) && m.book.cash >= 0 && m.book.quantity >= 0
    ensures e.side == Sell ==> e.quantity <= m.book.quantity
  {
  }

  lemma JudgedParts(m: State, j: State, bar: Bar, intent: OrderIntent, decision: RiskDecision)
    requires IsJudged(m, j, bar, intent, decision)
    ensures j.setup == m.setup && j.book == m.book && j.marks == m.marks
  {
  }

  /** An order that passed: what it leaves is what the audit asks for. */
  lemma PassedTraded(
    s: State, m: State, t: State, bar: Bar, open: real, e: Execution, verdict: RiskDecision, breaches: seq<Reason>)
    returns (traded: Standing, added: Entries, decisions: seq<DecisionRecord>)
    requires StandsOn(s) && s.journal.curve != [] && open > 0.0 && Opened(s, m, bar, open) && m.pending.Some?
    requires var cfg, policy, curve := s.setup.cfg, s.setup.policy, s.journal.curve;
      var k, o := Between(cfg, curve), OpeningOf(cfg, policy, curve, bar, open);
      && OrderDue(cfg, curve, o, open) && IsTicket(e, DueTicket(cfg, curve, o, open))
      && verdict.approved && verdict.reasons == []
      && Passes(cfg, policy, bar, k, DueTicket(cfg, curve, o, open), o.equity)
      && var left := BookAfter(m.book, e).cash + Worth(BookAfter(m.book, e).quantity, open);
         breaches == Breaches(cfg, policy, o.dayStart, MaxOf(o.peak, left), left)
    requires e.quantity > 0 && (e.side == Buy ==> s.book.quantity >= 0)
    requires Settles(m, t, bar, e, IntentOf(m.pending.value, bar, e), verdict, breaches)
    ensures Traded(s, t, bar, open, traded, verdict, added, decisions)
  {
    hide StandsOn, OrderDue, DueTicket, Passes, Breaches, BookAfter, Books, HaltAfter, HaltRecord, Between,
      OpeningOf, IntentOf, IntentFor, FillFor, FillOf, Worth, Opened, Settles, OpenAudited;
    StandingPeak(s);
    var cfg, policy, curve := s.setup.cfg, s.setup.policy, s.journal.curve;
    var k, o := Between(cfg, curve), OpeningOf(cfg, policy, curve, bar, open);
    var ticket, last := DueTicket(cfg, curve, o, open), curve[|curve| - 1];
    var intent := IntentOf(m.pending.value, bar, e);
    PendingIsLast(s, m, bar, open);
    IntentAgrees(m.pending.value, last, bar, e, ticket);
    StandsRebooked(s, m, bar, open);
    OpenedFields(s, m, bar, open);
    BooksAgree(k, m.book, e, ticket);
    traded := Rebooked(k, BookAfter(m.book, e));
    decisions := HaltRecord(k.halt, bar.timestamp, o.breaches)
      + [DecisionRecord(bar.timestamp, verdict, Some(intent.id))]
      + HaltRecord(o.halt, bar.timestamp, breaches);
    added := Entries([intent], [FillOf(intent, e)], [TradeOf(intent, e, m.book, BookAfter(m.book, e))]);
    PassedAudited(cfg, policy, curve, bar, open, traded, verdict, added, decisions, intent, breaches);
    PassedState(m, t, bar, e, intent, verdict, breaches);
  }

  lemma OpenedFields(s: State, m: State, bar: Bar, open: real)
    requires StandsOn(s) && Opened(s, m, bar, open)
    ensures var o := OpeningOf(s.setup.cfg, s.setup.policy, s.journal.curve, bar, open);
      && o.peak > 0 && m.setup == s.setup && m.book == s.book && m.halt == o.halt
      && m.marks == Marks(o.peak, s.marks.previousClose, o.dayStart, Some(DayOf(bar.timestamp)))
      && Between(s.setup.cfg, s.journal.curve).halt == s.halt
      && m.journal == s.journal.(decisions := s.journal.decisions + HaltRecord(s.halt, bar.timestamp, o.breaches))
  {
    hide Breaches, Worth, HaltAfter, HaltRecord;
  }

  lemma PassedState(
    m: State, t: State, bar: Bar, e: Execution, intent: OrderIntent, verdict: RiskDecision, breaches: seq<Reason>)
    requires Settles(m, t, bar, e, intent, verdict, breaches) && verdict.approved
    ensures t.setup == m.setup && t.marks == m.marks && t.book == BookAfter(m.book, e)
    ensures t.halt == HaltAfter(m.halt, bar.timestamp, breaches)
    ensures t.journal == m.journal.(
      intents := m.journal.intents + [intent],
      decisions := m.journal.decisions
        + ([DecisionRecord(bar.timestamp, verdict, Some(intent.id))] + HaltRecord(m.halt, bar.timestamp, breaches)),
      fills := m.journal.fills + [FillOf(intent, e)],
      trades := m.journal.trades + [TradeOf(intent, e, m.book, BookAfter(m.book, e))])
  {
    hide BookAfter, FillOf, TradeOf, HaltAfter, HaltRecord;
  }

  lemma PassedAudited(
    cfg: Config, policy: Policy, curve: seq<EquityPoint>, bar: Bar, open: real, traded: Standing,
    verdict: RiskDecision, added: Entries, decisions: seq<DecisionRecord>, intent: OrderIntent, breaches: seq<Reason>)
    requires curve != [] && open > 0.0 && Between(cfg, curve).peak > 0
    requires var k, o := Between(cfg, curve), OpeningOf(cfg, policy, curve, bar, open);
      && OrderDue(cfg, curve, o, open) && verdict.approved && verdict.reasons == [] && o.peak > 0
      && var t := DueTicket(cfg, curve, o, open);
         && Passes(cfg, policy, bar, k, t, o.equity) && Books(k, t, traded)
         && intent == IntentFor(curve[|curve| - 1], bar, t)
         && added == Entries([intent], [FillFor(intent, t)],
              [Trade(FillFor(intent, t), curve[|curve| - 1].timestamp, traded.averageCost,
                     traded.realizedPnl - k.realizedPnl, traded.cash, traded.quantity, intent.targetWeight)])
         && breaches == FillBreaches(cfg, policy, o, traded, open)
         && decisions == HaltRecord(k.halt, bar.timestamp, o.breaches)
              + [DecisionRecord(bar.timestamp, verdict, Some(intent.id))] + HaltRecord(o.halt, bar.timestamp, breaches)
    ensures OpenAudited(cfg, policy, curve, bar, open, traded, verdict, added, decisions)
  {
    hide OrderDue, DueTicket, Passes, Breaches, Books, HaltAfter, HaltRecord, Between, OpeningOf, IntentFor, FillFor,
      Worth, FillBreaches;
  }

  lemma PendingIsLast(s: State, m: State, bar: Bar, open: real)
    requires StandsOn(s) && s.journal.curve != [] && Opened(s, m, bar, open)
    ensures m.pending.Some?
    ensures m.pending.value.timestamp == s.journal.curve[|s.journal.curve| - 1].timestamp
    ensures m.pending.value.targetWeight == s.journal.curve[|s.journal.curve| - 1].targetWeightForNextBar
  {
  }

  lemma StandsRebooked(s: State, m: State, bar: Bar, open: real)
    requires StandsOn(s) && Opened(s, m, bar, open)
    ensures Rebooked(Between(s.setup.cfg, s.journal.curve), m.book) == Between(s.setup.cfg, s.journal.curve)
    ensures m.book == BookOf(Between(s.setup.cfg, s.journal.curve))
  {
  }

  /** An order that did not pass leaves its intent and its verdict. */
  lemma RefusedTraded(
    s: State, m: State, t: State, bar: Bar, open: real, e: Execution, verdict: RiskDecision, breaches: seq<Reason>)
    returns (added: Entries, decisions: seq<DecisionRecord>)
    requires StandsOn(s) && s.journal.curve != [] && open > 0.0 && Opened(s, m, bar, open) && m.pending.Some?
    requires var cfg, policy, curve := s.setup.cfg, s.setup.policy, s.journal.curve;
      var k, o := Between(cfg, curve), OpeningOf(cfg, policy, curve, bar, open);
      && OrderDue(cfg, curve, o, open) && IsTicket(e, DueTicket(cfg, curve, o, open))
      && !verdict.approved && verdict.reasons != []
      && !Passes(cfg, policy, bar, k, DueTicket(cfg, curve, o, open), o.equity)
    requires Settles(m, t, bar, e, IntentOf(m.pending.value, bar, e), verdict, breaches)
    ensures Traded(s, t, bar, open, Between(s.setup.cfg, s.journal.curve), verdict, added, decisions)
  {
    hide StandsOn, OrderDue, DueTicket, Passes, Breaches, BookAfter, Books, HaltAfter, HaltRecord, Between,
      OpeningOf, IntentOf, IntentFor, FillFor, FillOf, Worth, Opened, Settles, OpenAudited;
    StandingPeak(s);
    var cfg, policy, curve := s.setup.cfg, s.setup.policy, s.journal.curve;
    var k, o := Between(cfg, curve), OpeningOf(cfg, policy, curve, bar, open);
    var ticket, last := DueTicket(cfg, curve, o, open), curve[|curve| - 1];
    var intent := IntentOf(m.pending.value, bar, e);
    PendingIsLast(s, m, bar, open);
    IntentAgrees(m.pending.value, last, bar, e, ticket);
    StandsRebooked(s, m, bar, open);
    OpenedFields(s, m, bar, open);
    decisions := HaltRecord(k.halt, bar.timestamp, o.breaches)
      + [DecisionRecord(bar.timestamp, verdict, Some(intent.id))];
    added := Entries([intent], [], []);
    NoFills(s.journal);
    RefusedAudited(cfg, policy, curve, bar, open, verdict, added, decisions, intent);
    RefusedState(m, t, bar, e, intent, verdict, breaches);
  }

  lemma RefusedState(
    m: State, t: State, bar: Bar, e: Execution, intent: OrderIntent, verdict: RiskDecision, breaches: seq<Reason>)
    requires Settles(m, t, bar, e, intent, verdict, breaches) && !verdict.approved
    ensures t.setup == m.setup && t.marks == m.marks && t.book == m.book && t.halt == m.halt
    ensures t.journal == m.journal.(
      intents := m.journal.intents + [intent],
      decisions := m.journal.decisions + [DecisionRecord(bar.timestamp, verdict, Some(intent.id))])
  {
    hide BookAfter, FillOf, TradeOf, HaltAfter, HaltRecord;
  }

  lemma RefusedAudited(
    cfg: Config, policy: Policy, curve: seq<EquityPoint>, bar: Bar, open: real, verdict: RiskDecision,
    added: Entries, decisions: seq<DecisionRecord>, intent: OrderIntent)
    requires curve != [] && open > 0.0 && Between(cfg, curve).peak > 0
    requires var k, o := Between(cfg, curve), OpeningOf(cfg, policy, curve, bar, open);
      && OrderDue(cfg, curve, o, open) && !verdict.approved && verdict.reasons != [] && o.peak > 0
      && var t := DueTicket(cfg, curve, o, open);
         && !Passes(cfg, policy, bar, k, t, o.equity)
         && intent == IntentFor(curve[|curve| - 1], bar, t)
         && added == Entries([intent], [], [])
         && decisions == HaltRecord(k.halt, bar.timestamp, o.breaches)
              + [DecisionRecord(bar.timestamp, verdict, Some(intent.id))]
    ensures OpenAudited(cfg, policy, curve, bar, open, Between(cfg, curve), verdict, added, decisions)
  {
    var o := OpeningOf(cfg, policy, curve, bar, open);
    NoBreachNoRecord(o.halt, bar.timestamp);
    hide OrderDue, DueTicket, Passes, Breaches, Books, HaltAfter, HaltRecord, Between, OpeningOf, IntentFor, FillFor,
      Worth, FillBreaches;
    assert decisions + [] == decisions;
  }

  lemma NoFills(journal: Journal)
    ensures journal.fills + [] == journal.fills && journal.trades + [] == journal.trades
    ensures journal.intents + [] == journal.intents
  {
  }

  lemma NoBreachNoRecord(halt: HaltState, timestamp: int)
    ensures HaltRecord(halt, timestamp, []) == [] && HaltAfter(halt, timestamp, []) == halt
  {
  }

  /** Where no order is due, nothing but the mark has happened. */
  lemma IdleTraded(s: State, m: State, bar: Bar, open: real, verdict: RiskDecision)
    returns (added: Entries, decisions: seq<DecisionRecord>)
    requires StandsOn(s) && open > 0.0 && Opened(s, m, bar, open)
    requires !OrderDue(s.setup.cfg, s.journal.curve,
                       OpeningOf(s.setup.cfg, s.setup.policy, s.journal.curve, bar, open), open)
    ensures Traded(s, m, bar, open, Between(s.setup.cfg, s.journal.curve), verdict, added, decisions)
  {
    var cfg, policy, curve := s.setup.cfg, s.setup.policy, s.journal.curve;
    var k, o := Between(cfg, curve), OpeningOf(cfg, policy, curve, bar, open);
    decisions := HaltRecord(k.halt, bar.timestamp, o.breaches);
    added := Entries([], [], []);
    NoFills(s.journal);
    StandsRebooked(s, m, bar, open);
    assert k.halt == s.halt;
    hide OrderDue, Breaches, HaltAfter, Worth, StandsOn, Between, OpeningOf;
    NoBreachNoRecord(o.halt, bar.timestamp);
    hide HaltRecord;
    assert decisions + [] + [] == decisions;
  }

  // ---------- whole open phases ----------

  /** What the engine's invariant gives the open phase. */
  ghost predicate ReadyToTrade(s: State, m: State, bar: Bar, open: real) {
    && ValidConfig(m.setup.cfg) && SoundBook(m.book) && m.marks.peak > 0 && (m.halt.active || m.marks.startOfDay >= 0)
    && m.setup == s.setup && m.book == s.book
    && (m.pending.Some? ==> ValidSignal(m.pending.value))
    && (m.lastIntent.Some? ==> m.lastIntent.value.executionTimestamp < bar.timestamp)
    && (!m.halt.active ==> EquityAt(m.book, open) > 0 && HaltDecision(m, EquityAt(m.book, open)).approved)
  }

  lemma Readied(s: State, bar: Bar, open: real)
    requires StandsOn(s) && Sound(s) && EventMatches(s, bar) && open > 0.0
    ensures var m := MarkAndCheck(EnterBar(s, bar), bar.timestamp, open);
      Opened(s, m, bar, open) && ReadyToTrade(s, m, bar, open)
  {
    var entered := EnterBar(s, bar);
    var m := MarkAndCheck(entered, bar.timestamp, open);
    assert ValidConfig(s.setup.cfg) && SoundBook(s.book) && (s.pending.Some? ==> ValidSignal(s.pending.value));
    assert s.lastIntent.Some? ==> s.lastIntent.value.executionTimestamp < bar.timestamp;
    hide Sound, CurveSound, EventMatches, PurchaseCapped;
    OpenedExactly(s, bar, open);
    OpenedMarks(s, m, bar, open);
    hide StandsOn, EnterBar, ValidConfig, SoundBook;
    if !m.halt.active {
      MarkedEquityPositive(entered, bar.timestamp, open);
      UnhaltedApproved(entered, bar.timestamp, open);
      assert m.book == entered.book by { Causality.BookUntouchedByMark(entered, bar.timestamp, open); }
    }
    hide MarkAndCheck, HaltDecision, EquityAt;
  }

  lemma OpenedMarks(s: State, m: State, bar: Bar, open: real)
    requires StandsOn(s) && Opened(s, m, bar, open)
    ensures m.marks.peak > 0 && (m.halt.active || m.marks.startOfDay >= 0)
  {
    hide Breaches, Worth;
  }

  lemma UnhaltedApproved(s: State, timestamp: int, price: real)
    requires !MarkAndCheck(s, timestamp, price).halt.active
    ensures var m := MarkAndCheck(s, timestamp, price);
      HaltDecision(m, EquityAt(m.book, price)).approved
  {
    hide PortfolioDecision, EquityAt;
  }

  lemma EquityOpened(s: State, m: State, bar: Bar, open: real)
    requires StandsOn(s) && Opened(s, m, bar, open)
    ensures OpeningOf(s.setup.cfg, s.setup.policy, s.journal.curve, bar, open).equity == EquityAt(m.book, open)
    ensures OpeningOf(s.setup.cfg, s.setup.policy, s.journal.curve, bar, open).halt == m.halt
    ensures m.pending.Some? <==> s.journal.curve != []
    ensures Between(s.setup.cfg, s.journal.curve).quantity == m.book.quantity
    ensures Between(s.setup.cfg, s.journal.curve).cash == m.book.cash
  {
    hide Breaches, Worth, EquityAt;
  }

  /** The trade the engine works out is the one the audit expects. */
  lemma DeltaIsDue(s: State, m: State, bar: Bar, open: real)
    requires StandsOn(s) && open > 0.0 && Opened(s, m, bar, open) && ReadyToTrade(s, m, bar, open)
    ensures var o := OpeningOf(s.setup.cfg, s.setup.policy, s.journal.curve, bar, open);
      var equity := EquityAt(m.book, open);
      OrderDue(s.setup.cfg, s.journal.curve, o, open) <==>
        m.pending.Some? && !m.halt.active && equity > 0 && TargetDelta(m, open, equity) != 0
    ensures var o := OpeningOf(s.setup.cfg, s.setup.policy, s.journal.curve, bar, open);
      var equity := EquityAt(m.book, open);
      OrderDue(s.setup.cfg, s.journal.curve, o, open) ==>
        && m.pending.Some? && equity == o.equity > 0
        && IsTicket(ExecutionOf(m.setup.cfg, TargetDelta(m, open, equity), open),
                    DueTicket(s.setup.cfg, s.journal.curve, o, open))
  {
    hide StandsOn, Opened, OpeningOf, Between, TicketFor, ExecutionOf, Sizing.TargetQuantity, HaltDecision, EquityAt,
      ReadyToTrade, IsTicket;
    StandingPeak(s);
    EquityOpened(s, m, bar, open);
    var curve := s.journal.curve;
    if curve != [] {
      PendingIsLast(s, m, bar, open);
      OpenedOpening(s, m, bar, open);
      var o := OpeningOf(s.setup.cfg, s.setup.policy, curve, bar, open);
      if o.equity > 0 {
        var k := Between(s.setup.cfg, curve);
        var wanted := Wanted(s.setup.cfg, k, curve[|curve| - 1].targetWeightForNextBar, open, o.equity);
        assert TargetDelta(m, open, o.equity) == wanted - k.quantity;
        if wanted != k.quantity {
          ReadyConfig(s, m, bar, open);
          TicketIsExecution(s.setup.cfg, k.quantity, wanted, open);
        }
      }
    }
  }

  lemma StandingPeak(s: State)
    requires StandsOn(s)
    ensures Between(s.setup.cfg, s.journal.curve).peak > 0
  {
  }

  lemma ReadyConfig(s: State, m: State, bar: Bar, open: real)
    requires ReadyToTrade(s, m, bar, open)
    ensures ValidConfig(m.setup.cfg)
  {
  }

  /** The situation in which a due order is submitted. */
  lemma DueContext(s: State, m: State, bar: Bar, open: real, e: Execution)
    requires StandsOn(s) && open > 0.0 && Opened(s, m, bar, open) && ReadyToTrade(s, m, bar, open)
    requires m.pending.Some? && !m.halt.active && EquityAt(m.book, open) > 0
    requires TargetDelta(m, open, EquityAt(m.book, open)) != 0
    requires e == ExecutionOf(m.setup.cfg, TargetDelta(m, open, EquityAt(m.book, open)), open)
    ensures OrderContext(m, bar, IntentOf(m.pending.value, bar, e).id, e, EquityAt(m.book, open))
    ensures e.quantity > 0 && e.reference == open && m.book.quantity >= 0 && SoundBook(m.book)
    ensures IntentOf(m.pending.value, bar, e).executionTimestamp == bar.timestamp
  {
    TargetDeltaCovered(m, open);
    hide TargetDelta, HaltDecision, EquityAt, Opened, StandsOn;
    ContextOfTrade(m, bar, TargetDelta(m, open, EquityAt(m.book, open)), open, EquityAt(m.book, open));
    ExecutionSide(m.setup.cfg, TargetDelta(m, open, EquityAt(m.book, open)), open);
    IntentForBar(m.pending.value, bar, e);
  }

  /** A due order is submitted, and its outcome is as the audit says. */
  lemma DueTraded(s: State, m: State, bar: Bar, open: real)
    returns (traded: Standing, verdict: RiskDecision, added: Entries, decisions: seq<DecisionRecord>)
    requires StandsOn(s) && open > 0.0 && Opened(s, m, bar, open) && ReadyToTrade(s, m, bar, open)
    requires m.pending.Some? && EquityAt(m.book, open) > 0
    requires OrderDue(s.setup.cfg, s.journal.curve,
                      OpeningOf(s.setup.cfg, s.setup.policy, s.journal.curve, bar, open), open)
    ensures var equity := EquityAt(m.book, open);
      var r := SubmitOrder(m, bar, ExecutionOf(m.setup.cfg, TargetDelta(m, open, equity), open), equity);
      r.Ok? && Traded(s, r.state, bar, open, traded, verdict, added, decisions)
  {
    hide StandsOn, Opened, OpeningOf, Between, ExecutionOf, TargetDelta, OrderDecision, OrderOf, SnapshotAt,
         SubmitOrder,
      Settles, Traded, Breaches, BookAfter, Worth, EquityAt, OrderDue, DueTicket, Passes, IntentOf, OrderContext,
      HaltDecision, ReadyToTrade, SoundBook, IsTicket;
    StandingPeak(s);
    var cfg, policy, curve := s.setup.cfg, s.setup.policy, s.journal.curve;
    var k, o := Between(cfg, curve), OpeningOf(cfg, policy, curve, bar, open);
    var equity := EquityAt(m.book, open);
    DeltaIsDue(s, m, bar, open);
    EquityOpened(s, m, bar, open);
    OpenedMarks(s, m, bar, open);
    OpenedOpening(s, m, bar, open);
    var e := ExecutionOf(m.setup.cfg, TargetDelta(m, open, equity), open);
    DueContext(s, m, bar, open, e);
    var intent := IntentOf(m.pending.value, bar, e);
    verdict := OrderDecision(policy, OrderOf(m, bar, intent.id, e), SnapshotAt(m, equity));
    VerdictAgrees(m, bar, intent.id, e, equity, k, DueTicket(cfg, curve, o, open));
    VerdictShape(policy, OrderOf(m, bar, intent.id, e), SnapshotAt(m, equity));
    SubmitSettles(m, bar, e, equity, intent, verdict);
    var left := BookAfter(m.book, e).cash + Worth(BookAfter(m.book, e).quantity, e.reference);
    var breaches := Breaches(m.setup.cfg, m.setup.policy, m.marks.startOfDay, MaxOf(m.marks.peak, left), left);
    var t := SubmitOrder(m, bar, e, equity).state;
    if verdict.approved {
      traded, added, decisions := PassedTraded(s, m, t, bar, open, e, verdict, breaches);
    } else {
      traded := k;
      added, decisions := RefusedTraded(s, m, t, bar, open, e, verdict, breaches);
    }
  }

  lemma ExecutionSide(cfg: Config, delta: int, open: real)
    requires delta != 0
    ensures var e := ExecutionOf(cfg, delta, open);
      e.quantity > 0 && e.reference == open
  {
  }

  lemma IntentForBar(signal: Signal, bar: Bar, e: Execution)
    ensures IntentOf(signal, bar, e).executionTimestamp == bar.timestamp
  {
  }

  lemma VerdictShape(policy: Policy, o: Order, p: Snapshot)
    ensures OrderDecision(policy, o, p).approved <==> OrderDecision(policy, o, p).reasons == []
  {
    hide OrderReasons;
  }

  lemma OpenedOpening(s: State, m: State, bar: Bar, open: real)
    requires StandsOn(s) && Opened(s, m, bar, open)
    ensures var o := OpeningOf(s.setup.cfg, s.setup.policy, s.journal.curve, bar, open);
      m.setup == s.setup && m.book == s.book && m.marks.startOfDay == o.dayStart && m.marks.peak == o.peak
  {
    hide Breaches, Worth;
  }

  /** Every open phase of a sound engine is as the audit says. */
  lemma OpenTraded(s: State, bar: Bar, open: real)
    returns (traded: Standing, verdict: RiskDecision, added: Entries, decisions: seq<DecisionRecord>)
    requires StandsOn(s) && Sound(s) && EventMatches(s, bar) && open > 0.0
    ensures OpenPhase(s, bar, open).Ok?
    ensures Traded(s, OpenPhase(s, bar, open).state, bar, open, traded, verdict, added, decisions)
  {
    var cfg, policy, curve := s.setup.cfg, s.setup.policy, s.journal.curve;
    Readied(s, bar, open);
    var m := MarkAndCheck(EnterBar(s, bar), bar.timestamp, open);
    var o := OpeningOf(cfg, policy, curve, bar, open);
    DeltaIsDue(s, m, bar, open);
    EquityOpened(s, m, bar, open);
    UnhaltedReady(s, m, bar, open);
    hide Sound, StandsOn, EventMatches, MarkAndCheck, EnterBar, OpeningOf, Opened, Traded, Between, SoundBook, OrderDue,
      DueTicket, TargetDelta, ExecutionOf, SubmitOrder, ReadyToTrade, EquityAt;
    if OrderDue(cfg, curve, o, open) {
      traded, verdict, added, decisions := DueTraded(s, m, bar, open);
    } else {
      verdict, traded := RiskDecision(true, []), Between(cfg, curve);
      added, decisions := IdleTraded(s, m, bar, open, verdict);
    }
  }

  lemma UnhaltedReady(s: State, m: State, bar: Bar, open: real)
    requires ReadyToTrade(s, m, bar, open)
    ensures !m.halt.active ==> EquityAt(m.book, open) > 0
    ensures m.setup == s.setup
  {
  }

  // ---------- the close ----------

  function StrategyOf(world: World, setup: Setup): seq<Bar> -> Option<Signal> {
    window => world.signal(setup.strategy, window)
  }

  /** What the audit demands of the engine once the close is marked. */
  ghost predicate Closed(t: State, seen: State, bar: Bar)
    requires t.marks.peak > 0
  {
    var equity := t.book.cash + Worth(t.book.quantity, bar.close);
    var peak := MaxOf(t.marks.peak, equity);
    var breaches := Breaches(t.setup.cfg, t.setup.policy, t.marks.startOfDay, peak, equity);
    && seen.setup == t.setup && seen.book == t.book
    && seen.marks == t.marks.(peak := peak)
    && seen.halt == HaltAfter(t.halt, bar.timestamp, breaches)
    && seen.journal == t.journal.(
         decisions := t.journal.decisions + HaltRecord(t.halt, bar.timestamp, breaches),
         history := t.journal.history + [bar])
  }

  lemma ClosedExactly(t: State, bar: Bar)
    requires ValidConfig(t.setup.cfg) && SoundBook(t.book) && t.marks.peak > 0
    requires t.halt.active || t.marks.startOfDay >= 0
    ensures Closed(t, MarkClose(t, bar), bar)
  {
    hide MarkAndCheck, Breaches, Worth, HaltAfter, HaltRecord;
    MarkExact(t, bar.timestamp, bar.close);
  }

  lemma PointExact(t: State, seen: State, bar: Bar, o: Opening, traded: Standing, target: real)
    requires t.book == BookOf(traded) && t.marks.peak == o.peak > 0 && t.marks.startOfDay == o.dayStart
    requires Closed(t, seen, bar)
    ensures PointOfBar(bar, o, traded, PointOf(seen, bar, target))
    ensures PointOf(seen, bar, target).halt == seen.halt
    ensures PointOf(seen, bar, target).targetWeightForNextBar == target
    ensures PointOf(seen, bar, target).peakEquity == seen.marks.peak
  {
    hide Breaches, RoundHalfEven, Times, HaltAfter, HaltRecord, Ratio;
  }

  lemma SignalExact(world: World, seen: State, bar: Bar)
    requires seen.journal.history != [] && seen.journal.history[|seen.journal.history| - 1] == bar
    ensures NextSignal(world, seen, bar).Some? ==>
      var signal := NextSignal(world, seen, bar).value;
      SignalMatches(seen, signal, bar) ==>
        forall p: EquityPoint | p.halt == seen.halt && p.targetWeightForNextBar == signal.targetWeight ::
          TargetChosen(StrategyOf(world, seen.setup), seen.setup.strategyName, seen.setup.cfg, seen.journal.history, p)
  {
    var history, limit := seen.journal.history, seen.setup.cfg.historyLimit;
    assert Trailing(history, limit) == Window(history, limit);
  }

  lemma RecordExact(seen: State, bar: Bar, signal: Signal)
    ensures var c, p := RecordClose(seen, bar, signal), PointOf(seen, bar, signal.targetWeight);
      && c.setup == seen.setup && c.book == seen.book && c.halt == seen.halt
      && c.marks == seen.marks.(previousClose := p.equity)
      && c.pending == Some(signal)
      && c.journal == seen.journal.(curve := seen.journal.curve + [p])
  {
    var signalled := Emit(seen.(pending := Some(signal)), SignalGenerated, bar.timestamp);
    assert PointOf(signalled, bar, signal.targetWeight) == PointOf(seen, bar, signal.targetWeight);
    hide PointOf;
  }

  /** A bar that closes passes the audit, and leaves the engine standing on its new point. */
  lemma CloseIsAudited(
    world: World, s: State, t: State, bar: Bar, open: real, traded: Standing, verdict: RiskDecision, added: Entries,
    decisions: seq<DecisionRecord>)
    requires StandsOn(s) && open > 0.0 && Traded(s, t, bar, open, traded, verdict, added, decisions)
    requires ValidConfig(t.setup.cfg) && SoundBook(t.book)
    ensures ClosePhase(world, t, bar).Ok? ==>
      var c := ClosePhase(world, t, bar).state;
      && StandsOn(c)
      && BarAudited(StrategyOf(world, s.setup), s.setup.strategyName, s.setup.cfg, s.setup.policy,
                    s.journal, c.journal, bar, open)
  {
    TradedMarks(s, t, bar, open, traded, verdict, added, decisions);
    ClosedExactly(t, bar);
    var seen := MarkClose(t, bar);
    var o := OpeningOf(s.setup.cfg, s.setup.policy, s.journal.curve, bar, open);
    assert seen.journal.history == t.journal.history + [bar];
    SignalExact(world, seen, bar);
    if ClosePhase(world, t, bar).Ok? {
      ClosePhaseParts(world, t, bar);
      var signal := NextSignal(world, seen, bar).value;
      hide ClosePhase, MarkClose, NextSignal, RecordClose, Breaches, Worth, StandsOn, OpeningOf, Between, Traded,
        SoundBook, ValidConfig, TargetChosen, PointOf, PointOfBar, Closed;
      RecordExact(seen, bar, signal);
      PointExact(t, seen, bar, o, traded, signal.targetWeight);
      NewPointAudited(world, s, t, seen, RecordClose(seen, bar, signal), bar, open, traded, verdict, added, decisions,
                      PointOf(seen, bar, signal.targetWeight), signal);
    }
  }

  lemma TradedMarks(
    s: State, t: State, bar: Bar, open: real, traded: Standing, verdict: RiskDecision, added: Entries,
    decisions: seq<DecisionRecord>)
    requires StandsOn(s) && open > 0.0 && Traded(s, t, bar, open, traded, verdict, added, decisions)
    ensures var o := OpeningOf(s.setup.cfg, s.setup.policy, s.journal.curve, bar, open);
      && t.setup == s.setup && t.book == BookOf(traded)
      && t.marks.peak == o.peak > 0 && t.marks.startOfDay == o.dayStart && (t.halt.active || o.dayStart >= 0)
      && t.marks.date == Some(DayOf(bar.timestamp))
  {
    hide Breaches, Worth, OpenAudited;
  }

  lemma ClosePhaseParts(world: World, t: State, bar: Bar)
    requires ClosePhase(world, t, bar).Ok?
    ensures var seen := MarkClose(t, bar);
      && NextSignal(world, seen, bar).Some?
      && var signal := NextSignal(world, seen, bar).value;
         SignalMatches(seen, signal, bar) && ClosePhase(world, t, bar).state == RecordClose(seen, bar, signal)
  {
    hide MarkClose, NextSignal, RecordClose;
  }

  lemma NewPointAudited(
    world: World, s: State, t: State, seen: State, c: State, bar: Bar, open: real, traded: Standing,
    verdict: RiskDecision, added: Entries, decisions: seq<DecisionRecord>, p: EquityPoint, signal: Signal)
    requires StandsOn(s) && open > 0.0 && Traded(s, t, bar, open, traded, verdict, added, decisions)
    requires t.marks.peak > 0 && SoundBook(t.book) && Closed(t, seen, bar)
    requires c.setup == seen.setup && c.book == seen.book && c.halt == seen.halt
    requires c.marks == seen.marks.(previousClose := p.equity) && c.pending == Some(signal)
    requires c.journal == seen.journal.(curve := seen.journal.curve + [p])
    requires signal.timestamp == bar.timestamp
    requires p.halt == seen.halt && p.targetWeightForNextBar == signal.targetWeight && p.peakEquity == seen.marks.peak
    requires PointOfBar(bar, OpeningOf(s.setup.cfg, s.setup.policy, s.journal.curve, bar, open), traded, p)
    requires TargetChosen(StrategyOf(world, s.setup), s.setup.strategyName, s.setup.cfg, seen.journal.history, p)
    ensures StandsOn(c)
    ensures BarAudited(StrategyOf(world, s.setup), s.setup.strategyName, s.setup.cfg, s.setup.policy,
                       s.journal, c.journal, bar, open)
  {
    var cfg, policy := s.setup.cfg, s.setup.policy;
    var o := OpeningOf(cfg, policy, s.journal.curve, bar, open);
    TradedMarks(s, t, bar, open, traded, verdict, added, decisions);
    NewPointStands(t, seen, c, bar, o, traded, p, signal);
    ClosedJournal(s, t, seen, c, bar, open, traded, verdict, added, decisions, p);
    hide StandsOn, Traded, Closed, PointOfBar, OpeningOf, Between, TargetChosen, CloseAudited;
    assert c.journal.curve[|c.journal.curve| - 1] == p;
    assert c.journal.history == seen.journal.history;
    assert OpenAudited(cfg, policy, s.journal.curve, bar, open, traded, verdict, added, decisions)
      by { TradedAudited(s, t, bar, open, traded, verdict, added, decisions); }
    hide OpenAudited;
  }

  lemma TradedAudited(
    s: State, t: State, bar: Bar, open: real, traded: Standing, verdict: RiskDecision, added: Entries,
    decisions: seq<DecisionRecord>)
    requires StandsOn(s) && open > 0.0 && Traded(s, t, bar, open, traded, verdict, added, decisions)
    ensures OpenAudited(s.setup.cfg, s.setup.policy, s.journal.curve, bar, open, traded, verdict, added, decisions)
  {
    hide OpenAudited;
  }

  lemma NewPointStands(
    t: State, seen: State, c: State, bar: Bar, o: Opening, traded: Standing, p: EquityPoint, signal: Signal)
    requires t.marks.peak > 0 && t.marks.startOfDay == o.dayStart && (t.halt.active || o.dayStart >= 0)
    requires t.marks.date == Some(DayOf(bar.timestamp))
    requires SoundBook(t.book) && t.book == BookOf(traded) && Closed(t, seen, bar)
    requires c.book == seen.book && c.halt == seen.halt
    requires c.marks == seen.marks.(previousClose := p.equity) && c.pending == Some(signal)
    requires c.journal == seen.journal.(curve := seen.journal.curve + [p])
    requires signal.timestamp == bar.timestamp
    requires p.halt == seen.halt && p.targetWeightForNextBar == signal.targetWeight && p.peakEquity == seen.marks.peak
    requires PointOfBar(bar, o, traded, p)
    ensures StandsOn(c)
  {
    hide Breaches, HaltAfter, HaltRecord, RoundHalfEven, Ratio;
    assert c.journal.curve[|c.journal.curve| - 1] == p;
    LostEquityHalts(t, seen, bar);
  }

  lemma LostEquityHalts(t: State, seen: State, bar: Bar)
    requires t.marks.peak > 0 && Closed(t, seen, bar)
    ensures t.book.cash + Worth(t.book.quantity, bar.close) <= 0 ==> seen.halt.active
    ensures t.halt.active ==> seen.halt.active
  {
    hide Lost, DayBase, Worth, HaltRecord;
  }

  /** The journals after the close. */
  lemma ClosedJournal(
    s: State, t: State, seen: State, c: State, bar: Bar, open: real, traded: Standing, verdict: RiskDecision,
    added: Entries, decisions: seq<DecisionRecord>, p: EquityPoint)
    requires StandsOn(s) && open > 0.0 && Traded(s, t, bar, open, traded, verdict, added, decisions)
    requires t.marks.peak > 0 && t.marks.peak == OpeningOf(s.setup.cfg, s.setup.policy, s.journal.curve, bar, open).peak
    requires Closed(t, seen, bar)
    requires c.journal == seen.journal.(curve := seen.journal.curve + [p])
    requires p.halt == seen.halt && p.peakEquity == seen.marks.peak
    requires PointOfBar(bar, OpeningOf(s.setup.cfg, s.setup.policy, s.journal.curve, bar, open), traded, p)
    ensures Audit.CloseAudited(s.setup.cfg, s.setup.policy, s.journal, c.journal, bar, open, traded, added, decisions,
                               p)
  {
    var cfg, policy := s.setup.cfg, s.setup.policy;
    var o := OpeningOf(cfg, policy, s.journal.curve, bar, open);
    TradedMarks(s, t, bar, open, traded, verdict, added, decisions);
    TradedJournal(s, t, bar, open, traded, verdict, added, decisions);
    PointEquity(bar, o, traded, p);
    hide Breaches, HaltAfter, HaltRecord, OpenHalt, OpeningOf, Between, PointOfBar, StandsOn, Traded, Worth;
  }

  lemma PointEquity(bar: Bar, o: Opening, traded: Standing, p: EquityPoint)
    requires PointOfBar(bar, o, traded, p)
    ensures p.equity == traded.cash + Worth(traded.quantity, bar.close) && p.timestamp == bar.timestamp
  {
    hide Worth, RoundHalfEven, Ratio;
  }

  lemma TradedJournal(
    s: State, t: State, bar: Bar, open: real, traded: Standing, verdict: RiskDecision, added: Entries,
    decisions: seq<DecisionRecord>)
    requires StandsOn(s) && open > 0.0 && Traded(s, t, bar, open, traded, verdict, added, decisions)
    ensures t.journal == s.journal.(
      intents := s.journal.intents + added.intents, decisions := s.journal.decisions + decisions,
      fills := s.journal.fills + added.fills, trades := s.journal.trades + added.trades)
    ensures t.halt == OpenHalt(s.setup.cfg, s.setup.policy, bar.timestamp,
      OpeningOf(s.setup.cfg, s.setup.policy, s.journal.curve, bar, open), open, traded, added)
  {
    hide OpenAudited, OpenHalt;
  }

  // ---------- bars and runs ----------

  lemma StandsIgnoresEvents(s: State, t: State)
    requires StandsOn(s)
    requires t.setup.cfg == s.setup.cfg && t.book == s.book && t.marks == s.marks && t.halt == s.halt
    requires t.pending == s.pending && t.journal == s.journal
    ensures StandsOn(t)
  {
  }

  /** Every bar a run commits passes the audit. */
  lemma BarIsAudited(world: World, s: State, bar: Bar)
    requires StandsOn(s) && Sound(s)
    ensures var p := ProcessBar(world, s, bar);
      p.error == None ==>
        && StandsOn(p.state)
        && bar.open.Some? && bar.open.value > 0.0
        && BarAudited(StrategyOf(world, s.setup), s.setup.strategyName, s.setup.cfg, s.setup.policy,
                      s.journal, p.state.journal, bar, bar.open.value)
  {
    var buffered := s.(buffer := Some([]));
    var p := ProcessBar(world, s, bar);
    if p.error == None {
      StandsIgnoresEvents(s, buffered);
      BufferedSound(s);
      AdvanceUnfolds(world, s, bar);
      var open := bar.open.value;
      var traded, verdict, added, decisions := OpenTraded(buffered, bar, open);
      var t := OpenPhase(buffered, bar, open).state;
      OpenPhaseSound(buffered, bar, open);
      WithinBarParts(t, buffered, bar);
      hide OpenPhase, ClosePhase, ProcessBar, StandsOn, Sound, Traded, SoundWithinBar, EventMatches, BarAudited,
           SoundBook;
      CloseIsAudited(world, buffered, t, bar, open, traded, verdict, added, decisions);
      StandsIgnoresEvents(ClosePhase(world, t, bar).state, p.state);
    }
  }

  lemma BufferedSound(s: State)
    requires Sound(s)
    ensures Sound(s.(buffer := Some([])))
  {
    hide Sound;
    SoundIgnoresEvents(s);
  }

  lemma WithinBarParts(t: State, before: State, bar: Bar)
    requires SoundWithinBar(t, before, bar)
    ensures ValidConfig(t.setup.cfg) && SoundBook(t.book)
  {
    hide PurchaseCapped, ValidConfig;
  }

  /** A committed bar is its two phases, but for the events. */
  lemma AdvanceUnfolds(world: World, s: State, bar: Bar)
    requires ProcessBar(world, s, bar).error == None
    ensures var buffered, p := s.(buffer := Some([])), ProcessBar(world, s, bar).state;
      && EventMatches(buffered, bar) && bar.open.Some? && bar.open.value > 0.0
      && var o := OpenPhase(buffered, bar, bar.open.value);
         && o.Ok?
         && var c := ClosePhase(world, o.state, bar);
            && c.Ok?
            && p.setup.cfg == c.state.setup.cfg && p.book == c.state.book && p.marks == c.state.marks
            && p.halt == c.state.halt && p.pending == c.state.pending && p.journal == c.state.journal
  {
    var buffered := s.(buffer := Some([]));
    Causality.DeliveryOnlyWarns(world, s, bar);
    hide OpenPhase, ClosePhase, EventMatches, DeliverAll;
    var a := Advance(world, buffered, bar);
    assert a.Ok?;
    EssenceFields(ProcessBar(world, s, bar).state, a.state);
  }

  lemma EssenceFields(s: State, t: State)
    requires Causality.Essence(s) == Causality.Essence(t)
    ensures s.setup.cfg == t.setup.cfg && s.book == t.book && s.marks == t.marks
    ensures s.halt == t.halt && s.pending == t.pending && s.journal == t.journal
  {
  }

  /** An engine that a run can reach stands on its curve. */
  lemma {:induction false} RunStands(world: World, setup: Setup, warnings: seq<Warning>, bars: seq<Bar>)
    requires ValidConfig(setup.cfg)
    ensures var r := Run(world, Initial(setup, warnings), bars);
      r.Ok? ==> StandsOn(r.state) && Sound(r.state) && r.state.setup == setup
    decreases |bars|
  {
    hide ProcessBar, StandsOn, Sound, Initial;
    var start := Initial(setup, warnings);
    InitialSetup(setup, warnings);
    if bars == [] {
      InitialStands(setup, warnings);
      InitialSound(setup, warnings);
    } else {
      var front, bar := bars[..|bars| - 1], bars[|bars| - 1];
      RunStands(world, setup, warnings, front);
      if Run(world, start, front).Ok? {
        var before := Run(world, start, front).state;
        BarIsAudited(world, before, bar);
        ProcessBarSound(world, before, bar);
        Causality.ProcessBarSetup(world, before, bar);
      }
    }
  }

  lemma InitialSetup(setup: Setup, warnings: seq<Warning>)
    ensures Initial(setup, warnings).setup == setup
  {
  }

  /**
  Every run passes the audit bar by bar: what bar i adds to the journals is determined by the
  configuration, the strategy, the bars up to i and the journals before.
  */
  lemma RunIsAudited(world: World, setup: Setup, warnings: seq<Warning>, bars: seq<Bar>, i: nat)
    requires ValidConfig(setup.cfg) && i < |bars|
    requires Run(world, Initial(setup, warnings), bars).Ok?
    ensures var before, after := Run(world, Initial(setup, warnings), bars[..i]),
                                 Run(world, Initial(setup, warnings), bars[..i + 1]);
      && before.Ok? && after.Ok?
      && RunRecords.JournalPrefix(after.state.journal, Run(world, Initial(setup, warnings), bars).state.journal)
      && bars[i].open.Some? && bars[i].open.value > 0.0
      && Between(setup.cfg, before.state.journal.curve).peak > 0
      && BarAudited(StrategyOf(world, setup), setup.strategyName, setup.cfg, setup.policy,
                    before.state.journal, after.state.journal, bars[i], bars[i].open.value)
  {
    hide ProcessBar, StandsOn, Sound, Initial, Run, BarAudited, RunRecords.JournalPrefix;
    var start := Initial(setup, warnings);
    RunRecords.RunGrows(world, start, bars, i + 1);
    Causality.RunOneMore(world, start, bars, i);
    RunStands(world, setup, warnings, bars[..i]);
    var before := Run(world, start, bars[..i]).state;
    BarIsAudited(world, before, bars[i]);
    StandingPeak(before);
  }

  // ---------- what the policy is told ----------

  /** The engine's request describes the trade and the portfolio as they are. */
  lemma RequestDescribesTrade(s: State, bar: Bar, id: IntentId, e: Execution, k: Standing, t: Ticket)
    requires IsTicket(e, t) && k.cash == s.book.cash && k.quantity == s.book.quantity
    ensures var o := OrderOf(s, bar, id, e);
      && o.symbol == bar.symbol && o.side == t.side && o.quantity == t.quantity as real
      && o.referencePrice == t.open && o.executionPrice == t.price && o.notional == t.notional
      && o.estimatedFee == t.fee as real
      && o.cashRequired == (if t.side == Buy then Some((t.cashNotional + t.fee) as real) else None)
      && o.availableCash == Some(k.cash as real)
      && o.currentQuantity == k.quantity as real && o.resultingQuantity == UnitsLeft(k, t) as real
      && o.currentSymbolExposure == o.currentTotalGrossExposure == Times(k.quantity, t.open)
      && o.resultingSymbolExposure == Times(UnitsLeft(k, t), t.open)
      && o.resultingTotalGrossExposure == (if o.resultingSymbolExposure >= 0.0 then o.resultingSymbolExposure else 0.0)
      && o.moneyPrecision == s.setup.cfg.moneyPrecision && o.quantityPrecision == s.setup.cfg.quantityPrecision
      && o.dataAgeSeconds == s.setup.cfg.dataAgeSeconds
      && o.openPositions == (if k.quantity > 0 then 1 else 0)
      && o.intent == Some(id) && o.lastIntent == s.lastIntent && o.dataValid && !o.isLiveOrder
      && (o.reducesRisk <==> t.side == Sell && o.resultingSymbolExposure < o.currentSymbolExposure)
  {
    hide Times;
  }

  /** And so does the portfolio it hands over. */
  lemma SnapshotDescribesPortfolio(s: State, equity: int)
    ensures var p := SnapshotAt(s, equity);
      && p.equity == equity as real && p.dailyPnl == (equity - s.marks.startOfDay) as real
      && p.startOfDayEquity == DayBase(s.setup.cfg, s.marks.startOfDay)
      && p.peakEquity == MaxOf(s.marks.peak, equity) as real
      && p.cash == Some(s.book.cash as real) && p.openPositions == (if s.book.quantity > 0 then 1 else 0)
      && p.tradingEnabled == s.setup.cfg.tradingEnabled && p.killSwitchActive == s.setup.cfg.killSwitchActive
      && p.halted == s.halt.active
  {
  }
}

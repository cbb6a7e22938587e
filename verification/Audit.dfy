/**
An auditor's view of a run: with nothing but the configuration, the bars, the strategy and the
published journals, every record a bar adds is determined. Each clause is written in terms of
the last point of the curve and plain arithmetic; `AuditTheorems` shows that runs pass.
*/
module Audit {
  import opened Domain
  import opened Options
  import opened Rounding
  import Sizing

  // ---------- where a bar finds the portfolio ----------

  /** The portfolio between two bars. */
  datatype Standing = Standing(
    cash: int, quantity: int, averageCost: real, realizedPnl: int, fees: int, slippage: int,
    peak: int, dayStart: int, equity: int, halt: HaltState)

  /** As the last point recorded it; before the first bar there is only the initial cash. */
  function Between(cfg: Config, curve: seq<EquityPoint>): Standing {
    if curve == [] then
      var cash := cfg.initialCash;
      Standing(cash, 0, 0.0, 0, 0, 0, cash, cash, cash, NOT_HALTED)
    else
      var p := curve[|curve| - 1];
      Standing(p.cash, p.quantity, p.averageCost, p.realizedPnl, p.cumulativeFees, p.cumulativeSlippage,
               p.peakEquity, p.startOfDayEquity, p.equity, p.halt)
  }

  function DayOf(timestamp: int): int { timestamp / 86400 }

  /** A day starts with the equity of the last point before it. */
  function DayStart(k: Standing, curve: seq<EquityPoint>, bar: Bar): int {
    if curve != [] && DayOf(curve[|curve| - 1].timestamp) == DayOf(bar.timestamp) then k.dayStart else k.equity
  }

  /** The rounded worth of a holding. */
  function Worth(units: int, price: real): int { RoundHalfEven(Times(units, price)) }

  // ---------- the circuit breakers ----------

  /** What is lost of a whole, at least nothing. */
  function Lost(whole: real, left: int): real
    requires whole > 0.0
  {
    Ratio(if left as real >= whole then 0.0 else whole - left as real, whole)
  }

  /** A day's start counts as at least 1e-12 of a unit of money. */
  function DayBase(cfg: Config, dayStart: int): real {
    var tiny := PowerOfTen(cfg.moneyPrecision) as real * 0.000000000001;
    if dayStart as real >= tiny then dayStart as real else tiny
  }

  function If(condition: bool, reason: Reason): seq<Reason> { if condition then [reason] else [] }

  /** Why trading stops at an equity, in the order in which the reasons are given. */
  function Breaches(cfg: Config, policy: Policy, dayStart: int, peak: int, equity: int): seq<Reason>
    requires peak > 0
  {
    If(equity <= 0, EquityNonPositive)
    + If(!cfg.tradingEnabled, TradingDisabled)
    + If(cfg.killSwitchActive, KillSwitch)
    + If(DayBase(cfg, dayStart) > 0.0 && Lost(DayBase(cfg, dayStart), equity) >= policy.maxDailyLoss, DailyLoss)
    + If(Lost(peak as real, equity) >= policy.maxDrawdown, MaxDrawdown)
  }

  /** A breach halts for good, with its time and reasons, unless a halt is in force. */
  function HaltAfter(halt: HaltState, timestamp: int, breaches: seq<Reason>): HaltState {
    if halt.active || breaches == [] then halt else HaltState(true, Some(timestamp), breaches)
  }

  /** The decision that records a halt, if one begins. */
  function HaltRecord(halt: HaltState, timestamp: int, breaches: seq<Reason>): seq<DecisionRecord> {
    if halt.active || breaches == [] then [] else [DecisionRecord(timestamp, RiskDecision(false, breaches), None)]
  }

  // ---------- an order ----------

  datatype Ticket = Ticket(
    side: Side, quantity: int, open: real, price: real, notional: real, cashNotional: int, fee: int, slippage: int)

  /** Trading from a held to a wanted quantity at the open, with slippage against the trader. */
  function TicketFor(cfg: Config, held: int, wanted: int, open: real): Ticket {
    var buys := wanted > held;
    var quantity := if buys then wanted - held else held - wanted;
    var price := Product(open, if buys then 1.0 + cfg.slippageBps / 10000.0 else 1.0 - cfg.slippageBps / 10000.0);
    var notional := Times(quantity, price);
    var rate := Product(notional, cfg.feeBps / 10000.0);
    Ticket(
      if buys then Buy else Sell, quantity, open, price, notional, RoundHalfEven(notional),
      RoundHalfEven(if rate >= cfg.minimumFee then rate else cfg.minimumFee),
      RoundHalfEven(Times(quantity, if buys then price - open else open - price)))
  }

  function CashLeft(k: Standing, t: Ticket): int {
    if t.side == Buy then k.cash - t.cashNotional - t.fee else k.cash + t.cashNotional - t.fee
  }

  function UnitsLeft(k: Standing, t: Ticket): int {
    if t.side == Buy then k.quantity + t.quantity else k.quantity - t.quantity
  }

  /** The slack of the policy's comparisons. */
  const SLACK: real := 0.000000001

  /** The slack on an exposure, in quanta. */
  function ExposureSlack(cfg: Config): real { PowerOfTen(cfg.moneyPrecision) as real * SLACK }

  predicate CapsAllow(policy: Policy, k: Standing, t: Ticket, equity: int)
    requires equity > 0
  {
    var value := Worth(UnitsLeft(k, t), t.open);
    var left := CashLeft(k, t) + value;
    && left > 0
    && Ratio(t.notional, equity as real) <= policy.maxOrderNotionalWeight + SLACK
    && Ratio(value as real, left as real) <= policy.maxAssetWeight + SLACK
    && Ratio(value as real, left as real) <= policy.maxTotalGrossExposure + SLACK
    && Ratio(value as real, left as real) <= 1.0 + SLACK
  }

  predicate MayOpen(cfg: Config, policy: Policy, k: Standing, t: Ticket) {
    || Times(k.quantity, t.open) > ExposureSlack(cfg)
    || Times(UnitsLeft(k, t), t.open) <= ExposureSlack(cfg)
    || (if k.quantity > 0 then 1 else 0) < policy.maxOpenPositions
  }

  /** Whether the policy lets an order pass. */
  predicate Passes(cfg: Config, policy: Policy, bar: Bar, k: Standing, t: Ticket, equity: int)
    requires equity > 0
  {
    && bar.symbol != "" && bar.symbol in policy.allowedSymbols
    && cfg.dataAgeSeconds <= policy.maxDataAgeSeconds
    && CashLeft(k, t) >= 0
    && CashLeft(k, t) + Worth(UnitsLeft(k, t), t.open) > 0
    && (if t.side == Buy then
          t.cashNotional > 0 && CapsAllow(policy, k, t, equity) && MayOpen(cfg, policy, k, t)
        else Times(t.quantity, t.open) > ExposureSlack(cfg))
  }

  /** The quantity the pending target asks for: what the sizing search finds. */
  function Wanted(cfg: Config, k: Standing, target: real, open: real, equity: int): int
    requires equity > 0 && open > 0.0
  {
    Sizing.TargetQuantity(cfg, Sizing.Request(target, open, equity, k.cash, k.quantity))
  }

  function IntentFor(signal: EquityPoint, bar: Bar, t: Ticket): OrderIntent {
    var target := signal.targetWeightForNextBar;
    OrderIntent(
      IntentId(DayOf(signal.timestamp), bar.symbol, RoundHalfEven(target * 1000000000000.0), bar.timestamp),
      signal.timestamp, bar.timestamp, bar.symbol, t.side, t.quantity, t.open, t.price, t.fee, target)
  }

  function FillFor(intent: OrderIntent, t: Ticket): Fill {
    Fill(intent.id, intent.executionTimestamp, intent.symbol, t.side, t.quantity, t.open, t.price, t.fee, t.slippage)
  }

  /** The portfolio a fill leaves: cash and units move by the ticket, profit by what was sold above its cost. */
  predicate Books(k: Standing, t: Ticket, after: Standing) {
    && after.cash == CashLeft(k, t) && after.quantity == UnitsLeft(k, t)
    && after.fees == k.fees + t.fee && after.slippage == k.slippage + t.slippage
    && (t.side == Buy && after.quantity > 0 ==>
          && after.averageCost == Ratio(Times(k.quantity, k.averageCost) + t.notional, after.quantity as real)
          && after.realizedPnl == k.realizedPnl)
    && (t.side == Sell ==>
          && after.averageCost == (if after.quantity == 0 then 0.0 else k.averageCost)
          && after.realizedPnl == k.realizedPnl + RoundHalfEven(Times(t.quantity, t.price - k.averageCost)))
    && after.(cash := k.cash, quantity := k.quantity, averageCost := k.averageCost, realizedPnl := k.realizedPnl,
              fees := k.fees, slippage := k.slippage) == k
  }

  // ---------- one bar, from journal to journal ----------

  /** What trading adds to the journals. */
  datatype Entries = Entries(intents: seq<OrderIntent>, fills: seq<Fill>, trades: seq<Trade>)

  predicate Extends(
    before: Journal, after: Journal, bar: Bar, p: EquityPoint, added: Entries, decisions: seq<DecisionRecord>)
  {
    && after.history == before.history + [bar]
    && after.curve == before.curve + [p]
    && after.intents == before.intents + added.intents
    && after.decisions == before.decisions + decisions
    && after.fills == before.fills + added.fills
    && after.trades == before.trades + added.trades
  }

  function MaxOf(a: int, b: int): int { if a >= b then a else b }

  /** What a bar's open finds: the day's start, the equity, the peak and whether trading may go on. */
  datatype Opening = Opening(dayStart: int, equity: int, peak: int, breaches: seq<Reason>, halt: HaltState)

  function OpeningOf(cfg: Config, policy: Policy, curve: seq<EquityPoint>, bar: Bar, open: real): Opening
    requires Between(cfg, curve).peak > 0
  {
    var k := Between(cfg, curve);
    var day := DayStart(k, curve, bar);
    var equity := k.cash + Worth(k.quantity, open);
    var peak := MaxOf(k.peak, equity);
    var breaches := Breaches(cfg, policy, day, peak, equity);
    Opening(day, equity, peak, breaches, HaltAfter(k.halt, bar.timestamp, breaches))
  }

  /** An order is due if there is a target, trading goes on and the wanted quantity is not held already. */
  predicate OrderDue(cfg: Config, curve: seq<EquityPoint>, o: Opening, open: real)
    requires open > 0.0
  {
    && curve != [] && !o.halt.active && o.equity > 0
    && var k := Between(cfg, curve);
       Wanted(cfg, k, curve[|curve| - 1].targetWeightForNextBar, open, o.equity) != k.quantity
  }

  function DueTicket(cfg: Config, curve: seq<EquityPoint>, o: Opening, open: real): Ticket
    requires open > 0.0 && OrderDue(cfg, curve, o, open)
  {
    var k := Between(cfg, curve);
    TicketFor(cfg, k.quantity, Wanted(cfg, k, curve[|curve| - 1].targetWeightForNextBar, open, o.equity), open)
  }

  /** Without a due order nothing is intended, and the portfolio stays as it was. */
  predicate NothingTraded(k: Standing, traded: Standing, added: Entries) {
    traded == k && added.intents == [] && added.fills == [] && added.trades == []
  }

  /** A due order is intended once, judged once, and filled exactly if it passes. */
  predicate OrderTraded(
    cfg: Config, policy: Policy, signal: EquityPoint, bar: Bar, k: Standing, o: Opening, t: Ticket,
    decision: RiskDecision, traded: Standing, added: Entries)
    requires o.equity > 0
  {
    var intent := IntentFor(signal, bar, t);
    && added.intents == [intent]
    && (decision.approved <==> Passes(cfg, policy, bar, k, t, o.equity))
    && (decision.approved <==> decision.reasons == [])
    && (if decision.approved then
          && Books(k, t, traded)
          && added.fills == [FillFor(intent, t)]
          && added.trades == [Trade(FillFor(intent, t), signal.timestamp, traded.averageCost,
                                  traded.realizedPnl - k.realizedPnl, traded.cash, traded.quantity,
                                  intent.targetWeight)]
        else traded == k && added.fills == [] && added.trades == [])
  }

  /** The breakers look again at the portfolio a fill left, still at the open. */
  function FillBreaches(cfg: Config, policy: Policy, o: Opening, traded: Standing, open: real): seq<Reason>
    requires o.peak > 0
  {
    var equity := traded.cash + Worth(traded.quantity, open);
    Breaches(cfg, policy, o.dayStart, MaxOf(o.peak, equity), equity)
  }

  /** The point values the traded portfolio at the close. */
  predicate PointOfBar(bar: Bar, o: Opening, traded: Standing, p: EquityPoint) {
    && p.timestamp == bar.timestamp && p.close == bar.close
    && p.cash == traded.cash && p.quantity == traded.quantity && p.averageCost == traded.averageCost
    && p.positionMarketValue == Worth(traded.quantity, bar.close)
    && p.equity == p.cash + p.positionMarketValue
    && p.startOfDayEquity == o.dayStart && p.dailyPnl == p.equity - p.startOfDayEquity
    && p.peakEquity == MaxOf(o.peak, p.equity)
    && p.exposure == (if p.equity > 0 then Ratio(p.positionMarketValue as real, p.equity as real) else 0.0)
    && p.realizedPnl == traded.realizedPnl
    && p.unrealizedPnl == RoundHalfEven(Times(p.quantity, p.close - p.averageCost))
    && p.cumulativeFees == traded.fees && p.cumulativeSlippage == traded.slippage
    && (p.peakEquity > 0 ==> p.drawdown == Ratio((p.peakEquity - p.equity) as real, p.peakEquity as real))
  }

  /** The bars a strategy is shown: the latest ones, at most as many as the limit. */
  function Window(bars: seq<Bar>, limit: nat): seq<Bar> {
    bars[(if |bars| <= limit then 0 else |bars| - limit)..]
  }

  /** The next target: none while warming up or halted, else what the strategy makes of its window. */
  predicate TargetChosen(
    strategy: seq<Bar> -> Option<Signal>, name: string, cfg: Config, bars: seq<Bar>, p: EquityPoint)
    requires bars != []
  {
    var bar := bars[|bars| - 1];
    if |bars| <= cfg.warmupBars || p.halt.active then p.targetWeightForNextBar == 0.0
    else
      strategy(Window(bars, cfg.historyLimit))
        == Some(Signal(bar.timestamp, bar.symbol, p.targetWeightForNextBar, name))
  }

  /** The halts and the verdict up to the end of the open, in order. */
  predicate OpenDecisions(
    cfg: Config, policy: Policy, time: int, k: Standing, o: Opening, open: real, traded: Standing,
    verdict: RiskDecision, added: Entries, decisions: seq<DecisionRecord>)
    requires o.peak > 0
  {
    var filled := if added.fills == [] then [] else FillBreaches(cfg, policy, o, traded, open);
    decisions == HaltRecord(k.halt, time, o.breaches)
      + (if added.intents == [] then [] else [DecisionRecord(time, verdict, Some(added.intents[0].id))])
      + HaltRecord(o.halt, time, filled)
  }

  /** The halt in force after the open, and after a fill. */
  function OpenHalt(
    cfg: Config, policy: Policy, time: int, o: Opening, open: real, traded: Standing, added: Entries): HaltState
    requires o.peak > 0
  {
    if added.fills == [] then o.halt else HaltAfter(o.halt, time, FillBreaches(cfg, policy, o, traded, open))
  }

  /** What happens at the open of a bar. */
  predicate OpenAudited(
    cfg: Config, policy: Policy, curve: seq<EquityPoint>, bar: Bar, open: real, traded: Standing,
    verdict: RiskDecision, added: Entries, decisions: seq<DecisionRecord>)
    requires open > 0.0 && Between(cfg, curve).peak > 0
  {
    var k, o := Between(cfg, curve), OpeningOf(cfg, policy, curve, bar, open);
    && (if OrderDue(cfg, curve, o, open) then
          OrderTraded(cfg, policy, curve[|curve| - 1], bar, k, o, DueTicket(cfg, curve, o, open), verdict, traded,
                      added)
        else NothingTraded(k, traded, added))
    && OpenDecisions(cfg, policy, bar.timestamp, k, o, open, traded, verdict, added, decisions)
  }

  /** Everything a bar adds to the journals. */
  ghost predicate BarAudited(
    strategy: seq<Bar> -> Option<Signal>, name: string, cfg: Config, policy: Policy,
    before: Journal, after: Journal, bar: Bar, open: real)
    requires open > 0.0 && Between(cfg, before.curve).peak > 0
  {
    && after.curve != [] && after.history != []
    && var p := after.curve[|after.curve| - 1];
       && TargetChosen(strategy, name, cfg, after.history, p)
       && exists traded: Standing, verdict: RiskDecision, added: Entries, decisions: seq<DecisionRecord> ::
            && OpenAudited(cfg, policy, before.curve, bar, open, traded, verdict, added, decisions)
            && CloseAudited(cfg, policy, before, after, bar, open, traded, added, decisions, p)
  }

  /** The close is checked like the open, and the point records the halt in force after it. */
  predicate CloseAudited(
    cfg: Config, policy: Policy, before: Journal, after: Journal, bar: Bar, open: real, traded: Standing,
    added: Entries, decisions: seq<DecisionRecord>, p: EquityPoint)
    requires Between(cfg, before.curve).peak > 0
  {
    var time, o := bar.timestamp, OpeningOf(cfg, policy, before.curve, bar, open);
    && PointOfBar(bar, o, traded, p)
    && p.peakEquity > 0
    && var halt := OpenHalt(cfg, policy, time, o, open, traded, added);
       var breaches := Breaches(cfg, policy, o.dayStart, p.peakEquity, p.equity);
       && p.halt == HaltAfter(halt, time, breaches)
       && Extends(before, after, bar, p, added, decisions + HaltRecord(halt, time, breaches))
  }
}

# Verification of the trading lab

This project models the simulation engine of the trading lab with its risk policy, the
historical replay session, the LEAN adapter's sizing and open valuation, the log reader
that recovers one line-wrapped observation, the canonical decimal texts, the order-event
reconciliation of imported results and the guarded execution budget, and proves what each
of them promises. `dafny verify dfyconfig.toml` checks all of it.

## How the system is represented

- **Money, quantities and prices.** The repository computes with binary floats that it
  rounds to `money_precision` and `quantity_precision` digits. Here money is an integer
  count of money quanta, a quantity an integer count of quantity units, and a price a
  positive real in quanta per unit. Rounding is half-even to a quantum and happens exactly
  where the code rounds; everything between two roundings is exact. The numerical slack of
  the code (`1e-12` in the sizing test and in relative comparisons, `1e-9` in the policy)
  keeps its value.
- **Engine.** `Simulation.SimulationEngine` is a class whose methods update its fields.
  The many scalar attributes are grouped into three records: `book` (cash, quantity,
  average cost, profit, fees, slippage), `marks` (peak, previous close, start of day, date)
  and `journal` (history, curve, intents, decisions, fills, trades). Each method is proved
  against a function on the value of all protected fields (`EngineSpec`), and the theorems
  are about those functions, so they hold for the object.
- **Code the engine does not trust.** A strategy is a function of the history it is given,
  a sink an arbitrary function of the engine and the event; either may raise and may leave
  any values whatsoever in the engine's fields. A `World` collects them.
- **Replay.** `Replay.HistoricalReplaySession` owns an engine and is proved against a
  lifecycle function over its public calls; the refinement theorems are about every
  sequence of calls.
- **JSON and logs.** JSON values have their own datatype and compact printer; the readers
  are loops over bytes. One reader, with the prefix, the payload limit and an optional
  total limit as parameters, stands for both log formats.
- **Decimals.** A decimal is a sign, a whole coefficient and an exponent; its value is a
  real. The default context (28 digits, half-even) is written out wherever the code uses
  context arithmetic; for products and quotients it works on values (`ContextArithmetic`).
- **Execution budget.** Operators are interleaved step by step (acquire, load, count,
  persist, launch, leave, raise, crash) over one lock file and one persisted state; one
  undisturbed run is also given as straight-line code and tied to those steps.

## Where to start reading

- Results: `RunReports` says what a reader of a result may rely on; it follows from `Audit`,
  which determines bar by bar what a run records, and `AuditTheorems`, which shows that runs do.
- Sizing: `SizingTheorems` and, for the exact conditions, `SizingExactness`; `SizingAudit` says
  what is searched for.
- Risk: `RiskReasons` for any request, `RiskAgreement` and `SizedPurchases` for the orders the
  engine builds, `RiskStrictness` for changes of policy.
- Whole runs: `Causality`, `EngineInvariants`, `Ledger`, `RunRecords`, `BarOutcomes`.
- Replay: `ReplayCalls`, `ReplayLifecycle`, `ReplaySafety`, `ReplayTheorems`, `Tampering`.
- The LEAN adapter: `MirrorSizing` in exact arithmetic, `MirrorPrecision` and `MirrorSnapshot`
  as computed.
- Text and logs: `JsonReader`, `CanonicalJson`, `LogTheorems`, `DecimalTheorems`.
- Imported orders: `OrderAcceptance`, `OrderTheorems`, `OrderPrecision`.
- Execution budget: `RunBudget`.

## Where the code does less than one might expect

- The sizing search is exact for purchases only if a unit is worth more than half a money
  quantum, and for targets within the numerical tolerance of one only if it is worth a whole
  quantum. It is exact for sales in general only if one unit, net of slippage and the rate
  fee, brings more than a quantum. `BuySearchExactIffUnitVisible`,
  `BuySearchNearOneExactIffUnitIsAQuantum` and `SellSearchExactIffUnitNetsAQuantum` are the
  equivalences.
- On a single book the search is exact if and only if every smaller candidate it probes on its
  way to the greatest safe quantity is safe (`SearchExactIff`). Just above a target, inside the
  numerical tolerance, that decides whether it keeps the holding (`BandSearchExactIff`); on the
  book of `BandSearchMisses` it sells five units it may keep, and pays the fee.
- For a target of one, a position worth more than 10^12 quanta can be sized with an overdraft
  that the tolerance of the search excuses and the policy refuses (`CheapUnitsRefused`).
  `SizedPurchaseApprovedIff` is the exact condition for one purchase, `ApprovedUpToIff`
  and, in terms of the equity before sizing, `ApprovedForEquityIff` show that the bound is sharp.
- An operator that crashes while it holds the lock blocks all later runs
  (`CrashBlocksForever`), although the budget is then still respected. Two steps lead there
  (`CrashIsReachable`), and another run is possible if and only if there is budget left and
  nobody has crashed inside the lock (`RunsAgainIff`, `LaunchesAgainIff`).
- A strategy that tampers with the engine only once it sees a warning fails because of a sink
  that raises, in a batch run (`SinkMakesTampererFail`) and in a replay whose batch run succeeds
  (`ReplayMakesTampererFail`).
- Fill quantities are added in 28-digit arithmetic. Conservation reaches exactly to a total
  of 10^28 steps of the quantities' grid (`ConservationReach`); one step beyond,
  `RoundedFillsPass` is an accepted result whose fills exceed its order. The two validation
  paths agree exactly up to one step more (`AgreementReach`); for the orders of
  `PathsDisagree` they end a step apart.

## Model

| member | source | states |
|---|---|---|
| `Bisection.Search` | src/trading_bot_lab/backtesting/engine.py:658-729 | the sizing loop terminates, and its answer is the last accepted probe of the bisection |
| `Bisection.BisectFindsGreatest` | src/trading_bot_lab/backtesting/engine.py:658-729 | where acceptance is downward closed, the loop ends at the greatest accepted candidate, or nowhere if there is none |
| `Bisection.BisectInRange` | src/trading_bot_lab/backtesting/engine.py:658-729 | whatever the acceptance test, the answer is in the interval and was accepted |
| `Bisection.BisectDominates` | lean-workspace/Strategies/ParityFixtureV1/main.py:456-497 | a laxer acceptance test never ends below any value a stricter, downward closed test accepts |
| `Bisection.BisectReachesTop` | src/trading_bot_lab/backtesting/engine.py:658-729 | when only the top of the interval breaks downward closure, the loop reaches it exactly if its neighbour is accepted |
| `Bisection.BisectReachesIff` | src/trading_bot_lab/backtesting/engine.py:658-729 | whatever the acceptance test, the loop ends at the greatest accepted candidate if and only if every smaller one it probes on the way there is accepted |
| `Sizing.ComputeTargetQuantity` | src/trading_bot_lab/backtesting/engine.py:658-729 | the engine's sizing loop returns the value every sizing theorem speaks about |
| `SizingTheorems.WithinTargetIffHeadroom` | src/trading_bot_lab/backtesting/engine.py:693-722 | the weight test on a candidate is a sign test on a weighted difference of its projected cash and value |
| `SizingAudit.SafeIffFits` | src/trading_bot_lab/backtesting/engine.py:693-725 | a quantity is safe if and only if the trade it takes leaves equity, of which its worth is at most the target and 1e-12, and a purchase is worth and costs something and respects the order cap unless the target exceeds that |
| `SizingAudit.SearchedBetween` | src/trading_bot_lab/backtesting/engine.py:673-692 | at or below the target the search runs from the holding to the larger of it and what the target buys at the open, above it from zero to the holding |
| `SizingAudit.NoTargetNoHolding` | src/trading_bot_lab/backtesting/engine.py:658-672 | a target of nothing asks for nothing, whatever is held and whatever selling costs |
| `Rounding.RoundsToNearestEven` | src/trading_bot_lab/backtesting/engine.py:1105-1115 | money is rounded to the nearest quantum, and halfway between two to the even one |
| `SizingTheorems.FeeMonotone` | src/trading_bot_lab/backtesting/engine.py:1114-1115 | fees, also after rounding, never fall when the notional grows and are never negative |
| `SizingTheorems.BuyHeadroomAntitone` | src/trading_bot_lab/backtesting/engine.py:693-722 | with rounding, slippage and both kinds of fee, buying more units never gives a purchase more room below its target |
| `SizingTheorems.BuySafeSetDownwardClosed` | src/trading_bot_lab/backtesting/engine.py:681-725 | above the holding, every candidate below a safe one is safe, as long as a unit is worth more than half a quantum, or a whole one for targets within the tolerance of one |
| `SizingTheorems.SellCashAntitone` | src/trading_bot_lab/backtesting/engine.py:693-712 | selling more units never leaves less cash, once one unit net of the rate fee brings more than a quantum |
| `SizingTheorems.SellSafeSetDownwardClosed` | src/trading_bot_lab/backtesting/engine.py:681-725 | below the holding, every candidate below a safe one is safe, if in addition the limit or the sale of a single unit leaves some cash |
| `SizingTheorems.BuySizingFindsGreatestSafe` | src/trading_bot_lab/backtesting/engine.py:658-729 | at or below the target the search returns the largest safe quantity of its interval, never less than the holding |
| `SizingTheorems.SellSizingFindsGreatestSafe` | src/trading_bot_lab/backtesting/engine.py:658-729 | above the target it returns the largest safe remainder, which may be zero, and zero as well when no remainder is safe; it always sells something |
| `SizingTheorems.SellSizingInsideBand` | src/trading_bot_lab/backtesting/engine.py:658-729 | a readable case of `BandSearchExactIff`: where units are visible and a sale leaves cash, the search keeps a holding inside the band exactly if one unit less is safe too |
| `SizingExactness.SearchExactIff` | src/trading_bot_lab/backtesting/engine.py:658-729 | on every valid book, at any price and cost, the search ends at the greatest safe quantity if and only if every smaller candidate it probes on its way there is safe |
| `SizingExactness.NothingSafeSellsAll` | src/trading_bot_lab/backtesting/engine.py:658-729 | without any safe candidate it sells everything, which cannot happen at or below the target |
| `SizingExactness.BandSearchExactIff` | src/trading_bot_lab/backtesting/engine.py:658-729 | when the held weight is above the target by no more than the tolerance, the holding is the greatest safe quantity, and the search keeps it if and only if every candidate probed below it is safe |
| `SizingExactness.BandSearchMisses` | src/trading_bot_lab/backtesting/engine.py:658-729 | a concrete book inside the band on which the search sells five of fifty units and pays the minimum fee |
| `SizingExactness.BuySearchExactIffUnitVisible` | src/trading_bot_lab/backtesting/engine.py:658-729 | over every configuration, book and target that with the tolerance stays within one, the buy search is exact at a price if and only if a unit is worth more than half a money quantum |
| `SizingExactness.BuySearchNearOneExactIffUnitIsAQuantum` | src/trading_bot_lab/backtesting/engine.py:658-729 | for the remaining targets, within the tolerance of one, it is exact if and only if a unit is worth at least a whole quantum |
| `SizingExactness.SellSearchExactIffUnitNetsAQuantum` | src/trading_bot_lab/backtesting/engine.py:658-729 | that one unit nets more than some bound makes the sale search exact, for every configuration, book and target outside the tolerance band, if and only if the bound is at least a quantum |
| `SizingExactness.SellSearchMissesWhenFeeHidesAUnit` | src/trading_bot_lab/backtesting/engine.py:658-729 | a concrete sale, with a rate fee that swallows what one unit brings, on which the search sells everything although two units are safe |
| `SizingExactness.FirstProbeMisses` | src/trading_bot_lab/backtesting/engine.py:693-729 | a search whose first probe is unsafe never returns a safe quantity above that probe |
| `BenchmarkPurchase.ResidualAntitone` | src/trading_bot_lab/backtesting/engine.py:1246-1268 | buying more units never leaves more residual cash |
| `BenchmarkPurchase.LargestAffordablePurchase` | src/trading_bot_lab/backtesting/engine.py:1246-1268 | the benchmark purchase is affordable, accounts for all of the initial cash, and every larger quantity of its interval is unaffordable |
| `MirrorPrecision.ComputeMirrorQuantity` | lean-workspace/Strategies/ParityFixtureV1/main.py:426-497 | the adapter's sizing loop, every product, sum and quotient rounded to 28 digits, returns the value the precision theorems speak about, raising for the same inputs |
| `MirrorPrecision.PrecisionSuffices` | lean-workspace/Strategies/ParityFixtureV1/main.py:426-497 | for whole-quanta prices, decimal weights and equity that leaves room for their digits, all those roundings together change nothing: the size is that of exact arithmetic |
| `MirrorPrecision.AdapterAgainstEngine` | lean-workspace/Strategies/ParityFixtureV1/main.py:426-497 | so the adapter as it computes never orders more than the local engine, and the same when no candidate's weight lies in the engine's tolerance band |
| `MirrorPrecision.RefusedExactly` | lean-workspace/Strategies/ParityFixtureV1/main.py:435-443 | the adapter raises if and only if price, holding or cash is impossible or the weight is outside zero to a tenth |
| `ContextArithmetic.ContextKeepsOrder` | lean-workspace/Strategies/ParityFixtureV1/main.py:484-491 | rounding a quotient of whole numbers to 28 digits never moves it over, onto or off a decimal bound while numerator times decimals stays below 2 * 10^27 |
| `ContextArithmetic.ContextFloor` | lean-workspace/Strategies/ParityFixtureV1/main.py:451-453 | nor over a whole number |
| `ContextArithmetic.ContextExact` | lean-workspace/Strategies/ParityFixtureV1/main.py:468-484 | a result of at most 10^28 steps of any power of ten is not rounded |
| `ContextArithmetic.ContextAgrees` | src/trading_bot_lab/parity/contract.py:188-193 | rounding a value is rounding any decimal of that value |
| `MirrorSizing.MirrorClosed` | lean-workspace/Strategies/ParityFixtureV1/main.py:456-497 | on grid prices of at least two quanta the adapter's acceptance is downward closed in both branches |
| `MirrorSizing.MirrorNeverAboveEngine` | lean-workspace/Strategies/ParityFixtureV1/main.py:426-497 | with the version-one costs and whole shares the adapter never orders more than the local engine |
| `MirrorSizing.MirrorEqualsEngine` | lean-workspace/Strategies/ParityFixtureV1/main.py:426-497 | the two sizes are equal when no candidate's weight lies in the engine's tolerance band |
| `MirrorSnapshot.MirrorValuesLikeEngine` | lean-workspace/Strategies/ParityFixtureV1/main.py:351-423 | on a new session the adapter's open valuation raises exactly when equity is not positive, its equity and peak are the engine's, and its two ratios are the engine's rounded to 28 digits |
| `MirrorSnapshot.MirrorForeseesOpenHalt` | lean-workspace/Strategies/ParityFixtureV1/main.py:351-423 | the adapter's two rounded ratios decide, in both directions, whether an enabled engine halts at that open |
| `MirrorSnapshot.SnapshotRefusedExactly` | lean-workspace/Strategies/ParityFixtureV1/main.py:351-423 | the valuation raises if and only if an input is impossible, the mark is of another time, or equity is gone, and repeats what it was given |
| `RiskEvaluation.EvaluateOrder` | src/trading_bot_lab/risk/policy.py:136-457 | the check sequence produces the decision, reasons in order and without repetition, that the policy theorems speak about |
| `RiskEvaluation.EvaluatePortfolioHalt` | src/trading_bot_lab/risk/policy.py:460-470 | the halt evaluation is the portfolio checks followed by the loss limits |
| `RiskEvaluation.ValidatePortfolio` | src/trading_bot_lab/risk/policy.py:473-511 | the portfolio checks append exactly the reasons of the specification, after those already found |
| `RiskEvaluation.EvaluateLossLimits` | src/trading_bot_lab/risk/policy.py:514-538 | the loss limits append exactly the reasons of the specification, after those already found |
| `RiskEvaluation.ReasonLog.Decision` | src/trading_bot_lab/risk/policy.py:541-545 | approval means no reason was found; repeated reasons are reported once, in order of first occurrence |
| `RiskPolicy.Decide` | src/trading_bot_lab/risk/policy.py:541-545 | a decision reports exactly the reasons found, each once, and approves exactly when there are none |
| `RiskPolicy.DecideKeepsOrder` | src/trading_bot_lab/risk/policy.py:541-545 | it lists them in the order in which they were first found |
| `RiskReasons.ReportedIffBroken` | src/trading_bot_lab/risk/policy.py:136-457 | for any request, portfolio and policy, and every reason: it is reported if and only if its own condition, written out in numbers, is broken |
| `RiskReasons.ApprovedIffUnbroken` | src/trading_bot_lab/risk/policy.py:136-457 | a request is approved if and only if no reason applies to it |
| `RiskReasons.StoppedIffBroken` | src/trading_bot_lab/risk/policy.py:460-538 | a portfolio is stopped for a reason if and only if that reason applies to it, daily loss and drawdown each for its own ratio |
| `RiskStrictness.ApprovalIsFailClosed` | src/trading_bot_lab/risk/policy.py:136-457 | for any request whatsoever: approval means a solvent, enabled, unhalted portfolio within its loss limits, fresh data for an allowed symbol, consistent quantities, cash and equity left, and every cap respected unless the order provably reduces risk |
| `RiskStrictness.StricterApprovesLess` | src/trading_bot_lab/risk/policy.py:136-457 | a policy that is stricter limit by limit approves nothing a laxer one rejects |
| `RiskStrictness.EffectiveIsStricter` | src/trading_bot_lab/backtesting/engine.py:1074-1089 | the engine's own policy is at least as strict as the policy it was given and as every limit of its configuration |
| `RiskStrictness.EffectiveIsNoStricter` | src/trading_bot_lab/backtesting/engine.py:1074-1089 | and at most as strict: whatever is stricter than both is stricter than it |
| `RiskStrictness.EngineApprovalIsPolicyApproval` | src/trading_bot_lab/backtesting/engine.py:1074-1089 | whatever the engine approves, the policy it was given approves too |
| `RiskAgreement.OrderReasonsExact` | src/trading_bot_lab/backtesting/engine.py:470-580 | the complete, ordered list of reasons an engine-built order can receive; duplicate-intent, halt, kill-switch, daily-loss, drawdown and portfolio reasons cannot occur |
| `RiskAgreement.ConsistencySilent` | src/trading_bot_lab/risk/policy.py:214-330 | all cross-checks of an order's projections pass on every order the engine builds |
| `RiskAgreement.SaleApprovedIff` | src/trading_bot_lab/risk/policy.py:136-457 | an engine sale is approved exactly if it lowers the exposure by more than the tolerance, symbol and data are acceptable, and cash and equity remain |
| `RiskAgreement.RepeatedIntentRefused` | src/trading_bot_lab/backtesting/engine.py:531-560 | an order whose intent is the one recorded last is refused as a duplicate |
| `RiskAgreement.PurchaseApprovedIff` | src/trading_bot_lab/risk/policy.py:136-457 | an engine purchase is approved exactly if symbol, data, cash, equity, every cap and the number of open positions allow it |
| `RiskAgreement.ApprovalGuarantees` | src/trading_bot_lab/risk/policy.py:331-445 | an approved engine order leaves non-negative cash and positive equity, and a purchase within its weight caps |
| `SizedPurchases.SizedPurchaseApprovedIff` | src/trading_bot_lab/backtesting/engine.py:470-580 | sizing and risk agree: a purchase the search proposes for a target within the effective caps is approved if and only if its own projection leaves no overdraft, and so always for targets within one by the tolerance or positions up to 10^12 quanta |
| `SizedPurchases.ApprovedUpToIff` | src/trading_bot_lab/backtesting/engine.py:715-722 | all sized purchases up to some worth are approved if and only if that worth is at most 10^12 quanta, on which the tolerance of the search is less than a quantum |
| `SizedPurchases.ApprovedForEquityIff` | src/trading_bot_lab/backtesting/engine.py:715-722 | the same before sizing: all sized purchases of engines with equity up to some bound are approved if and only if that bound is at most 10^12 quanta |
| `SizedPurchases.WorthWithinEquity` | src/trading_bot_lab/backtesting/engine.py:658-691 | the search proposes no purchase that leaves a position worth more than the equity |
| `SizedPurchases.DearUnitRefused` | src/trading_bot_lab/risk/policy.py:366-389 | a concrete purchase one quantum above that bound, proposed by the search with an overdraft of one quantum and refused by the policy |
| `SizedPurchases.CheapUnitsRefused` | src/trading_bot_lab/risk/policy.py:366-389 | the same with units of two quanta and ten basis points of slippage |
| `SizedPurchases.SafePurchaseRespectsCaps` | src/trading_bot_lab/backtesting/engine.py:693-722 | a candidate the search accepts for such a target respects the order cap, leaves equity and, unless it overdraws, respects the weight caps |
| `SizedPurchases.NoOverdraft` | src/trading_bot_lab/risk/policy.py:366-416 | a weight within such a limit leaves no overdraft |
| `Simulation.SimulationEngine.constructor` | src/trading_bot_lab/backtesting/engine.py:102-161 | a new engine holds its initial cash, nothing else, and the stricter of policy and configuration |
| `Simulation.SimulationEngine.Restore` | src/trading_bot_lab/backtesting/engine.py:803-841 | restoring gives every protected field its captured value |
| `Simulation.SimulationEngine.DeliverEvent` | src/trading_bot_lab/backtesting/engine.py:262-304 | after a delivery, whatever the sink overwrote or raised, the engine is as before plus at most one sink warning |
| `Simulation.SimulationEngine.DeliverEvents` | src/trading_bot_lab/backtesting/engine.py:235-252 | so after a whole buffer of events |
| `Simulation.SimulationEngine.CheckAndLatchPortfolioHalt` | src/trading_bot_lab/backtesting/engine.py:856-914 | a failed portfolio check is recorded and latched once, and never after a halt |
| `Simulation.SimulationEngine.CostAwareTargetQuantity` | src/trading_bot_lab/backtesting/engine.py:658-729 | the quantity the sizing theorems characterise, from the engine's own cash and holding |
| `Simulation.SimulationEngine.UpdateBook` | src/trading_bot_lab/backtesting/engine.py:581-609 | a fill changes cash, quantity, average cost, realised profit, fees and slippage as the ledger theorems assume, or is refused by one of the two guards with the book untouched |
| `Simulation.SimulationEngine.ApplyFill` | src/trading_bot_lab/backtesting/engine.py:581-656 | an approved fill is booked, journalled and followed by a halt check at the execution mark |
| `Simulation.SimulationEngine.ApplyPendingTarget` | src/trading_bot_lab/backtesting/engine.py:470-656 | sizes the pending target, records the intent and its verdict, and fills it only when approved |
| `Simulation.SimulationEngine.ProcessOpen` | src/trading_bot_lab/backtesting/engine.py:306-341 | takes over the day boundary, marks the open, checks the breakers and only then trades |
| `Simulation.SimulationEngine.CallStrategy` | src/trading_bot_lab/backtesting/engine.py:731-747 | a strategy's signal is used only if it is valid and the call left every protected field unchanged; the fields are restored in every case |
| `Simulation.SimulationEngine.ProcessClose` | src/trading_bot_lab/backtesting/engine.py:342-409 | marks the close, asks for the next target and records the equity point, or fails for a mismatched signal |
| `Simulation.SimulationEngine.ProcessBar` | src/trading_bot_lab/backtesting/engine.py:235-252 | a bar is a transaction: it commits as specified, or raises with every protected field unchanged but for the failure flag, after which every later bar is refused |
| `Simulation.SimulationEngine.ExpirePendingSignal` | src/trading_bot_lab/backtesting/engine.py:217-233 | a pending target is cancelled, with an event once bars have been processed |
| `Simulation.SimulationEngine.ActivateKillSwitch` | src/trading_bot_lab/backtesting/engine.py:211-215 | cancels the pending target and latches the kill switch unless a halt is already latched |
| `Simulation.RunBacktest` | src/trading_bot_lab/backtesting/engine.py:1022-1047 | a batch simulation either reports the first error of the batch run all run theorems speak about, or returns a result with one point per bar, at each bar's time and close and for one symbol throughout, and with that run's orders, decisions, fills, trades, halt and warnings |
| `AuditTheorems.RunIsAudited` | src/trading_bot_lab/backtesting/engine.py:306-656 | what bar i of any run adds to the published journals is determined by the configuration, the strategy, the bars up to i and the journals before, clause by clause: opening mark, order, verdict, fill, checks, target and point |
| `AuditTheorems.RequestDescribesTrade` | src/trading_bot_lab/backtesting/engine.py:531-555 | and the request names the trade's own price, amounts, fee and the exposures before and after it; it reduces risk exactly if it is a sale that lowers the exposure |
| `AuditTheorems.SnapshotDescribesPortfolio` | src/trading_bot_lab/backtesting/engine.py:843-854 | the portfolio handed to the policy is the cash, the position, the equity, the day's result and the peak as they are |
| `RunReports.TargetsAreTraded` | src/trading_bot_lab/backtesting/engine.py:470-609 | over any run a bar intends an order if and only if the point before has a target, nothing is halted and the sizing search finds another quantity than is held; side and size are the difference, a fill leaves exactly that quantity, and without one cash and holding stay |
| `RunReports.FilledToTheGreatestSafe` | src/trading_bot_lab/backtesting/engine.py:470-489 | a filled order leaves the greatest safe quantity if and only if the smaller candidates probed on the way there are safe |
| `RunReports.DaysStartWithLastEquity` | src/trading_bot_lab/backtesting/engine.py:325-327 | over any run a day starts with the initial cash if the run has seen no earlier day, and else with the equity of the last point of the day before; the daily profit is measured from there |
| `RunReports.TargetsFromLatestBars` | src/trading_bot_lab/backtesting/engine.py:366-390 | over any run a point's target is what the strategy makes of the latest bars up to it, as many as the limit allows, and nothing while warming up or halted |
| `RunReports.HaltsWithTheFirstBreach` | src/trading_bot_lab/backtesting/engine.py:856-914 | over any run trading stops with the first breach that the open, the portfolio after a fill, or the close shows, for exactly its reasons in order; the peak is the highest equity of any open and close so far |
| `RunReports.FillsMakeThePortfolio` | src/trading_bot_lab/backtesting/engine.py:581-609 | after any run holding, cash, fees and slippage are what the fills make of the initial cash, and every fill is priced, charged and costed as configured |
| `BarOutcomes.BarErrorExact` | src/trading_bot_lab/backtesting/engine.py:235-252 | a bar fails if and only if an earlier one failed, it is not the next bar, it has no open, or the strategy is asked and raises, tampers, leaves zero to one or signals for something else; with the error for each |
| `BarOutcomes.EventsOfBar` | src/trading_bot_lab/backtesting/engine.py:306-409 | the events of a bar are the bar, every decision it adds with the intent before and the fill behind it, the next target and the new point, in this order |
| `BarOutcomes.CommittedBarHeard` | src/trading_bot_lab/backtesting/engine.py:235-252 | and a committed bar delivers exactly those |
| `BarOutcomes.WarnedForTheFirst` | src/trading_bot_lab/backtesting/engine.py:254-304 | of any events delivered, exactly the first one a sink misbehaves on is warned of, unless one was before |
| `BarOutcomes.CancellationAnnounced` | src/trading_bot_lab/backtesting/engine.py:217-233 | a cancellation clears the target and is announced once bars exist |
| `BarOutcomes.KillAnnounced` | src/trading_bot_lab/backtesting/engine.py:211-215 | a halt by hand cancels first, then latches, and announces each |
| `BarOutcomes.RunRemembers` | src/trading_bot_lab/backtesting/engine.py:566-567 | after any run the engine compares the next order with the last intent on record |
| `Causality.NoLookahead` | src/trading_bot_lab/backtesting/engine.py:306-409 | two runs that agree on the bars before index i and on bar i but for its close have the same intents, intent decisions, fills and trades through bar i, whatever that close and all later bars are |
| `Causality.OpenPhaseIgnoresClose` | src/trading_bot_lab/backtesting/engine.py:306-341 | nothing up to and including a bar's fill depends on its close |
| `Causality.SinkIsInvisible` | src/trading_bot_lab/backtesting/engine.py:254-304 | runs with any sink and without one have the same book, journals and halt whenever both succeed, the sink costing at most one warning; and they fail alike unless the strategy tampers with the engine depending on more than its history |
| `Tampering.SinkMakesTampererFail` | src/trading_bot_lab/backtesting/engine.py:254-304 | for a strategy that tampers once it sees a warning, a run with a raising sink fails where the run without one succeeds |
| `Causality.DeliverAllOnlyWarns` | src/trading_bot_lab/backtesting/engine.py:254-304 | delivering any events to any sink changes nothing but the warnings, by at most one entry and only if there was none of its kind |
| `Causality.ProcessBarEssence` | src/trading_bot_lab/backtesting/engine.py:235-252 | what a bar does depends on the trading state alone, not on sink, warnings or later bars |
| `Causality.RunOneMore` | src/trading_bot_lab/backtesting/engine.py:1022-1047 | a run one bar longer is the shorter run followed by that bar |
| `Causality.RunFailsWithPrefix` | src/trading_bot_lab/backtesting/engine.py:235-252 | once a prefix of the bars fails, the whole run fails with the same error |
| `EngineInvariants.OpenPhaseSound` | src/trading_bot_lab/backtesting/engine.py:470-656 | in every reachable state the open phase succeeds and leaves non-negative cash and quantity and only capped purchases |
| `EngineInvariants.ProcessBarSound` | src/trading_bot_lab/backtesting/engine.py:581-609 | every bar keeps the invariant, and neither fill-path guard (short sale approved, book violated) can fire |
| `EngineInvariants.RunSound` | src/trading_bot_lab/backtesting/engine.py:306-409 | every run keeps the invariant: non-negative book, capped purchases, points within their loss limits, a peak that never falls and is never below equity |
| `EngineInvariants.BatchWithinBothLimits` | src/trading_bot_lab/backtesting/engine.py:1074-1089 | after any batch run, right after every purchase the position's share of equity is within the smaller of the policy's and the configuration's asset and gross caps, and every point not marked halted lost strictly less than both their loss limits |
| `EngineInvariants.HaltFreezesRun` | src/trading_bot_lab/backtesting/engine.py:856-914 | once halted, no run changes the book, the halt with its reasons and time, or any intent, decision, fill or trade |
| `EngineInvariants.CallSound` | src/trading_bot_lab/backtesting/engine.py:211-252 | every public call keeps the invariant, cancellations, kill switch and failed bars included, and none meets the engine's own guards |
| `EngineInvariants.CallsSound` | src/trading_bot_lab/backtesting/engine.py:211-252 | so it holds after any sequence of bars, cancellations and kill switches on a new engine |
| `EngineInvariants.HaltFreezesCalls` | src/trading_bot_lab/backtesting/engine.py:211-252 | once halted, by a breaker or by hand, no sequence of calls trades again or changes the halt |
| `Ledger.FillDrift` | src/trading_bot_lab/backtesting/engine.py:581-609 | a purchase moves the ledger by at most half a quantum and a sale by at most one, each by exactly what rounding left over |
| `Ledger.FillResidue` | src/trading_bot_lab/backtesting/engine.py:581-609 | the residue can be read off the recorded trade and the cost before it |
| `Ledger.PointDrifts` | src/trading_bot_lab/backtesting/engine.py:343-353 | a recorded point differs from the ledger by the book's drift and the rounding of its own mark |
| `Ledger.RunBalanced` | src/trading_bot_lab/backtesting/engine.py:306-409 | after any run every recorded point is explained by the residues of exactly the trades made by its time and by its own mark |
| `Ledger.LedgerIdentity` | src/trading_bot_lab/backtesting/engine.py:343-353 | at every recorded point of any run, equity differs from initial cash plus realised and unrealised profit minus fees by at most half a quantum per purchase, one per sale and one for the mark |
| `Ledger.LedgerExactWithoutRounding` | src/trading_bot_lab/backtesting/engine.py:343-353 | where no trade and no mark had to be rounded the identity is exact |
| `Replay.HistoricalReplaySession.constructor` | src/trading_bot_lab/paper.py:114-145 | a session opens validated, over a fresh engine |
| `Replay.HistoricalReplaySession.MoveTo` | src/trading_bot_lab/paper.py:306-333 | a transition is recorded and published exactly if it is in the legal relation |
| `Replay.HistoricalReplaySession.Start` | src/trading_bot_lab/paper.py:161-163 | starting obeys the lifecycle function, from the validated state only |
| `Replay.HistoricalReplaySession.Pause` | src/trading_bot_lab/paper.py:165-167 | pausing obeys it, from the running state only |
| `Replay.HistoricalReplaySession.Resume` | src/trading_bot_lab/paper.py:169-171 | resuming obeys it, from the paused state only |
| `Replay.HistoricalReplaySession.Stop` | src/trading_bot_lab/paper.py:173-183 | stopping expires the pending target before it moves |
| `Replay.HistoricalReplaySession.ActivateKillSwitch` | src/trading_bot_lab/paper.py:185-197 | the kill switch latches the engine before the session halts |
| `Replay.HistoricalReplaySession.FailRuntime` | src/trading_bot_lab/paper.py:249-267 | a runtime failure expires the pending target and ends the session as failed |
| `Replay.HistoricalReplaySession.Step` | src/trading_bot_lab/paper.py:199-222 | a step processes one bar and then fails, halts, completes or goes on as the lifecycle function says |
| `Replay.HistoricalReplaySession.RunToCompletion` | src/trading_bot_lab/paper.py:224-247 | running to completion is starting or resuming, then stepping as long as the session runs and no wait raises; a wait that raises ends it as a runtime failure, and it reports what the last call raised |
| `ReplayCalls.LegalMoves` | src/trading_bot_lab/paper.py:46-79 | the legal moves, one by one |
| `ReplayCalls.CallsFollowTable` | src/trading_bot_lab/paper.py:161-267 | each public call from each status: where it leads, which transition it records at which time, what it does to engine, cursor and failure, what the sink hears of it, and when it is refused or does nothing |
| `ReplayCalls.OpensValidated` | src/trading_bot_lab/paper.py:114-145 | a session opens validated before its first bar, over a new engine, and announces both states |
| `ReplayLifecycle.OpenLegal` | src/trading_bot_lab/paper.py:114-145 | a fresh session is validated and its lifecycle legal |
| `ReplayLifecycle.ApplyLegal` | src/trading_bot_lab/paper.py:161-267 | whatever strategy and sink do, every public call keeps the lifecycle legal, never meets the illegal-transition error, and changes nothing in a terminal state |
| `ReplayLifecycle.LifecycleLegal` | src/trading_bot_lab/paper.py:46-79 | over every sequence of public calls the recorded transitions form a connected legal path to the current status, running or paused implies not halted and bars left, completed implies all bars processed, and no pending target survives an end other than a failed bar |
| `ReplayTheorems.OpenSound` | src/trading_bot_lab/paper.py:114-145 | a fresh session has recorded what the batch run has before its first bar |
| `ReplayTheorems.ApplySound` | src/trading_bot_lab/paper.py:161-267 | for any strategy, every public call keeps the session legal and its record that of the batch run over the bars processed so far, if that gets so far |
| `ReplayTheorems.LifecycleSound` | src/trading_bot_lab/paper.py:46-79 | so does every sequence of public calls |
| `RunRecords.RunGrows` | src/trading_bot_lab/backtesting/engine.py:306-409 | every journal of a shorter run is a prefix of the longer run's |
| `RunRecords.RunFollowsBars` | src/trading_bot_lab/backtesting/engine.py:306-409 | a run that succeeds has one history entry and one point per bar, in order, at the bar's time and close, and one symbol throughout |
| `ReplaySafety.LifecycleSafe` | src/trading_bot_lab/paper.py:161-267 | whatever strategy and sink do, after any sequence of public calls the engine keeps its invariant and has recorded exactly the bars processed, and a session halted by its breakers ends at the first halted point of its curve |
| `ReplaySafety.BarSafe` | src/trading_bot_lab/paper.py:199-222 | a bar adds its own record, and if it halts the engine no earlier point was halted |
| `ReplayTheorems.ReplayRefinesBatch` | src/trading_bot_lab/paper.py:161-247 | under any schedule a replay has recorded what the batch run records over the same bars; if the batch run succeeds, for any strategy, its journals are prefixes of that run's, a completed replay equals it, and a risk-halted one ends at its first halted point; where tampering is decided by the history, one that failed on a bar fails as the batch run does |
| `Tampering.ReplayMakesTampererFail` | src/trading_bot_lab/paper.py:199-222 | for a strategy that tampers once it sees a warning, a replay fails on a bar that the batch run processes |
| `JsonText.JsonObjectIsComplete` | src/trading_bot_lab/parity/lean.py:169-192 | the byte loop decides completeness, as the scanner theorems characterise it |
| `JsonText.PrintBalanced` | src/trading_bot_lab/parity/lean.py:97-106 | the compact text of any value, with any escapes inside its strings, brings the scanner back to the depth it started at and never completes on the way |
| `JsonReader.ParseRoundTrip` | src/trading_bot_lab/parity/lean.py:97-106 | a reader of bytes alone gets back exactly the value from the compact text of any value, with nested arrays and objects, every escape, numbers and literals |
| `JsonReader.PrintInjective` | src/trading_bot_lab/parity/lean.py:97-106 | two values have the same compact text if and only if they are the same |
| `CanonicalJson.DecodedIffCanonical` | src/trading_bot_lab/parity/lean.py:195-247 | a payload is decoded to a value if and only if that is an object whose keys ascend without repetition at every depth and the payload is its compact text |
| `JsonText.CompleteExactlyAtTheEnd` | src/trading_bot_lab/parity/lean.py:169-192 | for every object value, of all non-empty prefixes of its compact text exactly the whole text is complete (RFC 8259, sections 4, 5 and 7) |
| `JsonText.PrintPrintable` | src/trading_bot_lab/parity/lean.py:97-106 | compact ASCII text contains no line ending, so it can be cut into lines anywhere |
| `LogReader.ReadFromData` | src/trading_bot_lab/parity/lean.py:109-117 | a bounded read stops at a line feed, at the limit or at the end of the data |
| `LogReader.SkipRest` | src/trading_bot_lab/parity/lean.py:117-121 | the rest of an over-long line is consumed to its end |
| `LogReader.ReadWrappedPayload` | src/trading_bot_lab/parity/lean.py:143-158 | the continuation loop yields the payload the reader theorems characterise and leaves the handle behind it |
| `LogReader.ReadPayload` | src/trading_bot_lab/walk_forward/observation.py:613-678 | both readers, with and without a total bound, return what the reader theorems characterise |
| `LogTheorems.NoiseSkipped` | src/trading_bot_lab/parity/lean.py:109-130 | a line without the prefix is skipped whole, however many chunks it takes to read |
| `LogTheorems.WrappedPayloadRead` | src/trading_bot_lab/parity/lean.py:143-158 | continuation lines are joined exactly up to the end of the object |
| `LogTheorems.WrapRoundTrip` | src/trading_bot_lab/parity/lean.py:109-166 | for any split of an object's compact text over lines with either line ending, the last one unfinished if the log ends there, among any other lines and before any unfinished last line, the reader returns exactly that text |
| `CanonicalJson.ObservationRoundTrip` | src/trading_bot_lab/parity/lean.py:53-66 | an object wrapped into a log by any writer is what reading and decoding that log gives |
| `LogTheorems.LimitsHold` | src/trading_bot_lab/walk_forward/observation.py:613-678 | no log and no payload over its limit is accepted, and no log is called too large that is not |
| `LogTheorems.EmptyPayloadRefused` | src/trading_bot_lab/parity/lean.py:131-134 | the prefix alone on its line is refused as an empty payload |
| `LogTheorems.PrefixesSpelled` | src/trading_bot_lab/walk_forward/observation.py:31-36 | the two prefixes and limits, letter by letter |
| `LogTheorems.NoObservationReported` | src/trading_bot_lab/parity/lean.py:136-140 | a log without the prefix is reported as holding no observation |
| `LogTheorems.SecondObservationRefused` | src/trading_bot_lab/walk_forward/observation.py:633-637 | a second prefixed line after a complete observation is refused, wherever it comes, however long it is, and unfinished at the end of the log too |
| `LogTheorems.FixedFormatsAreGood` | src/trading_bot_lab/walk_forward/observation.py:31-43 | both fixed formats meet what the reader theorems ask of a format |
| `DecimalTheorems.CanonicalRoundTrip` | src/trading_bot_lab/walk_forward/observation.py:167-189 | reading the canonical text of any decimal within bounds gives back its value and publishes the same text again |
| `DecimalTheorems.CanonicalTextIffValue` | src/trading_bot_lab/walk_forward/observation.py:167-189 | two published decimals share a text exactly when they are equal in value |
| `DecimalTheorems.SameValueSameText` | src/trading_bot_lab/walk_forward/observation.py:167-189 | the text, or its refusal, depends on the value alone |
| `DecimalTheorems.AcceptedExactly` | src/trading_bot_lab/walk_forward/observation.py:938-953 | a text is accepted exactly if it is short enough, has the pattern and is within the exponent bound, and is then reproduced character by character |
| `DecimalTheorems.AcceptedIffPublished` | src/trading_bot_lab/walk_forward/observation.py:938-953 | the strict reader accepts the published texts and nothing else |
| `DecimalTheorems.RefusedExactly` | src/trading_bot_lab/walk_forward/observation.py:167-189 | a decimal is not published if and only if it is beyond 10^100 either way or takes more than 128 characters |
| `DecimalTheorems.SpelledMatches` | src/trading_bot_lab/walk_forward/observation.py:43-43 | every published text has the reader's pattern |
| `DecimalTheorems.PatternIsSpelled` | src/trading_bot_lab/walk_forward/observation.py:43-43 | every text of the pattern is the text of the decimal it reads as |
| `DecimalTheorems.AdjustedLocates` | src/trading_bot_lab/walk_forward/observation.py:182-183 | the bound on the adjusted exponent is a bound on the size of the value between powers of ten |
| `DecimalTheorems.ParityRoundTrip` | src/trading_bot_lab/parity/contract.py:176-208 | a parity text is always accepted and reads as the value rounded to 28 significant digits; the value survives exactly if 28 digits can hold it |
| `DecimalTheorems.ParityTextIffRounded` | src/trading_bot_lab/parity/contract.py:176-193 | two decimals share a parity text exactly when they round to the same 28-digit value |
| `DecimalTheorems.ParityTextIffValue` | src/trading_bot_lab/parity/contract.py:176-193 | equal decimals share a parity text, and those of at most 28 digits only then |
| `Decimals.RoundingExactIff` | src/trading_bot_lab/parity/contract.py:188-193 | context rounding keeps a value exactly when 28 significant digits can hold it |
| `Decimals.RoundingRespectsValue` | src/trading_bot_lab/parity/contract.py:188-193 | context rounding does not depend on trailing zeros |
| `ExactSum.ExactDecimalSum` | src/trading_bot_lab/walk_forward/result_json.py:1391-1407 | the sum of any decimals equals their true total, at the smallest exponent |
| `ExactSum.DecimalDifferenceExceeds` | src/trading_bot_lab/walk_forward/result_json.py:1410-1412 | the test decides exactly whether two amounts differ by more than the tolerance |
| `ExactSum.TotalIgnoresOrder` | src/trading_bot_lab/walk_forward/result_json.py:1391-1407 | the total does not depend on the order of its inputs |
| `OrderEvents.ValidateOrdersAndEvents` | src/trading_bot_lab/walk_forward/result_json.py:671-775 | the validator accepts exactly the acceptable results, with the position, counts and true fee total they imply, and takes the orders-only path without events |
| `OrderAcceptance.AcceptedIffFits` | src/trading_bot_lab/walk_forward/result_json.py:671-768 | a result with events is accepted if and only if its records are few and distinct, every order is in USD for SPY within the days of the fold with its value within a cent of quantity times price, every event fits its status, the fills add up for each order, and no position in (time, id) order is negative; sums and products rounded to 28 digits |
| `OrderAcceptance.AcceptedIffFilledFits` | src/trading_bot_lab/walk_forward/result_json.py:778-809 | without events it is accepted if and only if every such order is filled at a price within the fold and no position is negative |
| `OrderAcceptance.FilledCounted` | src/trading_bot_lab/walk_forward/result_json.py:755-760 | the completed orders reported are the filled ones |
| `OrderAcceptance.PositionReported` | src/trading_bot_lab/walk_forward/result_json.py:764-768 | the position reported is what the fills add up to in (time, id) order |
| `OrderAcceptance.OwnPositionReported` | src/trading_bot_lab/walk_forward/result_json.py:797-801 | and without events what the orders add up to by the time of their last fill |
| `OrderAcceptance.OwnSummaryReported` | src/trading_bot_lab/walk_forward/result_json.py:802-808 | without events every order counts as completed and no fees are reported |
| `OrderAcceptance.WorthTruly` | src/trading_bot_lab/walk_forward/result_json.py:706-707 | where 28 digits hold product and difference, the value is off by at most a true cent |
| `OrderEvents.ValidateCompletedOrdersWithoutEvents` | src/trading_bot_lab/walk_forward/result_json.py:778-809 | the orders-only path accepts exactly fully filled orders whose position never goes short |
| `OrderEvents.AddUpEvents` | src/trading_bot_lab/walk_forward/result_json.py:722-752 | the loop over events ends with every order's own fill total and all fees, or refuses an unacceptable event |
| `OrderEvents.WalkPositions` | src/trading_bot_lab/walk_forward/result_json.py:764-768 | the position loop accepts exactly if no position in (time, id) order is short |
| `OrderTheorems.FillsConserved` | src/trading_bot_lab/walk_forward/result_json.py:722-775 | on acceptance the final position is the sum of all fill events, every filled order is filled by its own events exactly, other orders not at all, and no prefix is short, for fills on a common grid that total at most 10^28 steps of it |
| `OrderTheorems.FillsConservedOnOwnGrid` | src/trading_bot_lab/walk_forward/result_json.py:722-775 | no grid need be given: the same for fills that total at most 10^28 steps of their own smallest exponent |
| `OrderPrecision.ConservationReach` | src/trading_bot_lab/walk_forward/result_json.py:750-768 | on every grid, all accepted results up to some total conserve the position, and fill every order by its own events, if and only if that total is at most 10^28 steps |
| `OrderPrecision.RoundedFillsPass` | src/trading_bot_lab/walk_forward/result_json.py:747-763 | one step beyond, a concrete result whose fills total 10^28 + 1 is accepted for an order of 10^28 |
| `OrderPrecision.HugeSumRounds` | src/trading_bot_lab/walk_forward/result_json.py:750-751 | a few steps beyond 10^28, a 28-digit addition rounds to the nearest ten of them |
| `OrderPrecision.PathsAgree` | src/trading_bot_lab/walk_forward/result_json.py:778-809 | on fully filled data that total at most one step more than 10^28 of a grid, the orders-only path ends with the same position as the path through the events |
| `OrderPrecision.AgreementReach` | src/trading_bot_lab/walk_forward/result_json.py:778-809 | on every grid the two paths agree for all orders up to a total if and only if that total is at most 10^28 + 1 steps |
| `OrderPrecision.PathsDisagree` | src/trading_bot_lab/walk_forward/result_json.py:778-809 | for orders of 10^28, one and minus one step both paths accept and end one step apart |
| `OrderTheorems.RunningExactIff` | src/trading_bot_lab/walk_forward/result_json.py:750-751 | 28-digit accumulation is exact at every point, if and only if 28 digits hold every true partial total |
| `OrderTheorems.MeasuredAccumulates` | src/trading_bot_lab/walk_forward/result_json.py:750-751 | in particular for quantities on one decimal grid that total at most 10^28 of its steps |
| `OrderTheorems.SortedArranges` | src/trading_bot_lab/walk_forward/result_json.py:764-765 | positions are formed in (time, id) order, of exactly the given fills |
| `RunBudget.HistoriesAccepted` | src/trading_bot_lab/lean_runtime.py:839-879 | a state of zero to seven executions and at most one pull is loaded; one more is counted only from five or six with one pull |
| `RunBudget.StepSound` | scripts/run_lean_parity_local.py:546-557 | every step of every operator, crashes included, keeps the budget invariant |
| `RunBudget.ExecutionSound` | scripts/run_lean_parity_local.py:546-557 | so does every interleaving of any number of operators |
| `RunBudget.BudgetHolds` | src/trading_bot_lab/lean_runtime.py:829-904 | from five executions and one pull: at most one operator is inside, the persisted count is five plus the reservations, launches are at most reservations are at most two, and run numbers never repeat |
| `RunBudget.RefusedHistoriesNeverRun` | src/trading_bot_lab/lean_runtime.py:860-869 | any other or spent history is never counted, rewritten or launched |
| `RunBudget.CrashBlocksForever` | src/trading_bot_lab/lean_runtime.py:879-904 | an operator that crashes inside the lock blocks every later run: nothing is counted or launched again |
| `RunBudget.CrashIsReachable` | src/trading_bot_lab/lean_runtime.py:879-904 | from five executions and one pull, taking the lock and crashing reaches a state in which nothing is counted or launched ever again, with the whole budget left |
| `RunBudget.RunsAgainIff` | src/trading_bot_lab/lean_runtime.py:829-904 | in every reachable state another run can still be counted if and only if there is budget left and no operator has crashed inside the lock |
| `RunBudget.LaunchesAgainIff` | src/trading_bot_lab/lean_runtime.py:829-904 | and another launch can follow if and only if a counted run is pending or another run can be counted |
| `RunLean.ExclusiveRunLock.Enter` | src/trading_bot_lab/lean_runtime.py:886-897 | entering succeeds exactly if no lock file exists, and then creates it |
| `RunLean.ExclusiveRunLock.Exit` | src/trading_bot_lab/lean_runtime.py:899-904 | leaving removes the lock file only if this lock created it |
| `RunLean.Run` | scripts/run_lean_parity_local.py:546-557 | one undisturbed run locks, loads, counts, persists, launches and unlocks exactly as the interleaving model's steps do |
| `RunLean.RunOutcome` | src/trading_bot_lab/lean_runtime.py:829-904 | with the lock free, five or six runs and one pull on record an undisturbed run is counted, launched unless preparing it fails, and unlocked; from any other files nothing changes |

## Left out

- Binary floating point, infinities and NaN: amounts are exact and rounded explicitly, so the finiteness and type checks of the code have no counterpart.
- Order metrics, event payload fields and warning texts: decisions carry their reasons, events their kind and time, a sink warning only whether the sink raised.
- Session, fill and intent digests and the provenance metadata: an intent is identified by the tuple its text encodes, fills by their intent.
- Bar high, low and volume, and symbol normalisation: the engine only hands these on, and symbols are compared as already normalised.
- The checks an engine makes on its bar list before the first bar: each bar is still checked against the list, the symbol, the timeframe and its predecessor when it is processed.
- Simulation.RunBacktest: the summary, the benchmark comparison other than its purchase, and the metadata of the result.
- Report exporters, structured logging and the command line.
- Sinks and strategies that call back into the engine or the session, and objects the engine holds only by reference: histories, bars and signals are values.
- Moving-average strategies: a strategy is any function of the history it sees.
- Docker, registry, container and authorization checks around a LEAN run: a step that may raise stands for all of them.
- Decoding of JSON result files into orders and events, and the bounds on their single fields: the reconciliation starts from decoded records.
- Overflow of the decimal context's exponent range in parity texts.
- The schema and private-metadata checks of a decoded payload; numbers are compared as texts, and strings have no lone surrogates.
- SizingTheorems.BuyHeadroomAntitone: a step of the purchase theorem, for limits above one only where a unit is worth a whole quantum.
- SizingTheorems.BuySafeSetDownwardClosed: a step of the purchase theorem, under its condition on the price.
- SizingTheorems.BuySizingFindsGreatestSafe: for units worth more than half a quantum, and for targets within the tolerance of one at least a whole one; where these fail so does the search, see `SizingExactness`; `SearchExactIff` is the condition for a single book.
- SizingTheorems.SellCashAntitone: one step of the sale theorem, under its condition on what a unit nets.
- SizingTheorems.SellSafeSetDownwardClosed: the same, and for limits below one or a sale that leaves cash.
- SizingTheorems.SellSizingFindsGreatestSafe: for units that net more than a quantum, or no rate fee; no lower bound would do, see `SellSearchExactIffUnitNetsAQuantum`; on a single book `SearchExactIff` is the condition.
- SizingTheorems.SellSizingInsideBand: the case of visible units and a sale that leaves cash; `BandSearchExactIff` has no such condition.
- MirrorSizing.MirrorNeverAboveEngine: for prices on the money grid of at least two quanta, as the fixture's are.
- MirrorPrecision.ComputeMirrorQuantity: that the adapter raises for amounts of 10^28 quanta or more, which its eight-place quantum cannot hold.
- MirrorPrecision.PrecisionSuffices: for equity times the decimals of the weight below 10^27 quanta, which with weights of up to five decimals is 10^14 units of money.
- MirrorSnapshot.MirrorValuesLikeEngine: for sessions on a new date and money precision eight, as the fixture's are, and amounts of at most 28 digits.
- MirrorSnapshot.MirrorForeseesOpenHalt: for the same sessions, and limits whose decimals fit into 28 digits beside the equity.
- Causality.SinkIsInvisible: that runs fail alike is stated for strategies whose tampering with the engine depends on the history they were given; for others it can fail, see `SinkMakesTampererFail`.
- ReplayTheorems.ReplayRefinesBatch: that a replay fails on a bar only if the batch run does is stated for such strategies; `ReplayMakesTampererFail` is another.
- Replay.HistoricalReplaySession.RunToCompletion: waiting between bars is a parameter that says whether the wait raises, and the summary it returns is not modelled.
- OrderTheorems.FillsConserved: for quantities that total at most 10^28 steps of a common grid; `ConservationReach` shows that no larger total would do.
- DecimalTheorems.ParityRoundTrip: spellings other than plain digits with an optional sign and point are not parsed; no parity text has such a spelling, so the code refuses them too.

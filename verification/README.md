# Project Lux: a verified model

Project Lux trades one pair across two venues: UMC shares at IBKR against CCF futures at Fubon. It watches the spread
between them, scores it against a rolling window, enters when the score is extreme and exits when it has crossed over.
This Dafny project models the parts where money, positions or messages can go wrong, and proves what they guarantee.

## What is modelled

| files | what they cover |
|---|---|
| `Intent`, `Coordinator`, `Exposure`, `FaithfulVenues` | the live two-leg protocol against adversarial brokers: a broker is a hidden position plus a tape of whatever it does and answers, and the theorems hold for every tape |
| `ExecutedPosition`, `LiveExecution`, `LiveDecisions` | the position made from fills, and strategy, live bar handler, coordinator and venues composed into one alignment invariant over whole runs |
| `Sizing`, `StrategyModel`, `Strategy`, `StrategyLaws`, `BarLaws` | sizing, fees, the strategy as an object updated in place, and what each of its steps keeps |
| `Indicator`, `TradableSpread` | the rolling window, a statistical bound on every score, and the executable spreads |
| `StateJson`, `Store`, `ReplayModel`, `ReplayLaws`, `Runner`, `SignalledFills`, `TradeBook` | save and load, the tables, replay split over any number of processes that stop or die anywhere, and its orders and equity rebuilt from its trades |
| `Reconciliation`, `RecoveryModel`, `RecoveryLaws`, `SettlementLaws`, `Recovery` | reconciliation, manual-flat recovery, clear-pause and settlement of a manual close |
| `StoreLife`, `StrandedCloses` | the life of a store from empty: paper and live steps and operator commands in any order; which waiting closes can still be settled |
| `FillListener`, `FubonAdapter`, `FubonConfirmation`, `IbkrAdapter` | fill callbacks with late keys, the merge of callbacks, polling and position, the Fubon adapter put together from them, and the classification of a UMC order; when each adapter keeps the contract the coordinator relies on |
| `WorkerRpc` | request and reply over a pipe to a worker that may stall or die, and two facades with different timeout rules |
| `MinuteBars`, `Recall`, `ContractCalendar`, `Candles` | minute bars, the recall unwind, the calendar searches, candle aggregation |

Objects that the program updates in place are classes whose methods are proved equal to functions of the old state; the
theorems are about those functions. Numbers are exact reals. Times are whole seconds, or real seconds where quotes are
compared. The environment is a parameter: brokers and workers are functions from the number of the call to whatever
happens during it, and every theorem quantifies over them.

## What the proofs found

- The README's `long >= mid >= short` is not universal. The mid uses trade prices, which can lie outside their books;
  the exact condition is a cross-product test (`TradableSpread.MidBetweenExactlyWhen`, `MidCanEscape`).
- An adapter that fills its CCF order and then raises leaves the leg open with no event
  (`Exposure.SilentExposureExists`); what can be left behind is exactly what went unreported.
- The imbalanced-pair branch of the coordinator cannot be reached with truthful venues at the default tolerance.
- UMC trades whole shares, so a filled entry is up to a share short of the plan. Taking the position from the fills is
  what keeps strategy and venues equal, and a position in whole shares is what keeps every exit exact
  (`LiveExecution.FilledEntryIsHeld`, `LiveExitAligned`); fills that make no position cannot occur.
- A replay process that dies between the commit of the last bar and the commit of its finalisation leaves an open or
  pending position that no later process ever closes (`ReplayLaws.DeathLosesTheClose`); that is the only interruption
  that changes the story (`ReplayLaws.AnySplitTellsTheStory`).
- A store can hold two waiting manual closes, and settling the newer one strands the older
  (`StrandedCloses.StrandingHappens`). A waiting close can be settled exactly while the PnL is pending and no newer one
  waits (`StrandedCloses.SettleableExactlyWhen`).
- A ledger repair after a contract roll is refused by the row key (`StrandedCloses.RollRefusesRepair`), exactly when a
  correction it needs falls on a venue corrected under another symbol (`RecoveryLaws.RepairRefusedExactlyWhen`).
- The search for a settlement's exit price is said to converge on its first pass. Under the default fee model it does
  not: each pass leaves the fee rate's share of what was unexplained
  (`RecoveryLaws.FirstPassMisses`, `FirstPassSufficesExactlyWhen`).
- A signalled exit is booked at its bar's open, but its recorded fills carry the close. Equity is the cash of the fills
  only after adding that move for each such exit (`TradeBook.EquityIsCash`, `ProfitIsCash`).
- Market-data replies are paired with their requests on every schedule exactly when the limit is one timeout. With the
  default of two, one slow reply makes every later call return the previous call's answer, and the worker is never
  recycled (`WorkerRpc.PairedExactlyWhen`, `OneSlowReplyMispairsForever`).
- Closing the execution facade never sends its close request, because the closed flag is set first.
- Both adapters can report FILLED for more than was asked for (`FubonConfirmation.OverfillBreaksContract`,
  `IbkrAdapter.OverfillBreaksContract`). With whole fills at positive prices that is the only way either breaks the
  coordinator's contract, and the inputs on which it happens are exactly known
  (`FubonConfirmation.KeepsContractExactlyWhen`, `IbkrAdapter.KeepsContractExactlyWhen`).

## Model

| member | source | states |
|---|---|---|
| `Intent.ValidateLivePlan` | lux_trader/execution/real_coordinator.py:631-742 | the recorded verdict is VALIDATED iff the plan has one acceptable market leg per venue; every other field is kept, and all checks pass iff it is sendable |
| `Intent.LivePlanHasBothLegs` | lux_trader/execution/real_coordinator.py:82-98 | once a plan passes the live checks both single legs exist, so the missing-leg rejection that follows is dead code |
| `Intent.ValidateDryRun` | lux_trader/execution/intent.py:98-274 | the dry-run verdict is VALIDATED iff live orders are off, one priced leg per venue carries the plan's moment and side, CCF is whole lots of the active symbol, and any price policy left its book behind |
| `Intent.DryRunImpliesLive` | lux_trader/execution/intent.py:98-274 | whatever passes the dry-run checks passes the live ones too |
| `Coordinator.RealExecutionCoordinator.Execute` | lux_trader/execution/real_coordinator.py:56-257 | the imperative run equals the protocol function on every broker tape; orders go out iff the plan passes the live checks and each venue answers with what the plan needs to find; exactly one plan, one outcome and the run's events are recorded |
| `Coordinator.RealExecutionCoordinator.VerifyPlanAgainstBroker` | lux_trader/execution/position_guard.py:81-157 | one position query per leg, in order; passes iff every broker answers and its answer is within tolerance of zero for an entry, and of what the exit's own order brings to zero for an exit |
| `Coordinator.RealExecutionCoordinator.HandleExposureBreach` | lux_trader/execution/real_coordinator.py:408-491 | sends one reversing order per exposed leg and asks for a human after each one that is not FILLED |
| `Coordinator.RealExecutionCoordinator.SecondLegMoved` | lux_trader/execution/real_coordinator.py:511-534 | the leg is said to have moved, not moved, or unknown, from the two readings |
| `Coordinator.RealExecutionCoordinator.SendLegs` | lux_trader/execution/real_coordinator.py:117-257 | CCF first, UMC only after CCF reported FILLED, then the branch the readings call for |
| `Coordinator.SendsExactlyWhen` | lux_trader/execution/real_coordinator.py:82-187 | anything is sent iff the plan was recorded and every leg's answer clears it, at any tolerance; then CCF goes first as planned, UMC follows iff CCF reported FILLED, and all else are remedies; otherwise the run is a rejection |
| `Exposure.ProtocolAccounted` | lux_trader/execution/real_coordinator.py:56-257 | on every tape whose adapters keep their contract (fills belong to the leg, UMC reports whole shares, FILLED sums to every CCF lot or every whole UMC share of the leg): the only message orders possible, each leg sent once plus at most one reversal each, the outcome reports every fill, positions are conserved, and exactly when a human is called |
| `Exposure.ExposureSafety` | lux_trader/execution/real_coordinator.py:97-257 | on every tape of results, exceptions and readings under that contract the outcome is FILLED, or its reported signed fills net to zero on both instruments, or critical_manual_intervention_required was recorded; not FILLED iff PAUSED is recommended |
| `Exposure.QuietFailureResidual` | lux_trader/execution/real_coordinator.py:554-612 | after a failed run that called nobody, each venue holds its opening position plus third-party drift plus exactly what our orders did without reporting it |
| `Exposure.SilentExposureExists` | lux_trader/execution/real_coordinator.py:381-406 | a result against the code: an adapter that fills and then raises leaves the whole CCF leg open with no event recorded |
| `Exposure.ReversalOnlyOnEvidence` | lux_trader/execution/real_coordinator.py:188-257 | after CCF filled and UMC did not, CCF is reversed iff both UMC readings exist and agree within tolerance; otherwise nothing more is sent and a human is called |
| `Exposure.ReversalRestoresPositions` | lux_trader/execution/real_coordinator.py:408-534 | with truthful venues and no drift a successful reversal puts CCF back exactly and UMC within tolerance; the imbalanced-pair branch needs UMC fills within tolerance, so it is dead at the default tolerance of zero |
| `ExecutedPosition.PositionSizingFromFills` | lux_trader/execution/position.py:19-64 | the imperative sizing equals the specification, refusals in the order the code checks them |
| `ExecutedPosition.VolumeWeightedPrice` | lux_trader/execution/position.py:91-102 | the accumulating loop computes total value over total quantity, refusing an empty quantity or a price that is not positive |
| `ExecutedPosition.PriceAmongFills` | lux_trader/execution/position.py:91-102 | the volume-weighted price lies between any bounds on the fill prices |
| `ExecutedPosition.SizedExactlyWhen` | lux_trader/execution/position.py:19-117 | fills make a position iff UMC nets above 1e-12, CCF is whole lots within tolerance, the sides match the direction and CCF prices are positive; the empty-quantity refusal can never be the reason |
| `ExecutedPosition.SizedWorth` | lux_trader/execution/position.py:66-117 | such a position counts its lots in units and is worth them at the volume-weighted CCF price |
| `LiveExecution.PairPlanSendable` | lux_trader/execution/intent.py:402-452 | orders for a directed pair, entry or exit, always make a plan the live checks accept, whose legs add exactly the signed amounts and close exactly the position held |
| `LiveExecution.QuietFailureRestores` | lux_trader/execution/real_coordinator.py:97-257 | with transparent venues and zero tolerance an unfilled run that called nobody left both positions exactly as found |
| `LiveExecution.FilledEntryIsHeld` | lux_trader/execution/position.py:19-64 | a FILLED entry leaves the venues holding the CCF lots and the whole shares of the UMC leg, less than one share short of what was asked; sizing from its fills always succeeds with exactly what is held |
| `LiveExecution.LiveEntryAligned` | lux_trader/runtime/live/modes.py:1279-1429 | a live entry attempt keeps strategy position equal to broker position whatever happens; it opens iff it filled, at the wanted size less the unsent fraction of a share, and fills that make no position cannot occur; money is kept |
| `LiveExecution.LiveExitAligned` | lux_trader/runtime/live/modes.py:1432-1506 | a FILLED exit leaves CCF at zero and of UMC only the fraction it could not send; an unfilled one leaves position and brokers as they were, PAUSED; both sides agree afterwards iff it did not fill or the held UMC was whole |
| `FaithfulVenues.FaithfulPlanFills` | lux_trader/execution/real_coordinator.py:97-187 | for every sendable plan of at least one share, entry or exit, there are venues on which it fills transparently: an entry leaves its lots and whole shares, an exit, from venues holding exactly the pair, only the fraction it cannot send |
| `LiveExecution.HandleBarOk` | lux_trader/runtime/live/modes.py:755-846 | on any venues at all a live minute keeps the state well formed and moves realised PnL by what is booked give or take the open entry fee |
| `LiveExecution.HandleBarAligned` | lux_trader/runtime/live/modes.py:755-914 | a live minute (forced exit, gate, pending entry or exit, fresh signal, pause after a confirmed mismatch) keeps strategy and broker positions equal and whole when venues are transparent and no human was called |
| `LiveDecisions.MinuteDecides` | lux_trader/runtime/live/modes.py:755-914 | what a live minute does, as an iff on its inputs: an exit goes out iff one is forced, pending or called by the score, under the forced reason first; an entry iff one is pending or called, the gate is open, the call is in time and the size comes to a contract; otherwise nothing is asked, a due entry is cancelled and any other minute moves nothing. It also says what the venues see, what the outcome makes of the state, and that a confirmed mismatch pauses |
| `LiveDecisions.ClosedGateSendsNoEntry` | lux_trader/runtime/live/modes.py:799-842 | with the entry gate closed no order but a remedy ever carries an entry, and a pending entry ends FLAT |
| `LiveDecisions.PairIsAskedFor` | lux_trader/execution/real_coordinator.py:97-257 | a pair the strategy orders is sent iff CCF goes first and both venues answer with nothing, before an entry, or the position to be closed, before an exit; first the signed CCF lots, then the signed UMC units iff CCF reported FILLED |
| `LiveExecution.AlignedForever` | lux_trader/runtime/live/modes.py:755-914 | by induction over any run of live minutes, contract changes, pauses and their lifting, filled or not, what the strategy believes is what the brokers hold, in whole UMC shares |
| `Sizing.SizePositionForDirection` | lux_trader/core/sizing.py:15-57 | the two legs are worth opposite amounts at the sizing prices, in whole contracts, with the signs the direction asks for |
| `Sizing.ContractCount` | lux_trader/core/sizing.py:15-36 | the configured lots, or the whole number nearest to the notional over one contract's value; none iff no lots are set and that is below half |
| `Sizing.SizesWantedLots` | lux_trader/core/sizing.py:15-57 | nothing is sized iff no lots are set and the notional is worth less than half a contract; otherwise the wanted lots, with the notional they are worth |
| `Sizing.CostsPerContract` | lux_trader/core/fees.py:51-85 | the UMC rate on its value, one fee per contract, and per contract the same tax, the whole number nearest to the rate on its value |
| `Sizing.CostsAdd` | lux_trader/core/fees.py:51-85 | a fill made in two parts at one price costs exactly what it costs at once |
| `Strategy.PaperBroker.PlaceOrder` | lux_trader/brokers/paper.py:18-37 | exact fill of the request under ids made of row and counter; both counters advance by one |
| `Strategy.PairStrategy.OnBar` | lux_trader/core/strategy.py:257-343 | the in-place update equals the step function, and its orders and fills are the broker's answers to the step's requests |
| `Strategy.PairStrategy.Finalize` | lux_trader/core/strategy.py:345-365 | a pending entry is cancelled, a held position closed and marked FORCED_CLOSED; nothing changes when there is neither |
| `Strategy.PairStrategy.ForceExit` | lux_trader/core/strategy.py:367-381 | a held position is closed for the given reason and booked; without one nothing changes and nothing is returned |
| `Strategy.PairStrategy.ApplyEntryExecution` | lux_trader/core/strategy.py:478-549 | position, prices and open trade come from the sizing and the bar, realised PnL falls by the entry fees, and the candidate is cleared |
| `Strategy.PairStrategy.ApplyExitExecution` | lux_trader/core/strategy.py:587-683 | position and marks are cleared, realised PnL gains the gross less the exit fees, and the trade carries both ends of the fees |
| `StrategyLaws.OnBarOk` | lux_trader/core/strategy.py:257-343 | from any well-formed state a bar reaches no ERROR, moves realised PnL by what is booked give or take the open entry fee, and its orders equal the change of position; drawdown is never positive |
| `StrategyLaws.FinalizeOk` | lux_trader/core/strategy.py:345-365 | the same at end of data, which leaves nothing held or pending and acts iff something was |
| `StrategyLaws.ForceExitOk` | lux_trader/core/strategy.py:367-381 | a forced exit happens iff a position is held and then leaves FLAT |
| `StrategyLaws.EntryIsNeutral` | lux_trader/core/strategy.py:425-549 | an entry is market neutral at its fill prices, in the direction signalled, within the delay limit |
| `ReplayLaws.SignalsExactlyWhen` | lux_trader/core/strategy.py:303-343 | at every row of every replay a flat strategy pends an entry iff entries are allowed, the window is full and the spread lies more than entry_z deviations from the window mean, and an open one signals an exit iff closing is allowed and it lies more than exit_z deviations on the other side |
| `ReplayLaws.EveryTradeCrosses` | lux_trader/core/strategy.py:257-365 | over every replay every trade was signalled by a score beyond entry_z on an earlier bar than it filled on; one a score closed was closed by a later score beyond exit_z on the other side of zero, filled on a bar after that: signal, entry, exit signal and exit are four bars in order |
| `BarLaws.OnBarAnswers` | lux_trader/core/strategy.py:257-343 | what one bar makes of every well-formed state: FLAT pends an entry on a score beyond the threshold; a pending entry, once entries are allowed, opens the wanted pair at the open if in time and worth a contract, and else ends FLAT or signals afresh; OPEN pends an exit on a crossing or closes on Friday; a pending exit, once closing is allowed, is closed at the open; everything else stays, with every field, order and fee said |
| `BarLaws.OnBarMarks` | lux_trader/core/strategy.py:765-795 | every bar reports the equity its new state is worth at the close, the best equity so far and the drawdown from it |
| `BarLaws.FinalizeAnswers` | lux_trader/core/strategy.py:345-365 | end of data cancels a pending entry, closes what is held at the close, and otherwise does nothing |
| `BarLaws.ForceExitAnswers` | lux_trader/core/strategy.py:367-381 | a forced exit closes what is held for its reason, at the close for the forced reasons and at the open otherwise |
| `SignalledFills.BarAnswers` | lux_trader/core/strategy.py:257-343 | the same at every bar of every replay, and the log gains exactly the bar's orders and trade |
| `SignalledFills.PendedExitFills` | lux_trader/core/strategy.py:288-299 | in every replay a pended exit fills on the first later bar that allows closing, at that bar's open, and until then nothing moves |
| `SignalledFills.PendedEntryFills` | lux_trader/core/strategy.py:264-287 | in every replay a pended entry opens on the first later bar that allows entries iff it is in time and worth a contract there, at its open; otherwise it sends nothing and is gone |
| `Indicator.IndicatorEngine.Update` | lux_trader/core/indicator.py:18-51 | the running totals and window equal the sums over the last `window` spreads, and the snapshot is their mean, deviation and score |
| `Indicator.VarianceNonNegative` | lux_trader/core/indicator.py:33-34 | in exact arithmetic the clamp never acts, and the variance is zero iff the window is constant |
| `Indicator.Samuelson` | lux_trader/core/indicator.py:31-37 | no window value lies further from the mean than sqrt(n-1) deviations |
| `Indicator.DecisionBound` | lux_trader/core/indicator.py:18-51 | a score exists iff the window is full and not constant, and then its square is at most window - 1, for every history |
| `Indicator.IndicatorEngine.FromJsonable` | lux_trader/core/indicator.py:61-67 | restores values and totals as saved, summing absent totals; the engine is valid iff the saved totals are those of the values and the values fit the window |
| `Indicator.SavedIsConsistent` | lux_trader/core/indicator.py:53-67 | what a valid engine saves restores to a valid engine on the window of everything it has seen |
| `Indicator.RestoredScoresAlike` | lux_trader/core/indicator.py:18-67 | an engine restored from a window scores every later bar as the one that saw the whole history |
| `TradableSpread.LongAboveShort` | lux_trader/core/tradable_spread.py:112-149 | on uncrossed books the long spread is never below the short one |
| `TradableSpread.MidExactlyWhen` | lux_trader/core/tradable_spread.py:84-109 | there is a mid spread iff UMC and USD/TWD are in date and CCF is or a close is carried, and it measures those prices |
| `TradableSpread.DirectionalExactlyWhen` | lux_trader/core/tradable_spread.py:112-149 | there is an executable spread iff all three are in date, CCF's book is not flagged missing and both sides are quoted; the reason given is the first that fails |
| `TradableSpread.MidBetweenExactlyWhen` | lux_trader/core/tradable_spread.py:84-149 | long >= mid >= short iff the mid prices pass a cross-product test against the two books, as prices inside their own books do |
| `TradableSpread.MidCanEscape` | lux_trader/core/tradable_spread.py:84-109 | a result against the documentation: a last trade above its own ask breaks the ordering README.md:22-24 calls universal |
| `TradableSpread.EntriesExclude` | lux_trader/core/tradable_spread.py:37-81 | short and long scores exist together and keep the order, so for entry_z >= 0 both entry conditions never hold |
| `TradableSpread.EstimateAgrees` | lux_trader/core/tradable_spread.py:152-162 | scoring the newest spread against the updated window gives the score the update reported |
| `StateJson.TradeRoundTrip` | lux_trader/core/strategy.py:157-222 | a trade dictionary survives save and load iff its moments, and nothing else truthy, sit under the four moment keys |
| `StateJson.StateRoundTrip` | lux_trader/core/strategy.py:117-201 | every strategy state is loaded back exactly as saved |
| `Store.SQLiteStore.RecordFill` | lux_trader/store.py:233-274 | an identical row is left alone, a different one under the same id is refused, a new one is appended |
| `Store.SQLiteStore.RecordOrder` | lux_trader/store.py:181-231 | an identical order row is left alone, a different one under the same id is refused, a new one is appended |
| `Store.RerecordingIsHarmless` | lux_trader/store.py:233-274 | ids stay unique and recording a fill again changes no exposure |
| `Store.SQLiteStore.LoadRecordedFillExposure` | lux_trader/store.py:276-310 | the two nets are signed fills plus corrections on each instrument |
| `Store.SQLiteStore.UpsertAdjustmentRow` | lux_trader/store.py:355-382 | accumulates into the row of the same key, appends a new key, refuses a key held under another symbol |
| `Store.UpsertAccumulates` | lux_trader/store.py:355-382 | a correction moves its instrument by exactly its quantity and no other, keeps keys unique, and is refused iff the recovery corrected that venue under another symbol |
| `Store.SQLiteStore.RecordManualFlatRecovery` | lux_trader/store.py:480-547 | opens one pending close and two corrections, or reports the key conflict |
| `Store.SQLiteStore.RecordManualCloseSettlement` | lux_trader/store.py:449-478 | settles the waiting rows of a recovery and succeeds iff exactly one matched |
| `Store.SQLiteStore.LoadPendingManualClose` | lux_trader/store.py:390-403 | the waiting close recorded last |
| `Runner.SystemRunner.Replay` | lux_trader/runner.py:26-171 | the whole imperative replay, with its refusals, warm-up, loop, rollback on collision and end of data, equals the function over the tables |
| `Runner.SystemRunner.RunBars` | lux_trader/runner.py:66-169 | the window is rebuilt from earlier bars, at most the allowed bars run, and end of data is closed only when the last bar ran |
| `Runner.SystemRunner.RecordResult` | lux_trader/runner.py:96-123 | everything one bar writes, or the last commit when an id collides |
| `ReplayLaws.BookNeverCollides` | lux_trader/brokers/paper.py:18-37 | ids made of a row and a per-process counter never collide with anything a store holds, although counters restart |
| `ReplayLaws.ResumeContinues` | lux_trader/runner.py:54-64 | resuming continues from exactly the saved state and row, with the window rebuilt |
| `ReplayLaws.ResumeRuns` | lux_trader/runner.py:26-163 | one resume runs as many bars as are left and allowed from the first missing one, reports them, and closes the data iff it ran the last |
| `ReplayLaws.RefusesExactlyWhen` | lux_trader/runner.py:36-75 | a replay refuses iff a fresh run meets bars, bars come without a saved state, or that state does not read; a refusal changes nothing and a reset runs as on an empty store |
| `ReplayLaws.AnySplitTellsTheStory` | lux_trader/runner.py:26-171 | however a replay is cut into processes, by bar limits or by deaths between commits: no collision, every bar once, the story of a straight run, and end of data finalised exactly once iff there is something to close and the process that commits the last bar does not die before its final commit; otherwise never |
| `ReplayLaws.LostCloseIsForever` | lux_trader/runner.py:125-162 | a store whose last bar was committed but not finalised is changed by no later process and never finalised |
| `ReplayLaws.DeathLosesTheClose` | lux_trader/runner.py:121-162 | a result against the code: a two-bar replay that dies after its last bar keeps a pending entry for good |
| `ReplayLaws.InterruptedEqualsUninterrupted` | lux_trader/runner.py:26-171 | an interrupted chain that ran every bar left the same state, trades, events, bars and orders as one run iff the process that committed the last bar lived on or there was nothing to close |
| `ReplayLaws.CompleteIsFinal` | lux_trader/runner.py:125-163 | another resume of a finished store, whether it ends or dies, changes nothing and finalises nothing |
| `ReplayLaws.EveryBarIsSound` | lux_trader/core/strategy.py:257-343 | at every bar of every replay: no ERROR, realised PnL equals booked net less the open entry fee, and orders add up to the position on both venues |
| `ReplayLaws.EndIsFlat` | lux_trader/core/strategy.py:345-365 | after end of data nothing is held and realised PnL is exactly the sum of booked trades |
| `ReplayLaws.RecordedFillsArePosition` | lux_trader/store.py:276-310 | in any store a replay can leave, signed recorded fills equal the saved position on each venue |
| `TradeBook.OrdersAreTrades` | lux_trader/core/strategy.py:685-843 | in any store a replay can leave, the order table and the fill table are exactly an entry pair and its reversal for each row of the trade table, in order, then the entry pair of the trade still open |
| `TradeBook.EquityIsCash` | lux_trader/core/strategy.py:765-795 | every recorded equity equals initial capital, the cash of the recorded fills, the pair held at the bar's close, and for each signalled exit its bar's move from open to close on the pair then held; forced exits add nothing |
| `TradeBook.ProfitIsCash` | lux_trader/core/strategy.py:587-683 | a finished replay made, net, the cash of its fills plus the open-to-close move of each signalled exit |
| `ReplayLaws.HighThresholdNeverTrades` | lux_trader/core/strategy.py:303-313 | with entry_z squared at least window - 1 no replay on any data ever leaves FLAT or sends an order |
| `Reconciliation.BrokerReconciler.Reconcile` | lux_trader/reconciliation/reconciler.py:28-71 | the issue list, in order, of every broker against the expectation |
| `Reconciliation.BrokerReconciler.CheckSnapshot` | lux_trader/reconciliation/reconciler.py:108-189 | own-instrument mismatch, then stray positions, then open orders |
| `Reconciliation.BrokerStatus` | lux_trader/reconciliation/reconciler.py:28-197 | MATCHED iff every broker answered and is clean; ERROR iff one could not answer |
| `Reconciliation.PostTradeReconciler.Reconcile` | lux_trader/reconciliation/post_trade.py:35-65 | broker issues followed by the recorded-ledger issues |
| `Reconciliation.PostTradeStatus` | lux_trader/reconciliation/post_trade.py:35-113 | MATCHED iff brokers are clean and the ledger is within tolerance on both instruments |
| `Recovery.RecoveryCommands.RecoverManualFlat` | lux_trader/cli/commands_recovery.py:19-228 | every refusal in order; on success the trade is parked, the ledger corrected and the strategy cleared in one transaction, rolled back on a key conflict |
| `Recovery.RecoveryCommands.ClearPause` | lux_trader/cli/commands_live.py:256-360 | every refusal in order, and on success event and state saved together so that a paused strategy becomes OPEN or FLAT |
| `Recovery.RecoveryCommands.SettleManualClose` | lux_trader/cli/commands_recovery.py:231-402 | every refusal in order; on success one trade, one settled row and the new state in one transaction, rolled back when no single row waits |
| `Recovery.RecoveryCommands.BuildSettlement` | lux_trader/cli/commands_recovery.py:521-650 | two passes over the exit fee, the operator price or the implied one, the broker basis or the model, and whether the prices agree |
| `RecoveryLaws.ApplySquares` | lux_trader/cli/commands_recovery.py:99-129 | a first recovery squares any ledger exactly on both instruments |
| `RecoveryLaws.ApplyRefusedExactlyWhen` | lux_trader/store.py:480-547 | it is refused by a key conflict iff the same recovery already exists |
| `RecoveryLaws.RecoveryUnblocks` | lux_trader/cli/commands_live.py:256-360 | after an applied recovery, from any ledger, the next clear-pause reconciles to FLAT and a rerun finds nothing to do |
| `RecoveryLaws.ClearPauseExactlyWhen` | lux_trader/cli/commands_live.py:256-360 | a pause is lifted iff the strategy is paused, every broker holds the position it stands by, or nothing, and the ledger does too while a manual close waits; it goes on OPEN with its position or FLAT without, and otherwise nothing changes |
| `StoreLife.ClearPauseLifts` | lux_trader/cli/commands_live.py:256-360 | lifting a pause by command leaves in the store the very state the live book goes on with, and only a paused strategy moves |
| `RecoveryLaws.RecoverAppliesExactlyWhen` | lux_trader/cli/commands_recovery.py:19-228 | a position is recovered iff asked for with a reason, nothing runs, the strategy is paused with a direction, every broker is flat and no recovery of that name exists |
| `RecoveryLaws.RecoverRepairsExactlyWhen` | lux_trader/cli/commands_recovery.py:19-228 | the ledger is re-squared instead iff a close waits, nothing is held, every broker is flat, the ledger is off by more than dust and the row key is free |
| `RecoveryLaws.RepairSquares` | lux_trader/store.py:312-382 | a repair squares each instrument exactly, except residues of at most 1e-12, which stay |
| `RecoveryLaws.RepairUnblocksExactlyWhen` | lux_trader/store.py:355-382 | after a repair post-trade reconciliation matches iff each residue was above 1e-12 or within tolerance |
| `RecoveryLaws.RepairRefusedExactlyWhen` | lux_trader/store.py:355-382 | a repair conflicts iff a correction it needs falls on a venue this recovery corrected under another symbol, as after a contract roll |
| `StoreLife.MoneyConserved` | lux_trader/cli/commands_recovery.py:350-380 | over any life of a store from empty (paper bars, end of data, forced exits, live minutes on any venues, contract changes, pauses, recoveries, clear-pauses, settlements): realised PnL equals booked net less entry fees still open or parked, no manual close is booked twice, every correction belongs to a parked close under a key of its own, and ERROR is never reached |
| `StoreLife.StaysSound` | lux_trader/store.py:312-547 | the same from any sound store: unique owned keys, no recovery parked twice, and booked settlements equal to settled rows survive every repair, recovery and settlement |
| `StoreLife.SettlesExactlyWhen` | lux_trader/cli/commands_recovery.py:231-402 | on a sound store a settlement books iff it is applied with a reason and something to price from, nothing runs, PnL is pending, nothing is held and prices agree; the one-row check and the missing-trade refusal are unreachable |
| `StoreLife.SettlesOnce` | lux_trader/store.py:449-478 | a settlement books one trade, and in every later life its recovery has exactly that one trade and no waiting row |
| `StoreLife.StrandedForever` | lux_trader/store.py:390-478 | a waiting close behind a complete PnL or a newer waiting close stays waiting and books nothing through any later life in which each recovery is recorded later than those before |
| `StoreLife.SecondParkingStrands` | lux_trader/store.py:390-478 | from any sound store: parking a second position while the first waits and settling the newer one leaves the older unsettled in every later life |
| `StrandedCloses.SettleableExactlyWhen` | lux_trader/store.py:390-478 | a waiting close can still be settled by some later life iff it is not stranded, that is iff the PnL is pending and no newer close waits; for any other no life settles it |
| `StrandedCloses.StrandingHappens` | lux_trader/cli/commands_recovery.py:19-402 | a result against the code: from an empty store two round trips closed by hand, the pause lifted in between, and one settlement reach a sound store whose first close no life can settle (`PlainIsOrdinary`: such sites exist) |
| `StrandedCloses.RollRefusesRepair` | lux_trader/cli/commands_recovery.py:19-228 | a result against the code: from an empty store a close by hand, a contract roll and one late fill under the new symbol reach a repair the row key refuses |
| `RecoveryLaws.BrokerFigureStands` | lux_trader/cli/commands_recovery.py:601-612 | on the broker's figure the UMC leg nets to it exactly, whatever fee split the model assumed |
| `SettlementLaws.SettlementIsCash` | lux_trader/cli/commands_recovery.py:521-650 | on every basis a settlement exists iff an exit price is supplied or implied, its CCF leg is the cash of its two fills, its exit costs are those of a fill at the exit prices, and gross, fees and net add up |
| `SettlementLaws.CashSign` | lux_trader/cli/commands_recovery.py:597-597 | a short gains iff the exit is below the entry, a long iff it is above |
| `SettlementLaws.SettlesLikeForcedExit` | lux_trader/cli/commands_recovery.py:597-620 | without a broker figure a settlement books the gross, fees and net a forced exit on a bar with those closes would have booked |
| `SettlementLaws.BookingIsExact` | lux_trader/cli/commands_recovery.py:333-402 | a booked settlement adds one trade row with exactly that money, moves realised PnL by its gross less the exit fees, completes the PnL, and leaves the rest of the state |
| `RecoveryLaws.PassesConverge` | lux_trader/cli/commands_recovery.py:558-576 | solving for the exit price, n passes leave unexplained of the broker's figure the n-th power of the fee rate times what the entry's price left |
| `RecoveryLaws.FirstPassSufficesExactlyWhen` | lux_trader/cli/commands_recovery.py:558-576 | the second pass repeats the first, and the implied price explains the broker's figure exactly, iff no fee is charged on notional or the entry's price already explained it |
| `RecoveryLaws.FirstPassMisses` | lux_trader/cli/commands_recovery.py:558-576 | a result against the comment there: at the default rate the second pass moves the price and a remainder stays |
| `FillListener.FubonFillReportListener.OnFilled` | lux_trader/integrations/fubon/fill_listener.py:271-284 | every waiter that knows the order takes the fill; a fill nobody knows is buffered, the oldest dropping out past 64 |
| `FillListener.FubonFillReportListener.AbsorbOrderReport` | lux_trader/integrations/fubon/fill_listener.py:292-305 | every waiter that knows the order takes the report; a report nobody knows is buffered, the oldest dropping out past 64 |
| `FillListener.FubonFillReportListener.SetKeys` | lux_trader/integrations/fubon/fill_listener.py:93-99 | the waiter learns its keys and replays the buffers; the rest stays buffered in order |
| `FillListener.FollowOrder` | lux_trader/integrations/fubon/fill_listener.py:230-347 | the listener object with one registered waiter, driven through any callbacks before and after its keys arrive, ends in exactly the session the laws below are about |
| `FillListener.FillWaiter.AverageFillPrice` | lux_trader/integrations/fubon/fill_listener.py:117-128 | the lot-weighted average of the priced fills |
| `FillListener.LateKeysCostOnlyOldRows` | lux_trader/integrations/fubon/fill_listener.py:331-347 | for every stream, the waiter ends knowing exactly the last 64 rows of each kind before its keys plus all after |
| `FillListener.InterleavingIndependence` | lux_trader/integrations/fubon/fill_listener.py:271-347 | with at most 64 rows of each kind first, the moment the keys arrive makes no difference |
| `FillListener.KnownFacts` | lux_trader/integrations/fubon/fill_listener.py:106-115 | the fills kept and the lots filled are those of the distinct matching fills, the terminal status the last non-empty one |
| `FillListener.RedeliveryIsHarmless` | lux_trader/integrations/fubon/fill_listener.py:106-115 | a fill delivered again later changes nothing |
| `FillListener.AverageAmongPrices` | lux_trader/integrations/fubon/fill_listener.py:117-128 | an average exists iff some fill carries lots and a price, and lies among those prices |
| `FubonAdapter.FubonFutureExecutionAdapter.AwaitOrderCompletion` | lux_trader/integrations/fubon/execution.py:495-625 | the polling loop equals its specification and ends within the query budget even when every answer asks to be queried again |
| `FubonAdapter.Attempts` | lux_trader/integrations/fubon/execution.py:514-521 | at least one query, and no more than the polling budget has room for |
| `FubonAdapter.NoFillWithoutEvidence` | lux_trader/integrations/fubon/execution.py:679-842 | the quantity is the callback lots, or the position's confirmation when callbacks are short; FILLED iff it reaches the request; polled rows decide neither |
| `FubonAdapter.FailedExactlyWhen` | lux_trader/integrations/fubon/execution.py:679-842 | an order without a fill is FAILED iff its own row, or else the answer to placing it, names a failure, and UNKNOWN otherwise |
| `FubonAdapter.AwaitAccount` | lux_trader/integrations/fubon/execution.py:495-677 | a row is matched iff one of the queries made had one that speaks for the order, and the last that did is believed; waiting stops at the first glance that settles the order, at the first final row or with the budget; look-alikes are set aside once each, and the fills reported are those of the last look |
| `FubonAdapter.AwaitCarriesKeys` | lux_trader/integrations/fubon/execution.py:627-677 | with a key known nothing is ever matched but a row sharing a key inside the time window |
| `FubonAdapter.ConfirmsExactlyWhen` | lux_trader/integrations/fubon/execution.py:982-1010 | the position confirms lots iff it moved the order's way by more than dust, capped at the request |
| `FubonAdapter.HonestExactlyWhen` | lux_trader/integrations/fubon/execution.py:679-842 | whatever waiting found and the position said in whole lots, the outcome keeps the coordinator's contract iff the callback lots do not exceed the request |
| `FubonConfirmation.KeepsContractExactlyWhen` | lux_trader/integrations/fubon/execution.py:222-296 | listener, wait and position read together: on any venue of whole lots and non-negative prices, whatever callbacks, rows and positions come, the adapter keeps the coordinator's contract iff the distinct matching fills at its last glance total at most the request |
| `FubonConfirmation.FilledExactlyWhen` | lux_trader/integrations/fubon/execution.py:495-842 | FILLED iff the distinct matching fills, or the position's move the order's way, reach the request; no history row or status decides it |
| `FubonConfirmation.PriceIsEvidence` | lux_trader/integrations/fubon/execution.py:708-790 | the reported fill carries the money of the distinct matching fills over their lots when one has a price, else the matched row's average or money per lot, else the expected price, else the leg's |
| `FubonConfirmation.PriceLiesAmongFills` | lux_trader/integrations/fubon/fill_listener.py:117-130 | so a price taken from fills lies among theirs |
| `FubonConfirmation.OverfillBreaksContract` | lux_trader/integrations/fubon/execution.py:679-842 | an input that breaks the contract: two one-lot callbacks for one lot asked are reported FILLED for two |
| `IbkrAdapter.PlaceAndConfirm` | lux_trader/integrations/ibkr/client_process.py:682-825 | the settle loop ends within its budget at the first look that shows anything, and classifies from that look |
| `IbkrAdapter.FailedExactlyWhen` | lux_trader/integrations/ibkr/client_process.py:765-807 | a placed order is FAILED iff its status is terminal with nothing filled and every look over the whole settle budget found no execution and the position unmoved |
| `IbkrAdapter.ExecutedSharesReported` | lux_trader/integrations/ibkr/execution.py:279-330 | every outcome reports at least the shares the settled look shows, unless the status alone read filled for fewer |
| `IbkrAdapter.StatusExactlyWhen` | lux_trader/integrations/ibkr/execution.py:134-335 | REJECTED iff a gate is closed or less than a share is asked, UNKNOWN when the venue raises, and a pause recommended for exactly these two statuses |
| `IbkrAdapter.FillIsEvidence` | lux_trader/integrations/ibkr/execution.py:235-330 | any fill reported is the leg's, at the venue's average price or the leg's own without one, for as many shares as status, executions or the confirmed order show |
| `IbkrAdapter.KeepsContractExactlyWhen` | lux_trader/integrations/ibkr/execution.py:87-330 | for every leg, however fractional, the adapter breaks the coordinator's contract iff the gates are open, some evidence confirms the order, and the evidence that does shows more shares than were sent |
| `IbkrAdapter.OverfillBreaksContract` | lux_trader/integrations/ibkr/execution.py:279-330 | an input that breaks the contract: two shares filled of an order for one and a half |
| `WorkerRpc.ExchangeIsFifo` | lux_trader/integrations/fubon/execution_process.py:241-276 | whatever the worker does, a reply read answers the request `lag` sends earlier, and lag grows only by a timeout that keeps the worker |
| `WorkerRpc.FubonFutureExecutionProcess.Execute` | lux_trader/integrations/fubon/execution_process.py:136-165 | one request; any failure scraps the worker and reports UNKNOWN |
| `WorkerRpc.FubonFutureExecutionProcess.RetargetSymbol` | lux_trader/integrations/fubon/execution_process.py:106-129 | a changed contract scraps the worker and says so; an empty or equal one moves nothing; a closed facade raises |
| `WorkerRpc.FubonFutureExecutionProcess.Close` | lux_trader/integrations/fubon/execution_process.py:205-218 | closing scraps the worker and sends nothing: its close request is refused by the flag set just before |
| `WorkerRpc.ExecutionIsPaired` | lux_trader/integrations/fubon/execution_process.py:136-316 | over any schedule every result answers the request just sent, a live worker serves the current contract, and execute sends at most one message |
| `WorkerRpc.ExecAnswersExactlyWhen` | lux_trader/integrations/fubon/execution_process.py:136-316 | wherever a schedule left the facade, a call is answered iff it is open and the worker takes the request and answers in time; it sends the request at most once, scraps the worker on any failure, and sends nothing once closed |
| `WorkerRpc.ReadonlyAnswersExactlyWhen` | lux_trader/integrations/fubon/execution_process.py:167-203 | a read-only query gets exactly one more try, on a fresh worker, iff the first failed |
| `WorkerRpc.FubonCcfMarketDataProcess.Call` | lux_trader/integrations/fubon/market_data_process.py:230-257 | a timeout is counted and scraps the worker at the limit, a value resets the count, any other failure leaves it |
| `WorkerRpc.ClosedForGood` | lux_trader/integrations/fubon/execution_process.py:205-218 | once closed the execution facade has no worker and sends nothing more, whatever is asked of it and for however long |
| `WorkerRpc.SilenceRecycles` | lux_trader/integrations/fubon/market_data_process.py:230-257 | silence is put up with on the same worker for exactly as many calls as the limit has left; the call that reaches it scraps the worker, counts one recycling and starts counting again |
| `WorkerRpc.AnswerResets` | lux_trader/integrations/fubon/market_data_process.py:230-257 | a good answer to the oldest request owed is returned and forgets the timeouts |
| `WorkerRpc.ConnectsExactlyWhen` | lux_trader/integrations/fubon/market_data_process.py:259-284 | from no worker a connection is made iff the first new worker answers, or stays silent and a second one answers; a second is started for silence alone |
| `WorkerRpc.ReconnectsExactlyWhen` | lux_trader/integrations/fubon/market_data_process.py:151-164 | a reconnect succeeds iff the worker answers, or is silent and a rebuilt one connects; the worker is replaced iff it stayed silent, and the timeout count stays |
| `WorkerRpc.MarketCloseAsks` | lux_trader/integrations/fubon/market_data_process.py:214-228 | closing asks a worker that is still alive to close, once, drops it whatever comes back, and is final |
| `WorkerRpc.FubonCcfMarketDataProcess.ConnectWithOneRebuild` | lux_trader/integrations/fubon/market_data_process.py:259-284 | at most one rebuild, after a timeout only |
| `WorkerRpc.LagCountsMisses` | lux_trader/integrations/fubon/market_data_process.py:144-257 | over any schedule of calls, connects, reconnects and closes the pipe owes exactly the calls that timed out since its worker started, and each reply answers the call that many sends earlier |
| `WorkerRpc.PairedExactlyWhen` | lux_trader/integrations/fubon/market_data_process.py:20-26 | every market-data reply on every schedule answers its own request iff the limit is one timeout |
| `WorkerRpc.FubonCcfMarketDataProcess.Reconnect` | lux_trader/integrations/fubon/market_data_process.py:151-164 | a reconnect that times out scraps the worker and rebuilds it, any other failure keeps it |
| `WorkerRpc.FubonCcfMarketDataProcess.Close` | lux_trader/integrations/fubon/market_data_process.py:214-228 | a live worker is asked to close, its answer ignored, and scrapped; a second close does nothing |
| `WorkerRpc.OneSlowReplyMispairsForever` | lux_trader/integrations/fubon/market_data_process.py:20-26 | with any larger limit, the default included, one slow reply leaves every later call with the previous call's answer and the worker is never recycled |
| `MinuteBars.LiveMinuteBarBuilder.Update` | lux_trader/market_data/minute_bar.py:80-105 | quotes of the same minute replace each other; the first of a later minute closes the one before |
| `MinuteBars.LiveMinuteBarBuilder.FinalizeCurrentMinute` | lux_trader/market_data/minute_bar.py:107-250 | the first gate that fails names the skip, a fresh CCF price replaces the carried one, and the bar is built from what remains |
| `MinuteBars.CarryBudgetIsWholeMinutes` | lux_trader/config.py:156-166 | on every stream a carry budget and that budget rounded down to whole minutes give the same bars and skips, for any seed that absorbs the odd seconds, such as none or one on the minute |
| `MinuteBars.SeedsAgreeExactlyWhen` | lux_trader/market_data/minute_bar.py:211-226 | the two budgets agree on every stream iff the seed's moment absorbs the budget's odd seconds |
| `MinuteBars.EveryBarWasQuoted` | lux_trader/market_data/minute_bar.py:80-250 | every bar of every stream was built from one observation of its own minute with UMC, its trade price and USD/TWD within budget, using the CCF price iff it is fresh and then not skewed |
| `MinuteBars.EveryMinuteIsJudged` | lux_trader/market_data/minute_bar.py:80-250 | on every stream the builder with its carried state comes to what the stream says without any: one result per closed minute, a bar iff the legs are within budget and CCF is fresh and unskewed or an earlier fresh close within the ceiling lends its price, else the first thing wrong; the bar shows those prices and their spread |
| `MinuteBars.SpreadMeans` | lux_trader/market_data/minute_bar.py:226-250 | a bar's spread is positive iff UMC is the dearer leg, lies within two hundred either way, and is the mid spread of quotes showing its prices |
| `MinuteBars.EmittedMinutesIncrease` | lux_trader/market_data/minute_bar.py:80-100 | emitted minutes strictly increase for non-decreasing observation times |
| `MinuteBars.CarriedPricesWereFresh` | lux_trader/market_data/minute_bar.py:192-226 | every carried CCF price of an unseeded builder was an earlier bar's fresh close, within the ceiling |
| `Recall.TargetIsNearest` | lux_trader/execution/recall_response.py:79-97 | no whole number of contracts leaves a smaller residual |
| `Recall.UnwindForgetsThePath` | lux_trader/execution/recall_response.py:79-165 | however a recall is spread over observations, with every order filled no plan is refused and the contracts left are those the last remainder supports, as after one unwind for all of it |
| `Recall.NextRefusedExactlyWhen` | lux_trader/execution/recall_response.py:100-165 | after any recall one more observation is refused iff contracts are left and the new remainder supports more; with none left it asks for nothing |
| `Recall.PlansExactlyWhen` | lux_trader/execution/recall_response.py:100-165 | each refusal, doing nothing and an order, as an iff on what is held and the target |
| `Recall.ShrunkenLegIsPlannable` | lux_trader/execution/recall_response.py:100-165 | a recall that only shrank the UMC leg is never refused while the entry's contracts are held |
| `ContractCalendar.PreviousBusinessDay` | lux_trader/core/contract_policy.py:142-149 | terminates for every finite holiday set at the day with exactly that many business days from it up to the start |
| `ContractCalendar.BusinessDaysBetween` | lux_trader/core/contract_policy.py:130-139 | counts the business days after the start up to the end |
| `ContractCalendar.CountBackAndForth` | lux_trader/core/contract_policy.py:130-149 | counting back n and forth again gives n from a business day and n - 1 otherwise |
| `ContractCalendar.BusinessWeek` | lux_trader/core/contract_policy.py:126-128 | five days of business from every Monday on, less the holidays among them, and then two without |
| `ContractCalendar.SessionHours` | lux_trader/core/us_calendar.py:38-53 | a session runs from 21:30 to 04:00 Taipei time under daylight saving and from 22:30 to 05:00 otherwise, on Mondays to Fridays, its first instant inside and its last not |
| `ContractCalendar.PairSessionCloseOn` | lux_trader/core/contract_policy.py:97-110 | the latest session close dated on or before the day, under any daylight-saving rule; the error at the end is unreachable |
| `ContractCalendar.ForceExitDeadline` | lux_trader/core/contract_policy.py:67-89 | the deadline lies inside the session it ends iff the grace is 1 to 390 minutes |
| `ContractCalendar.TwoDatesSuffice` | lux_trader/core/us_calendar.py:55-77 | an instant inside a session belongs to yesterday's or today's market date |
| `ContractCalendar.UmcRthStatus` | lux_trader/core/us_calendar.py:55-77 | inside iff some session holds the instant; otherwise the first open after it |
| `ContractCalendar.UmcRthCloseFor` | lux_trader/core/us_calendar.py:80-89 | the close of the session holding the instant, if one does |
| `Candles.AggregateCandles` | lux_trader/web/queries.py:292-311 | one candle per bucket in order of first appearance, each the fold of its members; a minute or less changes nothing |
| `Candles.BucketsSummarise` | lux_trader/web/queries.py:292-311 | each bucket holds first open, highest high, lowest low and last close of its members, in any order of input |
| `Candles.MinuteCandleShows` | lux_trader/web/queries.py:248-290 | a minute's candle closes at its bar and ranges over exactly the ticks of its minute, opening at the first; without any it is flat |
| `Candles.AggregationComposes` | lux_trader/web/queries.py:292-311 | for sorted candles aggregating to an interval and then to a multiple equals aggregating to the multiple |
| `Candles.InterleavedDisagrees` | lux_trader/web/queries.py:292-311 | out of order it does not: an interrupted bucket takes the interrupter's close |
| `Candles.BucketLast` | lux_trader/web/queries.py:314-330 | one entry per bucket in order of first appearance with the last value seen |
| `Candles.LastValueIsClose` | lux_trader/web/queries.py:248-330 | bucket times agree with the candles and the last spread is the candle close |
| `Candles.LastValueIsCloseOnGrid` | lux_trader/web/queries.py:314-330 | at a minute or less the same for distinct bars on the grid |

## Left out

- Coordinator.RealExecutionCoordinator.Execute: event payloads, timings, the persistence of attempts and the wording of messages are not modelled; events are their types in order.
- Exposure.ProtocolAccounted: one position per venue, so a plan names one instrument per venue; positions under other symbols belong to reconciliation.
- LiveExecution.LiveEntryAligned: the quote-based price policy, whose changes never touch quantities, and the status named in a result's reason text are not modelled.
- LiveExecution.AlignedForever: a process that dies between a fill and the commit that records it, and the decision when a calendar or contract policy forces an exit, which is an input of each minute.
- IbkrAdapter.PlaceAndConfirm: the first wait for a terminal status, whose only effect is which order view is read last; the account looks are a function of how often the account was looked at.
- StoreLife.MoneyConserved: the bar table, which nothing here depends on; the orders, fills and events a step records are any rows at all.
- Sizing.SizePositionForDirection: only the bps fee model; the `ibkr` fee model is not part of this model.
- Indicator.IndicatorEngine.Update: floating-point rounding; the square root is any function that is one on the reals.
- StateJson.StateRoundTrip: the text of moments is any rendering that reads back, and the open trade is the fields the strategy writes that later code reads; other keys are covered by StateJson.TradeRoundTrip.
- Strategy.PairStrategy.OnBar: the runtime state is one value replaced by each assignment, so aliasing of its parts is not captured.
- Runner.SystemRunner.Replay: CSV loading and the optional comparison with expected scores; ids are structured values rather than text, and a bar's timestamp text is its number.
- Recovery.RecoveryCommands.RecoverManualFlat: leases, printing and the reconciliation report table; the recovery digest is any function; only the lives exhibited in `StrandedCloses` ask that it tell rows apart.
- Recovery.RecoveryCommands.SettleManualClose: how exit prices and the exchange rate are looked up; they are inputs, already resolved.
- FillListener.FubonFillReportListener.OnFilled: threads and the condition variable; callbacks are the steps of a stream, one at a time. Errors raised inside callbacks are swallowed by the program and do not occur here.
- FubonAdapter.FubonFutureExecutionAdapter.AwaitOrderCompletion: order placement, sessions and re-login; contract and side look-alike tests are flags on the row, and status text is already lower case.
- WorkerRpc.FubonFutureExecutionProcess.Execute: message contents; messages carry a tag in the proofs only.
- MinuteBars.LiveMinuteBarBuilder.Update: session annotations on the finished bar.
- ContractCalendar.UmcRthStatus: the time-zone database; daylight saving is any function of the market date.
- Candles.AggregateCandles: chart rendering and tick queries.
- Contract selection, margin levels, gates, contract-symbol parsing, the terminal UI, the web server, notifications and configuration loading would only add easy members.

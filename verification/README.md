# Futures trading system: verified model

A Dafny model of the state machines at the centre of a futures trading system: the orders that
protect a position, entering and leaving it, the mirrored order book and paper trading of the
high-frequency runner, the risk gate, the replay engines, and three smaller algorithms. Prices,
quantities and money are exact (`real`, or whole units where the exchange counts in steps). The
exchange is an adversary: classes whose methods may fail, act without answering, or answer
without acting, with ghost fields that record what really happened.

`dafny verify dfyconfig.toml` checks everything. Where the Python code changes objects in place
or loops, the model does so too, and each such method is proved against a specification function
or a relation between the old and the new state.

| file | what it models |
|---|---|
| `Common.dfy` | sides, rounding to a grid, worth of a quantity at a price, sums |
| `AlgoVenue.dfy`, `StopReplacement.dfy`, `ProtectionSet.dfy`, `ProtectionMonitor.dfy` | conditional orders of one position: tightening the stop, the wanted set of stop and targets, the monitor loop |
| `EntryExecution.dfy`, `ExitExecution.dfy` | the polling loops that enter and leave a position |
| `OrderBook.dfy`, `PaperExecutor.dfy`, `HftRisk.dfy`, `HftRunner.dfy` | depth book, average-cost accounting, inventory cap and loss breaker, and their composition |
| `ExitPolicy.dfy`, `CandleAggregation.dfy`, `TrendSignal.dfy`, `SimPosition.dfy`, `BacktestReplay.dfy`, `PortfolioReplay.dfy` | exit prices, candles, volatility and entry signal, one simulated position, single-symbol and portfolio replay |
| `RiskEngine.dfy` | admission gates, sizing, decision to execution intent |
| `FactorPolicy.dfy`, `LoginRateLimiter.dfy` | ranking and drawdown, sliding-window limiter |

## What is assumed

- A `GET` of the open conditional orders shows the orders as they are. A cancellation takes
  effect before the next request or never; an explicit 4xx answer means that a write had no effect.
  During a replacement or an upsert no conditional order triggers, expires or appears on its own:
  the list changes only by this adapter's requests. Looking an order up by its name may find any
  order on record that bears it, working or ended.
- A cancellation that was carried out although the adapter reported a failure sets the ghost flag
  `lostCancel`; a submission that counts as placed although no order of its name works sets
  `misplaced`; a rollback that could not put the stop back sets `rollbackFailed`. The monitor
  theorem says that these are the only three ways to end without a stop.
- Order reports that use a status word the adapter does not know become `CREATED`, which the entry
  loop does not cancel (`execution/manager.py:156`); the ghost flag `unknownSeen` records one, and
  the entry and exit theorems are guarded by it. The exit theorems are also guarded by
  `survivedCancel`: a cancellation failed and the next report still showed the order working.
- Market orders are over when they are answered. Poll intervals are at least one second. The clock
  behind rollback names increases strictly; other client ids are determined by their parts.
- Candles have positive prices and a range that contains open and close; a fee rate is below one
  half and a slippage rate below one. Volatility, signals, screening, correlations, funding rates
  and z-scores are arbitrary inputs; `BacktestReplay.Computed` says what candles make of the first two. The limiter's clock never goes back.

## What the proofs turned up

- `binance.py:1766-1790` and 1989-2001 resolve an uncertain or duplicate submission by looking its
  name up and accept the order found whatever its status. The name of a trailing stop is fixed by
  side and trigger, so it can belong to an order that ended long ago; then the old stop is cancelled
  and nothing works in its place. `ExposedIff` gives the exact condition: the new trigger is
  tighter, and either an order of its name works with other parameters or none works and one ended
  before (`OnlyEndedNames`: among the system's own stops only the latter). `EndedNameExposes` is an
  input. Under the monitor it cannot happen if at the start no ended trailing stop is tighter than
  the working one (`Watch`).
- `binance.py:1147-1179`: an upsert cancels a stop that is not the wanted one before it submits the
  wanted one, and puts nothing back. `UpsertProtection` says that it can end without a stop exactly then.
- The cancellation at `binance.py:1647` stands outside the guarded part of the cancel-first path, so
  one that is carried out but reported as failed gets no rollback. `CancelFailedLeaves` says exactly
  when a stop is left after it, `LostCancellationExposes` gives an input.
- `exit.py:75-108`: fills between the last poll and the cancellation are not added to the total.
  Protection is cancelled exactly after a full exit with nothing left, a flat read and no such fill
  (`Execute`); `UnseenFillKeepsProtection` is an input on which a closed position keeps it.
  Cancelling protection of a position that is not known to be flat never happens.
- A snapshot's levels are true if its rows are, and a book fed by a stream with losses, repetitions
  or reordering is always the one the events up to some point make in order; the first event past a
  hole is reported as a gap (`HoleIsDetected`).
- In `build_factor_overlays` a key selected twice counts twice in the number of factors but has one
  contribution, so then no symbol is fully covered and every multiplier is the minimum (`CoveredIff`,
  `RepeatedKeyHalvesCoverage`).
- `record_fill` keeps `halted` after a win (`hft/risk.py:95-104`): the breaker can then be on with
  a streak of zero until limits are next refreshed. `RecordFill` states exactly when, `WinKeepsHalt` shows it. In the
  composed runner it cannot happen, because a halted runner does not fill.
- `build_execution_intent` can fail for a decision that passed every gate: rounding may move the
  entry out of an unaligned band, and a long stop or short target below one tick rounds to zero.
  `IntentIff` gives the exact condition, `UnalignedBandCanFail` an input together with the decision the
  engine makes for it.
- `BacktestEngine.run` takes funding from the account but not from the trade results. Its net profit
  is the sum of the trade results exactly when the funding rate is zero or no position is in the
  market during a bar whose index is divisible by 32 (`NetIsTradesIff`); `FundingSplitsProfit` is a
  replay with the default settings where it is not, on candles whose volatility and signals are
  computed as the program does. The portfolio replay includes funding in both.
- The one-pass drawdown can understate once equity is negative, which takes a return below -1. It is
  right exactly when every point below zero loses no more from the least positive point before it
  than some point loses from its running peak (`PeakDrawdownIsMax`); `BelowMinusOneUnderstates` gives
  an input.

## Model

| member | source | states |
|---|---|---|
| StopReplacement.RoundedStop | backend/src/trading_system/exchange/binance.py:1490-1494 | the new trigger is on the tick grid and rounding never makes it tighter than proposed |
| StopReplacement.EvolvedNeverLoosens | backend/src/trading_system/exchange/binance.py:1487-1684 | deactivating stops and adding some at allowed triggers never makes the loosest stop looser; `TightenIsSteady` applies it to every list of a replacement |
| StopReplacement.StopGateway.SubmitStop | backend/src/trading_system/exchange/binance.py:1762-1790 | a submission on the exchange is the specification's: accepted or not, it counts as placed when the answer or the lookup finds any order of its name |
| StopReplacement.SubmitContinues | backend/src/trading_system/exchange/binance.py:1762-1790 | a submission keeps every working stop and opens no gap; success means that a stop of that name works, unless only an ended order bears the name |
| StopReplacement.StopGateway.RestoreStop | backend/src/trading_system/exchange/binance.py:1707-1722 | submits a stop at the old trigger under a name never used before |
| StopReplacement.RollBackContinues | backend/src/trading_system/exchange/binance.py:1659-1684 | after a failure either a stop at the old trigger works again and the failure is reported, or the rollback is reported as failed; it cannot be misplaced |
| StopReplacement.RollBackIff | backend/src/trading_system/exchange/binance.py:1659-1684 | the rollback fails if and only if its one submission has no effect or no answer; with effect the old trigger works again |
| StopReplacement.CreateAnswered | backend/src/trading_system/exchange/binance.py:1650-1684 | after the old stop was cancelled, with answers: the new one works if the mark is on its safe side, otherwise the old trigger does and the error says why |
| StopReplacement.StopGateway.CancelThenCreate | backend/src/trading_system/exchange/binance.py:1637-1684 | cancel, read the mark, submit, and put the old stop back when the guarded part fails, as the specification says |
| StopReplacement.CancelThenCreateConcludes | backend/src/trading_system/exchange/binance.py:1637-1684 | at most one recorded state lacks a stop; success has the new stop on the safe side of the mark read in between; failure leaves a stop, except in the three ways out |
| StopReplacement.CancelFailedLeaves | backend/src/trading_system/exchange/binance.py:1646-1649 | a failed cancellation is reported exactly when it was not answered, and leaves a stop exactly when it had no effect or another stop works |
| StopReplacement.LostCancellationExposes | backend/src/trading_system/exchange/binance.py:1646-1649 | an input whose cancel-first replacement leaves no stop although no rollback failed |
| StopReplacement.StopGateway.TightenStop | backend/src/trading_system/exchange/binance.py:1487-1635 | the whole replacement on the exchange is the specification's, and safe in the sense of the next row |
| StopReplacement.TightenIsSafe | backend/src/trading_system/exchange/binance.py:1487-1635 | success: exactly one working stop, at the rounded trigger, tighter than the recorded one, safe against the mark last read; failure: a stop still works, except in the three ways out; every recorded list differs from the first only by stops of this side, added at the two triggers alone; a list lacks a stop at most once, and only on the cancel-first path |
| StopReplacement.TightenSucceeds | backend/src/trading_system/exchange/binance.py:1487-1635 | with an exchange that answers and carries out every request and shows a mark on the safe side, any replacement by a tighter trigger succeeds, through either path: the new stop is the only one working, and is the order handed back unless its name was already taken |
| StopReplacement.FallBackSucceeds | backend/src/trading_system/exchange/binance.py:1541-1608 | the same when the exchange refuses a second closing stop: the old one is cancelled first, and the side is remembered |
| StopReplacement.ExposedIff | backend/src/trading_system/exchange/binance.py:1527-1635 | the exchange can bring a replacement to end without a stop, no cancellation lost and no rollback failed, if and only if the new trigger is tighter and an order of its name works with other parameters or, if none works, ended before |
| StopReplacement.EndedNameExposes | backend/src/trading_system/exchange/binance.py:1762-1790 | an input: a working stop at 99, an ended one named for 100.1, a submission without effect whose name is looked up |
| StopReplacement.StopGateway.ConfirmSole | backend/src/trading_system/exchange/binance.py:1619-1635 | success means that the new stop is the only working one |
| ProtectionSet.SpecsAreSafe | backend/src/trading_system/exchange/binance.py:1035-1099 | every wanted order closes the position of the intent; the stop is at the intended one, not looser and less than a tick away; a target is there exactly if two fifths of the fill, rounded down to the step, reach the minimum, for that quantity, at its planned price or less than a tick in front of it; targets are in order of distance and take at most four fifths |
| ProtectionSet.TpForFillMeaning | backend/src/trading_system/exchange/binance.py:1271-1284 | the first target is moved to one risk distance beyond the fill exactly when a fill price off the stop is known and that lies before the final target |
| ProtectionSet.SpecsExist | backend/src/trading_system/exchange/binance.py:1035-1099 | there is a wanted set if and only if there is no first target or some tick lies beyond it and not beyond the final one |
| ProtectionSet.ValidateProtectionSet | backend/src/trading_system/exchange/binance.py:1221-1269 | the matching by index and pop accepts exactly when one stop is active and active and wanted orders are equal as multisets |
| ProtectionSet.Retain | backend/src/trading_system/exchange/binance.py:1101-1128 | every wanted order that is already there is kept and exactly the others are missing; a set that is already right is kept whole |
| ProtectionSet.CancelStale | backend/src/trading_system/exchange/binance.py:1129-1150 | only managed orders outside the kept set are ever cancelled, in every intermediate state |
| ProtectionSet.WaitForCancellations | backend/src/trading_system/exchange/binance.py:1188-1219 | success means that none of the cancelled orders is working |
| ProtectionSet.RetainedStay | backend/src/trading_system/exchange/binance.py:1101-1186 | a wanted order working at the start works in every intermediate state |
| ProtectionSet.UpsertProtection | backend/src/trading_system/exchange/binance.py:1029-1186 | success leaves exactly the wanted set with one stop, and reports every wanted order by the one that was there or by one of its name; wanted orders already working stay working throughout, whatever fails; a set that is already right is not touched; in every recorded list other orders are as they were; it can end without the stop there was exactly when that was not the wanted one, because the old one is cancelled before the wanted one is submitted; with an exchange that answers and carries out every request it succeeds whenever there is a wanted set and no name it needs is taken by another order; without a wanted set nothing is sent |
| ProtectionMonitor.ManagedStop | backend/src/trading_system/orchestration/protection.py:543-564 | a stop is moved only from one R on, to at least break-even, tighter than before and on the safe side of the mark (the next row says exactly when and where) |
| ProtectionMonitor.ManagedStopMeaning | backend/src/trading_system/orchestration/protection.py:543-564 | break-even from one R on, from two R on one and a half of the volatility behind the mark if that is tighter; earned if and only if that lies strictly between present stop and mark |
| ProtectionMonitor.RepairIntentMeaning | backend/src/trading_system/orchestration/protection.py:205-260 | targets that were seen stay; a missing first one lies one risk distance from the entry, a missing final one two of them or the given distance, and at least one beyond the first; each refusal exactly when due |
| ProtectionMonitor.PositionMonitor.RepairTakeProfits | backend/src/trading_system/orchestration/protection.py:205-300 | repairing targets keeps the present stop working in every intermediate state; success leaves exactly that stop, and working orders that are the wanted set of the repaired intent; the repair is given up without a request exactly when a tranche is too small, and goes through on an exchange that answers |
| ProtectionMonitor.PositionMonitor.TooSmallMeaning | backend/src/trading_system/orchestration/protection.py:246-256 | a repair is given up exactly when no step multiple within two fifths of the position reaches the minimum |
| ProtectionMonitor.TightenIsSteady | backend/src/trading_system/exchange/binance.py:1487-1684 | no list recorded during a replacement has a stop looser than the loosest one before it |
| ProtectionMonitor.OnlyEndedNames | backend/src/trading_system/exchange/binance.py:1527-1540 | among this system's own stops a stop can be misplaced only if no order of its name works and one ended before |
| ProtectionMonitor.PositionMonitor.AdjustStop | backend/src/trading_system/orchestration/protection.py:311-393 | an adjustment is tried exactly when the position has earned one and no cooldown runs, and is then the replacement of `TightenSucceeds` and `TightenIsSafe` at the earned price; success and failure set their cooldowns; a failed rollback asks for reconciliation; no recorded list gets looser |
| ProtectionMonitor.PositionMonitor.RunOnce | backend/src/trading_system/orchestration/protection.py:155-403 | one pass keeps the position guarded in every recorded list; a deferred or unanswered pass changes nothing; without exactly one closing stop nothing is touched and reconciliation is asked for; otherwise missing targets are repaired, leaving the wanted set, and the stop is then adjusted from what that left; the mode changes only for a failed repair, a failed rollback, or back to trading on a testnet paused by a failed repair; a pass over a tidy list misplaces no stop |
| ProtectionMonitor.PositionMonitor.ResumeAfterRepair | backend/src/trading_system/orchestration/protection.py:478-505 | trading resumes exactly on a testnet paused by a failed repair, with one closing stop and no target missing |
| ProtectionMonitor.PositionMonitor.ResumedMeaning | backend/src/trading_system/orchestration/protection.py:478-505 | in plain conditions: only a pause by a failed repair ends, on a testnet, with one closing stop, the final target and the first one unless taken |
| ProtectionMonitor.TightenKeepsTidy | backend/src/trading_system/exchange/binance.py:1487-1684 | if no ended trailing stop was tighter than the one that works, a replacement misplaces nothing and leaves it so |
| ProtectionMonitor.PositionMonitor.Watch | backend/src/trading_system/orchestration/protection.py:69-127 | over any number of passes no recorded list has a stop looser than at the start; without misplaced stops a list lacks a stop at most once per cancel-first replacement; the run ends with a stop working, short of the three ways out; and no stop is ever misplaced if at the start no ended trailing stop was tighter than the working one |
| EntryExecution.ExecutionManager.ProtectNewFills | backend/src/trading_system/execution/manager.py:183-223 | new fills are protected in full at their average price, or a close of everything filled is requested and the failure reported; without new fills nothing is asked |
| EntryExecution.ExecutionManager.WatchOrder | backend/src/trading_system/execution/manager.py:110-166 | polls come one interval apart and go on exactly while the order works, entries are allowed and time is left; an order still open then is cancelled; the entry is finished if and only if something was filled, the order was reported filled or entries were stopped; what a report shows filled is protected |
| EntryExecution.ExecutionManager.Attempt | backend/src/trading_system/execution/manager.py:77-166 | one attempt asks for one quote unless entries are stopped, places at the quote if and only if it lies in the approved band, and watches the order unless it filled at once; it leaves earlier ones over and empty; any failure is the one of the request that failed |
| EntryExecution.ExecutionManager.Execute | backend/src/trading_system/execution/manager.py:53-172 | no order is ever accepted while another one works, all attempts together fill at most the intent, a normal return has nothing working and exactly the filled quantity protected, a close is requested exactly when protection failed and then for all fills; an entry ends without error only with a fill, a filled report, entries stopped, the intent expired or all attempts used, each with its order; an error is that of the failed request, or of expiry, stopped entries or a quote outside the band; the loops terminate |
| ExitExecution.RoundDown | backend/src/trading_system/exchange/binance.py:2214-2216 | quantities are rounded down to the step, by less than one step |
| ExitExecution.ClosePositionQuantityMarketOrders | backend/src/trading_system/exchange/binance.py:1376-1445 | market chunks lie between the exchange's minimum and maximum, never close more than asked or held, the loop ends, and on success the rest is too small to trade |
| ExitExecution.ChunksMeaning | backend/src/trading_system/exchange/binance.py:1376-1445 | market orders go on exactly while they fill something and more can be ordered; the error tells whether nothing could be ordered, an order was not answered, or it filled nothing |
| ExitExecution.WatchMeaning | backend/src/trading_system/execution/exit.py:61-73 | for any replies: all polls but the last show the order unfinished and come before the deadline; the last one fails, shows it over or is the one at the deadline, and its answer is the result |
| ExitExecution.ExitExecutionManager.EndLimit | backend/src/trading_system/execution/exit.py:79-97 | a limit order is over, or its cancellation failed and the next report is used |
| ExitExecution.ExitExecutionManager.CloseRemainder | backend/src/trading_system/execution/exit.py:79-97 | limit fills plus market chunks stay within the limit order's quantity |
| ExitExecution.ExitExecutionManager.CleanUp | backend/src/trading_system/execution/exit.py:98-108 | protection is cancelled if and only if something was filled, the exit was full, the fills counted reach it and a read shows the position flat; targets if and only if something was filled in a partial exit |
| ExitExecution.ExitExecutionManager.AfterRejection | backend/src/trading_system/execution/exit.py:110-132 | a rejected exit counts as done only after a read that shows the position flat |
| ExitExecution.ExitExecutionManager.Finish | backend/src/trading_system/execution/exit.py:75-108 | after a full exit protection is cancelled if and only if limit and market fills make up the position, none came after the last watched report, and a read shows it flat |
| ExitExecution.ExitExecutionManager.Execute | backend/src/trading_system/execution/exit.py:32-108 | no more is closed than requested and held, whatever fails; protection is never cancelled without a flat read after the last order, and exactly under the condition above; a normal return leaves at most an untradable rest |
| ExitExecution.AnsweredExit | backend/src/trading_system/execution/exit.py:32-108 | with an exchange that answers and carries out every request an exit fails exactly for a quantity that is not positive or below the minimum, or for a remainder that cannot be ordered or whose market order fills nothing |
| ExitExecution.RejectedMeaning | backend/src/trading_system/execution/exit.py:110-132 | a rejected exit counts as done if and only if the read shows the position gone and its protection can be dropped |
| ExitExecution.UnseenFillKeepsProtection | backend/src/trading_system/execution/exit.py:75-108 | an input on which a position closed in full keeps its protection |
| ExitPolicy.FirstTakeProfit | backend/src/trading_system/strategy/exit_policy.py:37-57 | exists exactly for a stop off the entry and a target beyond it; then one risk distance from the entry if the target is further, otherwise half way to it |
| ExitPolicy.TrailingStop | backend/src/trading_system/strategy/exit_policy.py:67-83 | the tighter one of the present stop and the given distance behind the best price |
| OrderBook.ApplyRowsMeaning | backend/src/trading_system/hft/order_book.py:159-176 | after an update the last word on a price counts, zero removes it, silence leaves it alone |
| OrderBook.EventKeepsMirror | backend/src/trading_system/hft/order_book.py:47-92 | an applied genuine event takes a true mirror to a true mirror at the event's final id, knowing also the prices it touched |
| OrderBook.LevelsOfMeaning | backend/src/trading_system/hft/order_book.py:142-157 | the levels read from a snapshot are exactly the prices of its usable rows with a positive quantity, each with the quantity listed last |
| OrderBook.SnapshotMirrors | backend/src/trading_system/hft/order_book.py:39-45 | a snapshot whose received rows list the exchange's quantities, and all of them on the prices it covers, gives a true mirror there |
| OrderBook.SnapshotBridges | backend/src/trading_system/hft/order_book.py:37-92 | after a snapshot the first event is judged by the snapshot's id alone: covered ones are stale, one that reaches back to it is applied whatever came before it, later ones are gaps |
| OrderBook.RunMirrors | backend/src/trading_system/hft/order_book.py:31-92 | over any interleaving of resets, snapshots with true rows and genuine events, lost, repeated, reordered or overlapping, a synchronized book equals the exchange's at its own id on everything it was told |
| OrderBook.BestBidIsTrue | backend/src/trading_system/hft/order_book.py:94-141 | the mirrored best bid is the exchange's if the book is complete from there up |
| OrderBook.BestAskIsTrue | backend/src/trading_system/hft/order_book.py:94-141 | the mirrored best ask is the exchange's if the book is complete up to there |
| OrderBook.ContiguousNeverGaps | backend/src/trading_system/hft/order_book.py:47-92 | a contiguous stream that starts no later than right after the snapshot never reports a gap |
| OrderBook.NextOrCaught | backend/src/trading_system/hft/order_book.py:64-84 | right after an event of a contiguous stream was applied, an earlier one is stale, the next one is applied and any later one is a gap, and only those |
| OrderBook.HoleIsDetected | backend/src/trading_system/hft/order_book.py:47-92 | whatever events of a contiguous stream arrive, in any order and number, the book is the one the events up to some point make in order, and exactly the events past the next one are reported as gaps |
| OrderBook.DiffOrderBook.ApplySnapshot | backend/src/trading_system/hft/order_book.py:39-45 | the object takes exactly the state the snapshot describes |
| OrderBook.DiffOrderBook.ApplyEvent | backend/src/trading_system/hft/order_book.py:47-92 | status and new state are those of the specification the mirror lemmas are about |
| OrderBook.DiffOrderBook.Metrics | backend/src/trading_system/hft/order_book.py:94-141 | returns the true extremes of both sides and their middle, and raises exactly when unsynchronized, one-sided or crossed |
| OrderBook.ApplyUpdates | backend/src/trading_system/hft/order_book.py:159-176 | the update loop computes the specification of the rows |
| OrderBook.ParseLevels | backend/src/trading_system/hft/order_book.py:142-157 | the snapshot loop reads the levels `LevelsOfMeaning` characterises |
| PaperExecutor.FillBalances | backend/src/trading_system/hft/execution.py:31-65 | for opens, adds, reductions, closes and flips: realized profit is cash received plus change of cost basis, and average entry is zero exactly when flat |
| PaperExecutor.FillKeepsBooks | backend/src/trading_system/hft/execution.py:42-85 | booking a fill keeps lots, money and fees equal to what the list of trades says |
| PaperExecutor.UnrealizedIsWorthLessBasis | backend/src/trading_system/hft/execution.py:102-130 | with every mark given, unrealized profit is market value less cost basis |
| PaperExecutor.MarkedMeaning | backend/src/trading_system/hft/execution.py:102-122 | what a symbol adds to each total, by the trades and its mark; nothing without a mark |
| PaperExecutor.TotalIsCashPlusWorth | backend/src/trading_system/hft/execution.py:102-130 | total profit is the signed cash flow of all trades plus inventory at market less fees |
| PaperExecutor.HftPaperExecutor.InventoryOf | backend/src/trading_system/hft/execution.py:25-26 | the kept inventory is the sum of the signed trades of the symbol |
| PaperExecutor.HftPaperExecutor.Execute | backend/src/trading_system/hft/execution.py:31-85 | refuses exactly HOLD and non-positive quantities, without any change; otherwise books one trade at the ask or bid and keeps the accounts consistent; a buy adds its quantity to the inventory at the best ask, a sell takes it away at the best bid, for the fee rate times the value |
| PaperExecutor.HftPaperExecutor.AggregateSnapshot | backend/src/trading_system/hft/execution.py:102-122 | sums over the symbols that have a mark; with all marks the total is cash flow plus market value less fees |
| HftRisk.SizedIsLargestWithinCap | backend/src/trading_system/hft/risk.py:69-93 | an allowed quantity keeps the cap at its price or only shrinks the position; no larger part of the order would, and a refusal means no part would; it is marked as capped exactly when the whole order would leave the position above the cap |
| HftRisk.TrailingLossesMeaning | backend/src/trading_system/hft/risk.py:95-104 | the loss count is the length of the longest losing end of the list of closing results |
| HftRisk.HftRiskManager.UpdateLimits | backend/src/trading_system/hft/risk.py:26-39 | a halt survives a refresh exactly when the streak still reaches the new limit |
| HftRisk.HftRiskManager.Check | backend/src/trading_system/hft/risk.py:41-93 | admits exactly live, fresh, cooled-down signals the cap leaves room for, with the largest quantity it leaves; the first reason that applies is the refusal |
| HftRisk.HftRiskManager.RecordFill | backend/src/trading_system/hft/risk.py:95-104 | only closing fills count; a halt stays justified except after a win while halted |
| HftRisk.WinKeepsHalt | backend/src/trading_system/hft/risk.py:95-104 | two losses and a win leave the breaker on with a streak of zero |
| HftRunner.HftRunner.AdvanceBook | backend/src/trading_system/hft/runner.py:100-111 | a genuine event or resynchronization keeps every book a true mirror; after a gap the book is empty or at the snapshot's id |
| HftRunner.HftRunner.ActOn | backend/src/trading_system/hft/runner.py:119-138 | after limits are refreshed a signal gets the answer of the risk manager on the inventory the trades make: a refusal is passed on, an allowed quantity is filled; a fill, opening or closing, starts the cooldown; accounts and streak stay true, within the cap |
| HftRunner.HftRunner.ProcessDepthEvent | backend/src/trading_system/hft/runner.py:100-143 | the outcome and the new book follow the classification of the event, other books are untouched; at most one fill, at the mirrored best price, within the cap or shrinking the position, paced by the minimum interval; without a fill trades and results are unchanged; the answer of the risk manager is that for the mirrored best prices, as old as the event, and the symbol is marked half way between them |
| HftRunner.HftRunner.SynchronizeBooks | backend/src/trading_system/hft/runner.py:155-172 | exactly the symbols with a snapshot are synchronized, each truly, and the count returned is theirs |
| HftRunner.ArrivedCounts | backend/src/trading_system/hft/runner.py:155-160 | with distinct symbols that count is the number of symbols a snapshot came for |
| HftRunner.HftRunner.Reconnect | backend/src/trading_system/hft/runner.py:62-98 | after a connection exactly the symbols with a snapshot are synchronized, at its id; every other book is empty |
| HftRunner.HftRunner.RunForever | backend/src/trading_system/hft/runner.py:62-98 | over a whole run with fixed limits every item is handled in order up to a stop or an unusable book; every trade keeps the cap or shrinks its position and comes at least the cooldown after the one before; no closing result follows a full losing streak, halted is exactly a full streak, and a halted runner never trades again |
| CandleAggregation.AggregationComposes | backend/src/trading_system/backtest/engine.py:488-504 | aggregating by a and then by b is aggregating by their product, for every list |
| CandleAggregation.AggregationPreserves | backend/src/trading_system/backtest/engine.py:488-504 | total volume, highest high and lowest low of the complete prefix are preserved |
| CandleAggregation.AggregateCandles | backend/src/trading_system/backtest/engine.py:488-504 | the loop computes the aggregation the laws are about |
| TrendSignal.StairAtr | backend/src/trading_system/strategy/indicators.py:23-43 | the volatility of candles that rise by equal steps is the step, over any period |
| TrendSignal.AggregatedStair | backend/src/trading_system/backtest/engine.py:488-504 | aggregating candles that rise by equal steps gives candles that rise by equal, larger steps |
| TrendSignal.ClimbLags | backend/src/trading_system/strategy/indicators.py:68-82 | on values rising by equal steps the slow average lags strictly further behind than the fast one, and the fast one rises |
| TrendSignal.StairSignal | backend/src/trading_system/backtest/engine.py:262-334 | candles that rise by equal steps give no signal before there are fifty four-hour candles and a long one from then on, whatever the pullback confirmation says |
| TrendSignal.SignalMeaning | backend/src/trading_system/backtest/engine.py:262-334 | a signal if and only if both trends point one way, the trend is strong, volatility is below the hard limit, and breakout or pullback point that way in the window and in all candles |
| TrendSignal.StrengthRange | backend/src/trading_system/strategy/indicators.py:46-65 | trend strength lies between 0 and 100 and is 0 for equal moves up and down |
| TrendSignal.SignalReflects | backend/src/trading_system/backtest/engine.py:262-334 | rising and falling are treated alike: turning any candles upside down, and the pullback confirmation with them, turns the signal around |
| TrendSignal.FallingSignal | backend/src/trading_system/backtest/engine.py:262-334 | candles that fall by equal steps give a short signal from fifty four-hour candles on, and none before |
| SimPosition.ExitSlips | backend/src/trading_system/backtest/engine.py:449-465 | slippage only moves gain from the result to the slippage account |
| SimPosition.StaysOpen | backend/src/trading_system/backtest/engine.py:386-446 | a candle that does not touch the stop keeps the position open, its stop no looser, the targets taken in order, remaining quantity equal to what the 40/40/20 tranches leave, and gain accounted at raw prices |
| SimPosition.StoppedOut | backend/src/trading_system/backtest/engine.py:395-402 | a touched stop ends the position whatever else the candle touches, and its gain is accounted |
| SimPosition.OpenHolds | backend/src/trading_system/backtest/engine.py:386-465 | remaining stays above zero and at most the quantity while open |
| SimPosition.ClosedResult | backend/src/trading_system/backtest/engine.py:386-471 | a fully closed position's realized profit plus slippage is its gain at raw prices and at least minus the distance from raw entry to initial stop on the whole quantity |
| SimPosition.LossIsBounded | backend/src/trading_system/backtest/engine.py:386-471 | open or closed, realized profit plus slippage is at least minus the distance from raw entry to initial stop on the whole quantity |
| SimPosition.ManagedCosts | backend/src/trading_system/backtest/engine.py:386-465 | through any candle fees stay the fee rate times what was paid and received at slipped prices, slippage its rate times what entry and exits are worth at raw prices, and the result what came out less what the sold part cost |
| SimPosition.FundingPaid | backend/src/trading_system/backtest/service.py:700-730 | funding over any candles is the sum of rate times value still held, paid by longs and received by shorts |
| SimPosition.PaperCosts | backend/src/trading_system/backtest/service.py:635-752 | the final result of a replayed action in money: fees, slippage, funding and net from the list of its exits and what it carried |
| SimPosition.SimPosition.Realize | backend/src/trading_system/backtest/engine.py:449-465 | the object changes as the specification says and the returned profit and fee are what was added |
| SimPosition.SimPosition.Manage | backend/src/trading_system/backtest/engine.py:386-446 | one candle in place equals the specification, for any position; closed exactly when the stop was touched or nothing is left; for a sane open position the stop only tightens and the accounts stay exact |
| SimPosition.SimPosition.CloseRemaining | backend/src/trading_system/backtest/engine.py:467-471 | closes everything at any price and returns the net change; at a price no worse than the initial stop the accounts stay exact |
| SimPosition.SimulatePaperAction | backend/src/trading_system/backtest/service.py:635-752 | for any action, fills at the first candle that reaches the band, at the open clamped to it; position, funding and outcome are those of an independent recursion over the remaining candles; the unfilled and invalid-geometry outcomes exactly when due; for an action between its stop and target, gain at raw prices and loss at most the initial risk |
| BacktestReplay.OpeningRisksItsShare | backend/src/trading_system/backtest/engine.py:336-384 | quantity times stop distance is the configured share of equity, stop and final target are their multiples of the volatility away, and stop, entry and both targets are in order |
| BacktestReplay.OpeningCosts | backend/src/trading_system/backtest/engine.py:337-384 | going in costs a share of the raw value, and a fee on the slipped one |
| BacktestReplay.ManagedBalances | backend/src/trading_system/backtest/engine.py:186-201 | one candle keeps cash equal to initial equity plus trades plus the open position less funding |
| BacktestReplay.CandleMovesGross | backend/src/trading_system/backtest/engine.py:186-201 | before costs an account moves by what its position realizes; its fees are those of the position, and a closed one becomes a trade result |
| BacktestReplay.Run | backend/src/trading_system/backtest/engine.py:146-260 | equity, fees, funding and trade results of the report are those of a recursion over the bars, and net profit is the sum of trade results less funding |
| BacktestReplay.ReplayMeaning | backend/src/trading_system/backtest/engine.py:146-260 | a replay is halted exactly from the first bar whose mark lost a limit's share of the cash its day began with or of the highest mark; what waits for the next bar is the signal of the last one, from index 220 on, flat and not halted |
| BacktestReplay.OpensIff | backend/src/trading_system/backtest/engine.py:172-184 | a bar opens a position if and only if such a signal waits and its volatility is known, and then the one the signal asks for |
| BacktestReplay.BreaksOffIff | backend/src/trading_system/backtest/engine.py:224-229 | a replay breaks off exactly at a bar whose day began with no cash |
| BacktestReplay.FundingIsCharged | backend/src/trading_system/backtest/engine.py:186-190 | total funding is the rate times the notional value carried over the bars whose index is divisible by 32 |
| BacktestReplay.ChargedIff | backend/src/trading_system/backtest/engine.py:186-260 | with positive prices, a positive risk share and a drawdown breaker of at most everything that value never cancels out: it is zero exactly if nothing was carried over such a bar |
| BacktestReplay.NetIsTradesIff | backend/src/trading_system/backtest/engine.py:146-260 | net profit is the sum of the trade results if and only if the funding rate is zero or no position is carried over a bar whose index is divisible by 32 |
| BacktestReplay.RisingIsComputed | backend/src/trading_system/backtest/engine.py:157-223 | 801 candles, each rising by one from where the last one closed, with the days, volatilities and signals the replay computes from them, whatever the pullback confirmation says |
| BacktestReplay.FundingSplitsProfit | backend/src/trading_system/backtest/engine.py:146-260 | with the default settings the replay of those candles ends, and its net profit is not the sum of its trade results: the position opened at index 800 is charged there |
| RiskEngine.CheckCircuitBreakers | backend/src/trading_system/risk/engine.py:18-24 | lists a breaker exactly when its loss has reached its limit |
| RiskEngine.Preflight | backend/src/trading_system/risk/engine.py:171-247 | lists exactly the reasons that apply, the first bad correlation only |
| RiskEngine.RoundedQuantityIsLargest | backend/src/trading_system/risk/engine.py:330-332 | rounding down gives the largest step multiple a notional pays for |
| RiskEngine.FinalSizeIsLargest | backend/src/trading_system/risk/engine.py:76-113 | the size is within the budget before and after price rounding, the free margin and the exchange maximum, and no larger step multiple is |
| RiskEngine.Evaluate | backend/src/trading_system/risk/engine.py:26-135 | approval means no gate refuses, reward is worth the risk, risk is within the trade budget and the remaining portfolio capacity, quantity and notional reach the minimums, size is maximal, and margin is within the cap up to half a tick; each refusal means what it says: reward too low, no capacity, no tradable size or notional within the limits, stop on the entry |
| RiskEngine.BudgetMeaning | backend/src/trading_system/risk/engine.py:64-75 | the trade budget is the smaller of equity and capital limit, times the share per trade, times the volatility multiplier, times that of an active factor, and no more than the portfolio has left |
| RiskEngine.FactorScalesRisk | backend/src/trading_system/domain/models.py:117-124 | an active factor scales what a trade may risk by itself and never raises it |
| RiskEngine.FactorHalvesTheSize | backend/src/trading_system/risk/engine.py:26-135 | with a factor of one half the engine approves 0.121 units of the signal it approves 0.243 units of without |
| RiskEngine.RoomMeaning | backend/src/trading_system/risk/engine.py:79-85 | what may be bought is the leverage times what the margin cap leaves free |
| RiskEngine.CostMeaning | backend/src/trading_system/risk/engine.py:36-62 | the round trip costs both fees, entry slippage, and funding for the horizon in stretches of eight hours but at least one; the reward is what is left of the way to the target |
| RiskEngine.StrategyGatesMeaning | backend/src/trading_system/risk/engine.py:171-247 | confidence, regime, trend strength, alignment and trigger gates, each condition by condition |
| RiskEngine.SizedWithinLimits | backend/src/trading_system/risk/engine.py:101-135 | a size that passed the minimums gives a decision within every limit |
| RiskEngine.MarginWithinCap | backend/src/trading_system/risk/engine.py:79-118 | rounding the entry adds at most half a tick per unit to the margin |
| RiskEngine.IntentIff | backend/src/trading_system/risk/engine.py:137-169 | an approved decision becomes a valid intent if and only if the rounded entry stays in its band and in front of the rounded target and the long stop or short target is at least one tick |
| RiskEngine.AlignedBandAlwaysExecutes | backend/src/trading_system/domain/models.py:542-570 | with a tick-aligned band strictly between stop and target the intent is always valid and stop, entry, first and second target are in order |
| RiskEngine.UnalignedBandCanFail | backend/src/trading_system/risk/engine.py:26-169 | for a signal off the tick grid the engine approves 0.243 units, the largest size, and no intent can be built from its decision |
| PortfolioReplay.ChargedBalances | backend/src/trading_system/backtest/portfolio.py:169-197 | a result, fee or funding payment keeps cash, totals and ledgers in balance |
| PortfolioReplay.RecordedBalances | backend/src/trading_system/backtest/portfolio.py:897-901 | a recorded close moves its net from the open positions to its ledger, keeping the balance |
| PortfolioReplay.GateSees | backend/src/trading_system/backtest/portfolio.py:818-846 | risk and side counts the gate sees are those of the open positions |
| PortfolioReplay.OpeningKeepsLimits | backend/src/trading_system/backtest/portfolio.py:693-733 | whatever the gate approved keeps portfolio risk, position count and same-side count within their limits, one position per symbol |
| PortfolioReplay.MarginMeaning | backend/src/trading_system/backtest/portfolio.py:818-846 | a position ties up its margin less the share of it that has left |
| PortfolioReplay.AfterCandleMeaning | backend/src/trading_system/backtest/portfolio.py:170-197 | a position is gone exactly when its candle left nothing of it; otherwise it is a bar older and longs paid the funding shorts received |
| PortfolioReplay.ManagedShrinks | backend/src/trading_system/backtest/engine.py:386-446 | managing a position never increases what remains of it |
| PortfolioReplay.ClosingPaysTheMark | backend/src/trading_system/backtest/portfolio.py:238-246 | closing everything turns the marked account into cash, less slippage and fees of leaving |
| PortfolioReplay.PortfolioBacktestEngine.TryOpen | backend/src/trading_system/backtest/portfolio.py:306-351 | decides exactly the signals that are still valid and touched, by the risk gate on the account as marked then against high mark and start of day; an approved one opens exactly the decided position and costs its fee, or raises if that has no first target; charges only its own ledger; keeps balance and limits |
| PortfolioReplay.PortfolioBacktestEngine.ManageEntry | backend/src/trading_system/backtest/portfolio.py:170-197 | a position is advanced, or closed and recorded, exactly as its candle says, with its profit, fee, funding, slippage and holding bars; only its own ledger changes; the accounts stay balanced |
| PortfolioReplay.PortfolioBacktestEngine.ManageAll | backend/src/trading_system/backtest/portfolio.py:170-197 | leaves exactly the positions the specification of the bar leaves, none larger, and keeps balance and limits |
| PortfolioReplay.PortfolioBacktestEngine.EndOfBar | backend/src/trading_system/backtest/portfolio.py:199-236 | closes become last prices, the account is marked at them, peak and drawdown follow, the breaker latches exactly when the loss from the start of the day or from the peak reaches its limit, and only otherwise candidates are taken |
| PortfolioReplay.PortfolioBacktestEngine.GeneratePending | backend/src/trading_system/backtest/portfolio.py:451-467 | the queue becomes the one `GatheredMeaning` describes |
| PortfolioReplay.GatheredMeaning | backend/src/trading_system/backtest/portfolio.py:451-467 | exactly the symbols of candidates without a position join those already pending, each once |
| PortfolioReplay.FirstIsGathered | backend/src/trading_system/backtest/portfolio.py:451-467 | with its first candidate |
| PortfolioReplay.PortfolioBacktestEngine.StepBar | backend/src/trading_system/backtest/portfolio.py:135-236 | a new day starts its loss count at the last mark; all pending signals are tried, best score first, unless halted, each judged on the desk the one before left; every position then goes through its candle, in positions and accounts; the account is marked, the halt latches exactly when a breaker trips, and otherwise new candidates wait; once halted nothing opens or grows; balance and limits hold |
| PortfolioReplay.PortfolioBacktestEngine.CloseAll | backend/src/trading_system/backtest/portfolio.py:238-246 | everything still open is booked at its last price; after that all profit is in the ledgers |
| PortfolioReplay.PortfolioBacktestEngine.RunPortfolio | backend/src/trading_system/backtest/portfolio.py:78-290 | every bar is replayed in order; at every bar cash is initial equity plus closed trades plus open net, and every limit holds; the replay halts exactly at the first bar whose loss from the start of its day or from the highest mark reaches a limit, and then nothing opens or grows; at the end net profit is the sum of trade results, symbol by symbol, fees and funding are the sums of the ledgers, and the drawdown is the greatest loss of a mark, or of the final equity, from the highest one before |
| PortfolioReplay.DayStartMeaning | backend/src/trading_system/backtest/portfolio.py:145-147 | what the losses of a bar are measured from is the mark of the bar before the first bar of its day |
| PortfolioReplay.HighMarkMeaning | backend/src/trading_system/backtest/portfolio.py:203 | the high mark is the greatest of the marks so far and the equity at the start |
| PortfolioReplay.TripsIsBreaker | backend/src/trading_system/backtest/portfolio.py:215-224 | the loss condition, in plain arithmetic, is that of the risk engine on the context of the bar |
| PortfolioReplay.ByFallingScore | backend/src/trading_system/backtest/portfolio.py:307 | pending signals are taken by falling score, none added or lost, equal scores in the order they came |
| FactorPolicy.OrderedMeaning | backend/src/trading_system/strategy/factor_policy.py:192-198 | the order holds exactly the symbols, best first |
| FactorPolicy.RankIsPlace | backend/src/trading_system/strategy/factor_policy.py:192-198 | the place in the order is one more than the number of better symbols |
| FactorPolicy.RanksAreBijective | backend/src/trading_system/strategy/factor_policy.py:192-198 | ranks are a bijection onto 1 to n |
| FactorPolicy.RankSumIsTriangular | backend/src/trading_system/strategy/factor_policy.py:113-148 | the ranks of n symbols add up to n(n+1)/2 |
| FactorPolicy.RankChangesSumToZero | backend/src/trading_system/strategy/factor_policy.py:147-148 | rank changes of all symbols add up to zero |
| FactorPolicy.PercentileOrder | backend/src/trading_system/strategy/factor_policy.py:199-206 | percentiles lie in [0, 1] and fall exactly as symbols get worse |
| FactorPolicy.BetterOnBothIsBetter | backend/src/trading_system/strategy/factor_policy.py:107-122 | better in baseline and in factor is better in the blend, at any weight |
| FactorPolicy.WeightEnds | backend/src/trading_system/strategy/factor_policy.py:107-122 | weight zero gives the baseline order, weight one the factor order |
| FactorPolicy.RiskMultiplierRange | backend/src/trading_system/strategy/factor_policy.py:123-144 | the multiplier of a covered symbol is the average of the minimum and one, weighted by the percentile, so between them and growing with it; any other gets the minimum |
| FactorPolicy.DeterministicPercentiles | backend/src/trading_system/strategy/factor_policy.py:192-206 | computes rank and percentile of every symbol, and fails exactly on an empty cross-section |
| FactorPolicy.ContributionsMeaning | backend/src/trading_system/strategy/factor_policy.py:75-105 | a symbol has one contribution per selected key it has a score for, oriented by the last factor of that key |
| FactorPolicy.CoveredIff | backend/src/trading_system/strategy/factor_policy.py:113-128 | a symbol is fully covered if and only if it has a score for every selected factor and no key is selected twice |
| FactorPolicy.RepeatedKeyHalvesCoverage | backend/src/trading_system/strategy/factor_policy.py:75-128 | one key selected twice, in both directions: one contribution, by the second, and the minimum multiplier at any percentile |
| FactorPolicy.BuildFactorOverlays | backend/src/trading_system/strategy/factor_policy.py:53-190 | one overlay per symbol with the ranks, percentiles, blend, contributions, coverage and multiplier the laws are about; each error exactly when due: no symbols, no factors, no research run, a factor without scores, no valid factor |
| FactorPolicy.EquityMetrics | backend/src/trading_system/strategy/factor_policy.py:420-429 | the loop finds the greatest loss from a running peak, whatever the returns; that is the greatest loss over all pairs of points, the start included, if and only if the curve meets the condition of the next row; for returns of at least -1 it always does, and the result lies in [0, 1] |
| FactorPolicy.PeakDrawdownIsMax | backend/src/trading_system/strategy/factor_policy.py:420-429 | the two agree if and only if every point below zero loses no more from the least positive point up to it than some point loses from its running peak |
| FactorPolicy.BelowMinusOneUnderstates | backend/src/trading_system/strategy/factor_policy.py:420-429 | an input with a return below -1 for which they differ |
| LoginRateLimiter.AnyWindowHoldsAtMost | backend/src/trading_system/api/security.py:29-36 | if each attempt and the one a maximum before it are more than a window apart, every closed window holds at most the maximum |
| LoginRateLimiter.LoginRateLimiter.Check | backend/src/trading_system/api/security.py:29-36 | admits exactly when fewer than the maximum were admitted in the window ending now, although older ones were forgotten |
| LoginRateLimiter.LoginRateLimiter.Reset | backend/src/trading_system/api/security.py:38-39 | forgets one key and no other |
| LoginRateLimiter.LoginRateLimiter.WindowRespected | backend/src/trading_system/api/security.py:23-39 | at any time any closed window of any key holds at most the maximum of admitted attempts |

## Left out

- ProtectionSet.UpsertProtection: of the list of order states it hands back the order is not stated.
- StopReplacement.TightenIsSafe: which error is reported is stated only where the safety of the position depends on it.
- ProtectionMonitor.PositionMonitor.RunOnce: what a pass does about unprotected positions beyond asking for reconciliation (alerts, mode storage) is not modelled.
- EntryExecution.ExecutionManager.Execute: of the entry intent only the band and the quantity are used; leverage configuration either works or fails.
- ExitExecution.ExitExecutionManager.Execute: quantities are whole multiples of the smallest unit; prices and client ids of exit orders are not modelled, and of time only how many polls fit before the deadline.
- OrderBook.DiffOrderBook.Metrics: depth, imbalance, microprice and spread are not computed; only the left-out signal engine reads them.
- HftRunner.HftRunner.SynchronizeBooks: the snapshots of several symbols are taken one after the other instead of concurrently; each touches only its own book.
- PortfolioReplay.PortfolioBacktestEngine.RunPortfolio: positions are values in insertion order, not shared objects in a dictionary; `SimPosition.Manage` proves the in-place form equal to the function used there. `run_portfolio` leaves positions closed at the end in its dictionary; here they are only recorded.
- PortfolioReplay.PortfolioBacktestEngine.TryOpen: after a stop that rounds down to zero `_position_states` raises when the next risk context is built; the model goes on.
- RiskEngine.Preflight: NO_TRADE signals carry either all prices or none, and the prices kept on rejected decisions (`risk/engine.py:343-372`) are left out.
- HTTP signing, proxies, retries, time synchronisation, WebSocket plumbing, Redis, the database, Telegram and the user interface: input and output only.
- Reconstruction of a first target's completion from order history (`binance.py:1834-1888`) and manual target metadata: arbitrary inputs of the monitor.
- Cleaning up orphaned protection orders (`protection.py:514-530`): it does not touch the orders of an open position.
- `HftPaperExecutor.snapshot` for one symbol, upper-casing of symbols, status messages and heartbeats.
- The high-frequency signal engine: its action is an arbitrary input.
- Rejection counters, equity curve, profit factor, expectancy, win rate and factor bookkeeping of the replays: reports of values that are not used again.
- TrendSignal.Signal: the settings are the defaults, with which the quote the replay makes up passes the market gates, and the pullback confirmation is an arbitrary function.
- `manual_atr_exit_prices`, ranking by the screener, other indicators, factor research, promotion metrics and `rebalance_window`: independent formulas that are arbitrary inputs here or add nothing to the laws.
- Symbols of the ranking are integers that stand for names in alphabetical order.
- Finite precision of `Decimal`: arithmetic is exact.

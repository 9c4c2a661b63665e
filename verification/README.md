# Verification of the trading system's core logic

A Dafny model of the parts of the automated trading system in which a mistake costs money: the order
pipeline of the two workers, the backtest simulators, the sizing of a rebalance, the performance
metrics, and the protocols that depend on time. `dafny verify dfyconfig.toml` checks the project.

## What is modelled

**Orders.** Worker 1 claims a `PENDING` order with a guarded update, calls the broker and records the answer
with a second guarded update; a rate limit puts the order back. Worker 2 polls the broker's cumulative
quantities, classifies them, writes them, and folds what a modify or cancel child newly reports into its
parent. `OrderRepository` has the table and its updates as an object, `Workers` the two tasks as methods
over it. `OrderPipeline` is the same as a step system in which any number of tasks, for any orders and with
any duplicates, interleave read by read and write by write; `OrderLifecycle` proves what one serial tracker
guarantees about statuses, `OrderBooks` what any number of them guarantees about quantities, `OrderFolding`
where a child's quantities go, `ParentLedger` what is in a parent's row, `Tracking` that the number of polls
does not matter, `TrackingChain` that polling ends, and `OrderHazards` and `FoldingHazards` give the runs on
which the guarantees stop.

**Backtests.** `Prices` has the closes that all of them read. `DirectTrade` is the swing simulation as a
function from book to book, `SwingReentry` its cooldown and exit rules, `BacktestExecutor` the loop that
updates cash, positions and trades in place. `RebalanceSim` defines the rebalancing simulation and its
equity independently of it, `RebalanceRunners` has the two implementations.

**Sizing.** `PositionSizing` has the diff calculator and the order generator's recalculation as functions,
`PositionOrders` as the loops that fill the result lists.

**Metrics.** `Drawdown` and `PeriodReturns` prove the single passes equal to definitions over all pairs or
all dates. `NavAssembly` proves that sort, reindex and forward fill are a look-up of the latest snapshot.

**Time.** `TokenCache` and `TokenService` have the access token that many callers share under a lock that
expires. `MarketCalendar` and `RebalanceTask` have the window in which the automatic rebalance may run.

## Readings

- *Integers* are Python's and unbounded; money, prices and quantities of the backtests and all metrics are
  exact reals, so rounding is not modelled.
- *What a session shows.* After a guarded update the loaded `order` either shows the new values or not; the
  repository leaves this to the ORM. Worker 1 needs the claimed status in its row
  (app/worker/tasks_order.py:272-278), worker 2 means the child's quantity from before the write
  (app/worker/tasks_order_status.py:517, :576). Both are parameters (`claimSeen`, `reading`).
  `OrderHazards.NoSessionServesBoth` proves that no single behaviour serves both workers; the theorems about
  folding assume the intended reading of the earlier quantity.
- *Failure writes* leave out a required argument (app/worker/tasks_order.py:323, :359;
  app/worker/tasks_order_status.py:823). A step that marks a failure may therefore happen or not.
- *The cancel branch* passes expected statuses (app/worker/tasks_order_status.py:544) to a function that
  takes none (app/repository/order_repository.py:278-284). The guard it names is modelled; the modify branch
  names none and is unconditional.
- *Queues.* Requeues, redelivery and recovery at startup (app/worker/recovery.py:16-50) need no state: a task
  for any existing order may start at any moment, as often as it likes.
- *Serial tracker.* Worker 2 runs with a concurrency of one (docker-compose.yml:64). It is a parameter
  (`serial`), and `OrderHazards.TwoTrackersRegress` shows what it prevents.
- *Code over comments.* The comment on requeueing speaks of ten minutes, the constant is 1800 seconds
  (app/worker/tasks_order_status.py:263, app/core/constants.py:8); another comment calls the timeout
  unreachable, and it is reached (app/worker/tasks_order_status.py:67-70, :656); the parent branch of the
  snapshot is announced as trusting the stored quantities and uses the broker's
  (app/worker/tasks_order_status.py:146-154). The test for the day after D expects a skip
  (tests/unit/utils/test_market_calendar.py:233-238), the code allows two business days more
  (app/utils/market_calendar.py:190, :226-235).

## Model

| member | source | states |
|---|---|---|
| OrderState.TransitionsClimb | app/domain/order_state.py:5-65 | for an order the broker has, the transition test lets through exactly the moves that keep the status or raise its rank; before that nothing but a failure skips a stage, and a closed order never moves |
| OrderRepository.OrderTable.UpdateOrderStatus | app/repository/order_repository.py:112-129 | the update succeeds exactly when the row has an expected status, and changes nothing but that row's status |
| OrderRepository.OrderTable.UpdateOrderSubmitResult | app/repository/order_repository.py:133-181 | the broker's answer is written only to a row that is still PROCESSING |
| OrderRepository.OrderTable.UpdateOrderTrackingResult | app/repository/order_repository.py:185-226 | polled quantities and status are written only to a row in an expected status |
| OrderRepository.OrderTable.UpdateParentOrderAfterChild | app/repository/order_repository.py:278-301 | the parent's quantities and status are written under the guard the caller means |
| OrderRepository.OrderTable.ExistsChildOrders | app/repository/order_repository.py:306-317 | true exactly when some order names this one as its original |
| OrderPipeline.ClaimStep | app/worker/tasks_order.py:152-157 | a claim keeps the submission invariant: the order was PENDING, all earlier calls for it were rate-limited, and no other task holds it |
| OrderPipeline.CallStep | app/worker/tasks_order.py:184-269 | a broker call keeps the invariant: it is made only by the one task that holds the order, after nothing but rate limits |
| OrderPipeline.RecordStep | app/worker/tasks_order.py:271-352 | recording an answer keeps the invariant: only a rate limit makes the order claimable again |
| OrderPipeline.ClaimLeaves | app/worker/tasks_order.py:152-165 | a claim succeeds exactly on a PENDING order and changes nothing of it but the status; otherwise the task ends |
| OrderPipeline.RecordLeaves | app/worker/tasks_order.py:268-375 | what the record of each answer leaves of a PROCESSING order, column by column: PENDING and otherwise as it was after a rate limit, FAILED or still PROCESSING after an error, and the reply's status, broker number and remaining quantity after a reply; nothing else changes |
| OrderPipeline.FailureLeaves | app/worker/tasks_order_status.py:821-835 | a task that fails leaves a tracked order, or the order it had claimed, FAILED if that write succeeds, and nothing else changes |
| OrderPipeline.TrackersKeepOut | app/worker/tasks_order_status.py:450-613 | nothing worker 2 does touches a submission or makes an order PENDING |
| OrderPipeline.SubmitStep | app/worker/tasks_order.py:135-375 | every step of either worker, including redelivery, crashes and failures at any point, keeps the submission invariant |
| OrderPipeline.AtMostOneSubmission | app/worker/tasks_order.py:152-157 | over every interleaving at most one task per order is between claim and result, and every broker call but the last was rate-limited, so at most one is accepted |
| Workers.ProcessOrder | app/worker/tasks_order.py:135-375 | one uninterrupted submission leaves the table of SubmittedLeaves; it resubmits exactly when a PENDING order was answered by a rate limit, and then the table is the old one; an order that is not PENDING is left alone; tracking starts exactly when the order got REQUESTED or ACCEPTED |
| Workers.SubmittedLeaves | app/worker/tasks_order.py:135-375 | what each answer leaves of a PENDING order, column by column: the order as it was after a rate limit, FAILED after an error or a refusal, ACCEPTED with the broker's number or REQUESTED without one after a success, with all or nothing of it remaining; no other order changes |
| Workers.SubmittedIsRun | app/worker/tasks_order.py:135-375 | that task is a run of the step system with the same final table |
| Tracking.RowStatus | app/worker/tasks_order_status.py:174-207 | for every broker row, whether or not its quantities add up, which of them make it partly filled, filled, cancelled or failed, each if and only if; it is accepted otherwise |
| Tracking.ParentRuleAgreesIff | app/worker/tasks_order_status.py:146-165 | for every broker row the rule for parents differs from the rule for other orders exactly on a rejected remainder and on an empty row |
| Tracking.FoldsAdd | app/worker/tasks_order_status.py:583-609 | folding two deltas one after the other is folding their sum, whatever status the first one left |
| Tracking.ScheduleIndependence | app/worker/tasks_order_status.py:505-613 | however often a child was polled, its parent ends with the child's last cumulative quantity folded in exactly once |
| Tracking.SchedulesAgree | README.md:267-277 | two poll schedules that end at the same report leave the same parent |
| Tracking.FillsReachParentIff | app/worker/tasks_order_status.py:505-571 | for modify and cancel children: on every schedule that ends at a row, and for every parent, the row's quantity is folded in exactly once, if and only if the row is not a used-up one with fills that was partly cancelled or rejected |
| Tracking.SchedulesAgreeIff | app/worker/tasks_order_status.py:505-571 | all schedules that end at a row leave every parent alike if and only if that holds of the row |
| Tracking.RepeatedCancelPollIff | app/worker/tasks_order_status.py:517-526 | polling an unchanged open cancel child again changes no live parent if and only if the confirmed-cancel column is zero or the row has nothing applied |
| Tracking.RepeatedCancelPollsTake | app/worker/tasks_order_status.py:517-548 | otherwise n further polls take n times the confirmed cancels from what remains of the parent, down to nothing |
| Tracking.LateReadingLosesEveryFill | app/worker/tasks_order_status.py:576-580 | if the earlier quantity is read after the write, no schedule of reports ever changes the parent |
| Workers.ProcessOrderStatus | app/worker/tasks_order_status.py:369-684 | one uninterrupted poll leaves the table of ProcessedLeaves and asks to run again as in AsksAgainIff; a tracked order is left TIMEOUT if and only if 1800 seconds are over and the row seen, or its absence, keeps it open without taking it back in rank; an order that is not tracked leaves the table alone |
| Workers.TrackOrder | app/worker/tasks_order_status.py:369-684 | the body of the task: the guarded tracking update, the fold into the parent, the timeout and the countdown, as specified |
| Workers.ProcessedLeaves | app/worker/tasks_order_status.py:450-486 | the columns of a tracked order after one task: as they were if the row is refused or missing, otherwise the row's applied and remaining quantity and its status or TIMEOUT; only the original order changes besides |
| Workers.PollRefusedIff | app/worker/tasks_order_status.py:450-457 | a poll with a matched row writes nothing exactly when the row would take the order back in rank |
| Workers.AsksAgainIff | app/worker/tasks_order_status.py:453-457 | a task asks for another poll if and only if the order is tracked and known to the broker, the row neither takes it back nor closes it, and the window is not over |
| Workers.TrackedIsPoll | app/worker/tasks_order_status.py:489-615 | on a child and its parent the task does what one poll of the schedule theorem does |
| Workers.TrackedIsRun | app/worker/tasks_order_status.py:384-684 | that task is a run of the step system with the same final table, with or without a matching row, timeout included |
| OrderLifecycle.PollStep | app/worker/tasks_order_status.py:450-486 | a tracker's write follows the transition table and leaves every other row alone, although worker 1 may act between its read and its write |
| OrderLifecycle.FoldStep | app/worker/tasks_order_status.py:583-609 | the parent recompute uses quantities that are still current when it writes, and changes only the parent |
| OrderLifecycle.EveryWriteIsAnEdge | app/domain/order_state.py:5-44 | with one serial tracker, every status change of every step is an edge of the table, parent recomputes apart |
| OrderLifecycle.RankFallsIff | app/worker/tasks_order_status.py:293-316 | a step takes an order back to an earlier rank if and only if it is the recompute of a closed, unfilled parent by a modify child that neither completes it nor uses up its remainder |
| OrderLifecycle.ClosedStaysClosed | app/worker/tasks_order_status.py:293-316 | no column of a closed order changes except by a modify child's recompute, and its status changes if and only if that recompute completes an order that is not FILLED, or does not complete it and either leaves something to trade or finds it other than CANCELED |
| OrderLifecycle.ClosedForever | app/domain/order_state.py:47-58 | along every run without such a recompute the whole row of a closed order stays as it is |
| OrderLifecycle.FilledIsNotRelabelled | app/worker/tasks_order_status.py:301-303 | if the broker repeats the order quantity, no recompute changes the status of a filled order |
| OrderLifecycle.RankNeverFalls | app/worker/tasks_order_status.py:450-486 | along every run that never reopens an order its rank never falls |
| OrderLifecycle.FilledForever | app/worker/tasks_order_status.py:301-303 | along every run a filled order stays filled, if the broker repeats the order quantity |
| OrderLifecycle.ReachableInv | docker-compose.yml:55-70 | the run theorems apply to everything reachable from the empty system |
| OrderBooks.FoldedFits | app/worker/tasks_order_status.py:583-601 | folding any positive delta into a parent in order leaves filled and remaining within what was ordered |
| OrderBooks.BooksStep | app/worker/tasks_order_status.py:436-613 | every step of either worker, with any number of trackers and stale reads, keeps filled plus remaining within the ordered quantity, in the table and in what trackers carry |
| OrderBooks.NeverOverbooked | app/worker/tasks_order_status.py:505-613 | over every interleaving, if broker rows add up, no order ever has more filled and remaining than was ordered |
| OrderBooks.FilledMeansAll | app/worker/tasks_order_status.py:176-177 | with one serial tracker and a broker that repeats the order quantity, a FILLED order is filled in full and nothing of it remains |
| OrderFolding.StepLedger | app/worker/tasks_order_status.py:465-613 | every step of either worker moves a child's reported quantity only from under way to folded in, or from under way to lost |
| OrderFolding.ReachesParentIff | app/worker/tasks_order_status.py:465-613 | on every serial run, what a child's row says is filled is what was folded in plus what was lost, and all of it was folded in, once, if and only if no task ended between its two writes, met a status or parent it does not fold, or was refused by a closed parent |
| OrderFolding.FoldingInAdds | app/worker/tasks_order_status.py:583-609 | folding in adds exactly that quantity to what the parent's row has filled, up to the ordered one, and takes it from what the row has remaining; only a parent that was not with the broker yet when it was read keeps the remainder it had then |
| ParentLedger.OwnPollLowersIff | app/worker/tasks_order_status.py:146-165 | a matched poll of an order lowers its filled quantity if and only if the row has less filled and the transition test lets it through |
| ParentLedger.FilledIsTallied | app/worker/tasks_order_status.py:465-613 | on every serial run, what an order's row says is filled is what its own last poll wrote plus what its modify children had folded in since, up to the ordered quantity |
| ParentLedger.StillInParentIff | app/worker/tasks_order_status.py:465-613 | on every serial run, a modify child's whole quantity counts in its parent's row if and only if no step lost any of it and no poll of the parent itself was let through after some of it was folded in |
| OrderHazards.TwoTrackersRegress | app/worker/tasks_order_status.py:459-464 | without the serial worker, every state with an accepted order has a run that takes it from PARTIAL_FILLED back to ACCEPTED |
| OrderHazards.TimedOutParentIsReopened | app/worker/tasks_order_status.py:603-609 | the exception of RankFallsIff is reachable: a timed-out parent becomes PARTIAL_FILLED |
| OrderHazards.TimedOutParentIsFilled | app/worker/tasks_order_status.py:603-609 | a closed order is also relabelled without losing rank: a reachable timed-out parent becomes FILLED |
| FoldingHazards.FillLostForGood | app/worker/tasks_order_status.py:486-615 | a tracker that ends between the child's commit and the parent's loses the fill: on a reachable run the child is FILLED, its parent has nothing, and no continuation ever folds any of it in |
| FoldingHazards.FoldedFillReplaced | app/worker/tasks_order_status.py:148-165 | the parent's own poll replaces what was folded in: on a reachable run that loses nothing and whose rows all add up, the child ends FILLED with five and its parent CANCELED with none |
| FoldingHazards.RefusedPollEndsChain | app/worker/tasks_order_status.py:453-457 | on a reachable run an open parent is left without a next poll, at any attempt and time: the well-formed row it is polled with is refused |
| OrderHazards.UnseenClaims | app/worker/tasks_order.py:271-278 | if the claimed status is not visible, no order is ever accepted on any run |
| OrderHazards.LateReadings | app/worker/tasks_order_status.py:576-583 | if the earlier quantity is read after the write, no run ever folds a modify child |
| OrderHazards.NoSessionServesBoth | app/worker/tasks_order_status.py:576-583 | under either single behaviour of a session, one of the two failures holds on every run |
| TrackingChain.NoPollIsEarly | app/worker/tasks_order_status.py:60-77 | attempt n of a chain runs no earlier than the sum of the delays before it |
| TrackingChain.ChainsEnd | app/worker/tasks_order_status.py:369-380 | whatever the actual delays, a tracking chain has at most 43 polls |
| TrackingChain.PunctualChain | app/worker/tasks_order_status.py:259-289 | the bound is reached: punctual requeues make exactly 43 polls, the last of which gives up |
| TrackingChain.GivesUpExactlyAtWindow | app/worker/tasks_order_status.py:60-77 | the window ends a chain exactly from 1800 seconds on; before that the next poll is asked for in a minute, and in the first 90 seconds after one second more each time, up to 15; what else may end a chain is in Workers.AsksAgainIff |
| DirectTrade.LedgerConserved | app/strategy/backtest/backtest_executor.py:142-253 | at every point of every run, cash is initial cash plus realized gains minus what is invested in open positions |
| DirectTrade.EntryCash | app/strategy/backtest/backtest_executor.py:219-253 | m entries out of n candidates leave c * ((n-1)/n)^m of the cash c |
| DirectTrade.SolventAlways | app/strategy/backtest/backtest_executor.py:197-253 | over every run cash is never negative and open positions never exceed the limit |
| DirectTrade.CandidatesAre | app/strategy/backtest/backtest_executor.py:197-217 | the candidates are the first signals, as many as slots are free |
| DirectTrade.OneEntered | app/strategy/backtest/backtest_executor.py:229-253 | a candidate is bought if and only if it has a positive close and there is cash, at that close, for an n-th of the cash |
| DirectTrade.EntriesCompose | app/strategy/backtest/backtest_executor.py:229-253 | candidates are tried one after the other, each on the book the ones before it left |
| DirectTrade.OneExit | app/strategy/backtest/backtest_executor.py:158-191 | what becomes of one position, column by column: older, or as it was if a sale found no close, or a trade at the close |
| DirectTrade.ExitsSplit | app/strategy/backtest/backtest_executor.py:157-191 | positions are looked at one by one and in order, whatever becomes of the others |
| DirectTrade.OneSignal | app/strategy/strategies/reversal_volume_strategy.py:444-470 | a scanned stock is a signal unless it is held or was sold within the cooldown |
| DirectTrade.EntriesKeepEquity | app/strategy/backtest/backtest_executor.py:219-253 | the entry phase leaves equity at the day's closes unchanged |
| DirectTrade.ValueIsCostAndGain | app/strategy/backtest/backtest_executor.py:256-260 | the value of the holdings is what those with a close cost plus what they have gained at the closes |
| DirectTrade.SalesBalance | app/strategy/backtest/backtest_executor.py:156-194 | what was invested in the sold positions leaves the book and comes back with its gain |
| SwingReentry.WindowSufficesIff | app/strategy/backtest/backtest_executor.py:148-204 | the shortened trade history changes no candidate list if and only if the strategy's cooldown is at most 30 days or at most twice the cooldown of the settings |
| SwingReentry.ReentrySpaced | app/strategy/strategies/reversal_volume_strategy.py:447-470 | over every run no stock is held twice, and every entry comes more than the cooldown, as far as the window reaches, after every earlier exit of that stock |
| SwingReentry.NothingOverstays | app/strategy/strategies/reversal_volume_strategy.py:397-419 | under the strategy's rule no sale waits for a price, and what is still held on a trading day is younger than the limit and its gain is inside both bounds |
| SwingReentry.ReasonIff | app/strategy/strategies/reversal_volume_strategy.py:410-419 | each reason of the exit rule, if and only if: the gain at the close against the bounds times the entry price, profit before loss before age |
| BacktestExecutor.PoppingKeepsUnclosed | app/strategy/backtest/backtest_executor.py:193-194 | removing the closed indices in descending order leaves exactly the unclosed positions, in order |
| BacktestExecutor.Executor.CheckPosition | app/strategy/backtest/backtest_executor.py:158-191 | a position is sold exactly when the rule says so and a close exists; otherwise it ages, unless the sale was put off |
| BacktestExecutor.ExitLoopStep | app/strategy/backtest/backtest_executor.py:158-191 | one round of the exit loop ages or sells the next position and keeps every other, the collected indices, the trades and the cash in step |
| BacktestExecutor.Executor.SellPositions | app/strategy/backtest/backtest_executor.py:157-191 | the exit loop books every sale of the day in order and returns the indices that were sold |
| BacktestExecutor.Executor.PopClosed | app/strategy/backtest/backtest_executor.py:193-194 | popping from the highest index down removes exactly the given indices |
| BacktestExecutor.Executor.CheckExits | app/strategy/backtest/backtest_executor.py:156-194 | the exit phase leaves the specified book |
| BacktestExecutor.Executor.TryEnter | app/strategy/backtest/backtest_executor.py:229-253 | a candidate is entered exactly when it has a close, a positive quantity and enough cash |
| BacktestExecutor.Executor.EnterPositions | app/strategy/backtest/backtest_executor.py:196-253 | the entry phase leaves the specified book |
| BacktestExecutor.Executor.RecentTrades | app/strategy/backtest/backtest_executor.py:199-204 | the history handed to the strategy is what was sold inside the window, in order |
| BacktestExecutor.Executor.Value | app/strategy/backtest/backtest_executor.py:255-260 | the value of the positions that have a close today, as in DirectTrade.ValueIsCostAndGain |
| BacktestExecutor.Executor.Run | app/strategy/backtest/backtest_executor.py:114-278 | the loop over all days leaves the specified book and the records of RecordedEquity |
| BacktestExecutor.RecordedEquity | app/strategy/backtest/backtest_executor.py:255-264 | on every day of every run the recorded equity is cash plus what the positions with a close cost and have gained at the closes; when all have one, initial cash plus realized gains plus those gains |
| RebalanceSim.EquityCompounds | app/strategy/backtest/runner.py:70-123 | on every day the recorded equity is initial cash times the product over the periods of the mean price ratio of the stocks held |
| RebalanceSim.RecordIs | app/strategy/backtest/runner.py:27-118 | the other columns of every record: one holding per stock the last rebalance bought, nothing in cash while there are any, and the rebalancing mark exactly on the first trading day of a period |
| RebalanceSim.ValueGrows | app/strategy/backtest/runner.py:107-112 | holdings are valued one by one, at the close of the day, and at nothing when their stock has none |
| RebalanceSim.SelfFinancing | app/strategy/backtest/runner.py:78-105 | equity right after a rebalance is the value of what was held right before |
| RebalanceSim.InvestedWorth | app/strategy/backtest/runner.py:99-105 | money spread over stocks on one day is worth, on another, that money times the mean price ratio |
| RebalanceRunners.GetRebalanceDates | app/strategy/backtest/runner.py:27-40 | a day is a rebalancing day exactly when no earlier day lies in its period |
| RebalanceRunners.Rebalance | app/strategy/backtest/runner.py:90-105 | selling and buying again turns the portfolio into its worth spread equally |
| RebalanceRunners.RunBacktest | app/strategy/backtest/runner.py:44-126 | the runner's loop returns the specified record of every day |
| RebalanceRunners.RunRebalance | app/strategy/backtest/backtest_executor.py:65-106 | the executor's loop returns the specified record of every day |
| RebalanceRunners.RunBoth | app/strategy/backtest/backtest_executor.py:65-106 | run on the same market and days, the two implementations return the same records, and their equity is the compounded one |
| PositionSizing.DiffPartitions | app/strategy/runtime/position_diff.py:113-154 | every held stock is sold or kept, never both, once each; the kept ones are exactly the targets; nothing held is bought |
| PositionSizing.SalesAreHoldings | app/strategy/runtime/position_diff.py:125-151 | the sales are exactly the last holding of each held stock that is no target, with its whole quantity, worth that quantity at its price; the kept items are exactly the last holding of each held target |
| PositionSizing.SalesInOrder | app/strategy/runtime/position_diff.py:113-151 | the sales come in the order in which their stocks first appear among the holdings |
| PositionSizing.TotalsAreTraded | app/strategy/runtime/position_diff.py:152-224 | each stock is sold or kept once, the totals are the quantities times the prices of the sales and of the buys, and the cash afterwards is the cash with them added and taken away |
| PositionSizing.BuysAreAffordable | app/strategy/runtime/position_diff.py:180-217 | the stocks bought are exactly the targets that are not held and whose price is known and within the share, in target order; none without a budget |
| PositionSizing.BufferIsTruncated | app/strategy/runtime/position_diff.py:157-160 | the buffer is the ratio of the money, cut towards zero |
| PositionSizing.BudgetForIs | app/strategy/runtime/position_diff.py:154-178 | the budget is the capped share, for the targets that are not held, of the money without the buffer and of what is kept |
| PositionSizing.DiffSolvent | app/strategy/runtime/position_diff.py:154-217 | for every input the buys cost at least nothing and at most the investable money |
| PositionSizing.DiffSharesEqually | app/strategy/runtime/position_diff.py:180-215 | every buy is worth its equal share of the budget to within one share price |
| PositionSizing.DiffKeepsBuffer | app/strategy/runtime/position_diff.py:158-224 | on a sound account the estimated cash afterwards is at least the cash buffer |
| PositionSizing.QuantityFits | app/strategy/runtime/position_diff.py:189-199 | the bought shares cost at most the allotment and leave less than one share price of it |
| PositionSizing.FormsAgree | app/strategy/runtime/order_generator.py:453-507 | given the calculator's investable money and hold list, the recalculated orders are the calculator's purchases, code for code and share for share |
| PositionSizing.LessCashBuysLess | app/strategy/runtime/order_generator.py:453-507 | with less cash no stock is ordered in a larger quantity |
| PositionSizing.RecalculatedSolvent | app/strategy/runtime/order_generator.py:453-507 | for every input the recalculated orders, at the given prices, cost at least nothing and at most the cash |
| PositionSizing.RecalculatedOrdersAre | app/strategy/runtime/order_generator.py:453-507 | every recalculated order is for a target that is not on the hold list and has a price; a market order carries the price zero, a limit order the stock's |
| PositionOrders.PositionDiffCalculator.Classify | app/strategy/runtime/position_diff.py:125-151 | the loop over the holdings fills the sell and hold lists of SalesAreHoldings and their total |
| PositionOrders.PositionDiffCalculator.AppendBuys | app/strategy/runtime/position_diff.py:180-217 | the loop over the new codes fills the buy list of BuysAreAffordable and its total |
| PositionOrders.PositionDiffCalculator.Calculate | app/strategy/runtime/position_diff.py:90-224 | the whole calculation leaves the result that the lemmas of PositionSizing are about |
| PositionOrders.OrderGenerator.RecalculateBuyOrders | app/strategy/runtime/order_generator.py:439-507 | the recalculation returns the specified orders |
| PositionSizing.BudgetIsCappedShare | app/strategy/runtime/position_diff.py:166-178 | the budget never exceeds the money nor k of n shares of the whole portfolio, and reaches one of the two |
| Drawdown.CalcDrawdownDuration | app/strategy/metrics/core.py:142-194 | max_days is the longest distance, over all underwater points, from the last point that was not underwater to the first recovery or the end; recovered exactly when the last point is at its running maximum; current_days is the age of the open stretch |
| Drawdown.CalcMaxDrawdown | app/strategy/metrics/core.py:132-139 | before rounding, the largest relative loss over all pairs of an earlier and a later point, in percent |
| Drawdown.UnderwaterFlags | app/strategy/metrics/core.py:155-156 | comparing with the running maximum finds exactly the points with a higher point before them |
| Drawdown.StretchCounts | app/strategy/metrics/core.py:171-188 | counting a maximal underwater stretch once accounts for all its points |
| PeriodReturns.CalcRebalancePeriodReturns | app/strategy/metrics/core.py:242-270 | the loop returns the rates of RateIs over the distinct dates up to the end of the curve, and refuses a curve that breaks its contract |
| PeriodReturns.OrderIrrelevant | app/strategy/metrics/core.py:253-254 | the order and repetition of the dates do not matter |
| PeriodReturns.ReturnsTelescope | app/strategy/metrics/core.py:256-270 | compounding the returns gives the last value over the value as of the first rebalancing date the curve knows |
| PeriodReturns.AsOfIsLast | app/strategy/metrics/core.py:263-264 | the value as of a day is that of the last curve point up to it |
| PeriodReturns.RateIs | app/strategy/metrics/core.py:256-270 | each return is the value of the last curve point up to the next rebalancing point, or of the end, over that of the last up to this one, less one; there is one for each point the curve knows |
| PeriodReturns.ReturnsTelescopeAt | app/strategy/metrics/core.py:256-270 | compounding the returns gives the curve's last value over that of its last point up to the first rebalancing date it knows |
| NavAssembly.FillFindsLatest | app/strategy/metrics/adapters.py:162-166 | reindexing to a merged index and filling forward finds the latest value |
| NavAssembly.CarriedIsLatest | app/strategy/metrics/adapters.py:162-166 | the whole chain of reindex, fill and reindex is a look-up of the latest value, with the default before the first |
| NavAssembly.SortShape | app/strategy/metrics/adapters.py:138 | sorting snapshots of distinct dates keeps them and puts their dates in order |
| NavAssembly.RefusedIff | app/strategy/metrics/adapters.py:133-146 | nothing is assembled exactly when there is no stock or no trading day with a snapshot behind it |
| NavAssembly.ValuedDays | app/strategy/metrics/adapters.py:139-146 | the days valued are exactly the trading days from the first snapshot to the given date, in order |
| NavAssembly.NavUsesLatestSnapshot | app/strategy/metrics/adapters.py:148-169 | on every such day the value is the cash of the latest snapshot on or before the day plus, summed over the stocks, the close times the quantity that snapshot has of it, or nothing |
| NavAssembly.LatestSnapshotExists | app/strategy/metrics/adapters.py:138-139 | every such day has a latest snapshot |
| NavAssembly.SnapshotOrderIrrelevant | app/strategy/metrics/adapters.py:138 | the order in which snapshots arrive does not change the result |
| TokenCache.AcquireStep | app/utils/distributed_lock.py:61-73 | while callers are timely, taking the lock keeps the token invariant: nobody is inside when it is free |
| TokenCache.IssueStep | app/services/kis/auth_service.py:83-96 | a request for a token keeps the invariant: all earlier tokens are in their last five minutes or over |
| TokenCache.SavedLongEnough | app/services/kis/auth_service.py:168-176 | the cached token outlives its usefulness, also when the lifetime is rounded down or already over, and goes no later than it expires, or after one second |
| TokenCache.SavedUsableIff | app/services/kis/auth_service.py:145-191 | a saved token is usable exactly until 300 seconds before its expiry |
| TokenCache.TokensAreSpaced | app/services/kis/auth_service.py:57-100 | for any number of callers, while nobody stays inside for the life of the lock, at most one is inside and every token is requested no earlier than 300 seconds before the expiry of each token before it |
| TokenCache.SecondEntryIff | app/utils/distributed_lock.py:77-86 | a second caller gets in exactly when the first has been inside for the life of the lock |
| TokenCache.OverstayingIssuesTwice | app/utils/distributed_lock.py:16-29 | from every state with a caller about to request a token there is a run on which it overstays and two tokens are requested at one moment |
| TokenService.Redis.AcquireLock | app/utils/distributed_lock.py:61-73 | the lock is set, with its lifetime, exactly when it is absent or has expired |
| TokenService.Redis.ReleaseLock | app/utils/distributed_lock.py:77-86 | the lock is deleted, whoever set it |
| TokenService.Redis.GetCachedTokenPayload | app/services/kis/auth_service.py:145-191 | a token passes the reader's tests exactly while its key exists and more than five minutes are left |
| TokenService.Redis.SaveTokenPayload | app/services/kis/auth_service.py:168-176 | the token is stored for its remaining whole seconds, at least one |
| TokenService.GetValidAccessToken | app/services/kis/auth_service.py:57-104 | an uninterrupted request answers from the cache if it can, and otherwise does what RefreshUnderLock does |
| TokenService.RefreshUnderLock | app/services/kis/auth_service.py:72-104 | under the lock the cache is read again, a token is requested and saved only if it is still unusable, and the lock is released on every path |
| TokenService.RefreshedLeaves | app/services/kis/auth_service.py:72-104 | a caller is refused exactly while the lock lives, and then nothing changes; otherwise the lock is gone afterwards, and a granted token is the cached one with more than 300 seconds left, or the broker's new one, which is now cached |
| TokenService.RefreshedIsRun | app/services/kis/auth_service.py:72-104 | that call is a run of the step system that leaves nothing behind and issues at most one token |
| MarketCalendar.NextBusinessDay | app/utils/market_calendar.py:122-126 | the least business day after the given day |
| MarketCalendar.AdjustToNextBusinessDay | app/utils/market_calendar.py:136-140 | the least business day on or after the given day |
| MarketCalendar.AddCounts | app/utils/market_calendar.py:143-147 | n business days on from any day is the business day with exactly n business days up to it; from a business day, with exactly n before it |
| MarketCalendar.WithinDelayIff | app/utils/market_calendar.py:226-234 | a business day is within the allowed delay exactly when at most that many business days come before it |
| MarketCalendar.NextDateIsLeast | app/utils/market_calendar.py:209-215 | the next rebalance date is the least business day at least the interval after the last rebalance |
| MarketCalendar.DecideIff | app/utils/market_calendar.py:218-239 | each decision, if and only if, by counting business days since the interval was over |
| RebalanceTask.RebalanceTable.ExecuteRebalance | app/worker/tasks_rebalance.py:82-223 | the gates in order; a trigger that passes them adds the row of its run, of today and with its result, and nothing else changes |
| RebalanceTask.RunsIff | app/worker/tasks_rebalance.py:128-163 | a trigger runs exactly on a day and at a time of the window, unless it is blocked or the month is done and not forced |
| RebalanceTask.AutomaticRebalancesAreSpaced | app/worker/tasks_rebalance.py:128-152 | over every trace of triggers and manual rebalances, an automatic rebalance is on a business day at least the interval after every completed one before it |
| RebalanceTask.StuckIff | app/worker/celery_app.py:50-58 | left to its schedule, which forces every trigger, the automatic rebalance never runs again exactly when nothing was ever completed or more business days than the allowed delay have gone by |
| RebalanceTask.StuckUnforcedIff | app/worker/tasks_rebalance.py:128-163 | with unforced triggers it never runs again exactly when, besides, the month of the window's last day has a running or completed rebalance |
| RebalanceTask.LeftRunningSticks | app/repository/rebalance_repository.py:129-142 | the two differ: a run left RUNNING in that month stops every unforced trigger while a forced one could still run |
| RebalanceTask.MonthCheckLeavesADay | app/worker/tasks_rebalance.py:154-163 | with an interval of 30 days or more and a delay of at least one business day, the month check leaves a day of the window on which an unforced trigger runs |
| RebalanceTask.MonthCheckCanBlock | app/repository/rebalance_repository.py:112-142 | without a delay an unforced trigger has a day exactly when the month of the next rebalance date has no running or completed rebalance |

## Left out

- HTTP, Redis, SQLAlchemy, Celery and WebSocket plumbing, alerts, schemas and routers: only guarded updates, set-if-absent with expiry and countdowns are modelled.
- Retries inside one broker call: a call is one step that succeeds, is rate-limited or fails.
- The checks of quantities and original order before a modify or cancel call: they count as a failure before the call.
- The cancel order created on timeout (app/worker/tasks_order_status.py:686-723) and the snapshot triggered when a rebalance is complete.
- An unmatched row for a cancel child: the fields its branch reads are missing there (app/worker/tasks_order_status.py:116-129, :518-523), so a poll without a row folds nothing; a child whose original order does not exist folds nothing either.
- Columns that decide nothing: messages, payloads, average prices, the organisation number.
- Tracking.ScheduleIndependence: is about one child and its parent with uninterrupted polls; interruptions, interleaving and the parent's own polls are the subject of OrderFolding and ParentLedger. It assumes that the earlier quantity is read before the write, that the broker's row adds up and does not shrink, that no used-up row was partly cancelled or rejected, and for a cancel child that the confirmed-cancel column is zero; the if-and-only-if lemmas beside it say what happens without the last two.
- Tracking.SchedulesAgree: has the assumptions of Tracking.ScheduleIndependence.
- OrderFolding.ReachesParentIff: assumes the serial tracker, the earlier quantity read before the write, rows that add up and do not shrink, a zero confirmed-cancel column for cancel children, and a child that is not modified or cancelled itself; it is about what was folded in, ParentLedger.StillInParentIff about what is still in the parent's row.
- ParentLedger.StillInParentIff: has these assumptions too, and counts what was folded in; whether a later row of the parent itself contains the child's fills is the broker's affair.
- Workers.ProcessOrderStatus: the clause about TIMEOUT and Workers.ProcessedLeaves are about orders that do not name themselves as their original.
- OrderLifecycle.FilledForever: assumes that the broker repeats the order quantity; with another quantity a filled order could be recomputed.
- OrderBooks.NeverOverbooked: assumes that the parts of a broker row add up to the order's quantity and that orders are created with at most their quantity remaining.
- OrderRepository.OrderTable.UpdateParentOrderAfterChild: has the guard its cancel caller names, not the missing parameter.
- TokenService.GetValidAccessToken: a call that lost the race for the lock ends there; its wait (app/services/kis/auth_service.py:108-125), whose fingerprint test has the opposite sense of the other two, is not modelled.
- TokenCache.TokensAreSpaced: fixed credentials, one clock, no forced refresh, no invalidation and no crash between request and save.
- QuantLib: business days are any predicate under which a business day always follows, and days are numbered.
- MarketCalendar.AddCounts: negative offsets and the previous business day are not modelled; nothing in the window uses them.
- RebalanceTask.RunsIff: the month of a day is a function; the database's time zone for it, later changes of a row and the steps inside one rebalance are not modelled.
- Candidate scanning and the market filter of the swing strategy: an abstract list of codes per day; `num_signals` of a record, which reads a leftover local, is not modelled.
- RebalanceRunners.RunBacktest: the trading days are given; intersecting the stocks' indexes and slicing the data for the signal are not modelled.
- NavAssembly.NavUsesLatestSnapshot: distinct snapshot dates and a close for every stock and day; with a repeated date pandas refuses to reindex.
- Metrics with roots and powers (CAGR, volatility, Sharpe ratio), win metrics, turnover, rounding to decimals.
- F-Score, universe filters, data loaders, plots, realtime parsing and paging.

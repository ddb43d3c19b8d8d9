# dln-taker, verified

dln-taker watches a feed of cross-chain orders, takes the profitable ones on their take chain, and
unlocks what it is owed on their give chain, in batches. It is built from small asynchronous state
machines that share one thread and interleave at every `await`. This project models those machines
and proves what holds over all their runs.

How the model is laid out:

| file | modules | part of the program |
|---|---|---|
| `BatchUnlocker.dfy`, `UnlockRuns.dfy`, `UnlockSteps.dfy` | `UnlockModel`, `BatchUnlocking`, `UnlockRuns`, `UnlockSteps` | `BatchUnlocker`: queues of fulfilled orders, one lock, batches |
| `Mempool.dfy` | `MempoolModel`, `MempoolServices` | `MempoolService`: retries behind timers |
| `OrderProcessor.dfy`, `ProcessorRuns.dfy`, `ProcessorTurns.dfy` | `ProcessorModel`, `OrderProcessing`, `ProcessorRuns`, `ProcessorTurns` | `OrderProcessor`: the scheduler of one take chain |
| `Throughput.dfy`, `ThroughputRuns.dfy`, `ThroughputWindows.dfy`, `ThroughputLimits.dfy` | `ThroughputModel`, `ThroughputControllers`, `ThroughputRuns`, `ThroughputWindows`, `ThroughputLimits` | `ThroughputController` and the orders that check and then add |
| `Ranges.dfy` | `Ranges` | ranges of block confirmations and their two users |
| `Broadcaster.dfy`, `BroadcastRuns.dfy` | `BroadcastModel`, `Broadcasting`, `BroadcastRuns` | `EvmTxBroadcaster` |
| `FeeManager.dfy`, `PriorityFee.dfy` | `FeeManager`, `PriorityFee` | `EvmFeeManager` and the fee fetchers |
| `U256.dfy` | `U256` | the 256-bit codec of the order feed |
| `Common.dfy`, `Totals.dfy` | `Common`, `Totals` | ordered sets; sums over maps |

An object that updates its fields is a class here, and each of its methods promises
`View() == F(old(View()), ...)`: the new state is a function of the old one, given in the `...Model`
module. A method that awaits is cut at its awaits, also where it only awaits a call of its own, as
other continuations may run before it resumes. What lies between two awaits is one method, and the
suspended rest is an explicit record (`Job`, `Attempt`, `Flight`), so that several may be pending at
once: that there is at most one is proved, not built in. A continuation that ran its course but
waits for its turn goes on with an event `Resumes`. A `...Runs` module then lets
arrivals, timers, answers and outcomes interleave in any order and proves invariants of every run.
Beside them stand laws that tell what single steps come to without the functions of the model:
`UnlockSteps`, `ProcessorTurns`, and such lemmas as `ThrottledIff`, `ReplaceableIff` or `FirstSendIsLeast`.

Conventions. Ids are non-empty strings and chain ids are positive, as in the program, where both are
tested for truth. JavaScript's sets and maps iterate in insertion order, so they are sequences
without duplicates, or maps with a sequence of keys. US dollars are cents, multipliers are basis
points, durations are milliseconds, all integers. Pending timers of the runtime are part of the
state. What nodes, signers, feeds and the take pipeline answer is arbitrary, with one law where at
most one unlock per order needs it: the pre-check of a batch does not report as Fulfilled an order
that had left that state for good before the batch was picked.

Where the code falls short of its documentation, or of what one would expect, the code is modelled
as it is, and the exact condition is proved:

- A throughput limit ("speed not exceeding $2,500 per 30s", README.md:246-279) is a check, and only
  later an addition. Whatever the thresholds, what is locked stays within the cap over all
  interleavings exactly when one take-chain processor is at work (`CapKeptIff`); with more it can
  exceed the cap by one order for each further processor (`AttainsCeiling`), never by more
  (`EveryRun`).
- An addition does not clear the timer of an earlier addition of the same order, so the later one
  can be taken out before its window ends: exactly when such a timer is due earlier
  (`FullWindowIff`). The rate is kept as long as every addition is safe, that is, no earlier
  addition of the order still counts in its window and no timer of the order is due before the new
  window ends (`RateLimit`). For a single processor this is exact: an addition is safe if and only
  if the rate is kept however safely things go on after it (`RateLimitIff`). An order that returns
  with the same value is enough to exceed the rate by half (`RateLimitBrokenByReturningOrder`).
- The comment at src/chain-common/order-taker.ts:52-55 says that an order is added to the throughput
  controller before its transaction is broadcast. The code adds it afterwards and only on success;
  that is what `Land` and `Abort` model.
- `BatchUnlocker.remove` is handed the take chain, but queues are keyed by give chain. It keeps the
  two maps in agreement exactly under the condition of `RemoveAgreesIff`.
- The lock of the batch unlocker is given back one turn after the peek that found no full queue. An
  order that fills its queue in between is left behind: an unlocker idle after a success has a full
  queue exactly if that has happened (`UnlockRuns.EveryRun`), and it can (`FullQueueLeftBehind`).
- A pre-check that throws is a rejection that nothing handles. It ends the process by default on the
  versions of Node that package.json asks for; a process that survives it has a batch unlocker locked
  for good (`LockHeldIff`, `WedgedForGood`). Both are modelled (`StatesThrew`).
- A batch with nothing left to unlock ends the process (`ExitsIffNothingToSend`).
- A creation event that comes while a terminal event of the same order is still queued is lost, just
  as if the terminal event had come after it (`AnnouncedIsWipedIff`).
- Looking back for an older receipt skips the last broadcast (`SeekFindsIff`), so that a run can fail
  although its transaction has been mined (`MinedLastIsMissed`).
- A taken nonce makes the broadcaster move on to the next one, so two of its transactions can both be
  mined: exactly if one was published before such a refusal and one after it (`TwoCanBeMinedIff`,
  `BothCanBeMined`).
- Tips are sorted as text. That is a numeric sort exactly when lesser tips have lesser texts
  (`TextSortIsNumericIff`); where it is not, the priority fee can fall below the median
  (`EstimateBelowMedian`).
- `GasCategory.PROJECTED` is the enumeration's zero and counts as no category at all (`Effective`).
- An order first seen as archival counts as finalized for as long as it is known (`TakenNow` and
  `StoreEvolves`: what settles it never changes).

## Model

| member | source | states |
|---|---|---|
| UnlockModel.BatchSize | src/executor.ts:652-674 | a configured size is refused exactly when it is outside 1..10; an accepted one is the size configured for the chain, else the shared one, else 10, and capped to 7 for Solana |
| UnlockModel.PeekNext | src/processors/BatchUnlocker.ts:144-152 | the full queue of the chain seen first is found, and none exactly when no queue is full |
| UnlockModel.SelectKeepsOrder | src/processors/BatchUnlocker.ts:204-208 | the filter keeps the orders at just the positions with the wanted answer, in the order of the batch |
| BatchUnlocking.BatchUnlocker.Remove | src/processors/BatchUnlocker.ts:42-47 | deletes from the queue keyed by the take chain, and the datum only if that queue exists |
| BatchUnlocking.BatchUnlocker.UnlockOrder | src/processors/BatchUnlocker.ts:49-83 | only an order that is Fulfilled in favour of our own authority enters the pool |
| BatchUnlocking.BatchUnlocker.AddOrder | src/processors/BatchUnlocker.ts:85-100 | files the order under its give chain, keeps the place of a known one, and tries to unlock |
| BatchUnlocking.BatchUnlocker.TryUnlock | src/processors/BatchUnlocker.ts:102-117 | takes the lock, and picks the head of the queue, exactly if the lock is free and the queue holds a full batch or more |
| BatchUnlocking.BatchUnlocker.PeekNextBatch | src/processors/BatchUnlocker.ts:144-152 | the loop finds the first full queue |
| BatchUnlocking.BatchUnlocker.OnOrderStates | src/processors/BatchUnlocker.ts:188-215 | splits the batch by the answers and hands the rest to the sender; a thrown request leaves the lock behind |
| BatchUnlocking.BatchUnlocker.CleanUp | src/processors/BatchUnlocker.ts:170-173 | deletes the executed orders, and only them, from the batch's queue and the data |
| BatchUnlocking.BatchUnlocker.OnSendSettled | src/processors/BatchUnlocker.ts:214-246 | hands back the orders no longer Fulfilled, and the batch too if it was sent |
| BatchUnlocking.BatchUnlocker.OnOrdersUnlocked | src/processors/BatchUnlocker.ts:167-176 | deletes the orders handed back, and reports a success exactly if they make up a whole batch |
| BatchUnlocking.BatchUnlocker.OnBatchPerformed | src/processors/BatchUnlocker.ts:117-142 | goes on with the next full queue after a success; else the lock is about to be given back, at once after a failure directly in tryUnlock |
| BatchUnlocking.BatchUnlocker.OnAnyUnlocked | src/processors/BatchUnlocker.ts:122-126 | gives the lock back |
| UnlockRuns.EveryRun | src/processors/BatchUnlocker.ts:102-246 | over every interleaving: one unlock run at a time and under the lock, no order in two successful unlocks, and a queue is full while the unlocker is idle after a success exactly if an arrival has filled it between the last peek and the release of the lock, and no removal has undone that |
| UnlockRuns.StepExclusive | src/processors/BatchUnlocker.ts:102-142 | mutual exclusion and duplicate-free queues are kept by every step |
| UnlockRuns.StepSentOnce | src/processors/BatchUnlocker.ts:178-216 | every step keeps successful batches disjoint, and a batch about to be sent disjoint from them |
| UnlockRuns.StepDrained | src/processors/BatchUnlocker.ts:119-152 | from the last peek on, and while the unlocker stays idle, every step keeps the full queues to just those filled since the peek |
| UnlockRuns.FinalPeek | src/processors/BatchUnlocker.ts:129-152 | after a success the unlock goes on with a full queue exactly when there is one, and else leaves none |
| UnlockRuns.LateArrivalIsLeft | src/processors/BatchUnlocker.ts:102-127 | any order that fills its queue after the last peek ends up in a full queue under a free lock |
| UnlockRuns.FullQueueLeftBehind | src/processors/BatchUnlocker.ts:102-127 | with batches of one that state is reached from the start |
| UnlockRuns.AddOrderAgreesIff | src/processors/BatchUnlocker.ts:85-90 | an arrival keeps queues and data in agreement exactly when the order is new or waits under the same give chain |
| UnlockRuns.RemoveAgreesIff | src/processors/BatchUnlocker.ts:42-47 | removal by take chain keeps them in agreement exactly when no such queue exists, the order is unknown, or give and take chain coincide |
| UnlockRuns.StepAgreement | src/processors/BatchUnlocker.ts:42-256 | every step keeps the maps in agreement and the data of the batch in flight at hand, for orders with give different from take |
| UnlockRuns.EveryProperRun | src/processors/BatchUnlocker.ts:85-256 | over every run of cross-chain orders: agreement, no order lost, oldest first, and every batch handed to the sender is duplicate-free, of one give chain, within 1..10 (7), with the current data of each of its orders |
| UnlockRuns.OnlyCleanUpRemoves | src/processors/BatchUnlocker.ts:170-173 | an order leaves the pool exactly when a settled batch cleans it up, and keeps its datum until then |
| UnlockRuns.SettledSize | src/processors/BatchUnlocker.ts:204-216 | a successful send leaves exactly the batch size to delete, a failed one the orders no longer Fulfilled |
| UnlockRuns.CleanUpShrinks | src/processors/BatchUnlocker.ts:161-176 | the pool shrinks by exactly the orders to delete, and the unlock goes on only if they are a whole batch |
| UnlockRuns.DrainingTerminates | src/processors/BatchUnlocker.ts:102-142 | the number of unlock steps in any run is bounded by what was queued at the start and nine for each arrival |
| UnlockRuns.RunCanGoOn | src/processors/BatchUnlocker.ts:102-246 | an unlock run under way in a live process always has a next step |
| UnlockRuns.DrainedAtTheEnd | src/processors/BatchUnlocker.ts:102-142 | so a run in which none is left has come to rest, or ended the process, within that bound |
| UnlockRuns.ExitsIffNothingToSend | src/chain-evm/tx-generators/createBatchOrderUnlockTx.ts:18 | the process ends at the pre-check exactly when no order of the batch is still Fulfilled |
| UnlockRuns.LockHeldIff | src/processors/BatchUnlocker.ts:115-126 | the lock is held exactly while an unlock run is under way, the wait between its last peek and the release included, or for good once a pre-check has thrown |
| UnlockRuns.WedgedForGood | src/processors/BatchUnlocker.ts:115-126 | a lock left behind is never released, and nothing is sent again |
| UnlockSteps.ArrivalStartsIff | src/processors/BatchUnlocker.ts:102-117 | an arrival at a free lock starts an unlock run exactly if its chain then holds a full batch or more, whatever was left there before, and the run is about the head of that queue |
| UnlockSteps.ArrivalWaits | src/processors/BatchUnlocker.ts:102-107 | an arrival under the lock only joins its queue |
| UnlockSteps.EveryArrivalRetries | src/processors/BatchUnlocker.ts:102-117 | over every run: whenever the lock is free, the next accepted arrival for a chain with a full batch starts an unlock run for it |
| UnlockSteps.FailureStops | src/processors/BatchUnlocker.ts:119-142 | a failed send gives the lock back without another look at the queues; the orders of its batch still wait, and just those no longer Fulfilled are gone |
| UnlockSteps.FailedBatchIsRetried | src/processors/BatchUnlocker.ts:102-142 | so a batch that failed as a whole is tried again as soon as another order of its chain arrives |
| UnlockSteps.StepKeepsOrder | src/processors/BatchUnlocker.ts:85-176 | every step keeps the order in which the orders of a chain came, and the order in which chains were first seen |
| UnlockSteps.RemovalIsExact | src/processors/BatchUnlocker.ts:42-47 | a removal makes just the queue of its chain and the data forget just that order, and does nothing if there is no such queue |
| MempoolModel.AddOrderKeeps | src/processors/mempool.service.ts:52-65 | adding keeps tracked orders and pending timers in bijection |
| MempoolModel.DeleteKeeps | src/processors/mempool.service.ts:67-73 | so does deleting |
| MempoolModel.FireKeeps | src/processors/mempool.service.ts:75-89 | so does firing, and a timer that fires always finds its order |
| MempoolModel.TotalDelayIsQuadratic | src/processors/mempool.service.ts:13-44 | back-off delays grow, and the first n sum to 5n² seconds live, 150n² - 30n archival |
| MempoolServices.MempoolService.AddOrder | src/processors/mempool.service.ts:52-65 | replaces the order's timer, if any, by a new one |
| MempoolServices.MempoolService.Delete | src/processors/mempool.service.ts:67-73 | clears the order's timer and forgets the order |
| OrderProcessing.OrderProcessor.HandleEvent | src/processor.ts:127-151 | files a creation event, keeping what was known of the order, and processes the event |
| OrderProcessing.OrderProcessor.Process | src/processor.ts:163-250 | under the lock live creations are parked in the priority set, archival ones in the other, and anything else behind the queued events; else the event is dispatched and the queues are drained |
| OrderProcessing.OrderProcessor.TakeOrder | src/processor.ts:342-381 | counts the attempt, and rejects a revoked order on the spot |
| OrderProcessing.OrderProcessor.PickNextOrderId | src/processor.ts:252-263 | the first live order, else the first archival one, leaves both sets |
| OrderProcessing.OrderProcessor.Continue | src/processor.ts:239-249 | queued events first, then a waiting order; terminates by the length of the event queue |
| OrderProcessing.OrderProcessor.PostponeOrder | src/processor.ts:273-303 | the retry waits for the delay asked for, or else for the back-off of the attempt |
| OrderProcessing.OrderProcessor.MarkOrderAsFulfilled | src/processor.ts:434-443 | a taken order leaves all queues and is checked again after finality |
| OrderProcessing.OrderProcessor.OnTakeSettled | src/processor.ts:380-443 | the end of an attempt settles its order: a check after finality, a rejection, or a retry |
| OrderProcessing.OrderProcessor.OnOrderProcessed | src/processor.ts:237-249 | the lock is given back and what waits is drained |
| ProcessorRuns.ContinueDrains | src/processor.ts:237-249 | the recursion through queued events amounts to one wipe of all their orders, with calls in order of arrival, followed by one waiting order |
| ProcessorRuns.TurnOrder | src/processor.ts:237-263 | on release events take effect first, then the first surviving live order is taken, else the first archival one; nothing else is called, and a revoked order is not taken |
| ProcessorRuns.LiveGoesFirst | src/processor.ts:163-188 | a live order announced under the lock is overtaken only by live orders that waited before it, whatever else arrives meanwhile, unless it is wiped or is the very order being taken |
| ProcessorRuns.FeedKeeps | src/processor.ts:127-250 | a feed event keeps the scheduler's invariant |
| ProcessorRuns.TimerKeeps | src/processors/mempool.service.ts:75-89 | so does a timer |
| ProcessorRuns.TakeEndsKeeps | src/processor.ts:380-443 | so does the end of an attempt, whatever its outcome |
| ProcessorRuns.ResumesKeeps | src/processor.ts:237-249 | so does the release of the lock |
| ProcessorRuns.EveryRun | src/processor.ts:123-443 | over every run: the store's assertion never fails, one attempt at a time exactly under the lock, a free processor has all queues empty, no order is lost, one live timer per waiting order |
| ProcessorRuns.StepWithoutDead | src/processor.ts:153-250 | no step takes an order that is dead, or revives it, unless the feed announces it again |
| ProcessorRuns.TerminalKills | src/processor.ts:166-231 | a terminal event makes its order dead at once, even under the lock |
| ProcessorRuns.TerminalIsFinal | src/processor.ts:163-263 | along every continuation without a new announcement a dead order is never taken |
| ProcessorRuns.AnnouncedIsWipedIff | src/processor.ts:166-187 | an order announced under the lock is gone when the lock is given back exactly if a terminal event of it is queued by then, even one from before the announcement |
| ProcessorRuns.StoreEvolves | src/processor.ts:127-148 | what is known of an order changes only by live updates of its finalization and by one count for each attempt that starts |
| ProcessorRuns.EveryRetryBacksOff | src/processor.ts:273-303 | over every run: an attempt that was not rejected leaves its order behind a timer of exactly the due delay |
| ProcessorRuns.ResumingKeepsTimer | src/processor.ts:237-263 | the timer stays when the lock is given back, unless the order is wiped or its turn comes at once |
| ProcessorTurns.FreeTakesAnnounced | src/processor.ts:127-190 | an announcement to a free processor is filed, first record or update, and starts an attempt at its order at once, and the taker is told how far it is confirmed |
| ProcessorTurns.BusyParksAnnounced | src/processor.ts:127-187 | an announcement under the lock is filed likewise and parked, live ones apart from archival ones, and nothing else changes |
| ProcessorTurns.FreeActsOnEvent | src/processor.ts:190-237 | any other event takes effect at once if the processor is free: it asks the batch unlocker for what is due, and exactly a terminal one makes its order forgotten everywhere |
| ProcessorTurns.BusyQueuesEvent | src/processor.ts:166-188 | under the lock it only joins the end of the event queue |
| ProcessorTurns.WipedIff | src/processor.ts:207-231 | among queued events exactly the terminal ones wipe their orders |
| ProcessorTurns.RetryTurns | src/processors/mempool.service.ts:75-89 | a timer starts an attempt at its order at once if the processor is free, and else parks the order by whether it first came as a live one |
| ProcessorTurns.TakeEndTurns | src/processor.ts:380-443 | the end of a take: an order taken for good leaves both sets, a rejected one has no new retry, and any other has one timer with exactly the due delay |
| ProcessorTurns.TakeEndLeavesOthers | src/processor.ts:380-443 | the retries of other orders do not move |
| ProcessorTurns.RevokedIsDropped | src/processor.ts:342-364 | a live order revoked by the feed is not taken when its turn comes: it leaves every set and its retry is called off |
| ProcessorTurns.StretchParksIff | src/processor.ts:163-188 | over any stretch under the lock, waiting with the live orders are exactly those that were there before and those announced or retried as live ones, and with the archival orders likewise, save for the order being taken |
| ProcessorTurns.LiveBeforeArchival | src/processor.ts:163-263 | if a live order announced or retried under the lock survives to the release and was not itself taken, the next attempt is at no order that only archival announcements or retries brought in |
| ThroughputRuns.MetricIsReached | src/processors/throughput.ts:137-149 | the range found is the first one reached, and none is found exactly when none is reached or that one is unconstrained |
| ThroughputControllers.ThroughputController.constructor | src/processors/throughput.ts:34-61 | the thresholds in descending order, with nothing locked |
| ThroughputControllers.ThroughputController.GetMetric | src/processors/throughput.ts:137-145 | the loop finds that range |
| ThroughputControllers.ThroughputController.IsThrottled | src/processors/throughput.ts:63-84 | throttled exactly if the first range reached has a cap and a window and the value would exceed the cap; never if no range is reached |
| ThroughputModel.ThrottledIff | src/processors/throughput.ts:63-84 | an order is throttled exactly if the first range it reaches has a cap and a window, and its value on top of what is locked exceeds the cap |
| ThroughputModel.NeverThrottled | src/processors/throughput.ts:63-67 | an order that reaches no range is never throttled |
| ThroughputModel.UnconstrainedIsIgnored | src/processors/throughput.ts:86-88 | and nothing is ever added for it, or for one whose range has no cap or no window |
| ThroughputControllers.ThroughputController.AddOrder | src/processors/throughput.ts:86-110 | moves the order into its range; nothing at all happens if that range is unconstrained |
| ThroughputControllers.ThroughputController.RemoveOrder | src/processors/throughput.ts:118-135 | takes the order's value out of the range its record points at, and leaves its timer pending |
| ThroughputControllers.ThroughputController.OnTimer | src/processors/throughput.ts:112-116 | removes whatever record its order has by then |
| ThroughputRuns.RemoveConsistent | src/processors/throughput.ts:118-135 | removal keeps every cached sum and id set exact, and its assertion holds |
| ThroughputRuns.AddConsistent | src/processors/throughput.ts:86-110 | so does addition, from one range to another too |
| ThroughputRuns.FireConsistent | src/processors/throughput.ts:112-116 | so does a timer, stale or not |
| ThroughputRuns.EveryRun | src/chain-common/order-validator.ts:236-249 | over every interleaving of checks, additions, failures and timers: sums are exact, and locked plus in-flight value is at most the cap plus, per further processor, one order of the greatest value that passes the check |
| ThroughputRuns.OrderCountsAgainstItsRange | src/executor.ts:497-513 | in every state of every run an order is checked and added against the limits of its own configured range, against the final ones from finality on, and against none exactly when those are absent or zero |
| ThroughputLimits.AttainsCeiling | src/chain-common/order-taker.ts:30-60 | whatever the thresholds, that bound is attained in every range that is constrained and reached, by what is locked alone |
| ThroughputLimits.CapKeptIff | src/processors/throughput.ts:63-110 | whatever the thresholds, if some range is constrained and reached: what is locked stays within the cap over all runs exactly with a single processor |
| ThroughputWindows.FullWindowIff | src/processors/throughput.ts:86-128 | an addition is sure to stay locked for its whole window exactly when no older timer of the order is due before |
| ThroughputWindows.LandRemembersIff | src/processors/throughput.ts:86-135 | an addition leaves all additions that count in their windows recorded once, and sure to stay so until those end, exactly if its order has none such and, for a new value, no timer due before the new window's end |
| ThroughputWindows.RateLimit | README.md:246-279 | for any number of processors: along runs of safe additions, the value added within any window keeps to the cap, plus one order per further processor |
| ThroughputLimits.StepLogged | src/processors/throughput.ts:86-135 | every step keeps each record standing for the last addition of its order, with a timer due when that one's window ends |
| ThroughputLimits.WindowCovers | src/processors/throughput.ts:86-135 | with no timer due, what was added within a window covers what is locked, and any addition that no record stands for on top |
| ThroughputLimits.RateLimitIff | README.md:246-279 | for a single processor: after any safe run an addition is safe exactly if the rate is kept along every safe run that follows |
| ThroughputWindows.RateLimitBrokenByReturningOrder | README.md:246-279 | one processor, cap 100: an order of 50 that returns after 20 of 30 milliseconds lets 150 be added within one window |
| Ranges.ScanFindsChoice | src/processors/throughput.ts:44-53 | scanning the stably sorted entries finds the entry with the greatest minimum reached, the first among equals |
| Ranges.ChooseIsChoice | src/chain-common/order.ts:158-162 | that choice is the one described, and is absent exactly when no minimum is reached |
| Ranges.ChoiceIsUnique | src/chain-common/order.ts:158-162 | there is only one such entry |
| Ranges.ResortKeepsChoice | src/chain-common/order.ts:158-162 | sorting the shared array in place changes no later choice |
| Ranges.ConfiguredRanges | src/executor.ts:702-725 | a configuration is refused exactly when some range asks for no fewer confirmations than finality; else all its ranges are kept, by ascending upper threshold |
| Ranges.RangesAgree | src/executor.ts:497-513 | below finality the controller's range has the limits of the order's range, ties included; from finality on it is the final range |
| Ranges.PassesFinalizationIff | src/chain-common/order-validator.ts:202-234 | a finalized order always passes; another passes exactly if a range has been reached and the order is worth no more than the one chosen allows |
| Ranges.PassedOrderHasItsRange | src/chain-common/order-validator.ts:202-234 | an order announced with a number of confirmations passes only by a configured range meant for its value, and is counted against that range, or against the final one if the number is that of finality or more |
| Ranges.SourceConstraints.SrcConstraintsRange | src/chain-common/order.ts:158-162 | sorts in place and returns the choice, which every later call repeats |
| BroadcastModel.FirstSuccess | src/chain-evm/networking/broadcaster.ts:302-308 | the earliest receipt with status true |
| BroadcastModel.LastFailure | src/chain-evm/networking/broadcaster.ts:310-316 | the latest receipt with status false |
| Broadcasting.EvmTxBroadcaster.BroadcastAndWait | src/chain-evm/networking/broadcaster.ts:117-142 | for every behaviour of the node the run terminates with a legal history of at most sendMaxAttempts numbered broadcasts, at a point where no more is due or permitted, and falls back on an older receipt; every broadcast signed as a replacement was requested for the one right before it, and as AGGRESSIVE exactly at the last permitted attempt |
| Broadcasting.EvmTxBroadcaster.InitiateBroadcast | src/chain-evm/networking/broadcaster.ts:144-163 | at most sendMaxAttempts are signed; decreases with sends left |
| Broadcasting.EvmTxBroadcaster.PushTransaction | src/chain-evm/networking/broadcaster.ts:165-169 | prices and broadcasts a fresh template |
| Broadcasting.EvmTxBroadcaster.PushReplacementTransaction | src/chain-evm/networking/broadcaster.ts:171-181 | replaces the broadcast it is given, which is the last one at every call |
| Broadcasting.EvmTxBroadcaster.SignAndBroadcast | src/chain-evm/networking/broadcaster.ts:330-420 | notes the hash the transaction was accepted under, and extends the legal history |
| Broadcasting.EvmTxBroadcaster.Poll | src/chain-evm/networking/broadcaster.ts:187-225 | polls at least once and until a receipt or pollingMaxAttempts |
| Broadcasting.EvmTxBroadcaster.HandleBroadcastSuccess | src/chain-evm/networking/broadcaster.ts:183-226 | a receipt seen ends the run; else the broadcast it was called for, the last one, is replaced |
| Broadcasting.EvmTxBroadcaster.HandleBroadcastRejection | src/chain-evm/networking/broadcaster.ts:258-278 | a complaint of a nonce too low moves on to the next nonce, any other of an underpriced, too low or not mined transaction replaces the broadcast it was called for, the last one, and anything else ends the run |
| BroadcastRuns.HistoryIsUnique | src/chain-evm/networking/broadcaster.ts:144-278 | the node's answers determine the whole history |
| BroadcastRuns.StopsAtTheEnd | src/chain-evm/networking/broadcaster.ts:144-278 | a run stops only where no longer history is permitted |
| BroadcastRuns.NonceTakenIff | src/chain-evm/networking/broadcaster.ts:29-33 | a refusal means a taken nonce exactly if it mentions both a nonce and something too low |
| BroadcastRuns.ReplaceableIff | src/chain-evm/networking/broadcaster.ts:29-39 | a broadcast is replaced exactly if it was polled for in vain, or refused as underpriced, too low or not mined otherwise |
| BroadcastRuns.OtherRefusalEnds | src/chain-evm/networking/broadcaster.ts:258-278 | any other refusal ends the run, and nothing is due after it |
| BroadcastRuns.ReceiptEnds | src/chain-evm/networking/broadcaster.ts:206-213 | so does a receipt seen |
| BroadcastRuns.PolledIff | src/chain-evm/networking/broadcaster.ts:187-225 | an accepted broadcast is polled at once and at most pollingMaxAttempts times in all; it is polled in vain exactly if none of those polls finds a receipt, and otherwise until the first that does |
| BroadcastRuns.PollsBounded | src/chain-evm/networking/broadcaster.ts:187-225 | n broadcasts make at most n * max(1, pollingMaxAttempts) polls |
| BroadcastRuns.NonceCounts | src/chain-evm/networking/broadcaster.ts:258-278 | a broadcast's nonce is the account's count plus the nonce rejections so far |
| BroadcastRuns.TemplateIsCurrent | src/chain-evm/networking/broadcaster.ts:337-361 | every transaction makes the call asked for, with the gas limit estimated when its nonce came up |
| BroadcastRuns.SameNonceIff | src/chain-evm/networking/broadcaster.ts:258-278 | two broadcasts compete for one nonce exactly when none between them was refused for a taken nonce |
| BroadcastRuns.TwoCanBeMinedIff | src/chain-evm/networking/broadcaster.ts:258-278 | two published transactions have different nonces exactly if a refusal for a taken nonce lies between two publications |
| BroadcastRuns.BothCanBeMined | src/chain-evm/networking/broadcaster.ts:258-278 | a node against which every run publishes two such transactions |
| BroadcastRuns.EveryBroadcastAffordable | src/chain-evm/networking/broadcaster.ts:144-181 | every transaction ever signed is within the capped fee and well-formed, across replacements and nonce bumps |
| BroadcastRuns.FreshIsLeast | src/chain-evm/networking/broadcaster.ts:165-169 | the first broadcast, and every one after a taken nonce, costs the least that meets the market at the configured default |
| BroadcastRuns.ReplacementMeetsMarket | src/chain-evm/networking/broadcaster.ts:171-181 | a replacement at the last permitted attempt meets the market at AGGRESSIVE, an earlier one at the configured default |
| BroadcastRuns.RepeatGrows | src/chain-evm/fees/manager.ts:282-301 | repeated bumps above the rounding threshold raise a price by at least one unit each |
| BroadcastRuns.ReplacementChain | src/chain-evm/fees/manager.ts:260-327 | along any number of replacements nonce, gas and call stay and each fee field is at least the first one's, bumped as often |
| BroadcastRuns.SeekFindsIff | src/chain-evm/networking/broadcaster.ts:280-328 | an older receipt is found exactly when one of the broadcasts but the last was published and has one |
| BroadcastRuns.SeekPrefers | src/chain-evm/networking/broadcaster.ts:280-328 | it is of a hash this run published: the earliest success, else the latest failure, else the original error |
| BroadcastRuns.MinedLastIsMissed | src/chain-evm/networking/broadcaster.ts:280-284 | a node against which every run fails although its only transaction has been mined |
| FeeManager.CappingIff | src/chain-evm/fees/manager.ts:173-196 | the check passes exactly for costs up to the capped fee, or its allowance when overcapping is allowed |
| FeeManager.PayableIff | src/chain-evm/fees/manager.ts:173-196 | with no positive capped fee any price passes; else exactly one whose gas is known or can be estimated and whose cost is within that |
| FeeManager.FetchedFee | src/chain-evm/fees/fetcher-eip1559.ts:49-84 | the fee asked is the estimated tip on top of the greater of the last two base fees, by the multiplier of the category |
| FeeManager.FetchedGasPrice | src/chain-evm/fees/fetcher-legacy.ts:7-16 | the legacy price asked is the gas price by the multiplier of the category, rounded down |
| FeeManager.PopulatedIsAffordable | src/chain-evm/fees/manager.ts:231-258 | a first send keeps its template, is within the limit, and its priority fee is no greater than its whole fee |
| FeeManager.FirstSendIsLeast | src/chain-evm/fees/manager.ts:231-258 | a first send costs the least that meets the market at the configured default category: tip and base fee, or the gas price |
| FeeManager.FirstSendIff | src/chain-evm/fees/manager.ts:231-258 | it is refused exactly if the market is not known or that cost cannot be paid |
| FeeManager.ReplacementIsBumped | src/chain-evm/fees/manager.ts:260-327 | a replacement keeps its template and is within the limit too, and each of its fee fields is at least the old one's, bumped |
| FeeManager.ReplacementIsLeast | src/chain-evm/fees/manager.ts:281-319 | its price is the least that meets the market and bumps what it replaces |
| FeeManager.ReplacementIff | src/chain-evm/fees/manager.ts:260-327 | a replacement is refused exactly if the market is not known, the transaction replaced was priced in the other way, or the cost cannot be paid |
| FeeManager.BumpedAsConfigured | src/chain-evm/fees/manager.ts:267-269 | the bump is the aggressive one if that is enforced, and else the normal one |
| FeeManager.ManagerIsSound | src/chain-evm/fees/manager.ts:231-327 | first sends and replacements are affordable, and replacements bumped, for every request in every market |
| FeeManager.BumpRaisesIff | src/chain-evm/fees/manager.ts:284-286 | a bump raises a price exactly when the raise is at least one unit |
| FeeManager.BumpMeetsTenPercent | src/chain-evm/fees/defaults.ts:51-60 | from 11000 basis points on it meets the ten per cent nodes ask for |
| FeeManager.AggressiveCoversNextBlockIff | src/chain-evm/fees/fetcher-eip1559.ts:70-83 | with the default aggressive multiplier the whole priority fee is still paid in the block after the pending one, however full, exactly from a base fee of 8 on |
| FeeManager.Effective | src/chain-evm/fees/manager.ts:238-240 | a category asked for is the one priced, but PROJECTED counts as none, and then the default is AGGRESSIVE exactly if that is enforced |
| PriorityFee.FindMax | src/utils.ts:5-7 | the greatest of the numbers and zero |
| PriorityFee.TextOrderIsNumeric | src/chain-evm/fees/fetcher-eip1559.ts:15-18 | for equally many digits the order of the texts is the order of the numbers |
| PriorityFee.TextSortIsNumericIff | src/chain-evm/fees/fetcher-eip1559.ts:15-18 | the sorted tips ascend exactly when lesser tips have lesser texts |
| PriorityFee.EquallyLongAgree | src/chain-evm/fees/fetcher-eip1559.ts:15-18 | as tips with equally many digits have |
| PriorityFee.NonZeroKeepsAll | src/chain-evm/fees/fetcher-eip1559.ts:15-18 | exactly the zero tips are filtered out, and repeated ones stay |
| PriorityFee.TruncDivRounds | src/chain-evm/fees/fetcher-eip1559.ts:24-33 | increases in percent are rounded toward zero |
| PriorityFee.CutOffIff | src/chain-evm/fees/fetcher-eip1559.ts:24-44 | low tips are cut off exactly at a jump that is the first of the greatest, in the upper half, and at the boundary or above |
| PriorityFee.EstimateIsATip | src/chain-evm/fees/fetcher-eip1559.ts:14-47 | the estimate is a tip that was paid, and zero exactly when there is none |
| PriorityFee.EstimateAtLeastMedian | src/chain-evm/fees/fetcher-eip1559.ts:14-47 | the estimate is the upper median of the tips as sorted, of what is left from the outlier jump on if there is one; so it is in their upper half, past that jump, and at or above the upper median of all whenever lesser tips have lesser texts |
| PriorityFee.EstimateBelowMedian | src/chain-evm/fees/fetcher-eip1559.ts:18 | for the tips 2, 3 and 10 it is 2 |
| U256.BytesToU64 | src/orderFeeds/u256-utils.ts:5-14 | the loop computes the positional value of the first eight bytes, for either byte order, and throws exactly on a shorter buffer |
| U256.ToBytesBE | src/orderFeeds/u256-utils.ts:34-58 | the buffer holds the eight low bytes of each limb, most significant first |
| U256.FromBytesBE | src/orderFeeds/u256-utils.ts:69-76 | each limb is the value of its eight bytes among the first 32, and a shorter buffer throws |
| U256.BytesRoundTrip | src/orderFeeds/u256-utils.ts:34-76 | bytes to limbs and back is the identity, with limbs in range |
| U256.LimbsRoundTripIff | src/orderFeeds/u256-utils.ts:34-76 | limbs survive the way to bytes and back exactly when they are below 2^64 |
| U256.BigIntIsValue | src/orderFeeds/u256-utils.ts:60-76 | the bigint of the decoded limbs is the big-endian value of the bytes |
| U256.BigIntOfLimbs | src/orderFeeds/u256-utils.ts:60-67 | every number below 2^256 is the bigint of limbs in range |
| U256.LimbsOfBigInt | src/orderFeeds/u256-utils.ts:60-67 | of exactly one choice of them |

## Left out

- PriorityFee.EstimateAtLeastMedian: nothing is said about the median of tips that the text sort leaves out of order; `TextSortIsNumericIff` says which these are.
- UnlockRuns.EveryProperRun: stated for orders whose give chain is not the unlocker's take chain and whose id stands for one order; `AddOrderAgreesIff` and `RemoveAgreesIff` say when single steps go wrong.
- UnlockRuns.DrainingTerminates: stated for the same orders.
- ProcessorRuns.EveryRun: hooks and the budget cache are taken not to throw, and event data to be well-formed; such an exception would leave the processor locked.
- ThroughputRuns.EveryRun: an order's value is taken not to grow between its check and its addition, and an order to be with one processor at a time.
- ThroughputWindows.RateLimit: with several processors the condition is sufficient only, as other orders in flight may already use up what an unsafe addition frees; `RateLimitIff` is exact for one.
- Real time: timers fire in any order, in the throughput windows never before they are due; the polling interval of the broadcaster is not modelled.
- Floating-point rounding: multipliers are whole basis points and dollar amounts whole cents.
- The percentile of priority fees asked of the node, which for AGGRESSIVE is set from a base fee multiplier (src/chain-evm/fees/manager.ts:109): the tips a node answers with are arbitrary.
- `getGasPrice` and the rounding of gas estimates in the fee manager: single expressions.
- Validation steps other than finalization and throughput, estimation, profitability, decimals and margins: they rest on external code, and only decide how an attempt ends.
- `CreatedOrderTaker.take` as a class: its steps appear as the check, the addition and the failure of an order in `ThroughputRuns`, and as the outcomes of an attempt in `ProcessorRuns`.
- Batches for a give chain without a supported chain: events of such chains are dropped before they reach the unlocker.
- `U256.fromBigInt`: it shifts by 8 bits per limb instead of 64 and inverts nothing; it has no caller in the repository.
- WebSocket feed, RPC transport, signing, swap connectors, price feeds, filters, hooks, configuration, statistics and the TVL budget: input and output, lookups and caches.

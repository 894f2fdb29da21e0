# Aegis Trader: verified model

This project models the stateful core of the Aegis Trader platform and proves
properties of it for all inputs and all runs. Floats are modelled as reals, timestamps
as integer milliseconds (seconds where the runtime compares ages), dictionaries and
JSON files as maps and sequences, status strings as datatypes. Clocks, generated ids,
the exchange gateway and the indicator columns are parameters.

Where the program changes state in place, the model is a class whose methods are proved
equal to a specification function of the old state; the theorems are then about that
function over whole runs.

## What is modelled

* **Streaming candles** (`Candles`, `BucketArithmetic`, `CandleTheorems`,
  `CandleRollup`, `CandleStore`, `CandleMessages`). The kline handler keeps pending bars
  per bucket as shared, mutable objects. The store is a heap model with one object per
  bar; the abstract track records which pending bar is the very object on display. The
  batch aggregation of the resampling script is the independent definition it is
  compared with.
* **ATR mean reversion** (`AtrStrategy`). Latch, ladder and ratcheting stop over any
  sequence of generate-then-update steps; missing or non-finite numbers are `None`.
* **Replay backtest and drawdown** (`Backtest`, `Drawdown`). The one-pass loops against
  declarative definitions (what a trade is, what a maximum fall is) that are shown to
  leave no freedom.
* **Production stability framework** (`Stability`, `StabilityFramework`,
  `QuantityRules`). Locks, the shutdown latch, mutual exclusion, the dedupe window over
  every sequence of framework calls, and the order quantity sanitizer.
* **Runtime** (`Projections`, `RuntimeControl`, `RuntimeRuns`, `RuntimeService`,
  `BotRegistry`). Two projections of one event log, the registry against the state file,
  supervision and restarts, the idempotent command bus, and the registry merge.
* **Order pipeline** (`Orders`, `OrderEngines`, `Interleaving`, `TradingLoop`).
  Consensus, risk, order and execution engines, and K tasks interleaving their steps
  around one execution lock.
* **Event bus** (`TextOrder`, `Sorting`, `BusOrder`, `EventBus`) and **feature recurrences**
  (`Features`).

## Where the code differs from its intent

Each of these is proved, with the condition under which the intended property holds.

* A failed exposure check replaces a global drawdown lock by a lock that the next day
  clears (`Stability.DrawdownLockCanBeEscaped`); the lock persists
  exactly when no exposure check fails (`Stability.LockPersistsUnlessExposureBreached`).
* An approval to trade reserves nothing, and records are booked whatever was approved:
  m outstanding approvals exceed a daily limit by up to m - 1
  (`Stability.TradeBoundIsReached`, `Stability.OutstandingApprovalsBound`); the limit is
  kept by callers with an approval for each record
  (`Stability.DisciplinedRunsStayWithinLimits`), and exactly by those that record no more
  (`Stability.CountersAreTheCallersRecords`).
* A standing heartbeat alert, and any complaint about the data feed, hides a missing
  protection even after the heartbeat is fresh again (`Stability.ProtectionIsCheckedLast`
  says exactly when it is seen); no number of supervisions gets past such an alert
  (`Stability.OldHeartbeatAlertHidesMissingProtection`).
* Printing with a precision derived from the step keeps step multiples exactly when the
  step fits the printed digits (`QuantityRules.PrintingIsExactIff`); a step of 0.25
  overshoots (`QuantityRules.InexactStepOvershoots`). Flooring after raising can miss
  the minimum notional (`QuantityRules.MinNotionalCanBeMissed`), and does exactly below
  the first step multiple that is worth it (`QuantityRules.MinNotionalMetIff`); the same
  holds of the minimum quantity (`QuantityRules.MinQtyCanBeMissed`,
  `QuantityRules.MinQtyMetIff`).
* A bot transition writes the row it read earlier over the position patch it has just
  recorded; a stop then leaves file and database apart
  (`RuntimeRuns.StopLosesTheFilePatch`).
* The registry marks bots by id or by name, the state file by id only; registry and file
  stay consistent exactly when ids are unique and no bot is named like another's id
  (`RuntimeRuns.ConsistentIffSound`).
* A heartbeat switches a stopped runtime on again (`RuntimeRuns.HeartbeatRevivesRuntime`);
  a stop lasts exactly through runs without heartbeat and start
  (`RuntimeRuns.StopLastsIff`).
* The file projection treats rejected orders as exits and ignores entries without
  quantity, the database projection does neither
  (`Projections.ProjectionsAgreeIffConcordant`, over logs
  `Projections.LogAgreesIffConcordant`).
* The position flag of an order's event can say open although the order leaves the trade
  (`Projections.OpenFlagContradictsIff`).
* A signal above the position limit is approved without looking at the portfolio
  exposure (`Interleaving.TwoClippedSignalsOvershoot`); the limit is left exactly by such
  passes (`Interleaving.LoneTaskStaysWithinIff`).
* A late or repeated kline can change the bar on display or move it back in time
  (`CandleTheorems.RedeliveryDoubleCounts`, `CandleTheorems.LateCompletionMovesBack`);
  `CandleTheorems.NextBarStaysRightIff` says exactly which bars do. A late bar that
  completes a bucket also drops newer buckets that are waiting;
  `CandleTheorems.NextTrackStaysRightIff` says exactly when the whole track stays right.
* Without a positive entry all take-profit levels are zero, and a completed ladder may
  earn less than twice its risk (`AtrStrategy.UnpricedBuyEarnsNothing`,
  `AtrStrategy.FullLadderEarnsTwoRisks`); no take-profit ever sells below the entry
  (`AtrStrategy.TakeProfitsNeverLose`).
* A refused command is answered with success when its id is sent again; first and
  repeated answer agree exactly when the command was answerable the first time
  (`RuntimeService.RefusedRequestIsSpent`).
* The running-peak drawdown need not be the largest percentage fall once the account is
  negative (`Drawdown.NegativeAccountsBreakTheMaximum`); `Drawdown.PassIsMaxFallIff` says
  exactly when it is.
* Events with equal replay keys are replayed in order of arrival
  (`BusOrder.ArrivalOrderKept`); replay ignores the order of arrival exactly when the keys
  identify the events (`BusOrder.ArrivalOrderIgnoredIff`).

## Model

| member | source | states |
|---|---|---|
| CandleStore.SymbolState.HandleKline | aegis_trader/market_data/binance_stream.py:103-168 | Header fields follow the message, a missing interval or close keeping the one before; exactly the streamed timeframes' tracks take one `Absorb` step, and only for a closed kline of a known interval; all bar objects stay apart. What the bar of a message holds is `CandleMessages.OneMessage`. |
| CandleStore.SymbolState.FeedLarger | aegis_trader/market_data/binance_stream.py:140-168 | Updating the shared bar objects in place is one abstract step of this timeframe and leaves every other timeframe's track alone. |
| CandleStore.SymbolState.MergePending | aegis_trader/market_data/binance_stream.py:152-160 | Mutating a pending bar changes the bar on display exactly when both are the same object. |
| CandleStore.SymbolState.PublishBucket | aegis_trader/market_data/binance_stream.py:161-168 | The completed object is closed, displayed and copied into the history, and is the only bucket left pending. |
| CandleStore.SymbolState.AppendToHistory | aegis_trader/market_data/binance_stream.py:170-176 | The newest entry is replaced on an equal open time, otherwise appended to a window of 300. |
| CandleStore.ReceiveAll | aegis_trader/market_data/binance_stream.py:103-168 | After any messages, closed or not and whatever fields are missing, every timeframe's track is the run of the pure step on the source bars they deliver, so every theorem on runs holds of the store. |
| CandleMessages.EveryCandleIsWellShaped | aegis_trader/market_data/binance_stream.py:118-168 | After any messages with open and close between low and high, in any order, every displayed, pending and recorded candle has them there too. |
| CandleMessages.CandlesTellTheirMessages | aegis_trader/market_data/binance_stream.py:118-168 | On messages that deliver a good feed, every pending and published bar has the first open and last close of its bucket's messages, their highest high and lowest low, attained and bounding, and the sums of their v, q, n, V and Q. |
| CandleMessages.OneMessage | aegis_trader/market_data/binance_stream.py:118-132 | The bar made of one message has each of its prices and totals in its own place. |
| CandleMessages.ReceiveWellShaped | aegis_trader/market_data/binance_stream.py:103-168 | The same of the store's own objects after any well-formed messages. |
| CandleMessages.ReceiveOne | aegis_trader/market_data/binance_stream.py:131-139 | One closed message of a streamed interval is shown as it is, with its times; a missing close time is the end of the interval. |
| BucketArithmetic.IntervalLengths | aegis_trader/market_data/binance_history.py:16-29 | Every interval has the minutes of its name. |
| BucketArithmetic.StreamedTimeframesNest | aegis_trader/market_data/binance_stream.py:132-134 | The six streamed timeframes are built from one another, the smaller dividing the larger. |
| CandleTheorems.RunIsBatch | aegis_trader/market_data/binance_stream.py:131-168 | On every increasing aligned feed, gaps allowed, the pending bars are the batch aggregates of the bars received in their buckets, and the published bars are the aggregates of the completed buckets in completion order. |
| CandleTheorems.MergeIsAggregate | scripts/resample_binance_candles.py:63-76 | Merging one more source bar into a bucket's aggregate is the batch aggregate of the longer group. |
| CandleTheorems.PublicationsAreFinal | aegis_trader/market_data/binance_stream.py:161-168 | Published bars stay published, and each already aggregates every bar of its bucket the whole feed will deliver. |
| CandleTheorems.ShownBarIsNeverMutated | aegis_trader/market_data/binance_stream.py:161-168 | Although it is shared with the pending dictionary, the bar on display always equals the final aggregate of its bucket. |
| CandleTheorems.PublishedIncreasing | aegis_trader/market_data/binance_stream.py:161-164 | Open times of published bars strictly increase. |
| CandleTheorems.HistoryIsRecentAndIncreasing | aegis_trader/market_data/binance_stream.py:170-176 | A history is the last 300 published bars, with strictly increasing open times. |
| CandleTheorems.SourceTimeframeRecordsFeed | aegis_trader/market_data/binance_stream.py:135-139 | The timeframe equal to the source interval shows the last bar and keeps the last 300. |
| CandleTheorems.OnlyLateBarsMutate | aegis_trader/market_data/binance_stream.py:152-168 | A bar changes the displayed bar exactly by publishing a different one or by really changing the pending bar whose object is on display. |
| CandleTheorems.NextBarStaysRightIff | aegis_trader/market_data/binance_stream.py:140-176 | After a good feed, whatever aligned bar comes next, display and history stay right exactly when it neither changes the bucket on display nor completes an earlier one. |
| CandleTheorems.NextTrackStaysRightIff | aegis_trader/market_data/binance_stream.py:140-168 | After a good feed, whatever aligned bar comes next, the whole track, pending buckets included, stays right in order of arrival exactly when the bar does not fall behind the display, change the bar on display, or complete a bucket while bars of a newer one are waiting. |
| CandleTheorems.LateCompletionMovesBack | aegis_trader/market_data/binance_stream.py:161-176 | A late bar that completes an earlier bucket shows a candle of that one bar, moves the display back in time and breaks the order of the history. |
| CandleTheorems.RedeliveryDoubleCounts | aegis_trader/market_data/binance_stream.py:152-164 | The repeated bar: redelivering a completing bar adds it a second time to the displayed bar and rewrites the newest history entry. |
| CandleRollup.PublishedClosedForm | aegis_trader/market_data/binance_stream.py:140-168 | On a gap-free feed from a bucket boundary the j-th published bar aggregates the j-th full run of source bars, and no bar is missing. |
| CandleRollup.SummaryOfSummaries | scripts/resample_binance_candles.py:63-76 | Aggregating aggregates of consecutive chunks summarises the whole: the fold is associative. |
| CandleRollup.TimeframesAgree | aegis_trader/market_data/binance_stream.py:131-168 | Every closed bar of a larger timeframe is the aggregate of the closed bars of a smaller one that tile it. |
| CandleRollup.VolumeIsConserved | aegis_trader/market_data/binance_stream.py:152-164 | The volumes and counts of the published bars are those of the source bars they cover. |
| CandleRollup.TimeframesConserveVolume | aegis_trader/market_data/binance_stream.py:152-164 | Two timeframes that have both just closed have published the same totals, those of the feed. |
| CandleRollup.AtMostTwoPending | aegis_trader/market_data/binance_stream.py:165-168 | On a gap-free feed a timeframe never holds more than two pending buckets, and one right after a close. |
| AtrStrategy.AtrMeanReversionState.UpdatePositionState | aegis_trader/strategies/atr_mean_reversion.py:177-216 | The in-place update leaves exactly the position the specification gives for the signal. |
| AtrStrategy.AtrMeanReversionState.ResetTrade | aegis_trader/strategies/atr_mean_reversion.py:49-56 | A reset position is the flat one. |
| AtrStrategy.LastFlatteningIsLast | aegis_trader/strategies/atr_mean_reversion.py:201-215 | The last flattening is a bar that acted and left the position flat, and no later bar did. |
| AtrStrategy.LatchIsHistory | aegis_trader/strategies/atr_mean_reversion.py:182-199 | The latch is set exactly when the position is flat and some bar since the last flattening rejected H0. |
| AtrStrategy.BuyIsItsHistory | aegis_trader/strategies/atr_mean_reversion.py:148-159 | A bar buys exactly when flat, warmed up, drift is confirmed on it, and a bar since the last flattening up to it rejected H0. |
| AtrStrategy.LadderIsOrderly | aegis_trader/strategies/atr_mean_reversion.py:160-216 | Over every run an open size is order * (3 - taken) / 3 with taken in 0..2, the stop never falls, targets come one at a time, a position ends only by stop or third target, at most three sells. |
| AtrStrategy.EveryRunIsOnLadder | aegis_trader/strategies/atr_mean_reversion.py:205-216 | The number of sells since the buy equals the targets taken while open, and never exceeds three. |
| AtrStrategy.FullLadderEarnsTwoRisks | aegis_trader/strategies/atr_mean_reversion.py:126-127 | Every way of completing a trade's ladder realises at least twice its risk on the whole order exactly when, at the buy, the entry is positive or lies at least twice the risk below zero. |
| AtrStrategy.UnpricedBuyEarnsNothing | aegis_trader/strategies/atr_mean_reversion.py:284-287 | A run that misses it: a row without a close is bought at zero with a risk of ten, and three closes at zero complete the ladder for nothing. Such a row comes from a caller; the indicator columns confirm no drift without a close. |
| AtrStrategy.EveryRunIsBanked | aegis_trader/strategies/atr_mean_reversion.py:205-216 | After its k-th target a trade has realised at least the gains of k targets: 1 + ... + k thirds of its risk from a positive entry, k thirds of the entry's distance from zero otherwise. |
| AtrStrategy.TakeProfitsNeverLose | aegis_trader/strategies/atr_mean_reversion.py:164-169 | No take-profit of any run sells below the entry, whatever entry and risk are. |
| AtrStrategy.NoRiskSellsAtAnyPrice | aegis_trader/strategies/atr_mean_reversion.py:284-287 | In every run without positive entry or risk a warmed-up bar takes the next target exactly when it closes above the stop and not below zero, and never below the entry. |
| AtrStrategy.SellsExactly | aegis_trader/strategies/atr_mean_reversion.py:160-174 | An open position is sold at the stop exactly when a warmed-up bar closes at or below the larger of its stop and the bar's seed, and at its next target exactly when it closes above that stop and at or above the target. |
| AtrStrategy.RunSellsExactly | aegis_trader/strategies/atr_mean_reversion.py:160-174 | The same on every bar of every run. |
| AtrStrategy.OpenPositionsClosedAboveStop | aegis_trader/strategies/atr_mean_reversion.py:162-163 | Over every run a position still open after a warmed-up bar has closed above its stop. |
| AtrStrategy.BuyOpensAtClose | aegis_trader/strategies/atr_mean_reversion.py:148-159 | A buy opens the bar's order at its close, with its seed as stop and their distance as risk, and clears the latch. |
| AtrStrategy.SeedIsRiskBelowLow | aegis_trader/strategies/atr_mean_reversion.py:131-147 | The seed is the finite column, else the low less the risk column, else the low less the multiple of the range. |
| AtrStrategy.StopIsHighestSeed | aegis_trader/strategies/atr_mean_reversion.py:190-196 | While a position stays open its stop is the highest seed since its buy, attained and bounding. |
| AtrStrategy.SignalCarries | aegis_trader/strategies/atr_mean_reversion.py:131-176 | What every signal reports beside its name: the stop that applies, the three levels one, two and three risks above the entry, and the row's own columns. |
| AtrStrategy.AnnouncedTargetsAreLower | aegis_trader/strategies/atr_mean_reversion.py:157-159 | The k-th level used differs from the announced one by exactly k * (close - low). |
| AtrStrategy.Trade | aegis_trader/strategies/atr_mean_reversion.py:177-216 | Generate and update, bar by bar, on a new state object is the run the theorems are about, `AtrStrategy.RunSellsExactly` and `AtrStrategy.BuyIsItsHistory` among them. |
| Backtest.RunSymbolReplay | aegis_trader/analytics/replay_metrics.py:87-149 | The pass yields a replay in the declarative sense (genuine trades, each leaving no later than the next enters, no buy signal ignored while flat), with equity_curve[i] the summed profit of trades closed by row i; up to the end of the loop it fails exactly on no rows, or when a replay closes a position entered at price zero; on the rows alone that is `Backtest.TradeOnRows` and `Backtest.OpenOnRows`. |
| Backtest.ReplayIsUnique | aegis_trader/analytics/replay_metrics.py:96-150 | Rows, notional and holding limit determine the trades and the open position of a replay. |
| Backtest.AtMostOnePosition | aegis_trader/analytics/replay_metrics.py:103-149 | No row is held by two trades, nor by a trade and the open position. |
| Backtest.TradeBounds | aegis_trader/analytics/replay_metrics.py:105-134 | bars_held is exit index minus entry index, at least 1 and at most the limit (1 when the limit is smaller); on a well-formed row the exit lies between stop and target exactly when those are in order; pnl * entry = notional * (exit - entry). |
| Backtest.TradeOnRows | aegis_trader/analytics/replay_metrics.py:87-134 | On the rows alone: a trade enters on a row of its five entry conditions with stop and target 1.4 and 2.4 ranges away, no row before its exit meets an exit condition, and its reason is the first one its exit row meets, at that reason's price. |
| Backtest.OpenOnRows | aegis_trader/analytics/replay_metrics.py:96-150 | The open position on the rows alone; every entering row past the first 200 lies inside a trade or the open position. |
| Backtest.BucketOnRows | aegis_trader/analytics/replay_metrics.py:191-202 | Each scan bucket exactly under its condition on the last row; WATCH takes three of five gates. |
| Backtest.BuyBucketNeedsShortHistory | aegis_trader/analytics/replay_metrics.py:191-202 | Past 200 rows a buy signal on the last row is always IN TRADE; BUY is reached exactly with 200 rows or fewer and a buy signal. |
| Drawdown.MaxDrawdownPct | aegis_trader/analytics/replay_metrics.py:377-385 | The running-peak pass; it is the maximum fall over all pairs i <= j exactly when falls into debt are covered, in particular when no account is negative, and then lies in 0..100. |
| Drawdown.PassIsMaxFallIff | aegis_trader/analytics/replay_metrics.py:377-385 | The pass gives the largest fall exactly when every fall into debt is matched by one at least as large that ends before two different positive accounts have been seen. |
| Drawdown.MaxFallIsUnique | aegis_trader/analytics/replay_metrics.py:377-385 | At most one number is the maximum fall. |
| Drawdown.NegativeAccountsBreakTheMaximum | aegis_trader/analytics/replay_metrics.py:381-384 | From 1 through 10 to -10 the pass answers 200 while the fall from 1 is 1100. |
| Stability.ShutdownIsForever | aegis_trader/bot/stability_framework.py:330-332 | Once shutdown is required no sequence of calls clears it and no approval follows. |
| Stability.OnlyExposureLeavesPair | aegis_trader/bot/stability_framework.py:275-297 | From a drawdown or protection lock one call leaves the pair exactly when it is a failing exposure check. |
| Stability.LockPersistsUnlessExposureBreached | aegis_trader/bot/stability_framework.py:411-432 | Over a run, day changes included, the lock stays in the pair throughout exactly when no exposure check fails. |
| Stability.DrawdownLockCanBeEscaped | aegis_trader/bot/stability_framework.py:288-295 | A failed exposure check and a new day turn a drawdown lock into an approval. |
| Stability.ProtectionIsCheckedLast | aegis_trader/bot/stability_framework.py:189-207 | Supervision locks an unprotected position exactly when the heartbeat is fresh, no old heartbeat alert stands and the data feed has nothing to complain about. |
| Stability.OldHeartbeatAlertHidesMissingProtection | aegis_trader/bot/stability_framework.py:189-207 | Once a heartbeat alert stands, no sequence of supervisions, fresh heartbeats included, clears it or takes the protection lock. |
| Stability.DisciplinedRunsStayWithinLimits | aegis_trader/bot/stability_framework.py:330-381 | If every recorded trade is at most the m-th since an approval, whatever was refused in between, trades and consecutive losses exceed their limits by at most m - 1; with m = 1, an approval for each record, not at all. |
| Stability.OutstandingApprovalsBound | aegis_trader/bot/stability_framework.py:330-381 | With at most m approvals outstanding throughout, trades plus outstanding approvals, and losses plus them, exceed the limits by at most m - 1. |
| Stability.TradeBoundIsReached | aegis_trader/bot/stability_framework.py:330-381 | Approvals reserve nothing: for every m and every daily limit a run with m outstanding approvals exceeds it by m - 1. |
| Stability.LossBoundIsReached | aegis_trader/bot/stability_framework.py:330-381 | The same for every limit on consecutive losses that a day has room for. |
| Stability.CountersAreTheCallersRecords | aegis_trader/bot/stability_framework.py:369-381 | Over every run the counters are the caller's records of the day, whatever was approved; so a limit is kept exactly when the caller records no more than it. |
| Stability.PeakIsLargestRecorded | aegis_trader/bot/stability_framework.py:374-376 | Over every run with positive recorded equities the peak is the largest of them: one of them, and none is above it. |
| Stability.DrawdownLocksIff | aegis_trader/bot/stability_framework.py:374-379 | Over every run a record takes the global drawdown lock exactly when some equity recorded so far exceeds its own by the limit or more, in percent. |
| Stability.ApprovedIff | aegis_trader/bot/stability_framework.py:330-349 | Over every run trading is approved exactly when nothing is latched, locked or in flight and the caller's records stay under all four limits; else the first limit reached is the lock. |
| Stability.ExposureLocksIff | aegis_trader/bot/stability_framework.py:275-297 | Which share of the equity meets which limit: the portfolio first, then the symbol; no lock without an equity. |
| Stability.NewDayClearsDailyLocks | aegis_trader/bot/stability_framework.py:416-432 | A new day clears counters and every lock but the persistent two; the same day changes nothing. |
| Stability.QueueIsReportedIff | aegis_trader/bot/stability_framework.py:208-217 | A queue is reported exactly when one entry more exceeds its warning share, signals first, and a shutdown only after both. |
| Stability.OneOperationAtATime | aegis_trader/bot/stability_framework.py:351-367 | In every reachable state at most one operation is in flight. |
| Stability.AcceptedOperationExcludesOthers | aegis_trader/bot/stability_framework.py:351-367 | From any reachable state an accepted operation is, through any calls that do not end it, the only one in flight and nothing else is accepted; its end frees the framework, but its key is still known. |
| Stability.RunningOperationExcludesOthers | aegis_trader/bot/stability_framework.py:351-367 | From any state, an operation in flight stays so and no operation is accepted through any calls that do not end it. |
| Stability.ProcessedIsFold | aegis_trader/bot/stability_framework.py:351-397 | Over every sequence of calls the processed events are the fold of the marked keys and the keys of the operations that were started. |
| Stability.WindowIsRecentAccepted | aegis_trader/bot/stability_framework.py:390-397 | In every reachable state the processed events are the last 2000 accepted keys, free of repeats. |
| Stability.KeyIsRefusedForAWindow | aegis_trader/bot/stability_framework.py:351-397 | From any reachable state that takes a new key, every operation with that key is refused, and the key stays known, exactly until 2000 other new keys have been accepted. |
| StabilityFramework.ProductionStabilityFramework.MayOpenTrade | aegis_trader/bot/stability_framework.py:330-349 | The in-place approval answers and locks as specified. |
| StabilityFramework.ProductionStabilityFramework.RecordResult | aegis_trader/bot/stability_framework.py:369-380 | Booking a result resets the day first, tracks the drawdown, then re-evaluates the limits; what peak and lock then are is `Stability.PeakIsLargestRecorded`, `Stability.DrawdownLocksIff` and `Stability.ApprovedIff`. |
| StabilityFramework.ProductionStabilityFramework.Supervise | aegis_trader/bot/stability_framework.py:189-217 | Supervision leaves the specified locks, flags and alert. |
| StabilityFramework.ProductionStabilityFramework.DetectStaleHeartbeat | aegis_trader/bot/stability_framework.py:168-187 | Missing, halted, stale and fresh heartbeats set the flags specified for each. |
| StabilityFramework.ProductionStabilityFramework.CheckPortfolioExposure | aegis_trader/bot/stability_framework.py:275-297 | An exceeded limit takes its lock over whatever lock is held. |
| StabilityFramework.ProductionStabilityFramework.RestartReconciliationPlan | aegis_trader/bot/stability_framework.py:219-248 | A mismatch, missing protection or unknown orders halt; otherwise resume. |
| StabilityFramework.ProductionStabilityFramework.CheckStartup | aegis_trader/bot/stability_framework.py:148-158 | A required but unverified protection halts with the protection lock; otherwise the status is ready, whatever lock is held. |
| StabilityFramework.ProductionStabilityFramework.MarkProtectionState | aegis_trader/bot/stability_framework.py:382-388 | A missing required protection sets the shutdown latch and the protection lock. |
| StabilityFramework.ProductionStabilityFramework.DataFeedIsUnhealthy | aegis_trader/bot/stability_framework.py:250-273 | Missing data, stale data and clock drift are reported in that order; only the alert and the data state change. |
| StabilityFramework.ProductionStabilityFramework.ResetDayIfNeeded | aegis_trader/bot/stability_framework.py:416-432 | A new day clears the counters and only the daily locks. |
| StabilityFramework.ProductionStabilityFramework.MarkEvent | aegis_trader/bot/stability_framework.py:393-397 | The window forgets its oldest key only for a new one. |
| StabilityFramework.ProductionStabilityFramework.Begin | aegis_trader/bot/stability_framework.py:351-361 | An operation starts only when known, not a repeat and nothing is in flight. |
| StabilityFramework.ProductionStabilityFramework.End | aegis_trader/bot/stability_framework.py:363-367 | Ending clears the operation's own flag and nothing else. |
| StabilityFramework.ProductionStabilityFramework.HandleAll | aegis_trader/bot/stability_framework.py:137-449 | Any sequence of calls on the object is the run the theorems are about. |
| StabilityFramework.Session | aegis_trader/bot/stability_framework.py:137-449 | A new framework after any calls: no repeated event, at most 2000 of them, one operation in flight, counters equal to the caller's records, and limits kept, up to m - 1, by callers with m-disciplined records. |
| QuantityRules.AcceptedQuantity | aegis_trader/bot/stability_framework.py:22-39 | With an exact step: acceptance exactly when the raised request reaches one step and its floor costs at most the capital; the answer is a step multiple less than one step below the raised request, worth more than min_notional - price * step. |
| QuantityRules.TargetIsLeast | aegis_trader/bot/stability_framework.py:31 | The raised request is the least quantity that meets the request, the minimum quantity and the minimum notional. |
| QuantityRules.PrecisionIsMagnitude | aegis_trader/bot/stability_framework.py:25-33 | The printed digits are the rounded order of magnitude of the step, which is at least 1e-8. |
| QuantityRules.PrintingIsNearest | aegis_trader/bot/stability_framework.py:34 | Printing moves a number by at most half a unit of its last digit. |
| QuantityRules.RoundsToNearest | aegis_trader/bot/stability_framework.py:34 | The rounding behind it is to the nearest, on a tie to the even number. |
| QuantityRules.PrintingIsExactIff | aegis_trader/bot/stability_framework.py:33-34 | Printing keeps every step multiple exactly when the step fits the printed digits. |
| QuantityRules.PowerOfTenStepIsExact | aegis_trader/bot/stability_framework.py:33-34 | Every power-of-ten step, down to 1e-8 and however large, is printed with its own number of digits and is exact. |
| QuantityRules.SanitizerIsMonotone | aegis_trader/bot/stability_framework.py:31-39 | A larger accepted request is never answered with less. |
| QuantityRules.SanitizerIsIdempotent | aegis_trader/bot/stability_framework.py:22-39 | An accepted quantity is answered with itself. |
| QuantityRules.MinNotionalMetIff | aegis_trader/bot/stability_framework.py:31-32 | An accepted quantity is worth the minimum notional exactly when the raised request reaches the first step multiple that is. |
| QuantityRules.MinQtyMetIff | aegis_trader/bot/stability_framework.py:31-32 | An accepted quantity meets the minimum quantity exactly when the raised request reaches the first step multiple that does. |
| QuantityRules.MinQtyCanBeMissed | aegis_trader/bot/stability_framework.py:31-32 | The failing case: with a minimum of 1.5 on a step of 1 a request of 1 is answered with 1. |
| QuantityRules.MinNotionalCanBeMissed | aegis_trader/bot/stability_framework.py:31-32 | The failing case: 10 at price 3 with step 1 is answered with 3, worth 9. |
| QuantityRules.InexactStepOvershoots | aegis_trader/bot/stability_framework.py:32-34 | With step 0.25 a request of 0.75 is answered with 0.8. |
| Projections.StateFile.PatchTradePosition | aegis_trader/runtime/runtime_manager.py:404-438 | Patching in place changes exactly the rows of the event's bot. |
| Projections.BotRepository.AppendRuntimeEvent | aegis_trader/storage/bot_repository.py:145-155 | A stored event id changes nothing; otherwise the event is stored and its bot's row updated. |
| Projections.RedeliveryIsIgnored | aegis_trader/storage/bot_repository.py:148-150 | An applied event, redelivered after any further events, leaves the database unchanged. |
| Projections.ProjectionsAgreeIffConcordant | aegis_trader/runtime/runtime_manager.py:288-300 | The two projections agree on every row exactly for calls that are not rejections and whose entries carry quantity; which statuses those are is `Projections.StatusDecides`. |
| Projections.LogAgreesIffConcordant | aegis_trader/storage/bot_repository.py:337-360 | From equal rows, along a log in order of time, file and database agree after every prefix exactly when each of the bot's calls is no rejection and, if an entry, carries quantity. |
| Projections.ProjectionsStayEqual | aegis_trader/storage/bot_repository.py:337-360 | After every log of such calls a bot's file row and database row hold the same position, last entry and last exit. |
| Projections.ProjectionsReconverge | aegis_trader/storage/bot_repository.py:350-360 | Rows that differ agree again from the next shared entry or exit on. |
| Projections.DatabaseRowAfter | aegis_trader/storage/bot_repository.py:145-155 | With distinct ids a stored row is the projection of its own bot's calls alone. |
| Projections.FileRowAfter | aegis_trader/runtime/runtime_manager.py:429-438 | A file row is the projection of its own bot's calls alone. |
| Projections.StatusDecides | aegis_trader/runtime/runtime_manager.py:496-512 | What each status of an order does to a bot's position in file and database: which enter, which leave, at what time and with which event; all others leave it alone. |
| Projections.PositionIsTheLastCalls | aegis_trader/runtime/runtime_manager.py:265-301 | After any log a bot is in a trade exactly when its last entering call came after its last leaving one, and remembers the times of both. |
| Projections.EventNamesStatus | aegis_trader/runtime/runtime_manager.py:496-533 | The type and lifecycle of an order's event, exactly by status. |
| Projections.OpenFlagContradictsIff | aegis_trader/runtime/runtime_manager.py:288-300 | An event says its position is open although the trade is left exactly for six statuses with a quantity. |
| RuntimeControl.TransitionWrites | aegis_trader/runtime/runtime_manager.py:164-225 | A transition succeeds exactly when the key names a bot; in the file only the stale row with new status and heartbeat survives, the recorded patch is forgotten. |
| RuntimeControl.PersistedUpsert | aegis_trader/runtime/runtime_manager.py:462-467 | After an upsert a bot's row is the new one and every other bot's row is as before. |
| RuntimeControl.UpsertDropsPatch | aegis_trader/runtime/runtime_manager.py:462-467 | Upserting a bot's row erases whatever was patched into its rows. |
| RuntimeControl.ListedFromRegistry | aegis_trader/runtime/runtime_manager.py:482-484 | The status listed for a bot without a persisted row, exactly by its registry state. |
| RuntimeControl.TransitionEventSays | aegis_trader/runtime/runtime_manager.py:164-225 | A transition's event leaves every position alone in both projections, unless it is a stop, which leaves the trade in both. |
| RuntimeRuns.EveryRunIsConsistent | aegis_trader/runtime/runtime_manager.py:126-263 | After any commands, heartbeats and reconciliations the file has at most one row per bot, each with the status of that bot's registry state. |
| RuntimeRuns.ConsistentIffSound | aegis_trader/runtime/runtime_manager.py:126-263 | A registry stays consistent with the state file over every run from every consistent start exactly when its ids are unique and no bot is named like another bot's id. |
| RuntimeRuns.EveryRunHasOneRowPerBot | aegis_trader/runtime/runtime_manager.py:462-467 | Whatever the registry, no run ever leaves two rows of one bot. |
| RuntimeRuns.TransitionKeepsConsistent | aegis_trader/runtime/runtime_manager.py:164-225 | A transition changes one bot's state and row together and no other bot. |
| RuntimeRuns.StatusesMatchIffNoAliasMoves | aegis_trader/runtime/bot_registry.py:74-88 | Without a condition on names a transition keeps statuses matched exactly when every other bot whose name is the moved id, and that has a row, already had the new status. |
| RuntimeRuns.HeartbeatRestartsTheSilent | aegis_trader/runtime/runtime_manager.py:126-138 | A heartbeat restarts exactly the bots listed as running whose last beat is over 120 seconds old, and leaves no running bot silent. |
| RuntimeRuns.PromptRunsRestartOnce | aegis_trader/runtime/runtime_manager.py:126-138 | However commands and reconciliations interleave, heartbeats at most 120 seconds apart restart exactly the bots the first one lists as silent; a bot is restarted twice exactly when that listing repeats it, so never with unique ids. |
| RuntimeRuns.HeartbeatRevivesRuntime | aegis_trader/runtime/runtime_manager.py:126-132 | A heartbeat leaves the runtime on and stamped; a switched-off one counts as started at it. |
| RuntimeRuns.StopLastsIff | aegis_trader/runtime/runtime_manager.py:113-132 | A stopped runtime stays stopped throughout a run exactly when the run holds no heartbeat and no start. |
| RuntimeRuns.SuperviseStamps | aegis_trader/runtime/runtime_manager.py:571-597 | Supervising a row restarts it exactly when running and stale, stamps it, and leaves other listed rows as they were or stamped now. |
| RuntimeRuns.StopLosesTheFilePatch | aegis_trader/runtime/runtime_manager.py:204-221 | From rows that agree, a transition leaves file and database agreeing exactly when it is not a stop, or stops a bot already stopped at that very time. |
| RuntimeService.RuntimeManager.ListBotStates | aegis_trader/runtime/runtime_manager.py:38-88 | The persisted row of every registered bot, or one made from the registry, in registry order. |
| RuntimeService.RuntimeManager.RecordTradeEvent | aegis_trader/runtime/runtime_manager.py:303-338 | Both projections of one event are written; the registry is not. |
| RuntimeService.RuntimeManager.MakeTransition | aegis_trader/runtime/runtime_manager.py:164-225 | The in-place transition is the specified one; an unknown bot changes nothing. |
| RuntimeService.RuntimeManager.RestartBot | aegis_trader/runtime/runtime_manager.py:152-154 | A restart is the two transitions in order. |
| RuntimeService.RuntimeManager.ReconcileBot | aegis_trader/runtime/runtime_manager.py:227-263 | The listed row is written back; an unknown id is refused. |
| RuntimeService.RuntimeManager.RuntimeHeartbeat | aegis_trader/runtime/runtime_manager.py:126-138 | The control file is switched on and stamped, then the supervision loop over the rows listed first is the specified heartbeat, with its list of restarts. |
| RuntimeService.RuntimeCommandBus.Dispatch | aegis_trader/runtime/command_bus.py:49-62 | An id is spent by its first delivery; a repeat is answered without touching the manager; a new command has its specified effect, runtime start and stop included, and reply. |
| RuntimeService.RestartIsWhole | aegis_trader/runtime/runtime_manager.py:152-154 | A bot found for stopping is found again for starting, so no restart is left half done. |
| RuntimeService.SessionIsRun | aegis_trader/runtime/command_bus.py:49-85 | Any session of requests, heartbeats and reconciliations is the run of its first, well-formed requests. |
| RuntimeService.RedeliveryChangesNothing | aegis_trader/runtime/command_bus.py:50-51 | Dropping a redelivered request anywhere in a session changes nothing. |
| RuntimeService.EverySessionIsSafe | aegis_trader/runtime/command_bus.py:49-85 | Every session keeps registry and file consistent and, with prompt heartbeats, restarts no bot twice. |
| RuntimeService.NewRequestSucceedsIff | aegis_trader/runtime/command_bus.py:49-85 | A new request succeeds exactly when its action is known and, for one on a bot or a position, its key finds a bot, for a position in any listed row; otherwise it has no effect. |
| RuntimeService.RefusedRequestIsSpent | aegis_trader/runtime/command_bus.py:50-62 | A repeat is answered with success and not tried, however much later; so the answers to a new request and its repeat agree exactly when the request was answerable the first time. |
| RuntimeService.Work | aegis_trader/runtime/command_bus.py:45-85 | A whole session on the bus and its manager is the session the theorems are about. |
| BotRegistry.NormalizeIsIdempotent | aegis_trader/runtime/bot_registry.py:18-19 | Normalising twice changes nothing; the fixed points are exactly the well-formed ids. |
| BotRegistry.NormalIdIsCore | aegis_trader/runtime/bot_registry.py:18-19 | A normal id is the text from its first to its last letter or digit with all else replaced by underscores, and bot without any. |
| BotRegistry.FreshnessIsLatest | aegis_trader/runtime/bot_registry.py:139-150 | The pairwise choices give the latest known timestamp, or the epoch when none is known. |
| BotRegistry.MergeIsLastWriterWins | aegis_trader/runtime/bot_registry.py:90-98 | One row per normalised id, in id order: the freshest of both frames, the primary's on a tie. |
| BotRegistry.MergeIsAssociative | aegis_trader/runtime/bot_registry.py:90-98 | Merging three frames does not depend on the grouping. |
| BotRegistry.MergeIsIdempotent | aegis_trader/runtime/bot_registry.py:90-98 | Merging a frame with itself adds nothing, and merging a merge again changes nothing. |
| Orders.OrdersAreProtectedBuys | aegis_trader/oms/order_manager.py:22-38 | Of the signals consensus passes, order creation accepts exactly those with 0 < stop and entry < target, as protected buys with quantity * entry = notional. |
| Orders.ApprovalMeaning | aegis_trader/risk/engine.py:27-44 | Approved exactly when unblocked and either above the position limit or within the exposure limit; the notional granted is the smaller of request and limit; a trip raises one alert, the reason of the refusal. |
| Orders.ConcernsDecide | aegis_trader/consensus/devils_advocate.py:14-32 | However the four weighted concerns combine, one changes nothing, two halve the size and three veto. |
| Orders.ConsensusPassesIff | aegis_trader/consensus/engine.py:24-44 | Consensus passes exactly the signals that fail no gate, halved on two concerns, and otherwise names the first gate failed. |
| OrderEngines.PortfolioRiskEngine.ApproveSignal | aegis_trader/risk/engine.py:27-44 | The decision and every field, including a tripped kill switch, are as specified. |
| OrderEngines.PortfolioRiskEngine.RecordSubmittedTrade | aegis_trader/risk/engine.py:51-53 | One more trade and its notional, nothing else. |
| OrderEngines.OrderManager.CreateOrder | aegis_trader/oms/order_manager.py:22-38 | A refused signal leaves the orders alone; an accepted one is filed, fresh, validated and protected. |
| OrderEngines.OrderManager.Transition | aegis_trader/oms/order_manager.py:40-45 | The order's state changes, its exchange id only for a non-empty one. |
| OrderEngines.ExecutionEngine.Submit | aegis_trader/execution/engine.py:20-34 | A breach trips the kill switch and flattens without reaching the gateway; otherwise the order takes the gateway's answer and only an accepted order is counted. |
| TradingLoop.TradeOnce | aegis_trader/app.py:40-45 | One pass through the real engines is one task's steps in the interleaving model. |
| TradingLoop.TradeAll | aegis_trader/app.py:40-45 | Working off any signals through the real engines is the passes of the lone task. |
| Interleaving.EveryRunIsSafe | aegis_trader/execution/engine.py:20-34 | Whatever the interleaving of K tasks, the joint invariant on lock, orders, counters and exposure holds. |
| Interleaving.TradesStayWithinCap | aegis_trader/risk/engine.py:32-33 | Recorded trades plus outstanding approvals never exceed the daily limit plus K - 1. |
| Interleaving.CapIsReached | aegis_trader/app.py:43-45 | The bound is tight: for every daily limit and every K a run reaches it. |
| Interleaving.ExposureFollowsTrades | aegis_trader/risk/engine.py:51-53 | Exposure is the acknowledged notional, at most one position limit per trade. |
| Interleaving.FewLateAcknowledgements | aegis_trader/execution/engine.py:22-33 | At most K - 1 orders are acknowledged after the kill switch trips. |
| Interleaving.LateBoundIsReached | aegis_trader/execution/engine.py:22-33 | The bound on late acknowledgements is reached for every K, by a run in which a free lock is taken at once. |
| Interleaving.SubmissionsAreSerialAndProtected | aegis_trader/execution/engine.py:20-34 | At most one task holds the lock and every acknowledged order is a protected buy. |
| Interleaving.LossesStopNewOrders | aegis_trader/risk/engine.py:27-44 | After reported losses at a limit, or a full day, no agreed signal queues an order; the switch trips, with one alert, exactly for a loss limit. |
| Interleaving.ExposureStaysWithinLimit | aegis_trader/risk/engine.py:36-44 | Without clipped signals exposure, and exposure plus reservations, exceed the portfolio limit by at most K - 1 position limits, whatever the signs of the notionals. |
| Interleaving.OvershootIsReached | aegis_trader/app.py:43-45 | That overshoot is reached by a run without clipped signals, for every daily limit and every K. |
| Interleaving.OneTaskNeverOvershoots | aegis_trader/risk/engine.py:42-44 | With one task and no clipped signal the portfolio limit holds. |
| Interleaving.ClippedSignalIgnoresExposure | aegis_trader/risk/engine.py:36-41 | From within the portfolio limit one pass of a lone task leaves it exactly when every gate lets a clipped signal through and no full position limit is left. |
| Interleaving.LoneTaskStaysWithinIff | aegis_trader/risk/engine.py:36-44 | Over any signals a lone task stays within the portfolio limit throughout exactly when no pass does so. |
| Interleaving.TwoClippedSignalsOvershoot | aegis_trader/risk/engine.py:36-41 | From a fresh start, with a position limit of 1 under a portfolio limit of 1.5, two clipped signals reach an exposure of 2. |
| Interleaving.CyclesAreRuns | aegis_trader/app.py:40-45 | Passes of a lone task are runs of the machine with one task. |
| BusOrder.SortIgnoresArrivalOrder | aegis_trader/core/event_bus.py:62-65 | Permutations of events with identifying keys sort to the same sequence. |
| BusOrder.ArrivalOrderIgnoredIff | aegis_trader/core/event_bus.py:62-65 | Replay orders every permutation of the events alike exactly when their keys identify them. |
| BusOrder.ArrivalOrderKept | aegis_trader/core/event_bus.py:62-65 | All events with the same key keep their order of arrival. |
| BusOrder.EveryRunIsOrdered | aegis_trader/core/event_bus.py:38-50 | Under any interleaving of publishes and drains every accepted event is handed out exactly once, in strictly increasing order, or still waits. |
| BusOrder.FirstPublishedFirstDispatched | aegis_trader/core/event_bus.py:44-50 | What is published first is dispatched first, whatever is added meanwhile. |
| EventBus.Bus.PublishEvent | aegis_trader/core/event_bus.py:38-42 | The event gets the next number and is queued; a full queue refuses it but the number is spent. |
| EventBus.Bus.Subscribe | aegis_trader/core/event_bus.py:32-33 | The handler is added behind the type's earlier ones. |
| EventBus.Bus.SubscribeAll | aegis_trader/core/event_bus.py:35-36 | The handler is added behind the earlier all-subscribers. |
| EventBus.Bus.DrainOnce | aegis_trader/core/event_bus.py:44-50 | The oldest event goes to its handlers in order and what they publish is queued behind everything already there; the step says whether a handler raised. |
| EventBus.Bus.Dispatch | aegis_trader/core/event_bus.py:70-73 | All-subscribers first, then the type's subscribers, each once, up to a handler that finds the queue full and raises; without one every handler of both lists has the event, in subscription order; exactly what was published until then is queued. |
| EventBus.Bus.PublishSorted | aegis_trader/core/event_bus.py:63-65 | The sorted events are queued, marked and consecutively numbered; on a full queue exactly those before the first that does not fit, whose number is spent. |
| EventBus.Bus.Replay | aegis_trader/core/event_bus.py:62-68 | Publishes in key order, then drains to the end; the outcome, refused publications and raising handlers included, is the specified drain. |
| EventBus.LeastIndex | aegis_trader/core/event_bus.py:47-47 | The scan finds the entry with the least sequence number. |
| EventBus.DrainHandsOutTheQueue | aegis_trader/core/event_bus.py:66-67 | Whatever handlers publish, depending on all they have been given, the first n drain steps hand out the first n waiting events, unless a handler raises. |
| EventBus.ReplayDeliversInOrder | aegis_trader/core/event_bus.py:62-68 | Unless a handler raises, a replay dispatches what waited, then the events in key order, consecutively numbered, before anything a handler publishes. |
| EventBus.UnboundedNeverRaises | aegis_trader/core/event_bus.py:26-26 | On an unbounded queue no handler ever raises. |
| EventBus.ReplayIgnoresArrivalOrder | aegis_trader/core/event_bus.py:62-68 | On a fresh bus with room, every permutation of events with identifying keys leads through the same states, publishing and raising handlers included, and unless one raises is delivered numbered 1..n. |
| EventBus.SilentDrainEnds | aegis_trader/core/event_bus.py:66-67 | With handlers that publish nothing the drain never raises and ends after one step per waiting event, in queue order. |
| Features.CalculateFeatures | aegis_trader/market_data/binance_history.py:193-233 | The running sums and averages give each row the features of the bars up to it. |
| Features.FeaturesAreCausal | aegis_trader/market_data/binance_history.py:193-233 | The features of a prefix are the prefix of the features. |
| Features.RecentMeanInRange | aegis_trader/market_data/binance_history.py:193-233 | A mean over recent values lies in the range of the last n alone and times their number is their sum. |
| Features.FeatureRowMeans | aegis_trader/market_data/binance_history.py:193-233 | Every column of a loaded row by what it multiplies back to: the quote sum, the last volume, the range average; zero over nothing. |
| Features.DeltaIsPressure | aegis_trader/market_data/binance_history.py:193-233 | Buying less selling, as a share of the volume from -1 to 1. |
| Features.FeatureEngine.OnBar | aegis_trader/features/engine.py:28-50 | Only this symbol's bounded history changes, and the snapshot is that of the bounded history. |
| Features.VwapInRange | aegis_trader/features/engine.py:28-63 | The live volume-weighted price lies in the range of the last twenty closes. |
| Features.RelativeVolumeMeans | aegis_trader/features/engine.py:28-63 | The live relative volume against the mean of all bars before the last. |
| Features.RunEma | aegis_trader/features/engine.py:56-63 | The loop is the exponential average of the whole series. |
| Features.EmaMoves | aegis_trader/market_data/binance_history.py:262-266 | One more value moves an average of period p by 2/(p + 1) of its distance. |
| Features.WindowedEma | aegis_trader/features/engine.py:29-63 | Up to 250 values the windowed average is the full one; afterwards it differs by exactly (1 - alpha)^249 times the gap at the window's first value. |
| Features.WindowedEmaBound | aegis_trader/features/engine.py:56-63 | Hence by at most (1 - alpha)^249 times the value range. |
| Features.Stream | aegis_trader/features/engine.py:28-50 | Over any stream the engine's last snapshot is that of the last 250 bars. |
| Features.LiveAgainstLoaded | aegis_trader/market_data/binance_history.py:262-266 | Live ATR and volatility always equal the loaded ones; the averages equal up to 250 bars and then differ by the faded gap. |

## Left out

- Streaming: the `symbol` column, book ticker, depth and trade messages, `recompute` and the orderflow score; texts that are not numbers; bucket growth on feeds with gaps.
- Resampling script: parsing, dropping incomplete rows and sorting before grouping; its missing-bucket handling and its `close_time` column, which is the last sub-bar's.
- ATR strategy: indicator columns (rolling means, deviations, logarithms) are inputs; `combine_1h_10m_signals` only chooses among signals; logging.
- Replay: loading and cleaning rows, the descriptive metrics, proximity and confidence scores, report files, the texts beside the scan bucket.
- Stability framework: reason and message texts and alert levels; `sanitize_price`; an empty event key is the absent key.
- Quantity rules: floating-point rounding; the precision `round(-log10(step))` is computed exactly, by comparing squares with powers of ten.
- Runtime: the mode texts of the control file, audit, alert and event JSON logs with their length limits, the descriptive row columns, start times and profit columns of bots; mixed-case statuses (texts count as already upper-cased).
- Projections.BotRepository.AppendRuntimeEvent: the lookup of a row by bot name, which the manager's events do not carry, and the cumulative profit, fee and count columns.
- Backtest.RunSymbolReplay: what follows the loop: the descriptive metrics, and the divisions by a zero entry still open, by a zero close in the confidence samples and by a zero notional.
- Runtime events: database writes happen in log order, not on daemon threads; profit snapshots only leave the position alone; cleaning of null texts.
- Projections.ProjectionsStayEqual: event ids in a log are taken as distinct; the program builds them from trade id, event type and time.
- RuntimeRuns.EveryRunIsConsistent: for registries with unique ids and no bot named like another bot's id; RuntimeRuns.ConsistentIffSound shows that these are all that stay consistent. Names are read from the registry, not from the persisted row.
- RuntimeRuns.PromptRunsRestartOnce: a command's time is not earlier than the heartbeat before it; all steps of one call share one clock reading.
- Registry: `id` is the bot id column after its default from the name; other columns are one opaque content; the class of a character (alphanumeric, space) is a parameter with its ASCII facts.
- Order pipeline: strategies, regime and orderflow measurements are inputs; the gateway is an arbitrary accept or reject; order ids are arbitrary; `has_unprotected_position`.
- EventBus.Bus.Replay: stated for drains that end, with a number of steps after which they have; handlers that keep publishing may never let that happen.
- Event bus: a handler's reaction is a function of what has been delivered before, and it raises only when the queue is full; `run` and `stop`.
- Features: spread, liquidity and microstructure constants of a snapshot; snapshots of ticks; rows without the required columns.
- Dashboards, launchers, REST and websocket transports, storage engines, security, the LLM layer, regime scoring and strategy plugins.

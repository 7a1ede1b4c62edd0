# quicksilver core in Dafny

This project models the algorithmic core of quicksilver, an event-driven trading runtime. The runtime reads price ticks and derives candles and timeframe-boundary events from them. It routes every event to registered handlers and strategies, retries events that a handler asks to see again, and simulates market orders in backtests.

The model covers the following parts:

- **Events** (`events.dfy`): the vocabulary of the event bus and the FIFO queue. `put` pushes on the right and `get` pops on the left, as the Redis list wrapper does.
- **Timeframes** (`timeframes.dfy`): the live `TimeFramePublisher`.
  - The table of recorded boundaries is one object shared by every publisher, because `candle_time` is a class-level dict.
  - The publisher visits the timeframes in the fixed order Tick, M1, M5, M15, M30, H1, H4, D1, W1.
  - The specification functions `Advance` (the boundaries after a pass) and `Crossings` (the events a pass announces) carry the lemmas. The lemmas cover order, at most one event per timeframe, exactness, and silence on a second pass.
- **Candles** (`candles.dfy`): the backtest `BacktestTickPriceHandler`.
  - It handles warm-up, the tick-to-OHLC update of the last candle of each timeframe, and the boundary events.
  - The candle lists are keyed by timeframe only, as the code keys them.
  - `Process` is proved against closed forms over the whole pass. The candle update is proved to keep low ≤ open, close ≤ high. A run of ticks inside one window is proved to build exactly the aggregate candle: first open, max high, min low, last close.
- **Orders** (`orders.dfy`): the backtest order book.
  - Ids are sequential.
  - A buy fills at the ask and a sell at the bid.
  - A take-profit or stop-loss whose text has no '.' is read as a pip offset. It is converted on the order's side for the take-profit and on the reversed side for the stop-loss.
  - The model covers `pips` and `profit`; `is_closed` is stated through their contracts.
- **Dispatch** (`dispatch.dfy`): the rules the runners share.
  - Registration keeps only handler instances.
  - A handler is called when its subscription holds the wildcard or the event's type. Each list entry is called at most once, even when it names both.
  - `handle_event` stops exceptions and reports them as `None`. The retry flag is the OR of the truthy results.
  - An event that asks for a retry is dropped once its `tried` count is past 10. Otherwise it is re-enqueued once with `tried` one higher.
- **RunnerBase** (`runner_base.dfy`): the base runner. It covers registration, launch, heartbeat, `loop_handlers`, `get_handler_by_type`, `get_timeframes`, and the inner run loop. That loop is proved to end with an empty queue after at most `Work` of the starting queue deliveries: 12 − tried per event, or 1 once its `tried` is past 10.
- **BacktestRunning** (`backtest_runner.dfy`): the backtest runner.
  - `yield_event` reads the queue first and a file line only when the queue is empty.
  - The model covers the comma split, with a round-trip pair of lemmas, and the conversion of a line into a tick.
  - `loop_handlers` calls the strategies first and ignores their results. The handlers come next, then the account tick updates; the calls are returned as one trace and proved to come in that order. A replay is proved to read every line exactly once.
- **LegacyRunner** (`legacy_runner.dfy`): the older runner in runner/runner.py. It registers instances of handler/base.py's `BaseHandler`, a different class from the handler package's `BaseHandler` the event bus runner registers. It covers registration, launch, dispatch and retry, the run loop's exit at the first empty read, and the stream runner's price table.
- **Strategy** (`strategy.dfy`): strategy gating.
  - It covers the events that trigger `signal`, the per-pair loop that outlives failing pairs, and `can_open`.
  - With the default lists, `can_open` holds exactly on Monday to Friday.
  - `process` never asks for a retry.
- **DebugHandling** (`debug_handler.dfy`): the `DebugHandler` action routing. The action is compared without regard to case, exactly one branch runs, and that branch makes one call per account.

`get_candle_time`, `profit_pip`, `calculate_price`, the line-field parsers, and every handler's `process` are external code. The model takes them as function parameters and assumes no algebra about them. Time is a whole number of seconds. Prices are exact `real`s, standing for `Decimal`.

Points where the code's behaviour is easy to misread, and where the model follows the code:

- **Retries.** `tried > 10` is the drop test, so a fresh event can be delivered 12 times, that is, 11 redeliveries (`Dispatch.DeliveriesCount`).
- **Short lines.** A line with fewer than four fields makes `line_to_event` raise, and nothing catches it. The replay then stops (`Fetched.Crash`); the line is not skipped.
- **Candle keys.** Candles are keyed by timeframe, not by (timeframe, instrument).
- **Closing.** Orders have no close operation, and `update_price` is never refused.
- **Zero close price.** `is_closed` is `bool(close_price)`, so a close price of 0 reads as open.
- **Strategies in the backtest runner.** A strategy that is registered as a handler and subscribes to the event's type is called twice. It is called once in the strategy loop and once in the handler loop; both calls are in the trace of `BacktestRunning.BacktestRunner.LoopHandlers`.

## Model

| member | source | states |
|---|---|---|
| Events.EventQueue.Put | redis_queue/queue.py:19-22 | an event goes on the right end of the queue; nothing else changes |
| Events.TypeOfNamesClass | backtest/runner.py:100-102 | for a well-typed event the `type` string names its class, in both directions |
| Events.EventQueue.Get | redis_queue/queue.py:24-37 | a non-blocking pop from the left: the front event and the rest of the queue, or `None` and no change when empty |
| Timeframes.BoundaryEvent | handler/__init__.py:102 | the crossing event names the timeframe, the new boundary, the previously recorded one, the timezone and `now`, with `tried` 0 |
| Timeframes.Advance | handler/__init__.py:99-106 | after a pass the table has the old keys plus every visited timeframe |
| Timeframes.AdvanceAt | handler/__init__.py:99-106 | after a pass every visited timeframe holds `get_candle_time(now, tf)` and every other recorded one keeps its boundary |
| Timeframes.CrossingsExactly | handler/__init__.py:99-104 | an event is emitted for a timeframe if and only if a boundary was recorded for it and differs from the new one, and each event is that timeframe's crossing event |
| Timeframes.CrossingsInOrder | handler/__init__.py:99-104 | the events come in the order of the timeframe list |
| Timeframes.CrossingsDistinctFrames | backtest/handler.py:23-40 | with distinct timeframes a pass emits at most one event per timeframe and no more events than timeframes |
| Timeframes.CrossingsLength | backtest/handler.py:23-40 | a pass emits at most one event per visited timeframe |
| Timeframes.NoCrossingsAtSameTime | backtest/handler.py:32-40 | when every recorded boundary already equals the floor of `now`, the pass emits nothing (two ticks in one window) |
| Timeframes.SecondPassQuiet | handler/__init__.py:99-106 | a second `process` with the same `now` enqueues nothing |
| Timeframes.BoundaryTable.constructor | handler/__init__.py:78 | the shared boundary table starts empty |
| Timeframes.TimeFramePublisher.constructor | handler/__init__.py:82-87 | records `get_candle_time(now, tf)` for every timeframe of the fixed list in the shared table |
| Timeframes.TimeFramePublisher.Process | handler/__init__.py:97-106 | the table becomes `Advance` of the old one and the queue gains exactly `Crossings` of the old table, in list order |
| Timeframes.TimeFramePublisher.Visit | handler/__init__.py:99-106 | one timeframe of the pass: the new boundary is recorded, and announced once with the old one exactly when it moved |
| Candles.AbsorbOpens | backtest/handler.py:44-76 | on an empty list or a new boundary exactly one candle is appended, earlier candles are kept, and open = high = low = close = the tick's bid and ask |
| Candles.AbsorbExtends | backtest/handler.py:52-64 | inside the last candle's boundary the length, earlier candles and opens are kept, highs and lows become the max and min with the tick, and closes become the tick |
| Candles.AbsorbKeepsWellFormed | backtest/handler.py:48-76 | low ≤ open, close ≤ high is preserved for bid and ask on every candle |
| Candles.AbsorbRunAggregates | backtest/handler.py:42-76 | ticks in one new window build exactly one candle: open at the first tick, high and low at the run's max and min, close at the last tick |
| Candles.HighestBounds | backtest/handler.py:54-57 | the running high is an upper bound of the prices seen and is one of them |
| Candles.LowestBounds | backtest/handler.py:58-61 | the running low is a lower bound of the prices seen and is one of them |
| Candles.HeartbeatKeepsCandles | backtest/handler.py:15-30 | a non-tick event never changes the candle lists |
| Candles.AbsorbTickAt | backtest/handler.py:23-30 | a timeframe's candle list changes only for a tick, only when a boundary was recorded for it before the pass, and then by exactly one update |
| Candles.BacktestTickPriceHandler.TickToOhlc | backtest/handler.py:42-64 | only the timeframe's own list changes, by the open-or-extend update; the boundaries are untouched |
| Candles.BacktestTickPriceHandler.VisitTimeframe | backtest/handler.py:24-40 | warm-up only records the boundary; otherwise the candles are updated first, and a moved boundary is recorded and then announced once |
| Candles.BacktestTickPriceHandler.Process | backtest/handler.py:15-40 | a tick first records its time under the tick timeframe; the boundaries, candle lists and queue end as the whole-pass closed forms `Advance`, `AbsorbTick` and `Crossings` |
| Candles.BacktestTickPriceHandler.Pass | backtest/handler.py:22-40 | the loop over any duplicate-free timeframe list ends in the closed forms `Advance`, `AbsorbTick` and `Crossings` of the state it started from |
| Orders.ResolveLevel | backtest/order.py:109-114 | a value whose text has no '.' goes through `calculate_price`; any other value is kept as given |
| Orders.NoLevelIsPips | backtest/order.py:109-114 | an absent level (text "None") is always passed to `calculate_price` |
| Orders.BacktestOrder.constructor | backtest/order.py:11-29 | a new order has current price = open price, no close price or time, zero max/min profit and zero profit time |
| Orders.BacktestOrder.Pips | backtest/order.py:35-39 | pips of the move to the close price when closed (a truthy close price), else to the current price |
| Orders.BacktestOrder.Profit | backtest/order.py:41-45 | `None` exactly while open; `pips * lots * 10` once closed |
| Orders.BacktestOrder.UpdatePrice | backtest/order.py:47-49 | only the current price changes |
| Orders.FreshOrderFigures | backtest/order.py:23-45 | a fresh order is open with no profit, and its pips are those of a move from the open price to itself |
| Orders.BacktestAccount.constructor | backtest/order.py:52-53 | the order sequence starts at 0 with no orders |
| Orders.BacktestAccount.GenerateOrderId | backtest/order.py:55-57 | the new id is the previous sequence value plus one and is not yet used |
| Orders.BacktestAccount.MarketOrder | backtest/order.py:101-119 | a fresh order under a new id: filled at the ask for a buy and the bid for a sell, opened at the tick's time, take-profit resolved on the side and stop-loss on the reversed side; other entries unchanged |
| Orders.BacktestAccount.GetOrder | backtest/order.py:65-66 | the stored order under the id, or `None` when absent |
| Orders.BacktestAccount.ListPendingOrder | backtest/order.py:62-63 | the constant empty dict: the backtest account keeps no pending orders |
| Dispatch.Filter | runner/base.py:119-120 | keeps exactly the elements satisfying the test and never lengthens the list |
| Dispatch.FilterAppend | runner/base.py:119-120 | filtering a concatenation filters each part, so the original order is kept |
| Dispatch.FilterCount | runner/base.py:119-120 | each kept element occurs as often as in the input, others not at all |
| Dispatch.Registered | runner/base.py:44-48 | `register` keeps exactly the instances of the handler package's `BaseHandler` |
| Dispatch.CalledOncePerEntry | runner/base.py:92-99 | each matching entry is called exactly once and no other is; a wildcard entry is called once even when it also names the type |
| Dispatch.HandleEvent | runner/base.py:107-117 | the handler's result, or `None` exactly when it raised; the exception never escapes |
| Dispatch.RetryRequestedIff | runner/base.py:91-99 | a retry is requested if and only if some called handler returned a truthy value |
| Dispatch.DispatchPass | runner/base.py:91-99 | the handlers called are the matching ones in list order, and the flag is the OR of their results |
| Dispatch.RetryPut | runner/base.py:100-105 | with a request and `tried` ≤ 10, one copy with `tried + 1` (so at most 11); otherwise nothing |
| Dispatch.Requeue | runner/base.py:100-105 | the queue gains exactly the retry copy, if any |
| Dispatch.DeliveriesCount | runner/base.py:100-105 | an event with `tried` t is delivered at most 12 − t times (once past 10); a fresh one at most 12 times |
| Dispatch.WorkStep | runner/base.py:139-144 | handling the front event and re-enqueuing its retry strictly lowers the remaining deliveries |
| Dispatch.TimeframesOfIff | runner/base.py:126-131 | a timeframe is in the union if and only if some strategy lists it |
| RunnerBase.AccountList | runner/base.py:29 | a list of accounts is kept; a single account is wrapped in a list |
| RunnerBase.DrainStep | runner/base.py:139-144 | one event of the inner loop keeps the handled events in queue order and lowers the remaining work |
| RunnerBase.BaseRunner.constructor | runner/base.py:19-34 | not running, not halted, zero heartbeats, a fresh queue holding what `create_queue`'s queue holds, handlers = the registered arguments |
| RunnerBase.BaseRunner.Register | runner/base.py:44-48 | appends the arguments that are instances of the handler package's `BaseHandler`, in argument order |
| RunnerBase.BaseRunner.Launch | runner/base.py:50-55 | running and not halted |
| RunnerBase.BaseRunner.LoopEnd | runner/base.py:60-65 | enqueues `HeartBeat(count + 1)` and resets the timer exactly when heartbeats are on and more than `heartbeat` seconds passed; otherwise nothing changes |
| RunnerBase.BaseRunner.LoopHandlers | runner/base.py:89-105 | calls the matching handlers in order and enqueues only the bounded retry copy |
| RunnerBase.BaseRunner.GetTimeframes | runner/base.py:126-131 | returns the union of the strategies' timeframes |
| RunnerBase.BaseRunner.Drain | runner/base.py:139-144 | unless halted, ends with an empty queue; handles the starting queue first and in order; at most the starting work in all; exactly the starting queue when no handler asks for a retry |
| RunnerBase.BaseRunner.RunOnce | runner/base.py:136-147 | one turn: the queue is drained unless halted; then, exactly when heartbeats are on and more than `heartbeat` seconds passed, the counter goes up by one, the timer is reset to the later reading and the new heartbeat is the only event behind what was left, otherwise counter and timer are unchanged; without retries exactly the starting queue is handled |
| RunnerBase.GetHandlerByTypeExact | runner/base.py:119-120 | keeps exactly the instances of the class, each as often as listed |
| RunnerBase.TimeframesUnion | runner/base.py:122-131 | `get_timeframes` is the union over `strategies` of their timeframes |
| BacktestRunning.Split | backtest/runner.py:73 | at least one field, and no field contains the separator |
| BacktestRunning.JoinSplit | backtest/runner.py:73 | joining the split fields gives back the line |
| BacktestRunning.SplitJoin | backtest/runner.py:73 | splitting a join of separator-free fields gives back the fields |
| BacktestRunning.LineToEvent | backtest/runner.py:68-80 | a tick with `tried` 0 exactly when there are at least four fields and time, bid and ask parse; fewer fields always fail |
| BacktestRunning.LineOfFields | backtest/runner.py:68-80 | fields 0 to 3 of a line become instrument, time, bid and ask, whatever follows |
| BacktestRunning.BacktestRunner.constructor | backtest/runner.py:38-45 | the file, whose lines as `readline` returns them are never empty, is at its start; the queue is empty and the line count is 0 |
| BacktestRunning.BacktestRunner.YieldEvent | backtest/runner.py:47-66 | a queued event comes first; only with an empty queue is one line read and counted; at the end of the file the runner stops with no event; lines counted plus lines unread stay constant |
| BacktestRunning.BacktestRunner.LoopHandlers | backtest/runner.py:82-109 | returns the calls as one trace in call order, `Calls(e)`: the type-subscribed strategies, then the wildcard-or-type handlers, then every account's tick update if and only if the event is a tick; the retry depends only on the handlers' results |
| BacktestRunning.BacktestRunner.UpdateAccounts | backtest/runner.py:100-102 | every account's tick update, in account order, exactly for a tick |
| BacktestRunning.LoopTracePhased | backtest/runner.py:82-102 | strategy calls come before every handler call and tick updates after both, each phase in its list's order |
| BacktestRunning.BacktestRunner.CallStrategies | backtest/runner.py:85-88 | exactly the strategies subscribed to the event's type are called, in list order, and their results do not matter |
| BacktestRunning.StrategyCallsStep | backtest/runner.py:85-88 | one more strategy looked at adds its call exactly when it passes the subscription test, after the calls before it |
| BacktestRunning.BacktestRunner.Run | runner/base.py:133-147 | with this runner's `yield_event`, a run that does not crash ends stopped with the file fully read, every line counted once and the queue empty |
| BacktestRunning.ReplayStep | runner/base.py:139-144 | one event of the replay keeps the handled events in queue order and, for a queued event, lowers the remaining work |
| LegacyRunner.QueueRunner.constructor | runner/runner.py:69-72 | no handlers, not running, not halted; the queue holds whatever the named Redis list already holds |
| LegacyRunner.QueueHandlers | runner/runner.py:24-28 | keeps exactly the arguments that are instances of handler/base.py's `BaseHandler`, a class distinct from the handler package's `BaseHandler` |
| LegacyRunner.QueueRunner.Register | runner/runner.py:24-28 | appends the arguments that are instances of handler/base.py's `BaseHandler`, in argument order |
| LegacyRunner.QueueRunner.Launch | runner/runner.py:30-35 | running and not halted |
| LegacyRunner.QueueRunner.LoopHandlers | runner/runner.py:111-127 | wildcard-or-type dispatch in order, ORed results, bounded re-enqueue |
| LegacyRunner.QueueRunner.Run | runner/runner.py:74-90 | leaves the loop at the first empty read, still running, with the queue empty, having handled the starting queue first and in order |
| LegacyRunner.QueueRunner.Turns | runner/runner.py:77-88 | on a launched runner the loop empties the queue, handles the starting queue first and in order, and, when no handler ever asks for a retry, handles exactly the starting queue |
| LegacyRunner.SetUpPricesDict | runner/runner.py:175-182 | the keys are exactly the pairs, and each maps to bid, ask, time and spread all `None` |
| LegacyRunner.PricesDictSize | runner/runner.py:175-182 | never more entries than pairs; exactly one per pair when the pairs are distinct |
| LegacyRunner.DistinctCard | runner/runner.py:175-182 | a list of distinct pairs has as many members as entries |
| Strategy.CanOpen | base/strategy.py:48-54 | true if and only if the weekday and the hour are both listed |
| Strategy.CanOpenDefaults | base/strategy.py:48-54 | with the default lists (Monday to Friday, hours 0 to 23), true exactly on weekdays 0 to 4 |
| Strategy.Signal | base/strategy.py:38-43 | every pair is tried once, in order, whatever fails; the failed pairs are those whose call raised |
| Strategy.Process | base/strategy.py:56-62 | signals exactly for a bar on one of its timeframes, order holding, or start-up; returns nothing truthy and never raises |
| Strategy.QuietHandlersNeverRetry | base/strategy.py:56-62 | handlers that all return nothing never get an event retried |
| Strategy.SendEvent | base/strategy.py:64-65 | the event is enqueued once |
| DebugHandling.Lower | handler/__init__.py:28 | lower-casing keeps the length and maps each character |
| DebugHandling.DebugEffects | handler/__init__.py:26-40 | the calls `DebugHandler.process` makes: it prints the event exactly when the event is not a debug event or there are no accounts; otherwise at most one call per account, and every logging call at position i goes to account i |
| DebugHandling.DebugOneBranch | handler/__init__.py:26-40 | exactly one branch runs: all calls of one kind, one per account in order for account, trade or order; the fallback prints the event |
| DebugHandling.DebugCaseInsensitive | handler/__init__.py:28-37 | actions differing only in case do the same thing |
| DebugHandling.AccountInAnyCase | handler/__init__.py:28-30 | an action reading "account" in any letter case, "ACCOUNT" among them, logs every account in order and does nothing else |

## Left out

- Redis, JSON encoding and decoding, `BaseEvent.from_dict`/`to_dict`, logging, printing, traceback formatting and `sys.exit`: these are I/O or code that cannot be seen. The queue holds events directly, so decoding errors in `yield_event` are not modelled.
- The wall clock, `time.sleep` and the sleeps between turns: clock readings are parameters (`now`, `later`, `wallNow`). They are whole seconds: the fractional part of `time.time()` is not modelled, so a heartbeat due after a fraction of a second more is due one reading later in the model.
- Events of an unknown class whose `type` string repeats a known one (`Other` carrying "TICK_PRICE", say): the source cannot build them, and only `Events.WellTyped` events are proved to have a `type` that names their class.
- The outer `while self.running` loop of `BaseRunner.run`: it never ends in the base runner. `RunOnce` models one turn of it.
- The legacy runner's final `raise NotImplementedError` after its loop, and the unresolved names `Event` and `queue` in its `yield_event`: the model reads `Event.from_dict` as the event decoder.
- Handler side effects on the queue: a handler's `process` is an abstract outcome (returned truthy or falsy, or raised). Enqueues made by handlers during dispatch are not in the runner models. The termination and work bounds of `Drain`, `Run` and `QuietHandlersNeverRetry` hold under that assumption. The tick handler's own enqueues are modelled in `Candles`.
- The exact list `PERIOD_CHOICES`: it lives in an external package. The model uses Tick, M1, M5, M15, M30, H1, H4, D1, W1, the timeframes the backtest runner imports and reports candle counts for. The proofs use only that the list has no duplicates.
- `Timeframes.TimeFramePublisher.Process`: the H1 status read and log (`runtime.get_last_tick`) are I/O and left out. The method requires every listed timeframe to be in the table, as the source's dict lookup does. The constructor guarantees this.
- `Candles.BacktestTickPriceHandler.Process`: a boundary counts as unrecorded only when its key is missing. A present but falsy value is not modelled.
- Profit tracking (`max_profit`, `min_profit`, `profit_time` updates) and closing an order: the source does not implement them.
- Limit orders, stop orders, take-profit and stop-loss amendments, `list_order` and `cancel_order`: these raise `NotImplementedError` or return a stored dict.
- `Orders.BacktestAccount.MarketOrder`: `Decimal(str(lots))` is the identity on exact values and is not modelled. The `tick` keyword must be a tick event. Without one, the source fails on `tick.time`.
- `Orders.BacktestAccount.GetOrder`: takes an integer id. The `int(order_id)` conversion of a string is not modelled.
- The backtest runner's progress print every 10000 lines, its end-of-run statistics, closing the file and deleting the queue.
- `BacktestRunning.BacktestRunner.constructor`: the handler list is taken as given. The inherited `MemoryQueueRunner` constructor is not part of this model.
- `account.update_tick`, `log_account`, `log_trade`, `log_order` and `signal_pair`: external calls. They are modelled as the list of calls made and, for `signal_pair`, whether it raised.
- `DebugHandling.Lower`: covers ASCII letters only. Python's `str.lower` also folds other Unicode letters.
- The HeartBeat handler's float modulus, the tick-price and heartbeat handlers' Redis writes, the Telegram handler and the event-logger handler: these only do I/O.
- The `falcon` helpers `get_candle_time`, `profit_pip`, `calculate_price`, `get_mt4_symbol` and `str_to_datetime`: they are function parameters with no properties assumed. `OrderSide.reverse` is modelled as swapping the side.

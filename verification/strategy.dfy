/** Strategy gating (base/strategy.py): which events make a strategy look for signals, the
    per-pair signal loop that survives failing pairs, and the trading-hours window. */
module Strategy {
  import opened Events
  import opened Dispatch

  /** The class attributes a strategy is configured by. */
  datatype StrategyConfig = StrategyConfig(weekdays: seq<int>, hours: seq<int>, timeframes: seq<Timeframe>, pairs: seq<string>)

  /** Monday to Friday (`weekday()` counts Monday as 0). */
  const DefaultWeekdays: seq<int> := [0, 1, 2, 3, 4]
  /** Every hour of the day, 0 to 23. */
  const DefaultHours: seq<int> := seq(24, i => i)

  /** The UTC clock reading `can_open` looks at: `weekday()` and `hour`. */
  datatype Clock = Clock(weekday: int, hour: int)

  predicate ValidClock(now: Clock)
  {
    0 <= now.weekday < 7 && 0 <= now.hour < 24
  }

  /** `can_open`: the weekday is a trading day and the hour a trading hour. */
  function CanOpen(s: StrategyConfig, now: Clock): (r: bool)
    ensures r <==> now.weekday in s.weekdays && now.hour in s.hours
  {
    if now.weekday !in s.weekdays then false
    else if now.hour !in s.hours then false
    else true
  }

  /** With the default lists a strategy may open on any hour of Monday to Friday and never at
      the weekend. */
  lemma {:induction false} CanOpenDefaults(s: StrategyConfig, now: Clock)
    requires s.weekdays == DefaultWeekdays && s.hours == DefaultHours && ValidClock(now)
    ensures CanOpen(s, now) <==> now.weekday <= 4
  {
    assert DefaultHours[now.hour] == now.hour;
    if now.weekday <= 4 {
      assert DefaultWeekdays[now.weekday] == now.weekday;
    }
  }

  /** The events `process` answers with `signal`: a bar closing on one of the strategy's
      timeframes, an order-holding event, or start-up. */
  predicate ShouldSignal(s: StrategyConfig, e: Event)
  {
    if TypeOf(e) == TimeFrameType && e.TimeFrame? && e.timeframe in s.timeframes then true
    else if TypeOf(e) == OrderHoldingType then true
    else TypeOf(e) == StartUpType
  }

  /** `signal_pair(symbol)` for each symbol: true when it returns, false when it raises. */
  type SignalPairFn = string -> bool

  /** `signal`: every pair is tried once, in order; a pair that raises is logged and skipped
      and the loop goes on. */
  method Signal(s: StrategyConfig, signalPair: SignalPairFn) returns (attempted: seq<string>, failed: seq<string>)
    ensures attempted == s.pairs
    ensures failed == Filter(s.pairs, (sym: string) => !signalPair(sym))
  {
    attempted := [];
    failed := [];
    for i := 0 to |s.pairs|
      invariant attempted == s.pairs[..i]
      invariant failed == Filter(s.pairs[..i], (sym: string) => !signalPair(sym))
    {
      var symbol := s.pairs[i];
      assert s.pairs[..i + 1][..i] == s.pairs[..i];
      var ok := signalPair(symbol);
      if !ok {
        failed := failed + [symbol];
      }
      attempted := attempted + [symbol];
    }
    assert s.pairs[..|s.pairs|] == s.pairs;
  }

  /** `process`: calls `signal` exactly for the events `ShouldSignal` names and does nothing
      otherwise; it returns nothing and never raises, so as a handler it never asks for a retry. */
  method Process(s: StrategyConfig, e: Event, signalPair: SignalPairFn) returns (result: Outcome, attempted: seq<string>, failed: seq<string>)
    ensures result == Returned(false)
    ensures ShouldSignal(s, e) ==> attempted == s.pairs && failed == Filter(s.pairs, (sym: string) => !signalPair(sym))
    ensures !ShouldSignal(s, e) ==> attempted == [] && failed == []
  {
    result := Returned(false);
    attempted, failed := [], [];
    if TypeOf(e) == TimeFrameType && e.TimeFrame? && e.timeframe in s.timeframes {
      attempted, failed := Signal(s, signalPair);
    } else if TypeOf(e) == OrderHoldingType {
      attempted, failed := Signal(s, signalPair);
    } else if TypeOf(e) == StartUpType {
      attempted, failed := Signal(s, signalPair);
    }
  }

  /** Handlers that all behave like `process` (returning nothing) never get an event retried. */
  lemma QuietHandlersNeverRetry(hs: seq<Handler>, e: Event, process: ProcessFn)
    requires forall h :: h in hs ==> process(h, e) == Returned(false)
    ensures !RetryRequested(hs, e, process)
  {
    RetryRequestedIff(hs, e, process);
  }

  /** `send_event`: the event goes onto the context's queue, once. */
  method SendEvent(e: Event, context: EventQueue)
    modifies context
    ensures context.items == old(context.items) + [e]
  {
    context.Put(e);
  }
}

/** Shared vocabulary of the event bus: timeframes, events, candles and the
    FIFO queue the runners read from and write to. */
module Events {

  datatype Option<T> = None | Some(value: T)

  /** Timestamps and clock readings in whole seconds since an epoch. */
  type Time = int
  /** Prices, pips and lots are exact decimals. */
  type Price = real

  /** The timeframe identifiers of the timeframe module. */
  datatype Timeframe = Tick | M1 | M5 | M15 | M30 | H1 | H4 | D1 | W1

  /** The fixed iteration order used by the boundary publishers, shortest to longest: the
      tick timeframe, then the minute to week timeframes the backtest runner reports on. */
  const PeriodChoices: seq<Timeframe> := [Tick, M1, M5, M15, M30, H1, H4, D1, W1]

  /** `get_candle_time(now, timeframe)`: the start of the candle containing `now`. It is an
      external helper, so every member that needs it takes it as a parameter. */
  type CandleTimeFn = (Time, Timeframe) -> Time

  predicate Distinct<T(==)>(s: seq<T>)
  {
    forall i, j :: 0 <= i < j < |s| ==> s[i] != s[j]
  }

  datatype Side = Buy | Sell

  /** `OrderSide.reverse`. */
  function Reverse(side: Side): (r: Side)
    ensures r != side
  {
    if side == Buy then Sell else Buy
  }

  /** Events carry a `tried` retry counter; everything else is immutable. */
  datatype Event =
    | TickPrice(instrument: string, time: Time, bid: Price, ask: Price, tried: nat)
    | TimeFrame(timeframe: Timeframe, current: Time, previous: Time, timezone: int, time: Time, tried: nat)
    | HeartBeat(counter: nat, tried: nat)
    | Debug(action: string, tried: nat)
    | OrderHolding(tried: nat)
    | StartUp(tried: nat)
    | Other(name: string, tried: nat)

  const TickPriceType := "TICK_PRICE"
  const TimeFrameType := "TIMEFRAME"
  const HeartBeatType := "HEARTBEAT"
  const DebugType := "DEBUG"
  const OrderHoldingType := "ORDER_HOLDING"
  const StartUpType := "STARTUP"
  /** The subscription entry that matches every event type. */
  const Wildcard := "*"

  /** The `type` discriminant of an event. */
  function TypeOf(e: Event): string
  {
    match e
    case TickPrice(_, _, _, _, _) => TickPriceType
    case TimeFrame(_, _, _, _, _, _) => TimeFrameType
    case HeartBeat(_, _) => HeartBeatType
    case Debug(_, _) => DebugType
    case OrderHolding(_) => OrderHoldingType
    case StartUp(_) => StartUpType
    case Other(name, _) => name
  }

  /** The type names the event classes own: an `Other` event never carries one of them. */
  predicate WellTyped(e: Event)
  {
    e.Other? ==> e.name !in [TickPriceType, TimeFrameType, HeartBeatType, DebugType, OrderHoldingType, StartUpType]
  }

  /** For a well-typed event the `type` string names its class, in both directions. */
  lemma TypeOfNamesClass(e: Event)
    requires WellTyped(e)
    ensures TypeOf(e) == TickPriceType <==> e.TickPrice?
    ensures TypeOf(e) == TimeFrameType <==> e.TimeFrame?
    ensures TypeOf(e) == HeartBeatType <==> e.HeartBeat?
    ensures TypeOf(e) == DebugType <==> e.Debug?
    ensures TypeOf(e) == OrderHoldingType <==> e.OrderHolding?
    ensures TypeOf(e) == StartUpType <==> e.StartUp?
  {
    if e.Other? {
      assert e.name != TickPriceType && e.name != TimeFrameType && e.name != HeartBeatType;
      assert e.name != DebugType && e.name != OrderHoldingType && e.name != StartUpType;
    }
  }

  /** One OHLC candle; bid and ask are tracked independently. */
  datatype Candle = Candle(
    time: Time,
    openBid: Price, openAsk: Price,
    highBid: Price, highAsk: Price,
    lowBid: Price, lowAsk: Price,
    closeBid: Price, closeAsk: Price)

  /** A FIFO queue of events: `put` is a right push and `get` a left pop, as the
      list-backed transport does. */
  class EventQueue {
    var items: seq<Event>

    constructor ()
      ensures items == []
    {
      items := [];
    }

    method Put(e: Event)
      modifies this
      ensures items == old(items) + [e]
    {
      items := items + [e];
    }

    /** A non-blocking get: `None` when the queue is empty. */
    method Get() returns (e: Option<Event>)
      modifies this
      ensures old(items) == [] ==> e == None && items == []
      ensures old(items) != [] ==> e == Some(old(items)[0]) && items == old(items)[1..]
    {
      if items == [] {
        e := None;
      } else {
        e := Some(items[0]);
        items := items[1..];
      }
    }
  }
}

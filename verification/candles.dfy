/** The backtest tick-to-candle aggregator (backtest/handler.py, BacktestTickPriceHandler):
    per timeframe it keeps a list of OHLC candles and announces boundary crossings. */
module Candles {
  import opened Events
  import opened Timeframes

  /** `add_new_ohlc`: a candle whose open, high, low and close are all the tick's prices. */
  function NewCandle(boundary: Time, bid: Price, ask: Price): Candle
  {
    Candle(boundary, bid, ask, bid, ask, bid, ask, bid, ask)
  }

  /** The update of the running candle: highs and lows move out to the tick, the closes become the tick. */
  function Extend(c: Candle, bid: Price, ask: Price): Candle
  {
    c.(highAsk := if ask > c.highAsk then ask else c.highAsk,
       highBid := if bid > c.highBid then bid else c.highBid,
       lowAsk := if ask < c.lowAsk then ask else c.lowAsk,
       lowBid := if bid < c.lowBid then bid else c.lowBid,
       closeBid := bid,
       closeAsk := ask)
  }

  /** `tick_to_ohlc` on one timeframe's candle list: open a new candle when the list is empty
      or the last candle belongs to another boundary, otherwise extend the last one. */
  function Absorb(candles: seq<Candle>, boundary: Time, bid: Price, ask: Price): seq<Candle>
  {
    if |candles| == 0 || candles[|candles| - 1].time != boundary then candles + [NewCandle(boundary, bid, ask)]
    else candles[..|candles| - 1] + [Extend(candles[|candles| - 1], bid, ask)]
  }

  /** A tick opening a candle appends exactly one candle seeded with the tick's bid and ask. */
  lemma AbsorbOpens(candles: seq<Candle>, boundary: Time, bid: Price, ask: Price)
    requires |candles| == 0 || candles[|candles| - 1].time != boundary
    ensures var r := Absorb(candles, boundary, bid, ask);
      |r| == |candles| + 1 && r[..|candles|] == candles &&
      var c := r[|candles|];
      c.time == boundary &&
      c.openBid == c.highBid == c.lowBid == c.closeBid == bid &&
      c.openAsk == c.highAsk == c.lowAsk == c.closeAsk == ask
  {
  }

  /** A tick inside the last candle's boundary keeps the length, the earlier candles and the
      opens; highs and lows become the max and min with the tick; closes become the tick. */
  lemma AbsorbExtends(candles: seq<Candle>, boundary: Time, bid: Price, ask: Price)
    requires |candles| > 0 && candles[|candles| - 1].time == boundary
    ensures var r := Absorb(candles, boundary, bid, ask);
      var n := |candles|;
      var was := candles[n - 1];
      |r| == n && r[..n - 1] == candles[..n - 1] &&
      var c := r[n - 1];
      c.time == boundary && c.openBid == was.openBid && c.openAsk == was.openAsk &&
      c.highBid >= was.highBid && c.highBid >= bid && (c.highBid == was.highBid || c.highBid == bid) &&
      c.highAsk >= was.highAsk && c.highAsk >= ask && (c.highAsk == was.highAsk || c.highAsk == ask) &&
      c.lowBid <= was.lowBid && c.lowBid <= bid && (c.lowBid == was.lowBid || c.lowBid == bid) &&
      c.lowAsk <= was.lowAsk && c.lowAsk <= ask && (c.lowAsk == was.lowAsk || c.lowAsk == ask) &&
      c.closeBid == bid && c.closeAsk == ask
  {
  }

  /** low <= open, close <= high, for bid and for ask. */
  ghost predicate WellFormed(c: Candle)
  {
    && c.lowBid <= c.openBid <= c.highBid && c.lowBid <= c.closeBid <= c.highBid
    && c.lowAsk <= c.openAsk <= c.highAsk && c.lowAsk <= c.closeAsk <= c.highAsk
  }

  ghost predicate AllWellFormed(candles: seq<Candle>)
  {
    forall i :: 0 <= i < |candles| ==> WellFormed(candles[i])
  }

  /** Absorbing a tick keeps every candle well formed. */
  lemma AbsorbKeepsWellFormed(candles: seq<Candle>, boundary: Time, bid: Price, ask: Price)
    requires AllWellFormed(candles)
    ensures AllWellFormed(Absorb(candles, boundary, bid, ask))
  {
    var r := Absorb(candles, boundary, bid, ask);
    forall i | 0 <= i < |r| ensures WellFormed(r[i]) {
      if i < |candles| - 1 || (i == |candles| - 1 && candles[i].time != boundary) {
        assert r[i] == candles[i];
      }
    }
  }

  /** One bid/ask quote of a tick. */
  datatype Quote = Quote(bid: Price, ask: Price)

  /** Absorbing a run of quotes, in order, under one boundary. */
  function AbsorbRun(candles: seq<Candle>, boundary: Time, qs: seq<Quote>): seq<Candle>
  {
    if qs == [] then candles
    else
      var q := qs[|qs| - 1];
      Absorb(AbsorbRun(candles, boundary, qs[..|qs| - 1]), boundary, q.bid, q.ask)
  }

  function Highest(xs: seq<Price>): Price
    requires |xs| > 0
  {
    if |xs| == 1 then xs[0]
    else
      var m := Highest(xs[..|xs| - 1]);
      if xs[|xs| - 1] > m then xs[|xs| - 1] else m
  }

  function Lowest(xs: seq<Price>): Price
    requires |xs| > 0
  {
    if |xs| == 1 then xs[0]
    else
      var m := Lowest(xs[..|xs| - 1]);
      if xs[|xs| - 1] < m then xs[|xs| - 1] else m
  }

  lemma {:induction false} HighestBounds(xs: seq<Price>)
    requires |xs| > 0
    ensures forall i :: 0 <= i < |xs| ==> xs[i] <= Highest(xs)
    ensures exists i :: 0 <= i < |xs| && xs[i] == Highest(xs)
  {
    if |xs| > 1 {
      var init := xs[..|xs| - 1];
      HighestBounds(init);
      var k :| 0 <= k < |init| && init[k] == Highest(init);
      assert xs[k] == init[k];
      if xs[|xs| - 1] > Highest(init) {
        assert xs[|xs| - 1] == Highest(xs);
      } else {
        assert xs[k] == Highest(xs);
      }
      forall i | 0 <= i < |xs| - 1 ensures xs[i] <= Highest(xs) {
        assert xs[i] == init[i];
      }
    } else {
      assert xs[0] == Highest(xs);
    }
  }

  lemma {:induction false} LowestBounds(xs: seq<Price>)
    requires |xs| > 0
    ensures forall i :: 0 <= i < |xs| ==> Lowest(xs) <= xs[i]
    ensures exists i :: 0 <= i < |xs| && xs[i] == Lowest(xs)
  {
    if |xs| > 1 {
      var init := xs[..|xs| - 1];
      LowestBounds(init);
      var k :| 0 <= k < |init| && init[k] == Lowest(init);
      assert xs[k] == init[k];
      if xs[|xs| - 1] < Lowest(init) {
        assert xs[|xs| - 1] == Lowest(xs);
      } else {
        assert xs[k] == Lowest(xs);
      }
      forall i | 0 <= i < |xs| - 1 ensures Lowest(xs) <= xs[i] {
        assert xs[i] == init[i];
      }
    } else {
      assert xs[0] == Lowest(xs);
    }
  }

  function Bids(qs: seq<Quote>): (r: seq<Price>)
    ensures |r| == |qs| && forall i :: 0 <= i < |qs| ==> r[i] == qs[i].bid
  {
    seq(|qs|, i requires 0 <= i < |qs| => qs[i].bid)
  }

  function Asks(qs: seq<Quote>): (r: seq<Price>)
    ensures |r| == |qs| && forall i :: 0 <= i < |qs| ==> r[i] == qs[i].ask
  {
    seq(|qs|, i requires 0 <= i < |qs| => qs[i].ask)
  }

  /** The candle a run of quotes should produce: open at the first quote, high and low at the
      extremes of the run, close at the last quote. */
  function Aggregate(boundary: Time, qs: seq<Quote>): Candle
    requires |qs| > 0
  {
    Candle(boundary, qs[0].bid, qs[0].ask,
      Highest(Bids(qs)), Highest(Asks(qs)), Lowest(Bids(qs)), Lowest(Asks(qs)),
      qs[|qs| - 1].bid, qs[|qs| - 1].ask)
  }

  /** Ticks that all fall in one new boundary window build exactly one candle, and it is the
      aggregate of the run: the open stays at the first tick while high, low and close follow
      the stream's max, min and last. */
  lemma {:induction false} AbsorbRunAggregates(candles: seq<Candle>, boundary: Time, qs: seq<Quote>)
    requires |qs| > 0
    requires |candles| == 0 || candles[|candles| - 1].time != boundary
    ensures AbsorbRun(candles, boundary, qs) == candles + [Aggregate(boundary, qs)]
  {
    var n := |qs|;
    if n > 1 {
      var init := qs[..n - 1];
      AbsorbRunAggregates(candles, boundary, init);
      assert Bids(qs)[..n - 1] == Bids(init);
      assert Asks(qs)[..n - 1] == Asks(init);
      assert (candles + [Aggregate(boundary, init)])[..|candles|] == candles;
    }
  }

  /** The candle list of one timeframe; a missing list reads as empty, as `defaultdict(list)` does. */
  function Series(ohlc: map<Timeframe, seq<Candle>>, tf: Timeframe): seq<Candle>
  {
    if tf in ohlc then ohlc[tf] else []
  }

  /** The boundaries as the pass over the timeframes sees them: a tick first records its own
      time under the tick timeframe. */
  function Recorded(candleTime: map<Timeframe, Time>, e: Event): map<Timeframe, Time>
  {
    if e.TickPrice? then candleTime[Tick := e.time] else candleTime
  }

  /** The time the pass floors: the tick's own time, or the shifted wall clock for any other event. */
  function NowOf(e: Event, wallNow: Time): Time
  {
    if e.TickPrice? then e.time else wallNow
  }

  /** The candle lists after a pass over `ps`: a tick is absorbed into every visited timeframe
      that already had a boundary; any other event leaves the lists alone. */
  function AbsorbTick(ohlc: map<Timeframe, seq<Candle>>, ps: seq<Timeframe>, recorded: map<Timeframe, Time>,
                      e: Event, now: Time, floor: CandleTimeFn): map<Timeframe, seq<Candle>>
  {
    if ps == [] || !e.TickPrice? then ohlc
    else
      var before := AbsorbTick(ohlc, ps[..|ps| - 1], recorded, e, now, floor);
      var tf := ps[|ps| - 1];
      if tf in recorded then before[tf := Absorb(Series(before, tf), floor(now, tf), e.bid, e.ask)]
      else before
  }

  /** A non-tick event never changes the candle lists. */
  lemma HeartbeatKeepsCandles(ohlc: map<Timeframe, seq<Candle>>, ps: seq<Timeframe>, recorded: map<Timeframe, Time>,
                              e: Event, now: Time, floor: CandleTimeFn)
    requires !e.TickPrice?
    ensures AbsorbTick(ohlc, ps, recorded, e, now, floor) == ohlc
  {
  }

  /** Per timeframe: only timeframes visited with a recorded boundary, and only by a tick, see
      their candle list change, and then by exactly one `Absorb`. */
  lemma {:induction false} AbsorbTickAt(ohlc: map<Timeframe, seq<Candle>>, ps: seq<Timeframe>, recorded: map<Timeframe, Time>,
                     e: Event, now: Time, floor: CandleTimeFn, tf: Timeframe)
    requires Distinct(ps)
    ensures Series(AbsorbTick(ohlc, ps, recorded, e, now, floor), tf)
         == if e.TickPrice? && tf in ps && tf in recorded
            then Absorb(Series(ohlc, tf), floor(now, tf), e.bid, e.ask)
            else Series(ohlc, tf)
  {
    if ps != [] && e.TickPrice? {
      var init := ps[..|ps| - 1];
      assert ps == init + [ps[|ps| - 1]];
      assert Distinct(init);
      AbsorbTickAt(ohlc, init, recorded, e, now, floor, tf);
      if tf != ps[|ps| - 1] {
        AbsorbTickAt(ohlc, init, recorded, e, now, floor, tf);
      } else {
        assert tf !in init;
        AbsorbTickAt(ohlc, init, recorded, e, now, floor, tf);
      }
    }
  }

  lemma AbsorbTickStep(ohlc: map<Timeframe, seq<Candle>>, ps: seq<Timeframe>, i: nat, recorded: map<Timeframe, Time>,
                       e: Event, now: Time, floor: CandleTimeFn)
    requires i < |ps|
    ensures var tf := ps[i];
      var before := AbsorbTick(ohlc, ps[..i], recorded, e, now, floor);
      AbsorbTick(ohlc, ps[..i + 1], recorded, e, now, floor)
        == if e.TickPrice? && tf in recorded
           then before[tf := Absorb(Series(before, tf), floor(now, tf), e.bid, e.ask)]
           else before
  {
    assert ps[..i + 1][..i] == ps[..i];
  }

  /** One timeframe of the pass keeps the pass's invariant: boundaries, candle lists and queue
      are those of the pass over the visited prefix. */
  lemma PassInvariantStep(ps: seq<Timeframe>, i: nat, recorded: map<Timeframe, Time>,
                          ohlc0: map<Timeframe, seq<Candle>>, items0: seq<Event>,
                          e: Event, now: Time, tz: int, floor: CandleTimeFn,
                          ct: map<Timeframe, Time>, ohlc: map<Timeframe, seq<Candle>>, items: seq<Event>,
                          ct': map<Timeframe, Time>, ohlc': map<Timeframe, seq<Candle>>, items': seq<Event>)
    requires Distinct(ps) && i < |ps|
    requires ct == Advance(recorded, ps[..i], now, floor)
    requires ohlc == AbsorbTick(ohlc0, ps[..i], recorded, e, now, floor)
    requires items == items0 + Crossings(ps[..i], recorded, now, tz, floor)
    requires ct' == ct[ps[i] := floor(now, ps[i])]
    requires ohlc' == if e.TickPrice? && ps[i] in ct
      then ohlc[ps[i] := Absorb(Series(ohlc, ps[i]), floor(now, ps[i]), e.bid, e.ask)]
      else ohlc
    requires items' == items
      + if Crosses(ct, ps[i], floor(now, ps[i]))
        then [TimeFrame(ps[i], floor(now, ps[i]), ct[ps[i]], tz, now, 0)] else []
    ensures ct' == Advance(recorded, ps[..i + 1], now, floor)
    ensures ohlc' == AbsorbTick(ohlc0, ps[..i + 1], recorded, e, now, floor)
    ensures items' == items0 + Crossings(ps[..i + 1], recorded, now, tz, floor)
  {
    AdvanceStep(recorded, ps, i, now, floor);
    CrossingsStep(ps, i, recorded, now, tz, floor);
    PassStep(ps, i, recorded, now, floor);
    AbsorbTickStep(ohlc0, ps, i, recorded, e, now, floor);
  }

  /** The aggregator's view of the runner: the recorded boundaries, the candle lists and the queue. */
  class CandleContext {
    var candleTime: map<Timeframe, Time>
    var ohlc: map<Timeframe, seq<Candle>>
    const queue: EventQueue

    constructor (queue: EventQueue)
      ensures candleTime == map[] && ohlc == map[] && this.queue == queue
    {
      candleTime := map[];
      ohlc := map[];
      this.queue := queue;
    }
  }

  class BacktestTickPriceHandler {
    const timezone: int

    constructor (timezone: int)
      ensures this.timezone == timezone
    {
      this.timezone := timezone;
    }

    /** Updates the candle list of `tf` with the tick `e`; the boundaries are untouched. */
    method TickToOhlc(tf: Timeframe, boundary: Time, e: Event, context: CandleContext)
      requires e.TickPrice?
      modifies context
      ensures context.ohlc == old(context.ohlc)[tf := Absorb(Series(old(context.ohlc), tf), boundary, e.bid, e.ask)]
      ensures context.candleTime == old(context.candleTime)
    {
      var series := Series(context.ohlc, tf);
      if |series| == 0 {
        series := series + [NewCandle(boundary, e.bid, e.ask)];
      } else {
        var ohlc := series[|series| - 1];
        if boundary != ohlc.time {
          series := series + [NewCandle(boundary, e.bid, e.ask)];
        } else {
          if e.ask > ohlc.highAsk {
            ohlc := ohlc.(highAsk := e.ask);
          }
          if e.bid > ohlc.highBid {
            ohlc := ohlc.(highBid := e.bid);
          }
          if e.ask < ohlc.lowAsk {
            ohlc := ohlc.(lowAsk := e.ask);
          }
          if e.bid < ohlc.lowBid {
            ohlc := ohlc.(lowBid := e.bid);
          }
          ohlc := ohlc.(closeBid := e.bid, closeAsk := e.ask);
          series := series[..|series| - 1] + [ohlc];
        }
      }
      context.ohlc := context.ohlc[tf := series];
    }

    /** The body of the pass for one timeframe: on warm-up only record the boundary; otherwise
        absorb a tick first, then, if the boundary moved, record it and announce the crossing. */
    method VisitTimeframe(tf: Timeframe, boundary: Time, e: Event, now: Time, context: CandleContext)
      modifies context, context.queue
      ensures context.candleTime == old(context.candleTime)[tf := boundary]
      ensures context.ohlc == if e.TickPrice? && tf in old(context.candleTime)
        then old(context.ohlc)[tf := Absorb(Series(old(context.ohlc), tf), boundary, e.bid, e.ask)]
        else old(context.ohlc)
      ensures context.queue.items == old(context.queue.items)
        + if Crosses(old(context.candleTime), tf, boundary)
          then [TimeFrame(tf, boundary, old(context.candleTime)[tf], timezone, now, 0)] else []
    {
      if tf !in context.candleTime {
        context.candleTime := context.candleTime[tf := boundary];
        return;
      }
      if e.TickPrice? {
        TickToOhlc(tf, boundary, e, context);
      }
      if context.candleTime[tf] != boundary {
        var crossing := TimeFrame(tf, boundary, context.candleTime[tf], timezone, now, 0);
        context.candleTime := context.candleTime[tf := boundary];
        context.queue.Put(crossing);
      } else {
        assert context.candleTime == context.candleTime[tf := boundary];
      }
    }

    /** One tick or heartbeat: for each timeframe in `PeriodChoices` order, record the boundary
        on warm-up, otherwise absorb a tick into the candles and announce a moved boundary.
        `wallNow` is the wall clock shifted by `timezone` hours, used for non-tick events. */
    method Process(e: Event, context: CandleContext, wallNow: Time, floor: CandleTimeFn)
      modifies context, context.queue
      ensures context.candleTime
        == Advance(Recorded(old(context.candleTime), e), PeriodChoices, NowOf(e, wallNow), floor)
      ensures context.ohlc
        == AbsorbTick(old(context.ohlc), PeriodChoices, Recorded(old(context.candleTime), e), e, NowOf(e, wallNow), floor)
      ensures context.queue.items
        == old(context.queue.items) + Crossings(PeriodChoices, Recorded(old(context.candleTime), e), NowOf(e, wallNow), timezone, floor)
    {
      PeriodChoicesDistinct();
      var now := wallNow;
      if e.TickPrice? {
        context.candleTime := context.candleTime[Tick := e.time];
        now := e.time;
      }
      Pass(PeriodChoices, e, now, floor, context);
    }

    /** The pass over the timeframes `tfs`, in order, from the boundaries recorded so far. */
    method Pass(tfs: seq<Timeframe>, e: Event, now: Time, floor: CandleTimeFn, context: CandleContext)
      requires Distinct(tfs)
      modifies context, context.queue
      ensures context.candleTime == Advance(old(context.candleTime), tfs, now, floor)
      ensures context.ohlc == AbsorbTick(old(context.ohlc), tfs, old(context.candleTime), e, now, floor)
      ensures context.queue.items == old(context.queue.items) + Crossings(tfs, old(context.candleTime), now, timezone, floor)
    {
      ghost var recorded := context.candleTime;
      ghost var ohlc0 := context.ohlc;
      for i := 0 to |tfs|
        invariant context.candleTime == Advance(recorded, tfs[..i], now, floor)
        invariant context.ohlc == AbsorbTick(ohlc0, tfs[..i], recorded, e, now, floor)
        invariant context.queue.items == old(context.queue.items) + Crossings(tfs[..i], recorded, now, timezone, floor)
      {
        var tf := tfs[i];
        ghost var ct, oh, items := context.candleTime, context.ohlc, context.queue.items;
        VisitTimeframe(tf, floor(now, tf), e, now, context);
        PassInvariantStep(tfs, i, recorded, ohlc0, old(context.queue.items), e, now, timezone, floor,
          ct, oh, items, context.candleTime, context.ohlc, context.queue.items);
      }
      assert tfs[..|tfs|] == tfs;
    }
  }
}

/** Timeframe boundary tracking (handler/__init__.py, TimeFramePublisher) and the
    boundary-crossing specification it shares with the backtest aggregator. */
module Timeframes {
  import opened Events

  lemma PeriodChoicesDistinct()
    ensures Distinct(PeriodChoices)
  {
  }

  /** A timeframe crosses a boundary when a boundary is recorded for it and the new one differs. */
  predicate Crosses(recorded: map<Timeframe, Time>, tf: Timeframe, boundary: Time)
  {
    tf in recorded && recorded[tf] != boundary
  }

  /** The `TimeFrameEvent(timeframe, new, previous, timezone, now)` announcing a crossing. */
  function BoundaryEvent(recorded: map<Timeframe, Time>, tf: Timeframe, now: Time, tz: int, floor: CandleTimeFn): (e: Event)
    requires tf in recorded
    ensures e.TimeFrame? && e.timeframe == tf && e.tried == 0
    ensures e.current == floor(now, tf) && e.previous == recorded[tf] && e.time == now && e.timezone == tz
  {
    TimeFrame(tf, floor(now, tf), recorded[tf], tz, now, 0)
  }

  /** The events one pass over `ps` enqueues, given the boundaries recorded before the pass. */
  function Crossings(ps: seq<Timeframe>, recorded: map<Timeframe, Time>, now: Time, tz: int, floor: CandleTimeFn): seq<Event>
  {
    if ps == [] then []
    else
      var tf := ps[|ps| - 1];
      Crossings(ps[..|ps| - 1], recorded, now, tz, floor)
        + (if Crosses(recorded, tf, floor(now, tf)) then [BoundaryEvent(recorded, tf, now, tz, floor)] else [])
  }

  /** The boundaries after a pass over `ps`: every visited timeframe holds the floor of `now`. */
  function Advance(recorded: map<Timeframe, Time>, ps: seq<Timeframe>, now: Time, floor: CandleTimeFn): (r: map<Timeframe, Time>)
    ensures r.Keys == recorded.Keys + set tf | tf in ps
  {
    recorded + map tf | tf in ps :: floor(now, tf)
  }

  lemma AdvanceAt(recorded: map<Timeframe, Time>, ps: seq<Timeframe>, now: Time, floor: CandleTimeFn, tf: Timeframe)
    ensures tf in ps ==> Advance(recorded, ps, now, floor)[tf] == floor(now, tf)
    ensures tf !in ps && tf in recorded ==> Advance(recorded, ps, now, floor)[tf] == recorded[tf]
  {
  }

  /** Every event of a pass is the boundary event of a crossing timeframe of `ps`, and every
      crossing timeframe of `ps` has its event in the pass. */
  lemma {:induction false} CrossingsExactly(ps: seq<Timeframe>, recorded: map<Timeframe, Time>, now: Time, tz: int, floor: CandleTimeFn)
    ensures forall e :: e in Crossings(ps, recorded, now, tz, floor) ==>
      e.TimeFrame? && e.timeframe in ps && Crosses(recorded, e.timeframe, floor(now, e.timeframe))
      && e == BoundaryEvent(recorded, e.timeframe, now, tz, floor)
    ensures forall tf :: tf in ps && Crosses(recorded, tf, floor(now, tf)) ==>
      BoundaryEvent(recorded, tf, now, tz, floor) in Crossings(ps, recorded, now, tz, floor)
  {
    if ps != [] {
      var init := ps[..|ps| - 1];
      CrossingsExactly(init, recorded, now, tz, floor);
      assert ps == init + [ps[|ps| - 1]];
    }
  }

  /** `x` occurs in `ps` strictly before `y`. */
  ghost predicate Before(ps: seq<Timeframe>, x: Timeframe, y: Timeframe)
  {
    exists a, b :: 0 <= a < b < |ps| && ps[a] == x && ps[b] == y
  }

  /** Both are boundary events and the first one's timeframe comes first in `ps`. */
  ghost predicate AnnouncedInOrder(ps: seq<Timeframe>, e1: Event, e2: Event)
  {
    e1.TimeFrame? && e2.TimeFrame? && Before(ps, e1.timeframe, e2.timeframe)
  }

  /** The events are boundary events whose timeframes follow the order of `ps`. */
  ghost predicate FramesInOrder(c: seq<Event>, ps: seq<Timeframe>)
  {
    forall i, j :: 0 <= i < j < |c| ==> AnnouncedInOrder(ps, c[i], c[j])
  }

  /** Events come in the order of `ps`. */
  lemma {:induction false} CrossingsInOrder(ps: seq<Timeframe>, recorded: map<Timeframe, Time>, now: Time, tz: int, floor: CandleTimeFn)
    ensures FramesInOrder(Crossings(ps, recorded, now, tz, floor), ps)
  {
    if ps != [] {
      var init := ps[..|ps| - 1];
      var tf := ps[|ps| - 1];
      var c0 := Crossings(init, recorded, now, tz, floor);
      var c := Crossings(ps, recorded, now, tz, floor);
      CrossingsInOrder(init, recorded, now, tz, floor);
      CrossingsExactly(init, recorded, now, tz, floor);
      forall i, j | 0 <= i < j < |c|
        ensures AnnouncedInOrder(ps, c[i], c[j])
      {
        if j < |c0| {
          assert c[i] == c0[i] && c[j] == c0[j];
          assert AnnouncedInOrder(init, c0[i], c0[j]);
          var a, b :| 0 <= a < b < |init| && init[a] == c0[i].timeframe && init[b] == c0[j].timeframe;
          assert ps[a] == init[a] && ps[b] == init[b];
        } else {
          assert c[i] == c0[i] && c0[i] in c0;
          var a :| 0 <= a < |init| && init[a] == c0[i].timeframe;
          assert ps[a] == init[a];
          assert c[j] == BoundaryEvent(recorded, tf, now, tz, floor);
          assert ps[|ps| - 1] == c[j].timeframe;
        }
      }
    }
  }

  /** No two events of `c` announce the same timeframe. */
  ghost predicate AtMostOnePerFrame(c: seq<Event>)
  {
    forall i, j :: 0 <= i < j < |c| ==> DifferentFrames(c[i], c[j])
  }

  ghost predicate DifferentFrames(e1: Event, e2: Event)
  {
    e1.TimeFrame? && e2.TimeFrame? && e1.timeframe != e2.timeframe
  }

  lemma BeforeDistinct(ps: seq<Timeframe>, x: Timeframe, y: Timeframe)
    requires Distinct(ps) && Before(ps, x, y)
    ensures x != y
  {
  }

  lemma InOrderAt(c: seq<Event>, ps: seq<Timeframe>, i: int, j: int)
    requires FramesInOrder(c, ps) && 0 <= i < j < |c|
    ensures AnnouncedInOrder(ps, c[i], c[j])
  {
  }

  /** With distinct timeframes a pass emits at most one event per timeframe. */
  lemma CrossingsDistinctFrames(ps: seq<Timeframe>, recorded: map<Timeframe, Time>, now: Time, tz: int, floor: CandleTimeFn)
    requires Distinct(ps)
    ensures |Crossings(ps, recorded, now, tz, floor)| <= |ps|
    ensures AtMostOnePerFrame(Crossings(ps, recorded, now, tz, floor))
  {
    var c := Crossings(ps, recorded, now, tz, floor);
    CrossingsInOrder(ps, recorded, now, tz, floor);
    CrossingsLength(ps, recorded, now, tz, floor);
    forall i, j | 0 <= i < j < |c|
      ensures DifferentFrames(c[i], c[j])
    {
      InOrderAt(c, ps, i, j);
      BeforeDistinct(ps, c[i].timeframe, c[j].timeframe);
    }
    assert AtMostOnePerFrame(c);
  }

  lemma {:induction false} CrossingsLength(ps: seq<Timeframe>, recorded: map<Timeframe, Time>, now: Time, tz: int, floor: CandleTimeFn)
    ensures |Crossings(ps, recorded, now, tz, floor)| <= |ps|
  {
    if ps != [] {
      CrossingsLength(ps[..|ps| - 1], recorded, now, tz, floor);
    }
  }

  /** Once every timeframe of `ps` holds the floor of `now`, a pass with the same `now` emits nothing. */
  lemma {:induction false} NoCrossingsAtSameTime(ps: seq<Timeframe>, recorded: map<Timeframe, Time>, now: Time, tz: int, floor: CandleTimeFn)
    requires forall tf :: tf in ps && tf in recorded ==> recorded[tf] == floor(now, tf)
    ensures Crossings(ps, recorded, now, tz, floor) == []
  {
    if ps != [] {
      NoCrossingsAtSameTime(ps[..|ps| - 1], recorded, now, tz, floor);
    }
  }

  /** A second pass with the same `now` after a first one enqueues nothing. */
  lemma SecondPassQuiet(ps: seq<Timeframe>, recorded: map<Timeframe, Time>, now: Time, tz: int, floor: CandleTimeFn)
    ensures Crossings(ps, Advance(recorded, ps, now, floor), now, tz, floor) == []
  {
    NoCrossingsAtSameTime(ps, Advance(recorded, ps, now, floor), now, tz, floor);
  }

  lemma AdvanceStep(recorded: map<Timeframe, Time>, ps: seq<Timeframe>, i: nat, now: Time, floor: CandleTimeFn)
    requires i < |ps|
    ensures Advance(recorded, ps[..i + 1], now, floor)
         == Advance(recorded, ps[..i], now, floor)[ps[i] := floor(now, ps[i])]
  {
    assert ps[..i + 1] == ps[..i] + [ps[i]];
  }

  lemma CrossingsStep(ps: seq<Timeframe>, i: nat, recorded: map<Timeframe, Time>, now: Time, tz: int, floor: CandleTimeFn)
    requires i < |ps|
    ensures Crossings(ps[..i + 1], recorded, now, tz, floor)
         == Crossings(ps[..i], recorded, now, tz, floor)
            + (if Crosses(recorded, ps[i], floor(now, ps[i])) then [BoundaryEvent(recorded, ps[i], now, tz, floor)] else [])
  {
    assert ps[..i + 1][..i] == ps[..i];
  }

  /** What a pass over `ps` knows at its i-th timeframe: it is not visited yet, so its
      current boundary is still the recorded one. */
  lemma PassStep(ps: seq<Timeframe>, i: nat, recorded: map<Timeframe, Time>, now: Time, floor: CandleTimeFn)
    requires Distinct(ps) && i < |ps|
    ensures ps[i] !in ps[..i]
    ensures ps[i] in Advance(recorded, ps[..i], now, floor) <==> ps[i] in recorded
    ensures ps[i] in recorded ==> Advance(recorded, ps[..i], now, floor)[ps[i]] == recorded[ps[i]]
  {
    AdvanceAt(recorded, ps[..i], now, floor, ps[i]);
  }

  /** One timeframe of the publisher's pass keeps its invariant: boundaries and queue are those
      of the pass over the visited prefix. */
  lemma PublishStep(ps: seq<Timeframe>, i: nat, recorded: map<Timeframe, Time>, items0: seq<Event>,
                    now: Time, tz: int, floor: CandleTimeFn,
                    ct: map<Timeframe, Time>, items: seq<Event>, ct': map<Timeframe, Time>, items': seq<Event>)
    requires Distinct(ps) && i < |ps| && ps[i] in recorded
    requires ct == Advance(recorded, ps[..i], now, floor)
    requires items == items0 + Crossings(ps[..i], recorded, now, tz, floor)
    requires ct' == ct[ps[i] := floor(now, ps[i])]
    requires items' == items
      + if Crosses(ct, ps[i], floor(now, ps[i]))
        then [TimeFrame(ps[i], floor(now, ps[i]), ct[ps[i]], tz, now, 0)] else []
    ensures ps[i] in ct
    ensures ct' == Advance(recorded, ps[..i + 1], now, floor)
    ensures items' == items0 + Crossings(ps[..i + 1], recorded, now, tz, floor)
  {
    AdvanceStep(recorded, ps, i, now, floor);
    CrossingsStep(ps, i, recorded, now, tz, floor);
    PassStep(ps, i, recorded, now, floor);
  }

  /** Holds the boundaries; `TimeFramePublisher.candle_time` is a class-level dict, so every
      publisher refers to the same table. */
  class BoundaryTable {
    var candleTime: map<Timeframe, Time>

    constructor ()
      ensures candleTime == map[]
    {
      candleTime := map[];
    }
  }

  class TimeFramePublisher {
    const timezone: int
    const table: BoundaryTable

    /** Records the current boundary of every timeframe; `now` is the wall clock already
        shifted by `timezone` hours. */
    constructor (timezone: int, table: BoundaryTable, now: Time, floor: CandleTimeFn)
      modifies table
      ensures this.timezone == timezone && this.table == table
      ensures table.candleTime == Advance(old(table.candleTime), PeriodChoices, now, floor)
    {
      this.timezone := timezone;
      this.table := table;
      new;
      var i := 0;
      while i < |PeriodChoices|
        invariant 0 <= i <= |PeriodChoices|
        invariant table.candleTime == Advance(old(table.candleTime), PeriodChoices[..i], now, floor)
      {
        AdvanceStep(old(table.candleTime), PeriodChoices, i, now, floor);
        table.candleTime := table.candleTime[PeriodChoices[i] := floor(now, PeriodChoices[i])];
        i := i + 1;
      }
    }

    /** The body of the pass for one timeframe: announce and record a moved boundary. */
    method Visit(tf: Timeframe, boundary: Time, now: Time, context: EventQueue)
      requires tf in table.candleTime
      modifies table, context
      ensures table.candleTime == old(table.candleTime)[tf := boundary]
      ensures context.items == old(context.items)
        + if Crosses(old(table.candleTime), tf, boundary)
          then [TimeFrame(tf, boundary, old(table.candleTime)[tf], timezone, now, 0)] else []
    {
      if table.candleTime[tf] != boundary {
        context.Put(TimeFrame(tf, boundary, table.candleTime[tf], timezone, now, 0));
        table.candleTime := table.candleTime[tf := boundary];
      } else {
        assert table.candleTime == table.candleTime[tf := boundary];
      }
    }

    /** Announces every timeframe whose boundary moved, in `PeriodChoices` order, and records
        the new boundaries. */
    method Process(now: Time, context: EventQueue, floor: CandleTimeFn)
      requires forall tf :: tf in PeriodChoices ==> tf in table.candleTime
      modifies table, context
      ensures table.candleTime == Advance(old(table.candleTime), PeriodChoices, now, floor)
      ensures context.items == old(context.items) + Crossings(PeriodChoices, old(table.candleTime), now, timezone, floor)
    {
      PeriodChoicesDistinct();
      ghost var recorded := table.candleTime;
      var i := 0;
      while i < |PeriodChoices|
        invariant 0 <= i <= |PeriodChoices|
        invariant table.candleTime == Advance(recorded, PeriodChoices[..i], now, floor)
        invariant context.items == old(context.items) + Crossings(PeriodChoices[..i], recorded, now, timezone, floor)
      {
        var tf := PeriodChoices[i];
        ghost var ct, items := table.candleTime, context.items;
        Visit(tf, floor(now, tf), now, context);
        PublishStep(PeriodChoices, i, recorded, old(context.items), now, timezone, floor,
          ct, items, table.candleTime, context.items);
        i := i + 1;
      }
      assert PeriodChoices[..i] == PeriodChoices;
    }
  }
}

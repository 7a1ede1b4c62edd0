/** The backtest runner (backtest/runner.py): replays a tick file through the handlers,
    reading its own queue first and the next file line only when the queue is empty. */
module BacktestRunning {
  import opened Events
  import opened Dispatch
  import opened RunnerBase

  /** `str.split(sep)`: the pieces between separators, at least one. */
  function Split(s: string, sep: char): (r: seq<string>)
    ensures |r| >= 1
    ensures forall i :: 0 <= i < |r| ==> sep !in r[i]
  {
    if s == [] then [[]]
    else
      var rest := Split(s[1..], sep);
      if s[0] == sep then [[]] + rest else [[s[0]] + rest[0]] + rest[1..]
  }

  /** `sep.join(fields)`. */
  function Join(fields: seq<string>, sep: char): string
    requires |fields| >= 1
  {
    if |fields| == 1 then fields[0] else fields[0] + [sep] + Join(fields[1..], sep)
  }

  /** Joining the pieces of a split gives back the line. */
  lemma {:induction false} JoinSplit(s: string, sep: char)
    ensures Join(Split(s, sep), sep) == s
  {
    if s != [] {
      var rest := Split(s[1..], sep);
      JoinSplit(s[1..], sep);
      if s[0] == sep {
        assert Split(s, sep)[1..] == rest;
        assert s == [s[0]] + s[1..];
      } else {
        var r := Split(s, sep);
        if |rest| == 1 {
          assert r == [[s[0]] + rest[0]];
        } else {
          assert r[1..] == rest[1..];
          assert Join(rest, sep) == rest[0] + [sep] + Join(rest[1..], sep);
        }
      }
    }
  }

  /** Splitting a join of separator-free fields gives back the fields. */
  lemma {:induction false} SplitJoin(fields: seq<string>, sep: char)
    requires |fields| >= 1
    requires forall i :: 0 <= i < |fields| ==> sep !in fields[i]
    ensures Split(Join(fields, sep), sep) == fields
    decreases |fields|, |fields[0]|
  {
    var f := fields[0];
    if f == [] {
      if |fields| > 1 {
        var tail := Join(fields[1..], sep);
        SplitJoin(fields[1..], sep);
        assert Join(fields, sep) == [sep] + tail;
        assert ([sep] + tail)[1..] == tail;
        assert fields == [[]] + fields[1..];
      }
    } else {
      var shorter := fields[0 := f[1..]];
      SplitJoin(shorter, sep);
      assert forall i :: 0 <= i < |shorter| ==> sep !in shorter[i];
      if |fields| == 1 {
        assert Join(fields, sep) == f;
        assert f[1..] == Join(shorter, sep);
      } else {
        assert shorter[1..] == fields[1..];
        assert Join(fields, sep) == [f[0]] + Join(shorter, sep);
      }
      assert Join(fields, sep)[1..] == Join(shorter, sep);
      assert f == [f[0]] + f[1..];
    }
  }

  /** The external conversions a line goes through: `get_mt4_symbol`, `str_to_datetime` and
      `Decimal`; the last two fail (raise) on text they cannot read. */
  datatype Parsers = Parsers(symbol: string -> string, time: string -> Option<Time>, decimal: string -> Option<Price>)

  /** A line read from the data file becomes a tick, or raises: too few fields or a field
      that does not parse. */
  datatype Parsed = Parsed(event: Event) | Malformed

  /** `line_to_event`: fields 0 to 3 of the comma split are instrument, time, bid and ask. */
  function LineToEvent(line: string, p: Parsers): (r: Parsed)
    ensures |Split(line, ',')| < 4 ==> r.Malformed?
    ensures r.Parsed? <==> |Split(line, ',')| >= 4 && p.time(Split(line, ',')[1]).Some?
                           && p.decimal(Split(line, ',')[2]).Some? && p.decimal(Split(line, ',')[3]).Some?
    ensures r.Parsed? ==> r.event.TickPrice? && r.event.tried == 0
  {
    var fields := Split(line, ',');
    if |fields| < 4 then Malformed
    else
      match (p.time(fields[1]), p.decimal(fields[2]), p.decimal(fields[3]))
      case (Some(t), Some(bid), Some(ask)) => Parsed(TickPrice(p.symbol(fields[0]), t, bid, ask, 0))
      case _ => Malformed
  }

  /** A line made of four comma-free fields reads back as the tick they describe, whatever
      follows in further fields. */
  lemma LineOfFields(sym: string, time: string, bid: string, ask: string, extra: seq<string>, p: Parsers)
    requires forall f :: f in [sym, time, bid, ask] + extra ==> ',' !in f
    requires p.time(time).Some? && p.decimal(bid).Some? && p.decimal(ask).Some?
    ensures LineToEvent(Join([sym, time, bid, ask] + extra, ','), p)
            == Parsed(TickPrice(p.symbol(sym), p.time(time).value, p.decimal(bid).value, p.decimal(ask).value, 0))
  {
    var fields := [sym, time, bid, ask] + extra;
    assert forall i :: 0 <= i < |fields| ==> fields[i] in fields;
    SplitJoin(fields, ',');
  }

  /** What `yield_event` gives the run loop. */
  datatype Fetched = Fetched(event: Event) | NoEvent | Crash

  /** One call `loop_handlers` makes: a strategy handed the event, a handler handed the event,
      or an account's `update_tick`. */
  datatype Call = StrategyCall(strategy: Handler) | HandlerCall(handler: Handler) | TickUpdate(account: nat)

  function StrategyCalls(hs: seq<Handler>): seq<Call>
  {
    if hs == [] then [] else StrategyCalls(hs[..|hs| - 1]) + [StrategyCall(hs[|hs| - 1])]
  }

  function HandlerCalls(hs: seq<Handler>): seq<Call>
  {
    if hs == [] then [] else HandlerCalls(hs[..|hs| - 1]) + [HandlerCall(hs[|hs| - 1])]
  }

  function TickUpdates(accounts: seq<nat>): seq<Call>
  {
    if accounts == [] then [] else TickUpdates(accounts[..|accounts| - 1]) + [TickUpdate(accounts[|accounts| - 1])]
  }

  /** The calls of one `loop_handlers`, in the order they are made. */
  function LoopTrace(strategies: seq<Handler>, handlers: seq<Handler>, updated: seq<nat>): seq<Call>
  {
    StrategyCalls(strategies) + HandlerCalls(handlers) + TickUpdates(updated)
  }

  /** Strategy calls are phase 0, handler calls 1 and tick updates 2. */
  function Phase(c: Call): nat
  {
    match c
    case StrategyCall(_) => 0
    case HandlerCall(_) => 1
    case TickUpdate(_) => 2
  }

  /** No call comes after a call of a later phase. */
  predicate Phased(t: seq<Call>)
  {
    forall i, j :: 0 <= i < j < |t| ==> Phase(t[i]) <= Phase(t[j])
  }

  lemma {:induction false} StrategyCallsPhase(hs: seq<Handler>)
    ensures |StrategyCalls(hs)| == |hs|
    ensures forall k :: 0 <= k < |hs| ==> StrategyCalls(hs)[k] == StrategyCall(hs[k])
  {
    if hs != [] {
      StrategyCallsPhase(hs[..|hs| - 1]);
    }
  }

  lemma {:induction false} HandlerCallsPhase(hs: seq<Handler>)
    ensures |HandlerCalls(hs)| == |hs|
    ensures forall k :: 0 <= k < |hs| ==> HandlerCalls(hs)[k] == HandlerCall(hs[k])
  {
    if hs != [] {
      HandlerCallsPhase(hs[..|hs| - 1]);
    }
  }

  lemma {:induction false} TickUpdatesPhase(accounts: seq<nat>)
    ensures |TickUpdates(accounts)| == |accounts|
    ensures forall k :: 0 <= k < |accounts| ==> TickUpdates(accounts)[k] == TickUpdate(accounts[k])
  {
    if accounts != [] {
      TickUpdatesPhase(accounts[..|accounts| - 1]);
    }
  }

  /** One more strategy looked at adds its call exactly when it passes the test. */
  lemma StrategyCallsStep(ss: seq<Handler>, i: nat, p: Handler -> bool)
    requires i < |ss|
    ensures StrategyCalls(Filter(ss[..i + 1], p))
            == StrategyCalls(Filter(ss[..i], p)) + (if p(ss[i]) then [StrategyCall(ss[i])] else [])
  {
    assert ss[..i + 1][..i] == ss[..i];
    var kept := Filter(ss[..i], p);
    if p(ss[i]) {
      assert (kept + [ss[i]])[..|kept|] == kept;
    } else {
      assert kept + [] == kept;
    }
  }

  /** Every strategy call comes before every handler call, and every tick update after both;
      within each phase the calls keep the order of their lists. */
  lemma {:induction false} LoopTracePhased(strategies: seq<Handler>, handlers: seq<Handler>, updated: seq<nat>)
    ensures Phased(LoopTrace(strategies, handlers, updated))
    ensures var t := LoopTrace(strategies, handlers, updated);
            |t| == |strategies| + |handlers| + |updated|
            && (forall k :: 0 <= k < |strategies| ==> t[k] == StrategyCall(strategies[k]))
            && (forall k :: 0 <= k < |handlers| ==> t[|strategies| + k] == HandlerCall(handlers[k]))
            && (forall k :: 0 <= k < |updated| ==> t[|strategies| + |handlers| + k] == TickUpdate(updated[k]))
  {
    StrategyCallsPhase(strategies);
    HandlerCallsPhase(handlers);
    TickUpdatesPhase(updated);
    var t := LoopTrace(strategies, handlers, updated);
    var m, n := |strategies|, |strategies| + |handlers|;
    assert forall k :: 0 <= k < |t| ==> Phase(t[k]) == if k < m then 0 else if k < n then 1 else 2;
  }

  class BacktestRunner {
    var handlers: seq<Handler>
    var running: bool
    var halt: bool
    var lineCount: nat
    /** The data file from the read position on, one entry per line as `readline` returns it
        (never empty: the empty string is how `readline` signals the end of the file). */
    var unread: seq<string>
    const accounts: seq<nat>
    const queue: EventQueue

    /** `__init__` with `create_queue`: the data file opened at its start, an empty queue. */
    constructor (file: seq<string>, accounts: seq<nat>, handlers: seq<Handler>)
      requires forall l :: l in file ==> l != ""
      ensures this.handlers == handlers && this.accounts == accounts && unread == file
      ensures lineCount == 0 && !running && !halt
      ensures fresh(queue) && queue.items == []
    {
      this.handlers := handlers;
      this.accounts := accounts;
      unread := file;
      lineCount := 0;
      running := false;
      halt := false;
      queue := new EventQueue();
    }

    /** `strategies`: the handlers that are `StrategyBase` instances, in order. */
    function Strategies(): seq<Handler>
      reads this
    {
      Filter(handlers, (h: Handler) => StrategyClass in h.classes)
    }

    /** `yield_event`: the queue's front event if there is one; otherwise the next file line,
        counted; at the end of the file the runner stops and there is no event. */
    method YieldEvent(p: Parsers) returns (r: Fetched)
      modifies this`lineCount, this`unread, this`running, queue
      ensures old(queue.items) != [] ==>
                r == Fetched(old(queue.items)[0]) && queue.items == old(queue.items)[1..]
                && unread == old(unread) && lineCount == old(lineCount) && running == old(running)
      ensures old(queue.items) == [] && old(unread) != [] ==>
                queue.items == [] && unread == old(unread)[1..] && lineCount == old(lineCount) + 1
                && running == old(running)
                && r == match LineToEvent(old(unread)[0], p) case Parsed(e) => Fetched(e) case Malformed => Crash
      ensures old(queue.items) == [] && old(unread) == [] ==>
                r == NoEvent && !running && queue.items == [] && unread == [] && lineCount == old(lineCount)
      ensures lineCount + |unread| == old(lineCount) + |old(unread)|
    {
      var item := queue.Get();
      if item.Some? {
        return Fetched(item.value);
      }
      if unread != [] {
        var line := unread[0];
        unread := unread[1..];
        lineCount := lineCount + 1;
        match LineToEvent(line, p) {
          case Parsed(e) => r := Fetched(e);
          case Malformed => r := Crash;
        }
        return;
      }
      running := false;
      r := NoEvent;
    }

    /** The first loop of `loop_handlers`: every strategy subscribed to the event's type is
        handed the event, in order, and what it returns is ignored. */
    method CallStrategies(e: Event, process: ProcessFn) returns (calls: seq<Call>)
      ensures calls == StrategyCalls(Filter(Strategies(), (s: Handler) => TypeOf(e) in s.subscription))
    {
      var ss := Strategies();
      calls := [];
      for i := 0 to |ss|
        invariant calls == StrategyCalls(Filter(ss[..i], (s: Handler) => TypeOf(e) in s.subscription))
      {
        StrategyCallsStep(ss, i, (s: Handler) => TypeOf(e) in s.subscription);
        if TypeOf(e) in ss[i].subscription {
          var _ := HandleEvent(ss[i], e, process);
          calls := calls + [StrategyCall(ss[i])];
        }
      }
      assert ss[..|ss|] == ss;
    }

    /** The calls `loop_handlers` makes for `e`, in call order. */
    function Calls(e: Event): seq<Call>
      reads this
    {
      LoopTrace(Filter(Strategies(), (s: Handler) => TypeOf(e) in s.subscription),
                Called(handlers, e),
                if TypeOf(e) == TickPriceType then accounts else [])
    }

    /** The tick step of `loop_handlers`: every account's `update_tick`, in order, for a tick. */
    method UpdateAccounts(e: Event) returns (calls: seq<Call>)
      ensures calls == TickUpdates(if TypeOf(e) == TickPriceType then accounts else [])
    {
      calls := [];
      if TypeOf(e) == TickPriceType {
        for i := 0 to |accounts|
          invariant calls == TickUpdates(accounts[..i])
        {
          assert accounts[..i + 1][..i] == accounts[..i];
          calls := calls + [TickUpdate(accounts[i])];
        }
        assert accounts[..|accounts|] == accounts;
      }
    }

    /** `loop_handlers`: subscribed strategies first (results ignored), then the handlers by
        the wildcard-or-type rule with their results ORed, then every account's tick update
        for a tick, then the bounded retry. The calls come back as one trace in call order. */
    method LoopHandlers(e: Event, process: ProcessFn) returns (trace: seq<Call>)
      modifies queue
      ensures trace == Calls(e)
      ensures queue.items == old(queue.items) + RetryPut(e, RetryRequested(handlers, e, process))
    {
      var strategyCalls := CallStrategies(e, process);
      var handlerCalls, rePut := DispatchPass(handlers, e, process);
      var updates := UpdateAccounts(e);
      trace := strategyCalls + HandlerCalls(handlerCalls) + updates;
      Requeue(queue, e, rePut);
    }

    /** `run` with this runner's `yield_event` (no heartbeat, no sleeping): handle events until
        the file is exhausted and the queue empty, or until a line fails to parse. Every line
        of the file is read exactly once on a clean finish. */
    method Run(process: ProcessFn, p: Parsers) returns (handled: seq<Event>, crashed: bool)
      modifies this`running, this`halt, this`lineCount, this`unread, queue
      ensures !crashed ==> !running && unread == [] && queue.items == []
      ensures !crashed ==> lineCount == old(lineCount) + |old(unread)|
      ensures crashed ==> running && lineCount <= old(lineCount) + |old(unread)|
      ensures old(queue.items) <= handled || crashed
    {
      running := true;
      halt := false;
      handled := [];
      crashed := false;
      ghost var start := queue.items;
      ghost var total := lineCount + |unread|;
      while true
        invariant running && lineCount + |unread| == total
        invariant HandledInOrder(start, handled, queue.items)
        decreases |unread|, Work(queue.items)
      {
        ghost var before := queue.items;
        ghost var lines := unread;
        var r := YieldEvent(p);
        if r.NoEvent? {
          break;
        }
        if r.Crash? {
          crashed := true;
          return;
        }
        var e := r.event;
        ghost var rest := queue.items;
        assert before == [] ==> |unread| < |lines|;
        assert before != [] ==> unread == lines && before == [e] + rest;
        var _ := LoopHandlers(e, process);
        ReplayStep(start, handled, before, rest, e, RetryRequested(handlers, e, process));
        handled := handled + [e];
      }
    }
  }

  /** One event of the replay keeps the handled events in queue order and, when it came off
      the queue, reduces the queued work. */
  lemma ReplayStep(start: seq<Event>, handled: seq<Event>, before: seq<Event>, rest: seq<Event>, e: Event, rePut: bool)
    requires HandledInOrder(start, handled, before)
    requires before == [e] + rest || (before == [] && rest == [])
    ensures HandledInOrder(start, handled + [e], rest + RetryPut(e, rePut))
    ensures before != [] ==> Work(rest + RetryPut(e, rePut)) < Work(before)
  {
    if before != [] {
      WorkStep(before, rePut);
      assert before[1..] == rest;
      HandledInOrderStep(start, handled, e, rest, rest + RetryPut(e, rePut));
    } else {
      assert start <= handled + [e];
    }
  }
}

/** The event bus runner (runner/base.py): registered handlers, the FIFO queue, the
    dispatch-and-retry step, the heartbeat and one pass of the run loop. */
module RunnerBase {
  import opened Events
  import opened Dispatch

  /** The `accounts` constructor argument: a list, or a single account that gets wrapped. */
  datatype Accounts = Many(list: seq<nat>) | One(account: nat)

  function AccountList(a: Accounts): (r: seq<nat>)
    ensures a.Many? ==> r == a.list
    ensures a.One? ==> r == [a.account]
  {
    match a
    case Many(l) => l
    case One(x) => [x]
  }

  /** No handler ever asks for a retry of any event. */
  ghost predicate NoRetries(hs: seq<Handler>, process: ProcessFn)
  {
    forall e :: !RetryRequested(hs, e, process)
  }

  /** The events handled so far begin with the starting queue: while they are fewer, they are
      its front and the rest of it is still queued, in order. */
  ghost predicate HandledInOrder(start: seq<Event>, handled: seq<Event>, items: seq<Event>)
  {
    if |handled| <= |start| then handled == start[..|handled|] && start[|handled|..] <= items
    else start <= handled
  }

  /** Handling the front event `e` keeps the order, whatever is appended behind the rest. */
  lemma HandledInOrderStep(start: seq<Event>, handled: seq<Event>, e: Event, rest: seq<Event>, after: seq<Event>)
    requires HandledInOrder(start, handled, [e] + rest) && rest <= after
    ensures HandledInOrder(start, handled + [e], after)
  {
    var k := |handled|;
    if k < |start| {
      assert start[k..][0] == ([e] + rest)[0] == e;
      assert handled + [e] == start[..k + 1];
      assert start[k + 1..] == start[k..][1..];
      assert start[k + 1..] <= rest;
    } else {
      assert start <= handled + [e];
    }
  }

  /** What the inner run loop keeps: the handled events in queue order, handled events plus
      the work left never above the starting work, and without retries nothing added. */
  ghost predicate DrainInvariant(start: seq<Event>, handled: seq<Event>, items: seq<Event>, quiet: bool)
  {
    && |handled| + Work(items) <= Work(start)
    && HandledInOrder(start, handled, items)
    && (quiet ==> handled + items == start)
  }

  /** Handling the front event `e` of the queue keeps the invariant and reduces the work left. */
  lemma DrainStep(start: seq<Event>, handled: seq<Event>, e: Event, rest: seq<Event>, rePut: bool, quiet: bool)
    requires DrainInvariant(start, handled, [e] + rest, quiet)
    requires quiet ==> !rePut
    ensures DrainInvariant(start, handled + [e], rest + RetryPut(e, rePut), quiet)
    ensures Work(rest + RetryPut(e, rePut)) < Work([e] + rest)
  {
    WorkStep([e] + rest, rePut);
    assert ([e] + rest)[1..] == rest;
    HandledInOrderStep(start, handled, e, rest, rest + RetryPut(e, rePut));
    if quiet {
      assert rest + RetryPut(e, rePut) == rest;
      assert (handled + [e]) + rest == handled + ([e] + rest);
    }
  }

  class BaseRunner {
    var handlers: seq<Handler>
    var running: bool
    var halt: bool
    var heartbeatCount: nat
    var lastHeartbeat: Time
    /** Seconds between heartbeats; zero or less switches them off. */
    const heartbeat: int
    const accounts: seq<nat>
    const queue: EventQueue

    /** `__init__`: the queue `create_queue` gives (abstract here, so its contents `pending` are
        a parameter), no handlers but the registered arguments, not running. */
    constructor (heartbeat: int, now: Time, accounts: Accounts, args: seq<Handler>, pending: seq<Event>)
      ensures this.heartbeat == heartbeat && this.accounts == AccountList(accounts)
      ensures handlers == Registered(args)
      ensures !running && !halt && heartbeatCount == 0 && lastHeartbeat == now
      ensures fresh(queue) && queue.items == pending
    {
      this.heartbeat := heartbeat;
      this.accounts := AccountList(accounts);
      running := false;
      halt := false;
      heartbeatCount := 0;
      lastHeartbeat := now;
      queue := new EventQueue();
      handlers := [];
      new;
      queue.items := pending;
      Register(args);
    }

    /** `register`: appends the `BaseHandler` instances among `args`, in argument order. */
    method Register(args: seq<Handler>)
      modifies this`handlers
      ensures handlers == old(handlers) + Registered(args)
    {
      for i := 0 to |args|
        invariant handlers == old(handlers) + Registered(args[..i])
      {
        assert args[..i + 1][..i] == args[..i];
        if BaseHandlerClass in args[i].classes {
          handlers := handlers + [args[i]];
        }
      }
      assert args[..|args|] == args;
    }

    /** `launch`. */
    method Launch()
      modifies this`running, this`halt
      ensures running && !halt
    {
      running := true;
      halt := false;
    }

    /** `loop_end`: a heartbeat is due when heartbeats are on and more than `heartbeat`
        seconds passed since the last one; `now` and `later` are the two clock readings. */
    method LoopEnd(now: Time, later: Time)
      modifies this`heartbeatCount, this`lastHeartbeat, queue
      ensures if heartbeat > 0 && now - old(lastHeartbeat) > heartbeat then
                heartbeatCount == old(heartbeatCount) + 1 && lastHeartbeat == later
                && queue.items == old(queue.items) + [HeartBeat(heartbeatCount, 0)]
              else
                heartbeatCount == old(heartbeatCount) && lastHeartbeat == old(lastHeartbeat)
                && queue.items == old(queue.items)
    {
      if heartbeat > 0 && now - lastHeartbeat > heartbeat {
        heartbeatCount := heartbeatCount + 1;
        queue.Put(HeartBeat(heartbeatCount, 0));
        lastHeartbeat := later;
      }
    }

    /** `loop_handlers`: dispatch to the subscribed handlers in order, then re-enqueue the
        event once if any of them asked for a retry and it has not been tried too often. */
    method LoopHandlers(e: Event, process: ProcessFn) returns (calls: seq<Handler>)
      modifies queue
      ensures calls == Called(handlers, e)
      ensures queue.items == old(queue.items) + RetryPut(e, RetryRequested(handlers, e, process))
    {
      var rePut;
      calls, rePut := DispatchPass(handlers, e, process);
      Requeue(queue, e, rePut);
    }

    /** `get_handler_by_type`: the handlers that are instances of `cls`, in order. */
    function GetHandlerByType(cls: string): (r: seq<Handler>)
      reads this
    {
      Filter(handlers, (h: Handler) => cls in h.classes)
    }

    /** `strategies`. */
    function Strategies(): (r: seq<Handler>)
      reads this
    {
      GetHandlerByType(StrategyClass)
    }

    /** `get_timeframes`: every timeframe some strategy lists. */
    method GetTimeframes() returns (ts: set<Timeframe>)
      ensures ts == TimeframesOf(Strategies())
    {
      var ss := Strategies();
      ts := {};
      for i := 0 to |ss|
        invariant ts == TimeframesOf(ss[..i])
      {
        var tfs := ss[i].timeframes;
        assert ss[..i + 1][..i] == ss[..i];
        for j := 0 to |tfs|
          invariant ts == TimeframesOf(ss[..i]) + set k | 0 <= k < j :: tfs[k]
        {
          ts := ts + {tfs[j]};
        }
      }
      assert ss[..|ss|] == ss;
    }

    /** The inner loop of `run`: handle queued events until the queue is empty or the runner is
        halted. Handlers cannot put events of their own here, so the loop ends, and it handles at
        most `Work` of the starting queue events (each at most 12 times in all). */
    method Drain(process: ProcessFn) returns (handled: seq<Event>)
      modifies queue
      ensures halt ==> handled == [] && queue.items == old(queue.items)
      ensures !halt ==> queue.items == []
      ensures |handled| <= Work(old(queue.items))
      ensures !halt ==> old(queue.items) <= handled
      ensures !halt && NoRetries(handlers, process) ==> handled == old(queue.items)
    {
      handled := [];
      if halt {
        return;
      }
      ghost var start := queue.items;
      ghost var quiet := NoRetries(handlers, process);
      while true
        invariant DrainInvariant(start, handled, queue.items, quiet)
        decreases Work(queue.items)
      {
        ghost var before := queue.items;
        var item := queue.Get();
        if item.None? {
          break;
        }
        var e := item.value;
        ghost var rest := queue.items;
        assert before == [e] + rest;
        var _ := LoopHandlers(e, process);
        DrainStep(start, handled, e, rest, RetryRequested(handlers, e, process), quiet);
        handled := handled + [e];
      }
    }

    /** One turn of the `run` loop: `loop_start` (nothing), the inner loop, then `loop_end`. */
    method RunOnce(process: ProcessFn, now: Time, later: Time) returns (handled: seq<Event>)
      modifies this`heartbeatCount, this`lastHeartbeat, queue
      ensures if heartbeat > 0 && now - old(lastHeartbeat) > heartbeat then
                heartbeatCount == old(heartbeatCount) + 1 && lastHeartbeat == later
                && queue.items == (if halt then old(queue.items) else []) + [HeartBeat(heartbeatCount, 0)]
              else
                heartbeatCount == old(heartbeatCount) && lastHeartbeat == old(lastHeartbeat)
                && queue.items == (if halt then old(queue.items) else [])
      ensures halt ==> handled == []
      ensures |handled| <= Work(old(queue.items))
      ensures !halt ==> old(queue.items) <= handled
      ensures !halt && NoRetries(handlers, process) ==> handled == old(queue.items)
    {
      handled := Drain(process);
      LoopEnd(now, later);
    }
  }

  /** `get_handler_by_type` keeps exactly the instances of the class, each as often as listed,
      and keeps their order (filtering a concatenation filters each part). */
  lemma GetHandlerByTypeExact(r: BaseRunner, cls: string, h: Handler)
    ensures h in r.GetHandlerByType(cls) <==> h in r.handlers && cls in h.classes
    ensures multiset(r.GetHandlerByType(cls))[h] == if cls in h.classes then multiset(r.handlers)[h] else 0
  {
    FilterCount(r.handlers, (x: Handler) => cls in x.classes, h);
  }

  /** `get_timeframes` is the union of the strategies' timeframes. */
  lemma TimeframesUnion(r: BaseRunner, t: Timeframe)
    ensures t in TimeframesOf(r.Strategies()) <==> exists s :: s in r.Strategies() && t in s.timeframes
  {
    var ss := r.Strategies();
    TimeframesOfIff(ss, t);
    if exists s :: s in ss && t in s.timeframes {
      var s :| s in ss && t in s.timeframes;
      var i :| 0 <= i < |ss| && ss[i] == s;
    }
  }
}

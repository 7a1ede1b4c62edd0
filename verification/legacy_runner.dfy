/** The older queue runner (runner/runner.py): registration, launch, the dispatch-and-retry
    step and the exit rule of its run loop, plus the price table of the stream runner. */
module LegacyRunner {
  import opened Events
  import opened Dispatch
  import opened RunnerBase

  /** `BaseHandler` of handler/base.py, a queue client: the class this runner registers. The
      handlers of the handler package (the debug handler, the timeframe publisher, strategies)
      derive from another `BaseHandler` and are not instances of it. */
  const QueueHandlerClass := "handler.base.BaseHandler"

  /** The arguments this runner's `register` keeps. */
  function QueueHandlers(args: seq<Handler>): (r: seq<Handler>)
    ensures forall h :: h in r <==> h in args && QueueHandlerClass in h.classes
  {
    Filter(args, (h: Handler) => QueueHandlerClass in h.classes)
  }

  /** `ReisQueueRunner`: the list-backed queue stands for the Redis list it pushes to on the
      right and pops from on the left. */
  class QueueRunner {
    var handlers: seq<Handler>
    var running: bool
    var halt: bool
    const account: nat
    const queue: EventQueue

    /** `BaseRunner.__init__` and `ReisQueueRunner.__init__`: no handlers, not running. The
        named Redis list outlives the runner, so it may already hold `pending` events. */
    constructor (account: nat, pending: seq<Event>)
      ensures handlers == [] && !running && !halt && this.account == account
      ensures fresh(queue) && queue.items == pending
    {
      handlers := [];
      running := false;
      halt := false;
      this.account := account;
      queue := new EventQueue();
      new;
      queue.items := pending;
    }

    /** `register`: appends the instances of handler/base.py's `BaseHandler` among `args`, in
        argument order. */
    method Register(args: seq<Handler>)
      modifies this`handlers
      ensures handlers == old(handlers) + QueueHandlers(args)
    {
      for i := 0 to |args|
        invariant handlers == old(handlers) + QueueHandlers(args[..i])
      {
        assert args[..i + 1][..i] == args[..i];
        if QueueHandlerClass in args[i].classes {
          handlers := handlers + [args[i]];
        }
      }
      assert args[..|args|] == args;
    }

    /** `launch`. */
    method Launch()
      modifies this`running, this`halt
      ensures running && !halt
    {
      running := true;
      halt := false;
    }

    /** `loop_handlers`: the same dispatch-and-retry rule as the base runner. */
    method LoopHandlers(e: Event, process: ProcessFn) returns (calls: seq<Handler>)
      modifies queue
      ensures calls == Called(handlers, e)
      ensures queue.items == old(queue.items) + RetryPut(e, RetryRequested(handlers, e, process))
    {
      var rePut;
      calls, rePut := DispatchPass(handlers, e, process);
      Requeue(queue, e, rePut);
    }

    /** `run`: launch, then one event per turn until `yield_event` finds the queue empty. Launch
        clears `halt` and nothing in the loop sets it again, so the halted branch (which would
        sleep for ever) is never taken. The loop leaves with the queue empty, having handled
        the starting queue first and in order. */
    method Run(process: ProcessFn) returns (handled: seq<Event>)
      modifies this`running, this`halt, queue
      ensures running && !halt && queue.items == []
      ensures old(queue.items) <= handled && |handled| <= Work(old(queue.items))
      ensures NoRetries(handlers, process) ==> handled == old(queue.items)
    {
      Launch();
      handled := Turns(process);
    }

    /** The `while self.running` loop of `run` on a launched runner. */
    method Turns(process: ProcessFn) returns (handled: seq<Event>)
      requires running && !halt
      modifies queue
      ensures queue.items == []
      ensures old(queue.items) <= handled && |handled| <= Work(old(queue.items))
      ensures NoRetries(handlers, process) ==> handled == old(queue.items)
    {
      handled := [];
      ghost var start := queue.items;
      ghost var quiet := NoRetries(handlers, process);
      while running
        invariant DrainInvariant(start, handled, queue.items, quiet)
        decreases Work(queue.items)
      {
        ghost var before := queue.items;
        var item := queue.Get();
        if item.None? {
          break;
        }
        var e := item.value;
        ghost var rest := queue.items;
        assert before == [e] + rest;
        var _ := LoopHandlers(e, process);
        DrainStep(start, handled, e, rest, RetryRequested(handlers, e, process), quiet);
        handled := handled + [e];
      }
    }
  }

  /** One entry of the stream runner's price table. */
  datatype PriceSlot = PriceSlot(bid: Option<Price>, ask: Option<Price>, time: Option<Time>, spread: Option<real>)

  const EmptySlot := PriceSlot(None, None, None, None)

  /** `_set_up_prices_dict`: one empty slot per pair. */
  function SetUpPricesDict(pairs: seq<string>): (r: map<string, PriceSlot>)
    ensures forall p :: p in r <==> p in pairs
    ensures forall p :: p in r ==> r[p].bid.None? && r[p].ask.None? && r[p].time.None? && r[p].spread.None?
  {
    map p | p in pairs :: EmptySlot
  }

  /** The table has one entry per pair; a pair listed twice shares one entry. */
  lemma {:induction false} PricesDictSize(pairs: seq<string>)
    ensures |SetUpPricesDict(pairs).Keys| <= |pairs|
    ensures Distinct(pairs) ==> |SetUpPricesDict(pairs).Keys| == |pairs|
  {
    var keys := SetUpPricesDict(pairs).Keys;
    assert keys == set p | p in pairs;
    DistinctCard(pairs);
  }

  lemma {:induction false} DistinctCard(s: seq<string>)
    ensures |set x | x in s| <= |s|
    ensures Distinct(s) ==> |set x | x in s| == |s|
  {
    if s != [] {
      var s', last := s[..|s| - 1], s[|s| - 1];
      DistinctCard(s');
      assert (set x | x in s) == (set x | x in s') + {last} by {
        assert s == s' + [last];
      }
      if Distinct(s) {
        assert Distinct(s');
        assert last !in s';
      }
    }
  }
}

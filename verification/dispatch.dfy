/** The dispatch rules the runners share: handler registration, the wildcard-or-type
    subscription test, exception-isolated handler calls, the OR of retry requests and the
    bounded re-enqueue of an event that asked for a retry. */
module Dispatch {
  import opened Events

  /** A registered object as the runners see it: the class names it is an instance of
      (`isinstance`), its `subscription` and, for strategies, its `timeframes`. */
  datatype Handler = Handler(id: nat, classes: set<string>, subscription: set<string>, timeframes: seq<Timeframe>)

  /** `BaseHandler` of the handler package (handler/__init__.py), the class the event bus runner
      registers; the older queue runner tests a different class of the same name. */
  const BaseHandlerClass := "handler.BaseHandler"
  const StrategyClass := "StrategyBase"

  /** What `handler.process(event, context)` does: returns a value (only its truthiness
      matters to the runner) or raises. Handlers are code the runner cannot see, so the
      outcome of each call is a parameter of the model. */
  datatype Outcome = Returned(truthy: bool) | Raised
  type ProcessFn = (Handler, Event) -> Outcome

  /** The elements of `s` that satisfy `p`, in their original order. */
  function Filter<T(!new)>(s: seq<T>, p: T -> bool): (r: seq<T>)
    ensures |r| <= |s|
    ensures forall x :: x in r <==> x in s && p(x)
  {
    if s == [] then [] else Filter(s[..|s| - 1], p) + (if p(s[|s| - 1]) then [s[|s| - 1]] else [])
  }

  /** Filtering distributes over concatenation, so it keeps the relative order of what it keeps. */
  lemma {:induction false} FilterAppend<T(!new)>(a: seq<T>, b: seq<T>, p: T -> bool)
    ensures Filter(a + b, p) == Filter(a, p) + Filter(b, p)
    decreases |b|
  {
    if b == [] {
      assert a + b == a;
    } else {
      var b' := b[..|b| - 1];
      assert (a + b)[..|a + b| - 1] == a + b';
      assert (a + b)[|a + b| - 1] == b[|b| - 1];
      FilterAppend(a, b', p);
    }
  }

  /** Each element is kept as many times as it occurs when it satisfies `p`, and never otherwise. */
  lemma {:induction false} FilterCount<T(!new)>(s: seq<T>, p: T -> bool, x: T)
    ensures multiset(Filter(s, p))[x] == if p(x) then multiset(s)[x] else 0
  {
    if s != [] {
      var s' := s[..|s| - 1];
      assert s == s' + [s[|s| - 1]];
      FilterCount(s', p, x);
    }
  }

  /** The arguments `register` keeps: only the instances of the handler package's `BaseHandler`. */
  function Registered(args: seq<Handler>): (r: seq<Handler>)
    ensures forall h :: h in r <==> h in args && BaseHandlerClass in h.classes
  {
    Filter(args, (h: Handler) => BaseHandlerClass in h.classes)
  }

  /** A handler is called for an event when it subscribes to everything or to the event's type. */
  predicate Subscribed(h: Handler, e: Event)
  {
    Wildcard in h.subscription || TypeOf(e) in h.subscription
  }

  /** The handlers `loop_handlers` calls for `e`, in call order. */
  function Called(hs: seq<Handler>, e: Event): seq<Handler>
  {
    Filter(hs, (h: Handler) => Subscribed(h, e))
  }

  /** Every list entry whose subscription matches is called exactly once, a wildcard entry that
      also names the event's type included; no other entry is called. */
  lemma CalledOncePerEntry(hs: seq<Handler>, e: Event, h: Handler)
    ensures multiset(Called(hs, e))[h] == if Subscribed(h, e) then multiset(hs)[h] else 0
    ensures Wildcard in h.subscription ==> multiset(Called(hs, e))[h] == multiset(hs)[h]
  {
    FilterCount(hs, (x: Handler) => Subscribed(x, e), h);
  }

  /** `handle_event`: the handler's result, or `None` when it raised; the exception never escapes. */
  function HandleEvent(h: Handler, e: Event, process: ProcessFn): (r: Option<bool>)
    ensures r.None? <==> process(h, e).Raised?
    ensures r.Some? ==> r.value == process(h, e).truthy
  {
    match process(h, e)
    case Returned(t) => Some(t)
    case Raised => None
  }

  /** A `handle_event` result that makes `re_put` true. */
  predicate Truthy(r: Option<bool>)
  {
    r == Some(true)
  }

  /** The final `re_put` flag: the OR of the results of the handlers called, in order. */
  function RetryRequested(hs: seq<Handler>, e: Event, process: ProcessFn): bool
  {
    if hs == [] then false
    else
      var h := hs[|hs| - 1];
      RetryRequested(hs[..|hs| - 1], e, process) || (Subscribed(h, e) && Truthy(HandleEvent(h, e, process)))
  }

  /** A retry is requested exactly when some called handler returned a truthy value; a handler
      that raised never requests one. */
  lemma {:induction false} RetryRequestedIff(hs: seq<Handler>, e: Event, process: ProcessFn)
    ensures RetryRequested(hs, e, process) <==> exists h :: h in Called(hs, e) && Truthy(HandleEvent(h, e, process))
  {
    if hs != [] {
      var hs', h := hs[..|hs| - 1], hs[|hs| - 1];
      assert hs == hs' + [h];
      RetryRequestedIff(hs', e, process);
      FilterAppend(hs', [h], (x: Handler) => Subscribed(x, e));
      assert [h][..0] == [];
      assert Called([h], e) == if Subscribed(h, e) then [h] else [];
    }
  }

  /** The subscription loop of `loop_handlers`: calls each matching handler once, in list order
      (a wildcard entry goes straight to the next handler), and ORs the results. */
  method DispatchPass(hs: seq<Handler>, e: Event, process: ProcessFn) returns (calls: seq<Handler>, rePut: bool)
    ensures calls == Called(hs, e)
    ensures rePut == RetryRequested(hs, e, process)
  {
    calls := [];
    rePut := false;
    for i := 0 to |hs|
      invariant calls == Called(hs[..i], e)
      invariant rePut == RetryRequested(hs[..i], e, process)
    {
      var h := hs[i];
      assert hs[..i + 1][..i] == hs[..i];
      if Wildcard in h.subscription {
        var result := HandleEvent(h, e, process);
        calls := calls + [h];
        rePut := Truthy(result) || rePut;
        continue;
      } else if TypeOf(e) in h.subscription {
        var result := HandleEvent(h, e, process);
        calls := calls + [h];
        rePut := Truthy(result) || rePut;
      }
    }
    assert hs[..|hs|] == hs;
  }

  /** What the retry step enqueues: nothing without a request or once `tried` is past 10,
      otherwise one copy with `tried` one higher, so no enqueued copy has `tried` above 11. */
  function RetryPut(e: Event, rePut: bool): (r: seq<Event>)
    ensures |r| <= 1
    ensures r != [] <==> rePut && e.tried <= 10
    ensures forall x :: x in r ==> x.tried == e.tried + 1 <= 11 && x == e.(tried := e.tried + 1)
  {
    if rePut && e.tried <= 10 then [e.(tried := e.tried + 1)] else []
  }

  /** The retry step of `loop_handlers`. */
  method Requeue(queue: EventQueue, e: Event, rePut: bool)
    modifies queue
    ensures queue.items == old(queue.items) + RetryPut(e, rePut)
  {
    if rePut {
      if e.tried > 10 {
        // dropped: tried too many times
      } else {
        queue.Put(e.(tried := e.tried + 1));
      }
    }
  }

  /** How many times an event is delivered in all when every delivery asks for a retry. */
  function Deliveries(e: Event): nat
    decreases if e.tried <= 11 then 11 - e.tried else 0
  {
    var next := RetryPut(e, true);
    1 + (if next == [] then 0 else Deliveries(next[0]))
  }

  /** An event starting at `tried` t is delivered at most 12 - t times (once when t > 10);
      a fresh event, at most 12 times, that is, 11 redeliveries. */
  lemma {:induction false} DeliveriesCount(e: Event)
    ensures Deliveries(e) == if e.tried > 10 then 1 else 12 - e.tried
    ensures e.tried == 0 ==> Deliveries(e) == 12
    decreases if e.tried <= 11 then 11 - e.tried else 0
  {
    var next := RetryPut(e, true);
    if e.tried <= 10 {
      assert next[0] in next;
      DeliveriesCount(next[0]);
    } else {
      assert next == [];
    }
  }

  /** The most deliveries the events of a queue can still cause. */
  function Work(items: seq<Event>): nat
  {
    if items == [] then 0 else Work(items[..|items| - 1]) + Deliveries(items[|items| - 1])
  }

  lemma {:induction false} WorkAppend(items: seq<Event>, more: seq<Event>)
    ensures Work(items + more) == Work(items) + Work(more)
    decreases |more|
  {
    if more == [] {
      assert items + more == items;
    } else {
      var m' := more[..|more| - 1];
      assert (items + more)[..|items + more| - 1] == items + m';
      WorkAppend(items, m');
    }
  }

  /** Taking one event off the front and re-enqueuing its retry strictly reduces the work left. */
  lemma WorkStep(items: seq<Event>, rePut: bool)
    requires items != []
    ensures Work(items[1..] + RetryPut(items[0], rePut)) < Work(items)
  {
    assert items == [items[0]] + items[1..];
    WorkAppend([items[0]], items[1..]);
    WorkAppend(items[1..], RetryPut(items[0], rePut));
    assert [items[0]][..0] == [];
    var r := RetryPut(items[0], rePut);
    if r != [] {
      assert r == [] + [r[0]];
    }
  }

  /** The union of the `timeframes` of the given strategies. */
  function TimeframesOf(ss: seq<Handler>): set<Timeframe>
  {
    if ss == [] then {}
    else
      var tfs := ss[|ss| - 1].timeframes;
      TimeframesOf(ss[..|ss| - 1]) + set i | 0 <= i < |tfs| :: tfs[i]
  }

  lemma {:induction false} TimeframesOfIff(ss: seq<Handler>, t: Timeframe)
    ensures t in TimeframesOf(ss) <==> exists i :: 0 <= i < |ss| && t in ss[i].timeframes
  {
    if ss != [] {
      var ss' := ss[..|ss| - 1];
      TimeframesOfIff(ss', t);
      if t in TimeframesOf(ss) && t !in TimeframesOf(ss') {
        assert t in ss[|ss| - 1].timeframes;
      }
      if exists i :: 0 <= i < |ss| && t in ss[i].timeframes {
        var i :| 0 <= i < |ss| && t in ss[i].timeframes;
        if i < |ss| - 1 {
          assert ss'[i] == ss[i];
        }
      }
    }
  }
}

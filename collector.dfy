/**
 * `ThreadCollector`: one buffer of collected items per thread. Python's
 * `threading.local()` is modelled as a map from thread id to that thread's
 * list; a thread absent from the map has no `collection` attribute yet.
 * The calling thread is an explicit parameter of every operation.
 */
module Collector {
  import opened Wrappers

  type ThreadId = nat

  type Buffers<T> = map<ThreadId, seq<T>>

  /** Outcome of `collect`: it raises AttributeError on a thread whose list was never set. */
  datatype Status = Collected | AttributeError

  /** The thread has a `collection` attribute. */
  predicate Initialised<T>(b: Buffers<T>, t: ThreadId) {
    t in b
  }

  /** The state right after `ThreadCollector()` ran on thread `owner`. */
  function Initial<T>(owner: ThreadId): (b: Buffers<T>)
    ensures Initialised(b, owner) && Lookup(b, owner) == []
    ensures forall u :: u != owner ==> !Initialised(b, u)
  {
    map[owner := []]
  }

  /** `get_collection` on thread `t`: its list, or `[]` when it has none. */
  function Lookup<T>(b: Buffers<T>, t: ThreadId): (r: seq<T>)
    ensures Initialised(b, t) ==> r == b[t]
    ensures !Initialised(b, t) ==> r == []
  {
    if t in b then b[t] else []
  }

  /** `clear_collection` on thread `t`. */
  function Cleared<T>(b: Buffers<T>, t: ThreadId): (r: Buffers<T>)
    ensures Initialised(r, t) && Lookup(r, t) == []
    ensures forall u :: u != t ==> Lookup(r, u) == Lookup(b, u) && (Initialised(r, u) <==> Initialised(b, u))
  {
    b[t := []]
  }

  /** `collect(item)` on thread `t`: None stands for the AttributeError raised on an uninitialised thread. */
  function Appended<T>(b: Buffers<T>, t: ThreadId, item: T): (r: Option<Buffers<T>>)
    ensures r.Some? <==> Initialised(b, t)
    ensures r.Some? ==> Lookup(r.value, t) == Lookup(b, t) + [item] && Initialised(r.value, t)
    ensures r.Some? ==> forall u :: u != t ==>
              Lookup(r.value, u) == Lookup(b, u) && (Initialised(r.value, u) <==> Initialised(b, u))
  {
    if t in b then Some(b[t := b[t] + [item]]) else None
  }

  class ThreadCollector<T> {
    var buffers: Buffers<T>

    /** `ThreadCollector()` run on thread `owner`: only that thread gets an empty list. */
    constructor (owner: ThreadId)
      ensures buffers == Initial(owner)
    {
      buffers := map[owner := []];
    }

    method Collect(t: ThreadId, item: T) returns (status: Status)
      modifies this
      ensures status == Collected <==> Initialised(old(buffers), t)
      ensures status == Collected ==> Appended(old(buffers), t, item) == Some(buffers)
      ensures status == AttributeError ==> buffers == old(buffers)
    {
      if t in buffers {
        buffers := buffers[t := buffers[t] + [item]];
        status := Collected;
      } else {
        status := AttributeError;
      }
    }

    method GetCollection(t: ThreadId) returns (items: seq<T>)
      ensures items == Lookup(buffers, t)
      ensures !Initialised(buffers, t) ==> items == []
    {
      if t in buffers {
        items := buffers[t];
      } else {
        items := [];
      }
    }

    method ClearCollection(t: ThreadId)
      modifies this
      ensures buffers == Cleared(old(buffers), t)
    {
      buffers := buffers[t := []];
    }
  }

  lemma ClearThenGetIsEmpty<T>(b: Buffers<T>, t: ThreadId)
    ensures Lookup(Cleared(b, t), t) == []
  {
  }

  lemma ClearIdempotent<T>(b: Buffers<T>, t: ThreadId)
    ensures Cleared(Cleared(b, t), t) == Cleared(b, t)
  {
  }

  /**
   * Only the constructing thread can collect straight away; any other thread
   * must clear its buffer first, while reading never fails.
   */
  lemma CollectNeedsInitialisation<T>(owner: ThreadId, u: ThreadId, item: T)
    requires u != owner
    ensures Appended(Initial<T>(owner), u, item).None?
    ensures Lookup(Initial<T>(owner), u) == []
    ensures Appended(Cleared(Initial<T>(owner), u), u, item).Some?
  {
  }

  /** One call on the collector, made by the thread it names. */
  datatype Call<T> = Collect(thread: ThreadId, item: T) | Clear(thread: ThreadId)

  /** The state after one call; a collect that raises leaves the state as it was. */
  function Step<T>(b: Buffers<T>, c: Call<T>): (r: Buffers<T>)
    ensures forall u :: u != c.thread ==>
              Lookup(r, u) == Lookup(b, u) && (Initialised(r, u) <==> Initialised(b, u))
  {
    match c
    case Collect(t, x) => (match Appended(b, t, x) case Some(b') => b' case None => b)
    case Clear(t) => Cleared(b, t)
  }

  function Run<T>(b: Buffers<T>, calls: seq<Call<T>>): Buffers<T>
    decreases |calls|
  {
    if calls == [] then b else Run(Step(b, calls[0]), calls[1..])
  }

  /** The calls of `calls` made by thread `t`, in order. */
  function OnThread<T>(calls: seq<Call<T>>, t: ThreadId): (r: seq<Call<T>>)
    ensures |r| <= |calls|
    ensures forall i :: 0 <= i < |r| ==> r[i].thread == t
  {
    if calls == [] then []
    else (if calls[0].thread == t then [calls[0]] else []) + OnThread(calls[1..], t)
  }

  /** What thread `t` can observe of the collector. */
  ghost function View<T>(b: Buffers<T>, t: ThreadId): (bool, seq<T>) {
    (Initialised(b, t), Lookup(b, t))
  }

  /** A run of thread `t`'s own calls depends only on what `t` could observe beforehand. */
  lemma {:induction false} OwnCallsSeeOwnView<T>(b: Buffers<T>, b': Buffers<T>, calls: seq<Call<T>>, t: ThreadId)
    requires forall i :: 0 <= i < |calls| ==> calls[i].thread == t
    requires View(b, t) == View(b', t)
    ensures View(Run(b, calls), t) == View(Run(b', calls), t)
    decreases |calls|
  {
    if calls != [] {
      var c := calls[0];
      assert View(Step(b, c), t) == View(Step(b', c), t) by {
        match c
        case Collect(_, x) =>
        case Clear(_) =>
      }
      OwnCallsSeeOwnView(Step(b, c), Step(b', c), calls[1..], t);
    }
  }

  /**
   * Thread isolation: what thread `t` reads after any interleaving of calls is what it
   * would read had only its own calls been made. Records collected on one thread are
   * never visible to `get_collection` on another.
   */
  lemma {:induction false} ThreadIsolation<T>(b: Buffers<T>, calls: seq<Call<T>>, t: ThreadId)
    ensures View(Run(b, calls), t) == View(Run(b, OnThread(calls, t)), t)
    decreases |calls|
  {
    if calls != [] {
      var c, rest := calls[0], calls[1..];
      ThreadIsolation(Step(b, c), rest, t);
      if c.thread == t {
        assert OnThread(calls, t) == [c] + OnThread(rest, t);
        assert ([c] + OnThread(rest, t))[1..] == OnThread(rest, t);
      } else {
        assert OnThread(calls, t) == OnThread(rest, t);
        OwnCallsSeeOwnView(Step(b, c), b, OnThread(rest, t), t);
      }
    }
  }

  /** The calls made by `collect` for each item of `items`, on thread `t`. */
  function CollectAll<T>(t: ThreadId, items: seq<T>): (r: seq<Call<T>>)
    ensures |r| == |items|
    ensures forall i :: 0 <= i < |r| ==> r[i] == Collect(t, items[i])
  {
    if items == [] then [] else [Collect(t, items[0])] + CollectAll(t, items[1..])
  }

  /** On an initialised thread, collecting `items` appends them in order. */
  lemma {:induction false} CollectAllAppends<T>(b: Buffers<T>, t: ThreadId, items: seq<T>)
    requires Initialised(b, t)
    ensures Lookup(Run(b, CollectAll(t, items)), t) == Lookup(b, t) + items
    ensures Initialised(Run(b, CollectAll(t, items)), t)
    decreases |items|
  {
    if items == [] {
      assert Lookup(b, t) + items == Lookup(b, t);
    } else {
      var calls := CollectAll(t, items);
      assert calls[1..] == CollectAll(t, items[1..]);
      var b' := Step(b, calls[0]);
      CollectAllAppends(b', t, items[1..]);
      assert Lookup(b', t) == Lookup(b, t) + [items[0]];
      assert Lookup(b, t) + [items[0]] + items[1..] == Lookup(b, t) + items;
    }
  }

  /**
   * One request cycle: the thread clears its buffer, then the request's own calls collect
   * `items`, interleaved with any calls of other threads; its buffer then holds exactly `items`.
   */
  lemma RequestCycle<T>(b: Buffers<T>, t: ThreadId, calls: seq<Call<T>>, items: seq<T>)
    requires OnThread(calls, t) == CollectAll(t, items)
    ensures Lookup(Run(Cleared(b, t), calls), t) == items
  {
    ThreadIsolation(Cleared(b, t), calls, t);
    CollectAllAppends(Cleared(b, t), t, items);
  }
}

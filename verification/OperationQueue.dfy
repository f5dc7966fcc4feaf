/** The bounded FIFO slot allocator of concurrency.py.

    Futures and entries are heap objects, as in the source: a task keeps a reference to
    the entry it entered through, which may outlive that entry's registration.  Each
    section under the registry lock contains no suspension point and is one method here.
    Every method is proved against a function on Registry, the value of the heap the
    queue owns; QueueProtocol interleaves those functions. */
module OperationQueues {
  import opened Wrappers

  datatype FutureState = Pending | Granted | Cancelled

  class Future {
    var state: FutureState

    constructor ()
      ensures state == Pending
    {
      state := Pending;
    }
  }

  class Entry {
    var active: bool
    var waiters: seq<Future>

    constructor ()
      ensures !active && waiters == []
    {
      active, waiters := false, [];
    }
  }

  datatype EntryValue = EntryValue(active: bool, waiters: seq<Future>)

  /** The registered entries, and the contents of every entry and future ever created. */
  datatype Registry = Registry(
    entries: map<string, Entry>,
    heap: map<Entry, EntryValue>,
    futures: map<Future, FutureState>) {

    /** Every reference held by the registry is to a known object. */
    ghost predicate Closed() {
      && (forall k :: k in entries ==> entries[k] in heap)
      && (forall e :: e in heap ==> forall w :: w in heap[e].waiters ==> w in futures)
    }
  }

  /** What the first locked section of acquire tells its task. */
  datatype Entered = Full | Immediate(entry: Entry) | Enqueued(entry: Entry, waiter: Future)

  /** How many waiters at the front of the deque are already done. */
  function DonePrefix(ws: seq<Future>, fs: map<Future, FutureState>): (n: nat)
    requires forall w :: w in ws ==> w in fs
    ensures n <= |ws|
    ensures forall i :: 0 <= i < n ==> fs[ws[i]] != Pending
    ensures n < |ws| ==> fs[ws[n]] == Pending
  {
    if ws == [] || fs[ws[0]] == Pending then 0 else 1 + DonePrefix(ws[1..], fs)
  }

  /** The position of the first occurrence of w, or |ws|. */
  function IndexOf(ws: seq<Future>, w: Future): (i: nat)
    ensures i <= |ws|
    ensures w !in ws[..i]
    ensures i < |ws| <==> w in ws
    ensures i < |ws| ==> ws[i] == w
  {
    if ws == [] || ws[0] == w then 0 else 1 + IndexOf(ws[1..], w)
  }

  /** The sequence without its element at p. */
  function RemoveAt<T>(s: seq<T>, p: nat): (r: seq<T>)
    requires p < |s|
    ensures |r| == |s| - 1
    ensures forall q :: 0 <= q < |r| ==> r[q] == s[if q < p then q else q + 1]
    ensures forall x :: x in r ==> x in s
  {
    s[..p] + s[p + 1..]
  }

  /** _release_locked: drop finished waiters, then grant the first pending one or retire the key. */
  function Released(r: Registry, key: string, e: Entry): Registry
    requires r.Closed() && e in r.heap
  {
    var ws := r.heap[e].waiters;
    var n := DonePrefix(ws, r.futures);
    if n < |ws| then
      r.(heap := r.heap[e := r.heap[e].(waiters := ws[n + 1..])], futures := r.futures[ws[n] := Granted])
    else
      r.(entries := r.entries - {key}, heap := r.heap[e := EntryValue(false, [])])
  }

  lemma ReleasedClosed(r: Registry, key: string, e: Entry)
    requires r.Closed() && e in r.heap
    ensures Released(r, key, e).Closed()
  {
    var ws, n := r.heap[e].waiters, DonePrefix(r.heap[e].waiters, r.futures);
    assert n < |ws| ==> forall w :: w in ws[n + 1..] ==> w in ws;
  }

  /** _discard_waiter: leave the deque, or pass on a slot granted during the abandonment. */
  function Discarded(r: Registry, key: string, e: Entry, w: Future): Registry
    requires r.Closed() && e in r.heap && w in r.futures
  {
    var ws := r.heap[e].waiters;
    var i := IndexOf(ws, w);
    if i < |ws| then
      r.(heap := r.heap[e := r.heap[e].(waiters := RemoveAt(ws, i))])
    else if r.futures[w] != Cancelled then
      Released(r, key, e)
    else
      r
  }

  /** When the first locked section of acquire may answer with result; a created object is new. */
  ghost predicate Admits(r: Registry, max: nat, key: string, result: Entered)
    requires r.Closed()
  {
    match result
    case Full =>
      && key in r.entries && r.heap[r.entries[key]].active && |r.heap[r.entries[key]].waiters| >= max
    case Immediate(e) =>
      if key in r.entries then e == r.entries[key] && !r.heap[e].active else e !in r.heap
    case Enqueued(e, w) =>
      && key in r.entries && e == r.entries[key]
      && r.heap[e].active && |r.heap[e].waiters| < max
      && w !in r.futures
  }

  /** The registry after that section has answered. */
  function AfterEnter(r: Registry, key: string, result: Entered): Registry {
    match result
    case Full => r
    case Immediate(e) =>
      var ws := if e in r.heap then r.heap[e].waiters else [];
      r.(entries := r.entries[key := e], heap := r.heap[e := EntryValue(true, ws)])
    case Enqueued(e, w) =>
      var ws := if e in r.heap then r.heap[e].waiters else [];
      r.(heap := r.heap[e := EntryValue(true, ws + [w])], futures := r.futures[w := Pending])
  }

  lemma EnteredClosed(r: Registry, max: nat, key: string, result: Entered)
    requires r.Closed() && Admits(r, max, key, result)
    ensures AfterEnter(r, key, result).Closed()
  {
  }

  lemma RegisteredKnown(r: Registry, key: string)
    requires r.Closed() && key in r.entries
    ensures r.entries[key] in r.heap
  {
  }

  /** The deque keyed by "global" or by the subject, according to the configured scope. */
  function KeyFor(scope: string, subject: string): string {
    if scope == "global" then "global" else subject
  }

  /** Two subjects share a deque exactly when they are one, or the scope is global. */
  lemma KeysShared(scope: string, a: string, b: string)
    ensures KeyFor(scope, a) == KeyFor(scope, b) <==> a == b || scope == "global"
  {
  }

  /** The ghost maps record the contents of every entry and future the queue has created. */
  class OperationQueue {
    const scope: string
    const maxQueueSize: nat
    var entries: map<string, Entry>
    ghost var heap: map<Entry, EntryValue>
    ghost var futures: map<Future, FutureState>

    ghost predicate Valid()
      reads this, heap.Keys, futures.Keys
    {
      && Value().Closed()
      && (forall e :: e in heap ==> heap[e] == EntryValue(e.active, e.waiters))
      && (forall w :: w in futures ==> futures[w] == w.state)
    }

    /** The value of everything the queue owns. */
    ghost function Value(): Registry
      reads this
    {
      Registry(entries, heap, futures)
    }

    constructor (scope: string, maxQueueSize: nat)
      requires scope in {"global", "user"}
      ensures Valid() && Value() == Registry(map[], map[], map[])
      ensures this.scope == scope && this.maxQueueSize == maxQueueSize
    {
      this.scope, this.maxQueueSize := scope, maxQueueSize;
      entries, heap, futures := map[], map[], map[];
    }

    /** The locked section at the head of acquire. */
    method Enter(subject: string) returns (r: Entered)
      requires Valid()
      modifies this, heap.Keys
      ensures Valid()
      ensures fresh(heap.Keys - old(heap.Keys)) && fresh(futures.Keys - old(futures.Keys))
      ensures Admits(old(Value()), maxQueueSize, KeyFor(scope, subject), r)
      ensures Value() == AfterEnter(old(Value()), KeyFor(scope, subject), r)
    {
      hide Registry.Closed;
      ghost var before := Value();
      var key := KeyFor(scope, subject);
      var entry: Entry;
      if key in entries {
        RegisteredKnown(before, key);
        entry := entries[key];
      } else {
        entry := new Entry();
        entries := entries[key := entry];
      }
      if entry.active {
        if |entry.waiters| >= maxQueueSize {
          r := Full;
        } else {
          var waiter := new Future();
          entry.waiters := entry.waiters + [waiter];
          r := Enqueued(entry, waiter);
          heap, futures := heap[entry := EntryValue(true, entry.waiters)], futures[waiter := Pending];
        }
      } else {
        entry.active := true;
        r := Immediate(entry);
        heap := heap[entry := EntryValue(true, entry.waiters)];
        assert entries == old(entries)[key := entry];
      }
      EnteredClosed(before, maxQueueSize, key, r);
      assert Value() == AfterEnter(before, key, r);
      hide AfterEnter;
      hide Admits;
      forall e | e in heap
        ensures heap[e] == EntryValue(e.active, e.waiters)
      {
        assert e == entry || e in before.heap;
      }
    }

    /** The loop of _release_locked: pop waiters up to and including the first pending one. */
    method PopPending(entry: Entry) returns (next: Option<Future>)
      requires Valid() && entry in heap
      modifies entry`waiters
      ensures var ws, n := old(entry.waiters), DonePrefix(old(entry.waiters), futures);
              if n < |ws| then next == Some(ws[n]) && entry.waiters == ws[n + 1..]
              else next == None && entry.waiters == []
      ensures next.Some? ==> next.value in futures
    {
      ghost var ws := entry.waiters;
      ghost var popped := 0;
      while entry.waiters != []
        invariant popped <= DonePrefix(ws, futures) && entry.waiters == ws[popped..]
        decreases |entry.waiters|
      {
        var waiter := entry.waiters[0];
        assert waiter == ws[popped];
        entry.waiters := entry.waiters[1..];
        if waiter.state == Pending {
          return Some(waiter);
        }
        popped := popped + 1;
      }
      next := None;
    }

    method ReleaseLocked(key: string, entry: Entry)
      requires Valid() && entry in heap
      modifies this`entries, this`heap, this`futures, entry, futures.Keys
      ensures Valid()
      ensures Value() == Released(old(Value()), key, entry)
    {
      hide DonePrefix;
      hide Registry.Closed;
      ReleasedClosed(Value(), key, entry);
      var next := PopPending(entry);
      if next.Some? {
        next.value.state := Granted;
        futures := futures[next.value := Granted];
      } else {
        entry.active := false;
        entries := entries - {key};
      }
      heap := heap[entry := EntryValue(entry.active, entry.waiters)];
    }

    method DiscardWaiter(key: string, entry: Entry, waiter: Future)
      requires Valid() && entry in heap && waiter in futures
      modifies this`entries, this`heap, this`futures, entry, futures.Keys
      ensures Valid()
      ensures Value() == Discarded(old(Value()), key, entry, waiter)
    {
      var i := IndexOf(entry.waiters, waiter);
      if i < |entry.waiters| {
        entry.waiters := RemoveAt(entry.waiters, i);
        heap := heap[entry := EntryValue(entry.active, entry.waiters)];
      } else if waiter.state != Cancelled {
        ReleaseLocked(key, entry);
      }
    }

    method Release(key: string, entry: Entry)
      requires Valid() && entry in heap
      modifies this`entries, this`heap, this`futures, entry, futures.Keys
      ensures Valid()
      ensures Value() == Released(old(Value()), key, entry)
    {
      ReleaseLocked(key, entry);
    }
  }
}

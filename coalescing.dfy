/** The coalescing ("single-flight") get-cache of lib/getCache.js (and its
    near-copy in lib/cache.js), as a state machine on values.

    Every field of `State` stands for one piece of the running object:
    - `store`     the `store` Store: cached values;
    - `pending`   the keys of the `pending` Store: loads in flight;
    - `listeners` the EventEmitter's one-shot listener table, by event name
                  (`get` registers under `"load:" + key`);
    - `inflight`  one entry per outstanding `getExternal` call: the closure
                  built by `_getAndCache`, i.e. its captured key and the
                  optional direct callback;
    - `deferred`  cache-hit answers queued with `process.nextTick`;
    - `delivered` every callback invocation so far, in order;
    - `loads`     every global `load` event emitted so far;
    - `requests`  every key `getExternal` was called with, in order.

    The asynchronous loader is split in two: starting it appends to
    `requests` and `inflight`; `Complete` is its callback firing. */
module CoalescingSpec {
  import opened Wrappers

  /** One invocation of a user callback with the pair `(err, value)`. */
  datatype Delivery<W, E, V> = Delivery(waiter: W, err: Option<E>, value: V)

  /** One emission of the global event `load` with `(key, err, value)`. */
  datatype LoadEvent<E, V> = LoadEvent(key: string, err: Option<E>, value: V)

  datatype State<W, E, V> = State(
    store: map<string, V>,
    pending: set<string>,
    listeners: map<string, seq<W>>,
    inflight: map<string, Option<W>>,
    deferred: seq<Delivery<W, E, V>>,
    delivered: seq<Delivery<W, E, V>>,
    loads: seq<LoadEvent<E, V>>,
    requests: seq<string>)

  /** A freshly constructed cache: both stores empty, no listeners. */
  function Init<W, E, V>(): State<W, E, V>
  {
    State(map[], {}, map[], map[], [], [], [], [])
  }

  // ---------------------------------------------------------------------
  // Event names

  /** The per-key completion event, `'load:' + key`. */
  function LoadEventName(key: string): string
  {
    "load:" + key
  }

  /** Distinct keys have distinct completion events, and none of them is
      the global `load` event, so waiters for one key never hear another
      key's completion. */
  lemma LoadEventNameInjective(k1: string, k2: string)
    ensures LoadEventName(k1) == LoadEventName(k2) <==> k1 == k2
    ensures LoadEventName(k1) != "load"
  {
    if LoadEventName(k1) == LoadEventName(k2) {
      assert k1 == LoadEventName(k1)[5..];
      assert k2 == LoadEventName(k2)[5..];
    }
    assert |LoadEventName(k1)| >= 5;
  }

  /** The one-shot listeners currently waiting for `key`'s completion, in
      registration order. */
  function Waiters<W, E, V>(s: State<W, E, V>, key: string): seq<W>
  {
    if LoadEventName(key) in s.listeners then s.listeners[LoadEventName(key)] else []
  }

  /** `once(event, cb)`: append `cb` to the listeners of `event`. */
  function Once<W, E, V>(s: State<W, E, V>, event: string, cb: W): State<W, E, V>
  {
    var ws := if event in s.listeners then s.listeners[event] else [];
    s.(listeners := s.listeners[event := ws + [cb]])
  }

  /** The deliveries that one emission of `(err, value)` makes to the
      listeners `ws`: one per listener, in order, all with the same pair. */
  function Fanout<W, E, V>(ws: seq<W>, err: Option<E>, value: V): (r: seq<Delivery<W, E, V>>)
    ensures |r| == |ws|
    ensures forall i :: 0 <= i < |ws| ==> r[i] == Delivery(ws[i], err, value)
  {
    if ws == [] then [] else [Delivery(ws[0], err, value)] + Fanout(ws[1..], err, value)
  }

  /** Emitting to one more listener adds one delivery at the end. */
  lemma {:induction false} FanoutAppend<W, E, V>(ws: seq<W>, w: W, err: Option<E>, value: V)
    ensures Fanout(ws + [w], err, value) == Fanout(ws, err, value) + [Delivery(w, err, value)]
  {
    var l := Fanout(ws + [w], err, value);
    var r := Fanout(ws, err, value) + [Delivery(w, err, value)];
    assert |l| == |r|;
    forall i | 0 <= i < |l| ensures l[i] == r[i] {
      if i < |ws| {
        assert (ws + [w])[i] == ws[i];
      }
    }
  }

  // ---------------------------------------------------------------------
  // Operations, one per method of GetCache

  /** `_ensureLoading(key)`: when the key is pending nothing happens;
      otherwise `_setPending(key)` and then `_getAndCache(key)`, which
      calls `getExternal` once with no direct callback. */
  function EnsureLoading<W, E, V>(s: State<W, E, V>, key: string): State<W, E, V>
  {
    if key in s.pending then s
    else s.(pending := s.pending + {key},
             requests := s.requests + [key],
             inflight := s.inflight[key := None])
  }

  /** `_deferFromCache(key, cb)`: read the cached value now and queue
      `cb(null, value)` for the next tick. */
  function DeferFromCache<W, E, V>(s: State<W, E, V>, key: string, cb: W): State<W, E, V>
    requires key in s.store
  {
    s.(deferred := s.deferred + [Delivery(cb, None, s.store[key])])
  }

  /** `get(key, cb)`: on a hit answer from the cache on the next tick;
      on a miss register `cb` once on `'load:' + key` and ensure a load. */
  function Get<W, E, V>(s: State<W, E, V>, key: string, cb: W): State<W, E, V>
  {
    if key in s.store then DeferFromCache(s, key, cb)
    else EnsureLoading(Once(s, LoadEventName(key), cb), key)
  }

  /** `_emitLoadEvent(key, err, value)`: every one-shot listener of
      `'load:' + key` fires with `(err, value)` and is discarded; then the
      global `load` event carries `(key, err, value)`. */
  function EmitLoadEvent<W, E, V>(s: State<W, E, V>, key: string, err: Option<E>, value: V): State<W, E, V>
  {
    s.(delivered := s.delivered + Fanout(Waiters(s, key), err, value),
       listeners := s.listeners - {LoadEventName(key)},
       loads := s.loads + [LoadEvent(key, err, value)])
  }

  /** The loader callback built by `_getAndCache(key, callback)`, called
      with `(err, value)`: unset pending, cache the value only when `err`
      is falsy, emit the load events, then call the direct callback if one
      was given. */
  function Complete<W, E, V>(s: State<W, E, V>, key: string, err: Option<E>, value: V): State<W, E, V>
    requires key in s.inflight
  {
    var direct := s.inflight[key];
    var s1 := s.(pending := s.pending - {key}, inflight := s.inflight - {key});
    var s2 := if err.None? then s1.(store := s1.store[key := value]) else s1;
    var s3 := EmitLoadEvent(s2, key, err, value);
    if direct.Some? then s3.(delivered := s3.delivered + [Delivery(direct.value, err, value)]) else s3
  }

  /** The `change` handler of `IstanbulCache.listenToWatcher`:
      `store.del(changed)`. Pending loads and waiters are left alone. */
  function Invalidate<W, E, V>(s: State<W, E, V>, changed: string): State<W, E, V>
  {
    s.(store := s.store - {changed})
  }

  /** One turn of the `process.nextTick` queue: the oldest deferred answer
      is delivered. */
  function RunDeferred<W, E, V>(s: State<W, E, V>): State<W, E, V>
  {
    if s.deferred == [] then s
    else s.(deferred := s.deferred[1..], delivered := s.delivered + [s.deferred[0]])
  }

  // ---------------------------------------------------------------------
  // Traces

  /** Everything that can happen to a cache: a caller's `get`, a loader
      callback firing, a watcher `change` event, a tick. */
  datatype Step<W, E, V> =
    | GetStep(key: string, waiter: W)
    | CompleteStep(key: string, err: Option<E>, value: V)
    | ChangeStep(changed: string)
    | TickStep

  /** A loader callback exists only while its load is outstanding; a
      `CompleteStep` for a key with no outstanding load cannot occur and is
      read as doing nothing. */
  function Apply<W, E, V>(s: State<W, E, V>, step: Step<W, E, V>): State<W, E, V>
  {
    match step
    case GetStep(key, w) => Get(s, key, w)
    case CompleteStep(key, err, value) => if key in s.inflight then Complete(s, key, err, value) else s
    case ChangeStep(changed) => Invalidate(s, changed)
    case TickStep => RunDeferred(s)
  }

  function Run<W, E, V>(s: State<W, E, V>, steps: seq<Step<W, E, V>>): State<W, E, V>
    decreases |steps|
  {
    if steps == [] then s else Run(Apply(s, steps[0]), steps[1..])
  }

  // ---------------------------------------------------------------------
  // The invariant

  /** The keys of the completed loads, in completion order. */
  function CompletedKeys<E, V>(loads: seq<LoadEvent<E, V>>): (r: seq<string>)
    ensures |r| == |loads|
    ensures forall i :: 0 <= i < |loads| ==> r[i] == loads[i].key
  {
    if loads == [] then [] else [loads[0].key] + CompletedKeys(loads[1..])
  }

  /** How many `getExternal(key)` calls have started and not called back. */
  function Outstanding<W, E, V>(s: State<W, E, V>, key: string): int
  {
    (multiset(s.requests)[key] as int) - multiset(CompletedKeys(s.loads))[key]
  }

  /** A key is pending exactly when a loader callback for it is live. */
  ghost predicate PendingIsInflight<W, E, V>(s: State<W, E, V>)
  {
    s.inflight.Keys == s.pending
  }

  /** Single flight: a pending key has exactly one outstanding
      `getExternal` call, any other key none. */
  ghost predicate OneLoadPerKey<W, E, V>(s: State<W, E, V>)
  {
    forall k :: Outstanding(s, k) == if k in s.pending then 1 else 0
  }

  /** No key is both cached and loading. */
  ghost predicate CachedNotLoading<W, E, V>(s: State<W, E, V>)
  {
    s.pending !! s.store.Keys
  }

  /** Nobody waits for a key that is not loading, so every waiter will be
      answered by the load in flight. */
  ghost predicate WaitersHaveLoad<W, E, V>(s: State<W, E, V>)
  {
    forall k :: LoadEventName(k) in s.listeners ==> k in s.pending
  }

  /** What every reachable state satisfies. */
  ghost predicate Inv<W, E, V>(s: State<W, E, V>)
  {
    && PendingIsInflight(s)
    && OneLoadPerKey(s)
    && CachedNotLoading(s)
    && WaitersHaveLoad(s)
  }
}

# istanbul-server's coalescing get-cache, in Dafny

istanbul-server serves source files instrumented for coverage. Instrumenting
a file is expensive, so every file goes through a coalescing
("single-flight") cache, `GetCache`:

- a `get` of a cached key is answered from the cache on the next tick;
- a `get` of an uncached key registers its callback as a one-shot listener
  for `'load:' + key` and starts the loader (`getExternal`), unless a load of
  that key is already pending;
- when the loader calls back, the key stops being pending, the value is
  cached only if there was no error, and every waiting callback receives the
  same `(err, value)`.

`IstanbulCache` is that cache with three changes:

- its loader instruments the file `path.join(rootDir, key)`;
- its options are merged with the defaults `{rootDir: '', sourceDir: ''}`;
- a `WatchEmitter` on `sourceDir` reports changed paths, and each report
  deletes the store entry whose key is the reported path. The path is not
  mapped back through `mapToFs`, so an entry is dropped only when its key is
  exactly the path the watcher reports. Loads already in flight are not
  touched.

The model has these files:

- `store.dfy`: `KeyedStore.Store`, the string-keyed mutable map. It has one
  copy in lib/getCache.js and one in lib/cache.js.
- `coalescing.dfy`: `CoalescingSpec`, the cache as a state machine on
  values. Its state holds:
  - the store;
  - the pending keys;
  - the listener table, by event name;
  - the live loader closures;
  - the `nextTick` queue;
  - logs of the callback invocations, of the `load` events and of the
    `getExternal` calls.
  The loader is split into two steps: `get` starts it, and a separate
  `Complete` step plays its callback. The file also holds the invariant
  `Inv`.
- `coalescing_props.dfy`: `CoalescingProperties`, the lemmas about that
  machine. They cover:
  - single flight, over any trace of gets, completions, watcher events and
    ticks;
  - fan-out of one result to every waiter, in registration order;
  - no negative caching;
  - asynchronous hits;
  - invalidation, including the race with a load in flight.
- `get_cache.dfy`: the class `GetCacheModule.GetCache`. It owns two `Store`
  objects, as the source does. Each public method is proved to move
  `Model()` exactly as the matching `CoalescingSpec` function does and to
  keep `Valid()`. lib/cache.js has the same class without the `initialize`
  hook, and the same members model it.
- `watch.dfy`: `Watch.WatchEmitter`.
- `istanbul_cache.dfy`: `Istanbul`. It holds the option merging, the
  loader request (`ExternalCall`) and the class `IstanbulCache`. The class
  holds a `GetCache`, because Backbone's `extend` becomes composition here.
- `scenarios.dfy`: callers written against the contracts alone. They
  follow the behaviours that the repository's tests describe.
- `object_keys.dfy`: `ObjectKeys`, `get` and the loader callback over the
  plain JavaScript objects the source's `Store` really uses, where the key
  `__proto__` is never an own key (see "## Findings").
- `wrappers.dfy`: `Option`. A falsy JavaScript `err` is `None`.

Where the code and its tests disagree, the model follows the code:

- test/test_istanbulCache.js:101-112 expects a two-argument
  `loadInstrumentedFile`. The code passes three arguments: file, script
  name and callback.
- One might expect a store entry to mean "the last load succeeded and no
  change happened since". The code does not keep that promise. A change
  event during a load does not cancel the load, and the load's completion
  stores its value again. The model keeps this race
  (`InvalidationRaceRepopulates`).

## Model

| member | source | states |
|---|---|---|
| KeyedStore.Store.constructor | lib/getCache.js:7-9 | a new store is empty |
| KeyedStore.Store.Get | lib/getCache.js:12-14 | returns the stored value, or `None` (undefined) exactly when the key is absent |
| KeyedStore.Store.Put | lib/getCache.js:15-17 | afterwards the key maps to the value and every other key keeps its value |
| KeyedStore.Store.Has | lib/getCache.js:18-20 | true exactly when the key is present |
| KeyedStore.Store.Del | lib/cache.js:34-38 | removes that key and no other; an absent key leaves the map unchanged |
| CoalescingSpec.LoadEventNameInjective | lib/getCache.js:61-64 | `'load:' + key` names are distinct for distinct keys and never equal the global `load` event |
| CoalescingSpec.Fanout | lib/getCache.js:61-64 | one emission gives one delivery per listener, in order, each with the identical `(err, value)` |
| CoalescingProperties.EnsureLoadingStartsAtMostOne | lib/getCache.js:80-85 | when pending, nothing changes; otherwise the key becomes pending and exactly one `getExternal(key)` is logged; store, waiters and deliveries are untouched |
| CoalescingProperties.GetKeepsInv | lib/getCache.js:95-101 | `get` keeps the invariant: pending equals the live loader closures, one outstanding load per pending key and none otherwise, no key cached and loading, no waiter without a load |
| CoalescingProperties.CompleteKeepsInv | lib/getCache.js:66-78 | the loader callback keeps the same invariant |
| CoalescingProperties.InvalidateKeepsInv | lib/istanbulCache.js:31-36 | a watcher `change` keeps the same invariant |
| CoalescingProperties.RunKeepsInv | lib/getCache.js:80-101 | any trace of gets, completions, changes and ticks keeps the invariant |
| CoalescingProperties.SingleFlight | lib/cache.js:91-96 | from a new cache, after any trace, each key has at most one `getExternal` without a callback yet, one exactly when it is pending; a pending key is not cached; a key with waiters is pending |
| CoalescingProperties.LoadStartsOnlyWhenIdle | lib/cache.js:106-112 | a step starts a load only when it is a `get` of a key that is neither cached nor pending, and it then starts exactly one |
| CoalescingProperties.HitShortCircuits | lib/getCache.js:95-98 | a hit queues `(null, store[key])` read at call time and changes no waiters, pending keys, loads, store or deliveries |
| CoalescingProperties.MissRegistersWaiter | lib/getCache.js:99-100 | a miss appends the callback to that key's waiters only, delivers nothing now, leaves the key pending, and starts a load exactly when none was pending |
| CoalescingProperties.GetIsAsynchronous | lib/getCache.js:54-59 | with a loader that calls back after `getExternal` returns, as the program's two loaders do, `get` never invokes a callback during the call |
| CoalescingProperties.HitAnswerFixedAtCall | lib/cache.js:65-70 | the deferred hit answer carries the value cached at call time, even if the key is invalidated before the tick |
| CoalescingProperties.CompleteFansOut | lib/cache.js:77-89 | completion clears pending, stores the value iff `err` is falsy, delivers the identical `(err, value)` to every waiter of the key in registration order and then to the direct callback, empties that key's waiters only, and emits `load` with `(key, err, value)` |
| CoalescingProperties.FailedLoadIsRetried | lib/getCache.js:68-72 | after a failed load the key is neither cached nor pending, and the next `get` starts a fresh `getExternal` |
| CoalescingProperties.LoadedValueIsServed | lib/getCache.js:70-72 | after a successful load the next `get` is answered with that value and starts no load |
| CoalescingProperties.InvalidateRemovesOnlyThatKey | lib/istanbulCache.js:33-35 | a change of `p` removes exactly key `p` from the store; other entries, pending keys, loader closures, waiters and logs are unchanged |
| CoalescingProperties.InvalidateThenGetReloads | lib/istanbulCache.js:31-36 | with no load in flight, the `get` after a change starts a new `getExternal` instead of answering from the cache |
| CoalescingProperties.InvalidationRaceRepopulates | lib/istanbulCache.js:34 | a change during a load in flight does not cancel it; its completion stores the value again, as if no change had happened |
| GetCacheModule.DefaultExternalValue | lib/cache.js:98-104 | the default loader's value is `'external_value_for_'` followed by the key, so the key can be read back from it |
| GetCacheModule.GetCache.constructor | lib/getCache.js:29-34 | two fresh stores, the abstract state of a new cache, and the invariant |
| GetCacheModule.GetCache.SetPending | lib/getCache.js:42-44 | `pending` gains `key -> true` |
| GetCacheModule.GetCache.UnsetPending | lib/getCache.js:46-48 | `pending` loses `key` |
| GetCacheModule.GetCache.IsPending | lib/getCache.js:50-52 | true exactly when `key` is in `pending` |
| GetCacheModule.GetCache.Once | lib/getCache.js:99 | the callback becomes the last one-shot listener of the event |
| GetCacheModule.GetCache.DeferFromCache | lib/getCache.js:54-59 | queues `(null, value)` with the value read now; nothing is invoked |
| GetCacheModule.GetCache.EmitLoadEvent | lib/getCache.js:61-64 | its loop invokes each `'load:' + key` listener in order with `(err, value)` and discards them, then logs the global `load` event |
| GetCacheModule.GetCache.GetAndCache | lib/getCache.js:66-68 | logs one `getExternal(key)` call and keeps its closure, with the direct callback, live as the one closure of that key |
| GetCacheModule.GetCache.EnsureLoading | lib/getCache.js:80-85 | moves the state exactly as `CoalescingSpec.EnsureLoading` |
| GetCacheModule.GetCache.Get | lib/getCache.js:95-101 | moves the state exactly as `CoalescingSpec.Get` and keeps the invariant |
| GetCacheModule.GetCache.Complete | lib/getCache.js:68-77 | the loader callback for a pending key moves the state exactly as `CoalescingSpec.Complete` and keeps the invariant |
| GetCacheModule.GetCache.RunDeferred | lib/getCache.js:56-58 | one `nextTick` turn delivers the oldest queued answer |
| Watch.WatchEmitter.constructor | lib/istanbulCache.js:12-17 | the emitter watches the given directory and has emitted nothing |
| Watch.WatchEmitter.OnWatch | lib/cache.js:10-15 | each watch callback emits exactly one `change` event, carrying the path unchanged |
| Istanbul.MergeOptions | lib/istanbulCache.js:38-41 | the supplied options override the defaults key by key; `rootDir` and `sourceDir` default to `''`; extra keys are kept |
| Istanbul.MergedPathsAreText | lib/istanbulCache.js:37-41 | after merging, both path options are present strings, taken from the supplied options when given and `''` otherwise |
| Istanbul.IstanbulCache.constructor | lib/istanbulCache.js:37-44 | options are the merged options; a new empty cache is created; one new watcher on `options.sourceDir` has emitted nothing yet |
| Istanbul.IstanbulCache.ExternalCallFor | lib/istanbulCache.js:23-30 | `getExternal(key)` asks the instrumenter for the file `join(rootDir, key)` under the script name `key` |
| Istanbul.IstanbulCache.Get | lib/istanbulCache.js:26-30 | `get` as in `GetCache`; the instrumenter requests grow by `loadInstrumentedFile(join(rootDir, key), key)` exactly when the key was neither cached nor pending |
| Istanbul.IstanbulCache.Complete | lib/istanbulCache.js:29 | the instrumenter's callback is the `GetCache` loader callback |
| Istanbul.IstanbulCache.Invalidate | lib/istanbulCache.js:31-36 | the `change` handler does `store.del(changed)` and keeps the invariant |
| Istanbul.IstanbulCache.WatchCallback | lib/istanbulCache.js:42-43 | a watcher callback emits one `change` event and the subscribed handler invalidates that path |
| Scenarios.OverlappingGets | test/test_getCache.js:236-248 | two overlapping gets start one load; its result reaches both callbacks, in order, and is cached |
| Scenarios.TwoWaitersOneLoad | lib/getCache.js:95-101 | the same on a `GetCache` object: answers are `[(x, null, v), (y, null, v)]`, and nothing is pending afterwards |
| Scenarios.DefaultLoaderThenHitSpec | test/test_getCache.js:131-139 | the stub loader's value reaches the first caller; the second `get` is answered from the cache without a new load |
| Scenarios.DefaultLoaderThenHit | lib/getCache.js:87-98 | the same on a `GetCache` object |
| Scenarios.FailedLoadRetriedSpec | test/test_getCache.js:171-182 | a failed load reaches its waiter with the error, is not cached, and the next `get` starts a second load |
| Scenarios.FailedLoadRetried | lib/getCache.js:66-85 | the same on a `GetCache` object |
| Scenarios.ChangeThenGetSpec | test/test_istanbulCache.js:114-129 | a cached entry whose file changes is dropped; the next `get` starts a second load |
| Scenarios.ChangedFileIsReloaded | lib/istanbulCache.js:23-36 | the same on an `IstanbulCache` object, when the watcher reports the key itself as the changed path |
| ObjectKeys.AsWrittenAgreesOffProtoKey | lib/getCache.js:15-20 | with plain-object stores, `get` and the loader callback of any key other than `__proto__` move the state exactly as the model's map-based `Get` and `Complete` do |
| ObjectKeys.ProtoKeyLoadsTwice | lib/getCache.js:42-44 | with plain-object stores, two overlapping `get('__proto__', …)` on a new cache call `getExternal` twice, never mark the key pending, and leave two loads outstanding; the model's `Get` calls it once |
| ObjectKeys.ProtoKeyNeverCached | lib/getCache.js:70-72 | with plain-object stores, a successful load of `__proto__` is not cached; in the model it is |

## Left out

- HTTP and coverage glue is not part of this model. That covers
  lib/middleware.js, lib/server.js, src/main.js, run.js, lib/instrument.js
  (the istanbul `Instrumenter`/`Collector` calls and `fs.readFile`) and
  src/util.js. The instrumenter is described only by the request it gets
  (`ExternalCall`). Its answer arrives through `Complete`.
- The `node-watch` primitive is not modelled. A call of
  `WatchEmitter.OnWatch` stands for one invocation of its callback.
- `listenToWatcher` can be called on any emitter. The model wires only the
  watcher that `initialize` creates (`WatchCallback`), and subscribes it
  once.
- EventEmitter internals are not modelled. Listeners are recorded as
  deliveries, not run. So a callback that calls `get` while `emit` is
  delivering (re-entrancy) is not modelled. Listeners that other code adds
  with `on` are not modelled either. The global `load` event is only
  logged.
- `process.nextTick` is only a FIFO queue (`deferred`) drained by
  `RunDeferred`. Interleavings come from the order of steps a caller
  chooses. The default `getExternal` also answers on the next tick. In the
  model that answer is the later `Complete` step with
  `DefaultExternalValue(key)`.
- A loader must call back exactly once, while its key is pending.
  `GetCache.Complete` requires this. In traces, `Apply` treats a completion
  for a key with no live closure as a no-op. The source does not guard
  against a loader that calls back twice.
- Falsy errors become `None`. That makes `null`, `undefined`, `''`, `0` and
  `false` alike. A falsy non-null `err` such as `''` reaches waiters as
  `None`, not as itself.
- `path.join` is not interpreted. It is the constructor parameter `join`.
- Option values other than the two paths stand in as `Flag`s. The
  constructor requires `rootDir` and `sourceDir` to be strings when given,
  because `path.join` and `node-watch` need strings.
- Backbone's `extend` is not modelled. `IstanbulCache` is a `GetCache` with
  fixed overrides, by composition. The no-op `initialize` hook of
  lib/getCache.js:40 is the empty part of `GetCache`'s constructor.
- `_getAndCache` can be called with a direct callback. Only
  `GetCache.GetAndCache` accepts one. The live path, `_ensureLoading`,
  passes none, so `EnsureLoading` records `None`.
- KeyedStore.Store.Put: `entries` is a map with no prototype. The source's
  `_store` is a plain object `{}`, where `put('__proto__', v)` calls the
  inherited `__proto__` setter and never makes the key present. The
  as-written behaviour is in `ObjectKeys`, and "## Findings" records it.
- KeyedStore.Store.Get: an absent key gives `None`. In the source, an absent
  key that names an inherited member of `Object.prototype` (`constructor`,
  `toString`, `hasOwnProperty`, `__proto__` and the like) returns that
  member, not `undefined`. `get` of the cache does not reach this, because
  it reads the store only after `has` (own keys) is true. Other absent keys
  give `undefined`. A value stored as `undefined` is an ordinary value `V`.
- CoalescingProperties.SingleFlight: holds for the model's prototype-free
  stores, for every key. With the source's plain objects it fails for the
  key `__proto__` alone (`ObjectKeys.ProtoKeyLoadsTwice`). For every other
  key the two agree (`ObjectKeys.AsWrittenAgreesOffProtoKey`).
- GetCacheModule.GetCache.GetAndCache: one live loader closure per key is
  kept. A direct second `_getAndCache` call for a key whose closure is still
  live replaces it in `inflight`, while the source keeps both closures live.
  The cache's own path never does this: `_ensureLoading` calls it only for
  a key that is not pending, and `Valid()` makes pending equal to the live
  closures.
- CoalescingProperties.GetIsAsynchronous: it relies on the loader calling
  back after `getExternal` returns, as both loaders of the program do. Those
  are the default stub through `process.nextTick` (lib/getCache.js:90) and
  the instrumenter through `fs.readFile`. An overridden `getExternal` that
  calls back before it returns would make `get` invoke its waiter during the
  call. The model cannot express this, because it always plays the callback
  as a separate `Complete` step.

## Findings

| source | as written | input that shows it | evidently intended | confidence | as-written member | corrected member |
|---|---|---|---|---|---|---|
| lib/getCache.js:15-20 | `put` assigns `this._store[key]` on a plain object `{}`, and `has` tests own keys with `_.has` | `get('__proto__', cb1); get('__proto__', cb2)` on a new cache: `_setPending` is lost, so `getExternal` is called twice, and a successful load is never cached | every string key, `__proto__` included, is an ordinary key (a prototype-free object or a `Map`), so that key is loaded once and cached | medium, not executed | ObjectKeys.ProtoKeyLoadsTwice | CoalescingProperties.SingleFlight |

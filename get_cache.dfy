/** `GetCache` of lib/getCache.js (lib/cache.js has the same class without
    the `initialize` hook): an object owning two `Store`s, `store` for
    cached values and `pending` for loads in flight, plus the EventEmitter
    listener table its `get` registers on.

    Each public method is proved against the state machine of
    `CoalescingSpec`: its new `Model()` is the matching function of the old
    one, and `Valid()` (the invariant `CoalescingSpec.Inv`) is kept, so
    every lemma of `CoalescingProperties` holds of the object. */
module GetCacheModule {
  import opened Wrappers
  import opened KeyedStore
  import Spec = CoalescingSpec
  import Props = CoalescingProperties

  /** The default `getExternal`, meant to be overridden: it answers
      `(null, 'external_value_for_' + key)` on the next tick. The key can
      be read back from the value. */
  function DefaultExternalValue(key: string): (v: string)
    ensures |v| == |"external_value_for_"| + |key|
    ensures v[..|"external_value_for_"|] == "external_value_for_"
    ensures v[|"external_value_for_"|..] == key
  {
    "external_value_for_" + key
  }

  class GetCache<W, E, V> {
    const store: Store<V>
    const pending: Store<bool>
    /** The EventEmitter's one-shot listeners, by event name. */
    var listeners: map<string, seq<W>>
    /** The closures handed to `getExternal` that have not been called back:
        key to the optional direct callback `_getAndCache` captured. */
    var inflight: map<string, Option<W>>
    /** Cache-hit answers queued with `process.nextTick`. */
    var deferred: seq<Spec.Delivery<W, E, V>>
    /** Every callback invocation so far, in order. */
    var delivered: seq<Spec.Delivery<W, E, V>>
    /** Every global `load` event so far. */
    var loads: seq<Spec.LoadEvent<E, V>>
    /** Every key `getExternal` has been called with. */
    ghost var requests: seq<string>

    ghost function Model(): Spec.State<W, E, V>
      reads this, store, pending
    {
      Spec.State(store.entries, pending.entries.Keys, listeners, inflight,
                 deferred, delivered, loads, requests)
    }

    ghost predicate Valid()
      reads this, store, pending
    {
      && store as object != pending as object
      && Spec.Inv(Model())
    }

    /** `new GetCache()`: two fresh, empty stores and no listeners. */
    constructor ()
      ensures Valid() && Model() == Spec.Init()
      ensures fresh(store) && fresh(pending)
    {
      store := new Store();
      pending := new Store();
      listeners, inflight := map[], map[];
      deferred, delivered, loads := [], [], [];
      requests := [];
      new;
      assert Spec.CompletedKeys(loads) == [];
    }

    /** `_setPending(key)`: `pending.put(key, true)`. */
    method SetPending(key: string)
      modifies pending
      ensures pending.entries == old(pending.entries)[key := true]
    {
      pending.Put(key, true);
    }

    /** `_unsetPending(key)`: `pending.del(key)`. */
    method UnsetPending(key: string)
      modifies pending
      ensures pending.entries == old(pending.entries) - {key}
    {
      pending.Del(key);
    }

    /** `_isPending(key)`: `pending.has(key)`. */
    method IsPending(key: string) returns (b: bool)
      ensures b <==> key in pending.entries
    {
      b := pending.Has(key);
    }

    /** `once(event, cb)`: `cb` becomes the last listener of `event`. */
    method Once(event: string, cb: W)
      modifies this`listeners
      ensures listeners == Spec.Once(old(Model()), event, cb).listeners
    {
      var ws := if event in listeners then listeners[event] else [];
      listeners := listeners[event := ws + [cb]];
    }

    /** `_deferFromCache(key, cb)`: the value is read now; `cb(null, value)`
        is queued for the next tick, not called. */
    method DeferFromCache(key: string, cb: W)
      requires key in store.entries
      modifies this`deferred
      ensures deferred == old(deferred) + [Spec.Delivery(cb, None, store.entries[key])]
    {
      var value := store.Get(key);
      deferred := deferred + [Spec.Delivery(cb, None, value.value)];
    }

    /** `_emitLoadEvent(key, err, value)`: `emit('load:' + key, err, value)`
        calls and discards each one-shot listener in registration order;
        then `emit('load', key, err, value)`. */
    method EmitLoadEvent(key: string, err: Option<E>, value: V)
      modifies this`listeners, this`delivered, this`loads
      ensures listeners == old(listeners) - {Spec.LoadEventName(key)}
      ensures delivered == old(delivered) + Spec.Fanout(Spec.Waiters(old(Model()), key), err, value)
      ensures loads == old(loads) + [Spec.LoadEvent(key, err, value)]
    {
      var event := Spec.LoadEventName(key);
      var ws := if event in listeners then listeners[event] else [];
      assert ws == Spec.Waiters(old(Model()), key);
      listeners := listeners - {event};
      var i := 0;
      while i < |ws|
        invariant 0 <= i <= |ws|
        invariant delivered == old(delivered) + Spec.Fanout(ws[..i], err, value)
        invariant listeners == old(listeners) - {event}
        invariant loads == old(loads)
      {
        assert ws[..i + 1] == ws[..i] + [ws[i]];
        Spec.FanoutAppend(ws[..i], ws[i], err, value);
        delivered := delivered + [Spec.Delivery(ws[i], err, value)];
        i := i + 1;
      }
      assert ws[..i] == ws;
      loads := loads + [Spec.LoadEvent(key, err, value)];
    }

    /** `_getAndCache(key, callback)`: calls `getExternal(key, closure)`;
        the closure, holding `key` and `callback`, stays live until the
        loader calls it (see `Complete`). */
    method GetAndCache(key: string, callback: Option<W>)
      modifies this`requests, this`inflight
      ensures requests == old(requests) + [key]
      ensures inflight == old(inflight)[key := callback]
    {
      requests := requests + [key];
      inflight := inflight[key := callback];
    }

    /** `_ensureLoading(key)`: a load starts only when the key is not
        pending, and pending is set before it starts. */
    method EnsureLoading(key: string)
      requires store as object != pending as object
      modifies this`requests, this`inflight, pending
      ensures Model() == Spec.EnsureLoading(old(Model()), key)
    {
      var isPending := IsPending(key);
      if !isPending {
        SetPending(key);
        GetAndCache(key, None);
      }
    }

    /** `get(key, cb)`. */
    method Get(key: string, cb: W)
      requires Valid()
      modifies this, pending
      ensures Valid()
      ensures Model() == Spec.Get(old(Model()), key, cb)
    {
      ghost var before := Model();
      var hit := store.Has(key);
      if hit {
        DeferFromCache(key, cb);
        assert Model() == Spec.DeferFromCache(before, key, cb);
      } else {
        Once(Spec.LoadEventName(key), cb);
        assert Model() == Spec.Once(before, Spec.LoadEventName(key), cb);
        EnsureLoading(key);
      }
      Props.GetKeepsInv(before, key, cb);
    }

    /** The closure `_getAndCache` handed to `getExternal`, called by the
        loader with `(err, value)`: unset pending, cache only on a falsy
        `err`, emit the load events, then the direct callback. A loader
        calls back once, while its key is pending. */
    method Complete(key: string, err: Option<E>, value: V)
      requires Valid()
      requires key in pending.entries
      modifies this, store, pending
      ensures Valid()
      ensures Model() == Spec.Complete(old(Model()), key, err, value)
    {
      ghost var before := Model();
      var direct := inflight[key];
      inflight := inflight - {key};
      UnsetPending(key);
      ghost var s1 := before.(pending := before.pending - {key}, inflight := before.inflight - {key});
      assert Model() == s1;
      if err.None? {
        store.Put(key, value);
      }
      ghost var s2 := if err.None? then s1.(store := s1.store[key := value]) else s1;
      assert Model() == s2;
      EmitLoadEvent(key, err, value);
      assert Model() == Spec.EmitLoadEvent(s2, key, err, value);
      if direct.Some? {
        delivered := delivered + [Spec.Delivery(direct.value, err, value)];
      }
      Props.CompleteKeepsInv(before, key, err, value);
    }

    /** One turn of the `process.nextTick` queue. */
    method RunDeferred()
      requires Valid()
      modifies this
      ensures Valid()
      ensures Model() == Spec.RunDeferred(old(Model()))
    {
      if deferred != [] {
        delivered := delivered + [deferred[0]];
        deferred := deferred[1..];
      }
    }
  }
}

/** ObjectKeys: the two `Store`s of lib/getCache.js as written, on plain
    JavaScript objects (`this._store = {}`), next to the prototype-free map
    the rest of the model uses.

    A plain object inherits an accessor named `__proto__`. The assignment
    `this._store['__proto__'] = val` calls that accessor instead of making
    an own property, and `_.has` tests own properties only. So for that one
    key `put` never makes the key present, and `_setPending` cannot mark it
    pending. Every other key behaves as in `CoalescingSpec`. */
module ObjectKeys {
  import opened Wrappers
  import opened CoalescingSpec

  /** The one key a plain object does not store as its own. */
  const ProtoKey: string := "__proto__"

  /** The own entries of a plain object after `obj[key] = val`. */
  function AssignOwn<V>(own: map<string, V>, key: string, val: V): map<string, V>
  {
    if key == ProtoKey then own else own[key := val]
  }

  /** `_ensureLoading(key)` over a `pending` store that is a plain object:
      the test `_isPending` and the load are as in `CoalescingSpec`, but
      `_setPending` of `__proto__` is lost. */
  function EnsureLoadingAsWritten<W, E, V>(s: State<W, E, V>, key: string): State<W, E, V>
  {
    if key in s.pending then s
    else s.(pending := AssignOwn(map k | k in s.pending :: true, key, true).Keys,
             requests := s.requests + [key],
             inflight := s.inflight[key := None])
  }

  /** `get(key, cb)` over plain-object stores. */
  function GetAsWritten<W, E, V>(s: State<W, E, V>, key: string, cb: W): State<W, E, V>
  {
    if key in s.store then DeferFromCache(s, key, cb)
    else EnsureLoadingAsWritten(Once(s, LoadEventName(key), cb), key)
  }

  /** The loader callback over plain-object stores: `store.put` of
      `__proto__` is lost as well. */
  function CompleteAsWritten<W, E, V>(s: State<W, E, V>, key: string, err: Option<E>, value: V): State<W, E, V>
    requires key in s.inflight
  {
    var direct := s.inflight[key];
    var s1 := s.(pending := s.pending - {key}, inflight := s.inflight - {key});
    var s2 := if err.None? then s1.(store := AssignOwn(s1.store, key, value)) else s1;
    var s3 := EmitLoadEvent(s2, key, err, value);
    if direct.Some? then s3.(delivered := s3.delivered + [Delivery(direct.value, err, value)]) else s3
  }

  /** For every key but `__proto__`, plain-object stores and the model's
      maps give the same `get` and the same loader callback. */
  lemma AsWrittenAgreesOffProtoKey<W, E, V>(s: State<W, E, V>, key: string, cb: W, err: Option<E>, value: V)
    requires key != ProtoKey
    ensures GetAsWritten(s, key, cb) == Get(s, key, cb)
    ensures key in s.inflight ==> CompleteAsWritten(s, key, err, value) == Complete(s, key, err, value)
  {
    if key !in s.store {
      var s1 := Once(s, LoadEventName(key), cb);
      if key !in s1.pending {
        assert (map k | k in s1.pending :: true)[key := true].Keys == s1.pending + {key};
      }
    }
  }

  /** The discrepancy: two overlapping `get('__proto__', …)` on a new cache
      call `getExternal` twice, the key never becomes pending, and both
      loads are outstanding at once. The model's `Get` calls it once
      (`CoalescingProperties.SingleFlight`). */
  lemma ProtoKeyLoadsTwice<W, E, V>(x: W, y: W)
    ensures var s := GetAsWritten(GetAsWritten(Init<W, E, V>(), ProtoKey, x), ProtoKey, y);
      && s.requests == [ProtoKey, ProtoKey]
      && ProtoKey !in s.pending
      && Outstanding(s, ProtoKey) == 2
      && Waiters(s, ProtoKey) == [x, y]
    ensures Get(Get(Init<W, E, V>(), ProtoKey, x), ProtoKey, y).requests == [ProtoKey]
  {
    var s0: State<W, E, V> := Init();
    var s1 := GetAsWritten(s0, ProtoKey, x);
    assert (map k | k in s0.pending :: true) == map[];
    assert s1.pending == {};
    var s2 := GetAsWritten(s1, ProtoKey, y);
    assert (map k | k in s1.pending :: true) == map[];
    assert s2.requests == [ProtoKey, ProtoKey];
    assert multiset(s2.requests)[ProtoKey] == 2;
    assert CompletedKeys(s2.loads) == [];
  }

  /** A successful load of `__proto__` is not cached as written, so every
      later `get` of it loads again. */
  lemma ProtoKeyNeverCached<W, E, V>(s: State<W, E, V>, value: V)
    requires ProtoKey in s.inflight
    requires ProtoKey !in s.store
    ensures ProtoKey !in CompleteAsWritten(s, ProtoKey, None, value).store
    ensures ProtoKey in Complete(s, ProtoKey, None, value).store
  {
  }
}

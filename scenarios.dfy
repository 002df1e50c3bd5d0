/** Callers of the cache objects, written against their contracts alone:
    the behaviours the repository's tests describe, first as facts about
    the state machine, then on real objects. Callbacks, errors and values
    are named by strings. */
module Scenarios {
  import opened Wrappers
  import opened CoalescingSpec
  import opened CoalescingProperties
  import opened GetCacheModule
  import opened Istanbul

  /** Two overlapping `get`s of one key start one load; when it calls back,
      both callbacks receive its result, in registration order. */
  lemma OverlappingGets(a: string, x: string, y: string, v: string)
    ensures var s2 := Get(Get(Init<string, string, string>(), a, x), a, y);
      && s2.requests == [a]
      && a in s2.inflight
      && Complete(s2, a, None, v).delivered == [Delivery(x, None, v), Delivery(y, None, v)]
      && Complete(s2, a, None, v).pending == {}
      && Complete(s2, a, None, v).store == map[a := v]
  {
    var s0: State<string, string, string> := Init();
    var s1 := Get(s0, a, x);
    MissRegistersWaiter(s0, a, x);
    var s2 := Get(s1, a, y);
    MissRegistersWaiter(s1, a, y);
    assert Waiters(s2, a) == [x, y];
    CompleteFansOut(s2, a, None, v);
  }

  method TwoWaitersOneLoad(key: string, x: string, y: string, v: string)
    returns (answers: seq<Delivery<string, string, string>>, loading: bool)
    ensures answers == [Delivery(x, None, v), Delivery(y, None, v)]
    ensures !loading
  {
    var c := new GetCache<string, string, string>();
    c.Get(key, x);
    c.Get(key, y);
    OverlappingGets(key, x, y, v);
    c.Complete(key, None, v);
    answers := c.delivered;
    loading := c.IsPending(key);
  }

  /** With the default `getExternal`, the first `get` receives
      `(null, 'external_value_for_' + key)`; a second `get` is answered
      from the cache on the next tick and starts no load. */
  lemma DefaultLoaderThenHitSpec(key: string, x: string, z: string)
    ensures var s1 := Get(Init<string, string, string>(), key, x);
      && key in s1.inflight
      && var s2 := Complete(s1, key, None, DefaultExternalValue(key));
      && s2.store == map[key := "external_value_for_" + key]
      && Get(s2, key, z).requests == [key]
      && RunDeferred(Get(s2, key, z)).delivered
         == [Delivery(x, None, "external_value_for_" + key), Delivery(z, None, "external_value_for_" + key)]
  {
    var s0: State<string, string, string> := Init();
    var s1 := Get(s0, key, x);
    MissRegistersWaiter(s0, key, x);
    assert Waiters(s1, key) == [x];
    var s2 := Complete(s1, key, None, DefaultExternalValue(key));
    CompleteFansOut(s1, key, None, DefaultExternalValue(key));
    HitShortCircuits(s2, key, z);
  }

  method DefaultLoaderThenHit(key: string, x: string, z: string)
    returns (answers: seq<Delivery<string, string, string>>, cached: Option<string>)
    ensures answers == [Delivery(x, None, "external_value_for_" + key),
                        Delivery(z, None, "external_value_for_" + key)]
    ensures cached == Some("external_value_for_" + key)
  {
    var c := new GetCache<string, string, string>();
    c.Get(key, x);
    DefaultLoaderThenHitSpec(key, x, z);
    c.Complete(key, None, DefaultExternalValue(key));
    c.Get(key, z);
    c.RunDeferred();
    answers := c.delivered;
    cached := c.store.Get(key);
  }

  /** A failed load reaches its waiter with the error, is not cached, and
      the next `get` starts a second load. */
  lemma FailedLoadRetriedSpec(key: string, x: string, e: string, v: string)
    ensures var s1 := Get(Init<string, string, string>(), key, x);
      && key in s1.inflight
      && var s2 := Complete(s1, key, Some(e), v);
      && s2.delivered == [Delivery(x, Some(e), v)]
      && key !in s2.store
      && key in Get(s2, key, x).pending
      && Get(s2, key, x).requests == [key, key]
  {
    var s0: State<string, string, string> := Init();
    var s1 := Get(s0, key, x);
    MissRegistersWaiter(s0, key, x);
    assert Waiters(s1, key) == [x];
    CompleteFansOut(s1, key, Some(e), v);
    assert CompletedKeys(s0.loads) == [];
    GetKeepsInv(s0, key, x);
    FailedLoadIsRetried(s1, key, e, v, x);
  }

  method FailedLoadRetried(key: string, x: string, e: string, v: string)
    returns (answers: seq<Delivery<string, string, string>>, cachedAfterFailure: bool, reloading: bool)
    ensures answers == [Delivery(x, Some(e), v)]
    ensures !cachedAfterFailure
    ensures reloading
  {
    var c := new GetCache<string, string, string>();
    c.Get(key, x);
    FailedLoadRetriedSpec(key, x, e, v);
    c.Complete(key, Some(e), v);
    answers := c.delivered;
    cachedAfterFailure := c.store.Has(key);
    c.Get(key, x);
    reloading := c.IsPending(key);
  }

  /** A cached entry whose file changes is dropped, and the next `get`
      starts a second load of the same key. */
  lemma ChangeThenGetSpec(key: string, x: string, code: string)
    ensures var s1 := Get(Init<string, string, string>(), key, x);
      && key in s1.inflight
      && var s3 := Invalidate(Complete(s1, key, None, code), key);
      && key !in s3.store
      && key in Get(s3, key, x).pending
      && Get(s3, key, x).requests == [key, key]
  {
    var s0: State<string, string, string> := Init();
    MissRegistersWaiter(s0, key, x);
    CompleteFansOut(Get(s0, key, x), key, None, code);
  }

  /** On an `IstanbulCache`: the second load of a changed file asks the
      instrumenter for `join(rootDir, key)` again. The `change` handler
      deletes the entry whose key is the reported path, with no mapping
      back through `mapToFs`; this scenario assumes the watcher reports
      the key itself. */
  method ChangedFileIsReloaded(root: string, key: string, x: string, code: string,
                               join: (string, string) -> string)
    returns (cachedAfterChange: bool, reloading: bool)
    ensures !cachedAfterChange
    ensures reloading
  {
    var ic := new IstanbulCache<string, string>(map["rootDir" := Text(root)], join);
    ic.Get(key, x);
    ChangeThenGetSpec(key, x, code);
    ic.Complete(key, None, code);
    ic.WatchCallback(key);
    cachedAfterChange := ic.cache.store.Has(key);
    ic.Get(key, x);
    assert ic.ExternalCalls()[1] == LoadInstrumentedFile(join(root, key), key);
    reloading := ic.cache.IsPending(key);
  }
}

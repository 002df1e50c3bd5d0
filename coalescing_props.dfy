/** What the coalescing cache promises, proved about the state machine of
    `CoalescingSpec`: single flight, fan-out of one result to every
    waiter, no negative caching, asynchronous cache hits, and the effect of
    watcher invalidation (including the race with a load in flight). */
module CoalescingProperties {
  import opened Wrappers
  import opened CoalescingSpec

  // ---------------------------------------------------------------------
  // Single flight

  lemma {:induction false} CompletedKeysAppend<E, V>(loads: seq<LoadEvent<E, V>>, e: LoadEvent<E, V>)
    ensures CompletedKeys(loads + [e]) == CompletedKeys(loads) + [e.key]
  {
    var l := CompletedKeys(loads + [e]);
    var r := CompletedKeys(loads) + [e.key];
    assert |l| == |r|;
    forall i | 0 <= i < |l| ensures l[i] == r[i] {
      if i < |loads| {
        assert (loads + [e])[i] == loads[i];
      }
    }
  }

  /** `_ensureLoading(key)`: when `key` is pending nothing changes and no
      load starts; otherwise `key` becomes pending and exactly one
      `getExternal(key)` starts. Cached values, waiters and deliveries are
      untouched either way. */
  lemma EnsureLoadingStartsAtMostOne<W, E, V>(s: State<W, E, V>, key: string)
    ensures key in s.pending ==> EnsureLoading(s, key) == s
    ensures key !in s.pending ==>
      && EnsureLoading(s, key).pending == s.pending + {key}
      && EnsureLoading(s, key).requests == s.requests + [key]
      && key in EnsureLoading(s, key).inflight
    ensures key in EnsureLoading(s, key).pending
    ensures EnsureLoading(s, key).store == s.store
    ensures EnsureLoading(s, key).listeners == s.listeners
    ensures EnsureLoading(s, key).delivered == s.delivered
    ensures EnsureLoading(s, key).deferred == s.deferred
  {
  }

  /** Outstanding loads are counted from the request and completion logs
      alone. */
  lemma OutstandingUnchanged<W, E, V>(s: State<W, E, V>, t: State<W, E, V>)
    requires t.requests == s.requests && t.loads == s.loads
    ensures forall k :: Outstanding(t, k) == Outstanding(s, k)
  {
  }

  /** Starting one `getExternal(key)` adds one outstanding load of `key`. */
  lemma OutstandingAfterRequest<W, E, V>(s: State<W, E, V>, t: State<W, E, V>, key: string)
    requires t.requests == s.requests + [key] && t.loads == s.loads
    ensures forall k :: Outstanding(t, k) == Outstanding(s, k) + (if k == key then 1 else 0)
  {
    assert multiset(t.requests) == multiset(s.requests) + multiset{key};
  }

  /** A completion of `key` removes one outstanding load of `key`. */
  lemma OutstandingAfterCompletion<W, E, V>(s: State<W, E, V>, t: State<W, E, V>, e: LoadEvent<E, V>)
    requires t.requests == s.requests && t.loads == s.loads + [e]
    ensures forall k :: Outstanding(t, k) == Outstanding(s, k) - (if k == e.key then 1 else 0)
  {
    CompletedKeysAppend(s.loads, e);
    assert multiset(CompletedKeys(t.loads)) == multiset(CompletedKeys(s.loads)) + multiset{e.key};
  }

  /** `_ensureLoading` of an uncached key re-establishes the invariant
      for a state where only that key may have waiters without a load. */
  lemma EnsureLoadingKeepsInv<W, E, V>(o: State<W, E, V>, key: string)
    requires PendingIsInflight(o) && OneLoadPerKey(o) && CachedNotLoading(o)
    requires key !in o.store
    requires forall k :: LoadEventName(k) in o.listeners && k != key ==> k in o.pending
    ensures Inv(EnsureLoading(o, key))
  {
    var r := EnsureLoading(o, key);
    if key !in o.pending {
      OutstandingAfterRequest(o, r, key);
      assert OneLoadPerKey(r);
    }
  }

  /** Registering a waiter for `key` changes no other key's waiters. */
  lemma OnceKeepsOtherWaiters<W, E, V>(s: State<W, E, V>, key: string, cb: W)
    requires WaitersHaveLoad(s)
    ensures forall k :: LoadEventName(k) in Once(s, LoadEventName(key), cb).listeners && k != key ==> k in s.pending
  {
    forall k | LoadEventName(k) in Once(s, LoadEventName(key), cb).listeners && k != key
      ensures k in s.pending
    {
      LoadEventNameInjective(k, key);
    }
  }

  lemma GetKeepsInv<W, E, V>(s: State<W, E, V>, key: string, cb: W)
    requires Inv(s)
    ensures Inv(Get(s, key, cb))
  {
    if key in s.store {
      OutstandingUnchanged(s, Get(s, key, cb));
    } else {
      var o := Once(s, LoadEventName(key), cb);
      OutstandingUnchanged(s, o);
      OnceKeepsOtherWaiters(s, key, cb);
      EnsureLoadingKeepsInv(o, key);
    }
  }

  lemma CompleteKeepsInv<W, E, V>(s: State<W, E, V>, key: string, err: Option<E>, value: V)
    requires Inv(s)
    requires key in s.inflight
    ensures Inv(Complete(s, key, err, value))
  {
    var r := Complete(s, key, err, value);
    OutstandingAfterCompletion(s, r, LoadEvent(key, err, value));
    assert OneLoadPerKey(r);
    forall k | LoadEventName(k) in r.listeners ensures k in r.pending {
      LoadEventNameInjective(k, key);
    }
  }

  lemma InvalidateKeepsInv<W, E, V>(s: State<W, E, V>, changed: string)
    requires Inv(s)
    ensures Inv(Invalidate(s, changed))
  {
    OutstandingUnchanged(s, Invalidate(s, changed));
  }

  lemma ApplyKeepsInv<W, E, V>(s: State<W, E, V>, step: Step<W, E, V>)
    requires Inv(s)
    ensures Inv(Apply(s, step))
  {
    match step
    case GetStep(key, w) => GetKeepsInv(s, key, w);
    case CompleteStep(key, err, value) =>
      if key in s.inflight { CompleteKeepsInv(s, key, err, value); }
    case ChangeStep(changed) => InvalidateKeepsInv(s, changed);
    case TickStep => OutstandingUnchanged(s, RunDeferred(s));
  }

  lemma {:induction false} RunKeepsInv<W, E, V>(s: State<W, E, V>, steps: seq<Step<W, E, V>>)
    requires Inv(s)
    ensures Inv(Run(s, steps))
    decreases |steps|
  {
    if steps != [] {
      ApplyKeepsInv(s, steps[0]);
      RunKeepsInv(Apply(s, steps[0]), steps[1..]);
    }
  }

  /** Single flight: after any sequence of gets, loader callbacks, watcher
      events and ticks, each key has at most one `getExternal` call that
      has not called back, and it has one exactly when it is pending. No
      key is ever both cached and loading, and every waiter is waiting on
      a load in flight. */
  lemma SingleFlight<W, E, V>(steps: seq<Step<W, E, V>>, key: string)
    ensures var s := Run(Init(), steps);
      && 0 <= Outstanding(s, key) <= 1
      && (Outstanding(s, key) == 1 <==> key in s.pending)
      && (key in s.pending ==> key !in s.store)
      && (Waiters(s, key) != [] ==> key in s.pending)
  {
    var s0: State<W, E, V> := Init();
    assert CompletedKeys(s0.loads) == [];
    RunKeepsInv(s0, steps);
  }

  /** A step starts a load only when it is a `get` of a key that is
      neither cached nor pending, and then it starts exactly one. */
  lemma LoadStartsOnlyWhenIdle<W, E, V>(s: State<W, E, V>, step: Step<W, E, V>)
    requires Inv(s)
    ensures var r := Apply(s, step);
      || r.requests == s.requests
      || (&& step.GetStep?
          && step.key !in s.store
          && step.key !in s.pending
          && r.requests == s.requests + [step.key])
  {
  }

  // ---------------------------------------------------------------------
  // get

  /** A hit registers no waiter, starts no load and calls nobody now; it
      queues `(null, value)` with the value cached at call time. */
  lemma HitShortCircuits<W, E, V>(s: State<W, E, V>, key: string, cb: W)
    requires key in s.store
    ensures var r := Get(s, key, cb);
      && r.deferred == s.deferred + [Delivery(cb, None, s.store[key])]
      && r.delivered == s.delivered
      && r.listeners == s.listeners
      && r.pending == s.pending
      && r.requests == s.requests
      && r.store == s.store
  {
  }

  /** A miss appends `cb` to the key's waiters (and to no other key's),
      calls nobody now, and starts a load exactly when none is pending. */
  lemma MissRegistersWaiter<W, E, V>(s: State<W, E, V>, key: string, cb: W)
    requires key !in s.store
    ensures var r := Get(s, key, cb);
      && Waiters(r, key) == Waiters(s, key) + [cb]
      && (forall k :: k != key ==> Waiters(r, k) == Waiters(s, k))
      && r.delivered == s.delivered
      && r.deferred == s.deferred
      && key in r.pending
      && r.requests == (if key in s.pending then s.requests else s.requests + [key])
  {
    forall k | k != key ensures Waiters(Get(s, key, cb), k) == Waiters(s, k) {
      LoadEventNameInjective(k, key);
    }
  }

  /** `get` never calls its callback synchronously. */
  lemma GetIsAsynchronous<W, E, V>(s: State<W, E, V>, key: string, cb: W)
    ensures Get(s, key, cb).delivered == s.delivered
  {
  }

  /** The hit answer is the value read at call time, even when the key is
      invalidated before the tick that delivers it. */
  lemma HitAnswerFixedAtCall<W, E, V>(s: State<W, E, V>, key: string, cb: W)
    requires key in s.store
    requires s.deferred == []
    ensures RunDeferred(Invalidate(Get(s, key, cb), key)).delivered
         == s.delivered + [Delivery(cb, None, s.store[key])]
  {
  }

  // ---------------------------------------------------------------------
  // Completion

  /** Completion clears pending, caches the value exactly when there is no
      error, answers every waiter of the key in registration order with the
      identical `(err, value)`, then the direct callback if any; the key's
      waiter list is emptied, other keys' waiters are untouched, and the
      global `load` event carries `(key, err, value)`. */
  lemma CompleteFansOut<W, E, V>(s: State<W, E, V>, key: string, err: Option<E>, value: V)
    requires key in s.inflight
    ensures var r := Complete(s, key, err, value);
      && r.pending == s.pending - {key}
      && key !in r.inflight
      && (err.None? ==> r.store == s.store[key := value])
      && (err.Some? ==> r.store == s.store)
      && r.delivered == s.delivered + Fanout(Waiters(s, key), err, value)
                        + (if s.inflight[key].Some? then [Delivery(s.inflight[key].value, err, value)] else [])
      && Waiters(r, key) == []
      && (forall k :: k != key ==> Waiters(r, k) == Waiters(s, k))
      && r.loads == s.loads + [LoadEvent(key, err, value)]
      && r.requests == s.requests
      && r.deferred == s.deferred
  {
    forall k | k != key ensures Waiters(Complete(s, key, err, value), k) == Waiters(s, k) {
      LoadEventNameInjective(k, key);
    }
  }

  /** No negative caching: a failed load leaves no entry and no pending
      mark for its key, so the next `get` of that key starts a fresh
      `getExternal`. */
  lemma FailedLoadIsRetried<W, E, V>(s: State<W, E, V>, key: string, e: E, value: V, cb: W)
    requires Inv(s)
    requires key in s.inflight
    ensures var r := Complete(s, key, Some(e), value);
      && key !in r.store
      && key !in r.pending
      && Get(r, key, cb).requests == r.requests + [key]
  {
  }

  /** After a successful load, `get` is served from the cache with that
      value and starts no load. */
  lemma LoadedValueIsServed<W, E, V>(s: State<W, E, V>, key: string, value: V, cb: W)
    requires key in s.inflight
    ensures var r := Complete(s, key, None, value);
      && Get(r, key, cb).requests == r.requests
      && Get(r, key, cb).deferred == r.deferred + [Delivery(cb, None, value)]
  {
  }

  // ---------------------------------------------------------------------
  // Invalidation

  /** A `change` event for `changed` removes exactly that key from the
      store; pending loads, waiters and logs are unchanged. */
  lemma InvalidateRemovesOnlyThatKey<W, E, V>(s: State<W, E, V>, changed: string)
    ensures var r := Invalidate(s, changed);
      && changed !in r.store
      && r.store.Keys == s.store.Keys - {changed}
      && (forall k :: k in r.store ==> r.store[k] == s.store[k])
      && r.pending == s.pending
      && r.inflight == s.inflight
      && r.listeners == s.listeners
      && r.requests == s.requests
      && r.delivered == s.delivered
      && r.deferred == s.deferred
      && r.loads == s.loads
  {
  }

  /** With no load in flight, the `get` after an invalidation starts a new
      `getExternal` instead of answering with the old value. */
  lemma InvalidateThenGetReloads<W, E, V>(s: State<W, E, V>, key: string, cb: W)
    requires key !in s.pending
    ensures var r := Get(Invalidate(s, key), key, cb);
      && r.requests == s.requests + [key]
      && r.deferred == s.deferred
  {
  }

  /** The invalidation race, as the code has it: a `change` event during a
      load in flight does not cancel it, and its completion puts the value
      back into the store. */
  lemma InvalidationRaceRepopulates<W, E, V>(s: State<W, E, V>, key: string, value: V)
    requires key in s.inflight
    ensures Complete(Invalidate(s, key), key, None, value).store[key] == value
    ensures Complete(Invalidate(s, key), key, None, value) == Complete(s, key, None, value)
  {
  }
}

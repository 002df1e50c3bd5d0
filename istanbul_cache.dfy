/** `IstanbulCache` of lib/istanbulCache.js: a `GetCache` whose values are
    instrumented sources, loaded from the file system by the instrumenter
    and invalidated by a `WatchEmitter` on the source directory.

    The prototype extension (`GetCache.extend`) becomes composition: the
    object holds its `GetCache` and fixes what the extension overrides:
    `initialize` (the constructor), `mapToFs`, `getExternal` and
    `listenToWatcher`. `path.join` is not modelled: it is the parameter
    `join`. The instrumenter is not modelled either: `getExternal` is
    described by the `ExternalCall` it makes, and the loader's answer comes
    back through `Complete`. */
module Istanbul {
  import opened Wrappers
  import opened Watch
  import Spec = CoalescingSpec
  import Props = CoalescingProperties
  import opened GetCacheModule

  /** An option value: the path options are strings; other options may be
      anything, of which flags stand for the rest. */
  datatype Setting = Text(text: string) | Flag(flag: bool)

  type Options = map<string, Setting>

  /** `{rootDir: '', sourceDir: ''}`. */
  function Defaults(): Options
  {
    map["rootDir" := Text(""), "sourceDir" := Text("")]
  }

  /** `_.extend(Defaults(), supplied)`: every supplied key wins, the two
      defaults fill in what is missing, extra keys are kept. */
  function MergeOptions(supplied: Options): (r: Options)
    ensures r.Keys == supplied.Keys + {"rootDir", "sourceDir"}
    ensures forall k :: k in supplied ==> r[k] == supplied[k]
    ensures forall k :: k in r && k !in supplied ==> r[k] == Text("")
  {
    Defaults() + supplied
  }

  /** What `path.join` and `node-watch` demand of the two path options:
      strings. */
  predicate PathsAreText(o: Options)
  {
    && ("rootDir" in o ==> o["rootDir"].Text?)
    && ("sourceDir" in o ==> o["sourceDir"].Text?)
  }

  /** After merging, both path options are present and are strings. */
  lemma MergedPathsAreText(supplied: Options)
    requires PathsAreText(supplied)
    ensures var o := MergeOptions(supplied);
      && "rootDir" in o && o["rootDir"].Text?
      && "sourceDir" in o && o["sourceDir"].Text?
      && o["rootDir"].text == (if "rootDir" in supplied then supplied["rootDir"].text else "")
      && o["sourceDir"].text == (if "sourceDir" in supplied then supplied["sourceDir"].text else "")
  {
  }

  /** The instrumenter request `getExternal` makes:
      `instrument.loadInstrumentedFile(file, scriptName, callback)`. */
  datatype ExternalCall = LoadInstrumentedFile(file: string, scriptName: string)

  class IstanbulCache<W, E> {
    const options: Options
    const join: (string, string) -> string
    const cache: GetCache<W, E, string>
    const watcher: WatchEmitter

    ghost predicate Valid()
      reads this, cache, cache.store, cache.pending
    {
      && cache.Valid()
      && "rootDir" in options && options["rootDir"].Text?
      && "sourceDir" in options && options["sourceDir"].Text?
    }

    /** `initialize(options)`: merge the defaults, create one watcher on
        `sourceDir`, and subscribe to it (see `WatchCallback`). */
    constructor (supplied: Options, join: (string, string) -> string)
      requires PathsAreText(supplied)
      ensures Valid()
      ensures options == MergeOptions(supplied)
      ensures this.join == join
      ensures fresh(cache) && fresh(cache.store) && fresh(cache.pending)
      ensures cache.Model() == Spec.Init()
      ensures fresh(watcher) && watcher.emitted == []
      ensures watcher.target == options["sourceDir"].text
    {
      MergedPathsAreText(supplied);
      var merged := MergeOptions(supplied);
      this.join := join;
      options := merged;
      cache := new GetCache();
      watcher := new WatchEmitter(merged["sourceDir"].text);
    }

    /** `mapToFs(key)`: `path.join(options.rootDir, key)`. */
    function MapToFs(key: string): string
      reads this
      requires "rootDir" in options && options["rootDir"].Text?
    {
      join(options["rootDir"].text, key)
    }

    /** `getExternal(key, callback)`: instrument the file `mapToFs(key)`
        under the script name `key`. */
    function ExternalCallFor(key: string): (c: ExternalCall)
      reads this
      requires "rootDir" in options && options["rootDir"].Text?
      ensures c.scriptName == key
      ensures c.file == join(options["rootDir"].text, key)
    {
      LoadInstrumentedFile(MapToFs(key), key)
    }

    /** Every instrumenter request made so far, in order. */
    ghost function ExternalCalls(): (r: seq<ExternalCall>)
      reads this, cache
      requires "rootDir" in options && options["rootDir"].Text?
      ensures |r| == |cache.requests|
    {
      var keys := cache.requests;
      seq(|keys|, i requires 0 <= i < |keys| reads this => ExternalCallFor(keys[i]))
    }

    /** `get(key, cb)`, with the loads it starts sent to the instrumenter. */
    method Get(key: string, cb: W)
      requires Valid()
      modifies cache, cache.pending
      ensures Valid()
      ensures cache.Model() == Spec.Get(old(cache.Model()), key, cb)
      ensures ExternalCalls() ==
        old(ExternalCalls()) + (if key in old(cache.store.entries) || key in old(cache.pending.entries)
                                then [] else [LoadInstrumentedFile(MapToFs(key), key)])
    {
      cache.Get(key, cb);
      ghost var calls := old(ExternalCalls());
      ghost var extra := if key in old(cache.store.entries) || key in old(cache.pending.entries)
                         then [] else [LoadInstrumentedFile(MapToFs(key), key)];
      assert |ExternalCalls()| == |calls + extra|;
      forall i | 0 <= i < |calls + extra| ensures ExternalCalls()[i] == (calls + extra)[i] {
        if i < |calls| {
          assert cache.requests[i] == old(cache.requests)[i];
        }
      }
    }

    /** The instrumenter calling back with `(err, value)` for `key`. */
    method Complete(key: string, err: Option<E>, value: string)
      requires Valid()
      requires key in cache.pending.entries
      modifies cache, cache.store, cache.pending
      ensures Valid()
      ensures cache.Model() == Spec.Complete(old(cache.Model()), key, err, value)
    {
      cache.Complete(key, err, value);
    }

    /** The `change` handler `listenToWatcher` installs: `store.del(changed)`;
        pending loads and waiters are left alone. */
    method Invalidate(changed: string)
      requires Valid()
      modifies cache.store
      ensures Valid()
      ensures cache.Model() == Spec.Invalidate(old(cache.Model()), changed)
    {
      ghost var before := cache.Model();
      cache.store.Del(changed);
      assert cache.Model() == Spec.Invalidate(before, changed);
      Props.InvalidateKeepsInv(before, changed);
    }

    /** The watcher reporting `changed`: one `change` event, handled by the
        subscription made in `initialize`. */
    method WatchCallback(changed: string)
      requires Valid()
      modifies watcher, cache.store
      ensures Valid()
      ensures watcher.emitted == old(watcher.emitted) + [changed]
      ensures cache.Model() == Spec.Invalidate(old(cache.Model()), changed)
    {
      watcher.OnWatch(changed);
      Invalidate(changed);
    }
  }
}

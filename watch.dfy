/** `WatchEmitter` of lib/istanbulCache.js (duplicated in lib/cache.js):
    an EventEmitter that registers one `node-watch` callback on its target
    directory and re-emits each callback as one `change` event carrying the
    changed path. The file-system watcher itself is not modelled; a call of
    `OnWatch` is one invocation of its callback. */
module Watch {

  class WatchEmitter {
    /** The directory handed to `watch(targetPath, ...)`. */
    const target: string
    /** Payloads of the `change` events emitted so far, in order. */
    var emitted: seq<string>

    /** `new WatchEmitter(targetPath)`: watches `targetPath`, nothing
        emitted yet. */
    constructor (targetPath: string)
      ensures target == targetPath
      ensures emitted == []
    {
      target := targetPath;
      emitted := [];
    }

    /** The watch callback for `changed`: exactly one `change` event, with
        the path unchanged. */
    method OnWatch(changed: string)
      modifies this
      ensures emitted == old(emitted) + [changed]
      ensures |emitted| == |old(emitted)| + 1 && emitted[|emitted| - 1] == changed
    {
      emitted := emitted + [changed];
    }
  }
}

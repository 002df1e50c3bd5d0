/** KeyedStore: the string-keyed mutable mapping `Store` of lib/getCache.js
    (duplicated verbatim in lib/cache.js). The JavaScript object `_store`
    becomes the field `entries`, reassigned in place by `Put` and `Del`. */
module KeyedStore {
  import opened Wrappers

  class Store<V> {
    var entries: map<string, V>

    /** `new Store()`: an empty store. */
    constructor ()
      ensures entries == map[]
    {
      entries := map[];
    }

    /** `get(key)`: the stored value, or `None` (JavaScript `undefined`)
        when the key is absent. */
    method Get(key: string) returns (r: Option<V>)
      ensures r.Some? <==> key in entries
      ensures r.Some? ==> r.value == entries[key]
    {
      if key in entries {
        r := Some(entries[key]);
      } else {
        r := None;
      }
    }

    /** `put(key, val)`: `key` now maps to `val`; every other key keeps
        its value. */
    method Put(key: string, val: V)
      modifies this
      ensures entries == old(entries)[key := val]
      ensures key in entries && entries[key] == val
      ensures forall k :: k in old(entries) && k != key ==> k in entries && entries[k] == old(entries)[k]
    {
      entries := entries[key := val];
    }

    /** `has(key)`: presence test (`_.has`, own keys only). */
    method Has(key: string) returns (b: bool)
      ensures b <==> key in entries
    {
      b := key in entries;
    }

    /** `del(key)`: removes `key` and nothing else; does nothing when the
        key is absent. */
    method Del(key: string)
      modifies this
      ensures entries == old(entries) - {key}
      ensures key !in old(entries) ==> entries == old(entries)
      ensures forall k :: k in old(entries) && k != key ==> k in entries && entries[k] == old(entries)[k]
    {
      var present := Has(key);
      if present {
        entries := entries - {key};
      }
    }
  }
}

/**
 * The process-wide session cache: `cache(path)` hands out an entry for a path string,
 * with `get()` (undefined on a miss), `set(value)` (last write wins) and `_resetCache()`,
 * which forgets every path. Entries hold lists of documents.
 */
module SessionCache {
  import opened Base
  import opened JsValues

  class Cache {
    var entries: map<string, seq<JsValue>>

    constructor ()
      ensures entries == map[]
    {
      entries := map[];
    }

    /** `cache(key).get()`. */
    function Lookup(key: string): Option<seq<JsValue>>
      reads this
    {
      if key in entries then Some(entries[key]) else None
    }

    /** `cache(key).get() || []`: a miss reads as the empty list. */
    function ListAt(key: string): seq<JsValue>
      reads this
    {
      if key in entries then entries[key] else []
    }

    /** `cache(key).set(value)`. */
    method Set(key: string, value: seq<JsValue>)
      modifies this
      ensures entries == old(entries)[key := value]
      ensures Lookup(key) == Some(value)
    {
      entries := entries[key := value];
    }

    /** `cache()._resetCache()`: every later lookup misses. */
    method ResetAll()
      modifies this
      ensures entries == map[]
      ensures forall key :: Lookup(key) == None
    {
      entries := map[];
    }
  }
}

/** AsyncStorage: the durable key/value store that makes every step idempotent across restarts. */
module Storage {
  import opened Wrappers

  class AsyncStorage {
    var items: map<string, string>

    /** The store as it survives from earlier runs. */
    constructor (items: map<string, string>)
      ensures this.items == items
    {
      this.items := items;
    }

    /** getItem: the stored string, or null when the key is missing. */
    method GetItem(key: string) returns (v: Option<string>)
      ensures v.Some? <==> key in items
      ensures v.Some? ==> v.value == items[key]
    {
      v := if key in items then Some(items[key]) else None;
    }

    /** setItem: store value under key, replacing what was there. */
    method SetItem(key: string, value: string)
      modifies this
      ensures items == old(items)[key := value]
    {
      items := items[key := value];
    }
  }

  /**
   * A usable cache hit: the callers test the stored string for truthiness, so an
   * empty string counts as missing.
   */
  function Cached(items: map<string, string>, key: string): (r: Option<string>)
    ensures r.Some? <==> key in items && items[key] != ""
    ensures r.Some? ==> r.value == items[key]
  {
    if key in items && items[key] != "" then Some(items[key]) else None
  }
}

/**
 * The browser's `localStorage`: string keys mapped to stored values. Each
 * component works with its own typed view of the entries it owns, so the
 * JSON text in between is not modelled.
 */
module Storage {
  import opened Wrappers

  class LocalStorage<V> {
    var entries: map<string, V>

    /** A storage that already holds `initial` (what earlier sessions left behind). */
    constructor (initial: map<string, V>)
      ensures entries == initial
    {
      entries := initial;
    }

    /** `getItem(key)`: the stored value, or nothing when the key is absent. */
    method GetItem(key: string) returns (r: Option<V>)
      ensures r.Some? <==> key in entries
      ensures r.Some? ==> r.value == entries[key]
    {
      r := if key in entries then Some(entries[key]) else None;
    }

    /** `setItem(key, value)`: overwrites one entry, no other. */
    method SetItem(key: string, value: V)
      modifies this
      ensures entries == old(entries)[key := value]
    {
      entries := entries[key := value];
    }

    /** `removeItem(key)`: drops one entry, no other. */
    method RemoveItem(key: string)
      modifies this
      ensures entries == old(entries) - {key}
    {
      entries := entries - {key};
    }
  }
}

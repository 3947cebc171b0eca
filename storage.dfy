/** The browser key/value store and the two helpers in front of it
    (src/services/mockApi.ts:2-19). Every blob is kept already parsed: JSON
    serialisation is treated as the identity, and an item that is not a
    parsable document is recorded as such. */
module Storage {

  /** What `localStorage.getItem(key)` yields for a present key, as the read
      helper sees it: a parsed document, the empty string (a falsy item), or
      text on which `JSON.parse` throws. */
  datatype Entry<V> = Json(value: V) | Blank | Garbled

  /** `getFromLocalStorage(key, defaultValue)` over a snapshot of the store. */
  function Lookup<V>(items: map<string, Entry<V>>, key: string, default: V): (r: V)
    ensures key !in items ==> r == default
    ensures key in items && items[key] == Blank ==> r == default
    ensures key in items && items[key] == Garbled ==> r == default
    ensures key in items && items[key].Json? ==> r == items[key].value
  {
    if key in items then
      match items[key]
      case Json(v) => v
      case Blank => default
      case Garbled => default
    else default
  }

  /** The store after `setToLocalStorage(key, value)`. */
  function Stored<V>(items: map<string, Entry<V>>, key: string, value: V): (r: map<string, Entry<V>>)
  {
    items[key := Json(value)]
  }

  /** A write is read back as written, whatever was there before. */
  lemma ReadAfterWrite<V>(items: map<string, Entry<V>>, key: string, value: V, default: V)
    ensures Lookup(Stored(items, key, value), key, default) == value
  {
  }

  /** A write leaves the reading of every other key as it was. */
  lemma WriteKeepsOtherKeys<V>(items: map<string, Entry<V>>, key: string, other: string, value: V, default: V)
    requires other != key
    ensures Lookup(Stored(items, key, value), other, default) == Lookup(items, other, default)
  {
  }

  /** The browser's `localStorage`: one entry per key. */
  class KeyValueStore<V> {
    var items: map<string, Entry<V>>

    /** An empty store, as in a browser that never ran the application. */
    constructor ()
      ensures items == map[]
    {
      items := map[];
    }

    /** `getFromLocalStorage(key, defaultValue)`. */
    function Get(key: string, default: V): V
      reads this
    {
      Lookup(items, key, default)
    }

    /** `setToLocalStorage(key, value)`: replaces the entry under `key` and no other. */
    method Set(key: string, value: V)
      modifies this
      ensures items == Stored(old(items), key, value)
      ensures Get(key, value) == value
      ensures forall k :: k != key ==> (k in items <==> k in old(items))
      ensures forall k :: k != key && k in items ==> items[k] == old(items)[k]
    {
      items := items[key := Json(value)];
    }
  }
}

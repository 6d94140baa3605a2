/** The browser's `localStorage`: a string-to-string map that the session
    store and the history cache both read and rewrite. */
module Storage {
  import opened Wrappers

  /** `localStorage.getItem(key)` on a snapshot of the storage contents:
      `None` stands for the `null` returned for a missing key. */
  function ItemOf(items: map<string, string>, key: string): (r: Option<string>)
    ensures r.Some? <==> key in items
    ensures r.Some? ==> r.value == items[key]
  {
    if key in items then Some(items[key]) else None
  }

  class LocalStorage {
    var items: map<string, string>

    constructor (initial: map<string, string>)
      ensures items == initial
    {
      items := initial;
    }

    method SetItem(key: string, value: string)
      modifies this
      ensures items == old(items)[key := value]
    {
      items := items[key := value];
    }

    method RemoveItem(key: string)
      modifies this
      ensures items == old(items) - {key}
    {
      items := items - {key};
    }
  }
}

/** The browser's `localStorage`: string values under string keys. */
module Storage {
  import opened JsValues

  class LocalStorage {
    var items: map<string, string>

    /** The storage as the page finds it when it loads. */
    constructor (initial: map<string, string>)
      ensures items == initial
    {
      items := initial;
    }

    /** `getItem(key)`: the stored string, or `null` when the key is absent. */
    method GetItem(key: string) returns (r: Option<string>)
      ensures r.Some? <==> key in items
      ensures r.Some? ==> r.value == items[key]
    {
      r := if key in items then Some(items[key]) else None;
    }

    /** `setItem(key, value)`. */
    method SetItem(key: string, value: string)
      modifies this
      ensures items == old(items)[key := value]
    {
      items := items[key := value];
    }

    /** `removeItem(key)`. */
    method RemoveItem(key: string)
      modifies this
      ensures items == old(items) - {key}
    {
      items := items - {key};
    }
  }
}

/**
 * The browser's `localStorage`, shared by the session store, the theme hook
 * and the request interceptor. A stored value is either plain text (tokens,
 * the theme name) or the serialised form of a `User`; the JSON text itself
 * is not modelled, so the `Record` case carries the record.
 */
module Storage {
  import opened Wrappers
  import opened Types

  datatype Stored = Text(text: string) | Record(user: User)

  type Items = map<string, Stored>

  /** `getItem`: the stored value, or null when the key is absent. */
  function GetItem(items: Items, key: string): (r: Option<Stored>)
    ensures r.Some? <==> key in items
  {
    if key in items then Some(items[key]) else None
  }

  /**
   * JavaScript truthiness of what `getItem` returned: null and the empty
   * string are falsy; the serialised text of a record is never empty.
   */
  predicate Truthy(v: Option<Stored>) {
    match v
    case None => false
    case Some(Text(t)) => t != ""
    case Some(Record(_)) => true
  }

  /** A text value read back as a string; a serialised record is not read as a token or a name. */
  function GetText(items: Items, key: string): (r: Option<string>)
    ensures r.Some? ==> key in items && items[key] == Text(r.value)
    ensures key in items && items[key].Text? ==> r.Some?
  {
    if key in items && items[key].Text? then Some(items[key].text) else None
  }

  /** The storage area; `SetItem` and `RemoveItem` are its two writes. */
  class LocalStorage {
    var items: Items

    constructor (initial: Items)
      ensures items == initial
    {
      items := initial;
    }

    method SetItem(key: string, value: Stored)
      modifies this
      ensures items == old(items)[key := value]
    {
      items := items[key := value];
    }

    method RemoveItem(key: string)
      modifies this
      ensures items == old(items) - {key}
    {
      items := items - {key};
    }
  }
}

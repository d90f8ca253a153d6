/** The browser services the client uses: `localStorage` and the toast notifier. */
module Browser {
  import opened Wrappers

  /** A JSON field of a stored draft: text, or a date written with `toISOString`. */
  datatype Value = Text(s: string) | Instant(ms: int)

  /** A JSON object of draft fields; a field set to `undefined` is not written at all. */
  type Record = map<string, Value>

  /** What a stored string is to `JSON.parse`: an object of fields, or text it rejects. */
  datatype Entry = Json(rec: Record) | Malformed

  /** `localStorage`: string keys to stored entries, for one browser profile. */
  class LocalStorage {
    var items: map<string, Entry>

    constructor ()
      ensures items == map[]
    {
      items := map[];
    }

    /** `getItem(key)`: `null` (here `None`) when nothing is stored under the key. */
    method GetItem(key: string) returns (e: Option<Entry>)
      ensures e.Some? <==> key in items
      ensures e.Some? ==> e.value == items[key]
    {
      e := Get(items, key);
    }

    /** `setItem(key, JSON.stringify(rec))`. */
    method SetItem(key: string, rec: Record)
      modifies this
      ensures items == old(items)[key := Json(rec)]
    {
      items := items[key := Json(rec)];
    }

    /** `removeItem(key)`. */
    method RemoveItem(key: string)
      modifies this
      ensures items == old(items) - {key}
    {
      items := items - {key};
    }
  }

  /** One toast: title, description and whether it uses the destructive style. */
  datatype Toast = Toast(title: string, description: string, destructive: bool)

  /** The toasts shown so far, oldest first. */
  class Toaster {
    var shown: seq<Toast>

    constructor ()
      ensures shown == []
    {
      shown := [];
    }

    method Show(t: Toast)
      modifies this
      ensures shown == old(shown) + [t]
    {
      shown := shown + [t];
    }
  }
}

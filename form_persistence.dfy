/**
 * lib/form-persistence.ts: a draft cache over `localStorage` under one fixed key.
 * Every operation catches its own errors; a stored text that does not parse reads
 * as an empty draft.
 */
module FormPersistence {
  import opened Wrappers
  import opened Browser

  const StorageKey: string := "wake_call_form_data"

  /** A `Partial<FormData>` argument: a key passed as `undefined` maps to `None`. */
  type Partial = map<string, Option<Value>>

  /** What `load` makes of the stored entry: its fields, or `{}` when absent or unparsable. */
  function Decode(e: Option<Entry>): (r: Record)
    ensures (e.None? || e == Some(Malformed)) ==> r == map[]
    ensures e.Some? && e.value.Json? ==> r == e.value.rec
  {
    match e
    case Some(Json(rec)) => rec
    case _ => map[]
  }

  /** The draft `load` returns for a given content of `localStorage`. */
  function Loaded(items: map<string, Entry>): Record {
    Decode(Get(items, StorageKey))
  }

  /**
   * `JSON.stringify({ ...existing, ...data })` read back: the keys of `data` override, a key
   * passed as `undefined` wins the spread and is then dropped by `stringify`, and the other
   * keys stay.
   */
  function Merge(existing: Record, data: Partial): (r: Record)
    ensures forall k :: k in data && data[k].Some? ==> k in r && r[k] == data[k].value
    ensures forall k :: k in data && data[k].None? ==> k !in r
    ensures forall k :: k !in data ==> (k in r <==> k in existing)
    ensures forall k :: k in existing && k !in data ==> r[k] == existing[k]
  {
    map k | k in existing.Keys + data.Keys && (k in data ==> data[k].Some?) ::
      if k in data then data[k].value else existing[k]
  }

  /** The content of `localStorage` after `save(data)`. */
  function AfterSave(items: map<string, Entry>, data: Partial): map<string, Entry> {
    items[StorageKey := Json(Merge(Loaded(items), data))]
  }

  /** The content of `localStorage` after `clear()`. */
  function AfterClear(items: map<string, Entry>): map<string, Entry> {
    items - {StorageKey}
  }

  /** `formPersistence.load()`. */
  method Load(store: LocalStorage) returns (r: Record)
    ensures r == Loaded(store.items)
    ensures StorageKey !in store.items ==> r == map[]
    ensures StorageKey in store.items && store.items[StorageKey] == Malformed ==> r == map[]
  {
    var e := store.GetItem(StorageKey);
    match e {
      case Some(Json(rec)) => r := rec;
      case _ => r := map[];
    }
  }

  /** `formPersistence.save(data)`: read, merge, write back. */
  method Save(store: LocalStorage, data: Partial)
    modifies store
    ensures store.items == AfterSave(old(store.items), data)
  {
    var existing := Load(store);
    store.SetItem(StorageKey, Merge(existing, data));
  }

  /** `formPersistence.clear()`. */
  method Clear(store: LocalStorage)
    modifies store
    ensures store.items == AfterClear(old(store.items))
  {
    store.RemoveItem(StorageKey);
  }

  /** After `save(data)`, `load` sees the old draft overridden by `data`, key by key. */
  lemma SaveThenLoad(items: map<string, Entry>, data: Partial)
    ensures Loaded(AfterSave(items, data)) == Merge(Loaded(items), data)
    ensures forall k :: k in data && data[k].Some? ==> Loaded(AfterSave(items, data))[k] == data[k].value
    ensures forall k :: k in data && data[k].None? ==> k !in Loaded(AfterSave(items, data))
    ensures forall k :: k in Loaded(items) && k !in data ==> Loaded(AfterSave(items, data))[k] == Loaded(items)[k]
  {
  }

  /** `save({date: undefined})` deletes a stored date and keeps every other stored field. */
  lemma SaveUndefinedDeletes(items: map<string, Entry>)
    ensures Loaded(AfterSave(items, map["date" := None])) == Loaded(items) - {"date"}
  {
    var data: Partial := map["date" := None];
    var r := Loaded(AfterSave(items, data));
    assert forall k :: k in r <==> k in Loaded(items) - {"date"};
  }

  /** After `clear()`, `load` returns `{}`. */
  lemma ClearThenLoad(items: map<string, Entry>)
    ensures Loaded(AfterClear(items)) == map[]
  {
  }

  /** Saving the same fields twice stores what saving them once stores. */
  lemma SaveIdempotent(items: map<string, Entry>, data: Partial)
    ensures AfterSave(AfterSave(items, data), data) == AfterSave(items, data)
  {
    var once := Merge(Loaded(items), data);
    assert forall k :: k in Merge(once, data) <==> k in once;
    assert Merge(once, data) == once;
  }

  /** `save` and `clear` touch only their own key; every other stored entry is left as it was. */
  lemma OnlyOwnKey(items: map<string, Entry>, data: Partial, key: string)
    requires key != StorageKey
    ensures Get(AfterSave(items, data), key) == Get(items, key)
    ensures Get(AfterClear(items), key) == Get(items, key)
  {
  }
}

/** The history store exactly as `getHistoryStore` reads it and
    `saveAnalysisToHistory` writes it, including the case the corrected
    model in `History` excludes: a stored payload that parses to an array
    passes the `typeof parsed === 'object'` test and is used as the store.
    Property reads and writes on an array follow JavaScript's array rules,
    observed through the `JSON.stringify` that writes the store back. */
module HistoryAsWritten {
  import opened Wrappers
  import opened JsValues
  import opened Storage
  import History

  /** `getHistoryStore()` as written: any parsed object or array, else `{}`. */
  function ReadStoreAsWritten(raw: Option<string>, codec: JsonCodec): (store: Json)
    ensures store.Obj? || store.Arr?
    ensures store.Arr? ==> raw.Some? && codec.parse(raw.value) == Some(store)
  {
    if raw.None? || raw.value == "" then Obj(map[])
    else
      match codec.parse(raw.value)
      case Some(Obj(fields)) => Obj(fields)
      case Some(Arr(items)) => Arr(items)
      case _ => Obj(map[])
  }

  /** The largest array index plus one (2^32 - 1). */
  const MAX_ARRAY_LENGTH: nat := 4294967295

  /** The array index a property key denotes: a canonical decimal numeral
      below 2^32 - 1. */
  function ArrayIndex(key: string): (r: Option<nat>)
    ensures r.Some? ==> r.value < MAX_ARRAY_LENGTH
    ensures r.Some? ==> |key| > 0 && forall i :: 0 <= i < |key| ==> IsDigit(key[i])
  {
    if |key| > 0 && (forall i :: 0 <= i < |key| ==> IsDigit(key[i])) && (key == "0" || key[0] != '0')
       && DigitsValue(key) < MAX_ARRAY_LENGTH
    then Some(DigitsValue(key))
    else None
  }

  /** `store[key]` (`null` standing for `undefined`). */
  function PropAsWritten(store: Json, key: string): (v: Json)
    ensures store.Obj? ==> v == Get(store, key)
  {
    match store
    case Obj(fields) => if key in fields then fields[key] else Null
    case Arr(items) =>
      var index := ArrayIndex(key);
      if index.Some? && index.value < |items| then items[index.value]
      else if key == "length" then Num(|items|)
      else Null
    case _ => Null
  }

  /** `Array.isArray(store[key]) ? store[key] : []`. */
  function ListAsWritten(store: Json, key: string): (list: seq<Json>)
    ensures store.Obj? ==> list == History.ListFor(store.fields, key)
    ensures list != [] ==> PropAsWritten(store, key) == Arr(list)
  {
    var v := PropAsWritten(store, key);
    if v.Arr? then v.items else []
  }

  /** `store[key] = list`, seen through the `JSON.stringify` that follows:
      on an object the key is set; on an array an index key sets (or
      extends the array to) that element, the holes serialising as
      `null`; `length` throws a RangeError (`None`), because the list
      written always starts with the entry object, which converts to NaN;
      any other key becomes a named property that `JSON.stringify` drops. */
  function AssignAsWritten(store: Json, key: string, list: seq<Json>): (r: Option<Json>)
    requires store.Obj? || store.Arr?
    ensures store.Obj? ==> r == Some(Obj(store.fields[key := Arr(list)]))
    ensures store.Arr? && ArrayIndex(key).None? && key != "length" ==> r == Some(store)
  {
    match store
    case Obj(fields) => Some(Obj(fields[key := Arr(list)]))
    case Arr(items) =>
      match ArrayIndex(key)
      case Some(i) =>
        if i < |items| then Some(Arr(items[i := Arr(list)]))
        else Some(Arr(items + seq(i - |items|, _ => Null) + [Arr(list)]))
      case None =>
        if key == "length" then None else Some(store)
  }

  /** The store `saveAnalysisToHistory` writes back for identity key `key`,
      or `None` when the assignment throws. */
  function SaveStoreAsWritten(store: Json, key: string, entry: History.HistoryEntry): (r: Option<Json>)
    requires store.Obj? || store.Arr?
    ensures store.Obj? ==>
              r == Some(Obj(store.fields[key := Arr(History.Newest([History.EntryJson(entry)] + History.ListFor(store.fields, key)))]))
    ensures store.Arr? && ArrayIndex(key).None? && key != "length" ==> r == Some(store)
    ensures key == "length" && store.Arr? ==> r.None?
  {
    AssignAsWritten(store, key, History.Newest([History.EntryJson(entry)] + ListAsWritten(store, key)))
  }

  /** For every payload that is not an array, the source and the corrected
      model agree: the same store is read, and a save writes the same
      store back. */
  lemma AsWrittenAgreesOffArrays(raw: Option<string>, codec: JsonCodec, key: string, entry: History.HistoryEntry)
    requires !ReadStoreAsWritten(raw, codec).Arr?
    ensures ReadStoreAsWritten(raw, codec) == Obj(History.ReadStore(raw, codec))
    ensures var store := History.ReadStore(raw, codec);
            SaveStoreAsWritten(Obj(store), key, entry)
              == Some(Obj(store[key := Arr(History.Newest([History.EntryJson(entry)] + History.ListFor(store, key)))]))
  {
    var store := History.ReadStore(raw, codec);
    assert ListAsWritten(Obj(store), key) == History.ListFor(store, key);
  }

  /** The discrepancy: with `[]` stored under the history key and a user
      whose identifier is `u1`, the source writes `[]` back (the entry is
      lost, and is lost again on every later save), while the corrected
      model keeps the entry. */
  lemma ArrayStoreLosesSaves(codec: JsonCodec, entry: History.HistoryEntry)
    requires Faithful(codec)
    ensures var raw := codec.stringify(Arr([]));
            && ReadStoreAsWritten(Some(raw), codec) == Arr([])
            && SaveStoreAsWritten(Arr([]), "u1", entry) == Some(Arr([]))
            && ListAsWritten(Arr([]), "u1") == []
    ensures var items := map[History.HISTORY_KEY := codec.stringify(Arr([]))];
            var user := Obj(map["id" := Str("u1")]);
            History.GetHistoryForUser(History.SavedItems(items, codec, user, entry), codec, user)
              == [History.EntryJson(entry)]
  {
    var raw := codec.stringify(Arr([]));
    StringifyNonEmpty(codec, Arr([]));
    assert !IsDigit("u1"[0]);
    assert ArrayIndex("u1").None?;
    var items := map[History.HISTORY_KEY := raw];
    var user := Obj(map["id" := Str("u1")]);
    assert History.IdentityKey(user) == Some("u1");
    assert History.ReadStore(ItemOf(items, History.HISTORY_KEY), codec) == map[];
    History.SaveThenRead(items, codec, user, entry);
  }

  /** The same stored array with a user whose identifier is `length`: the
      source's save throws instead of recording the entry. */
  lemma ArrayStoreThrowsOnLength(entry: History.HistoryEntry)
    ensures SaveStoreAsWritten(Arr([]), "length", entry).None?
  {
    assert !IsDigit("length"[0]);
  }
}

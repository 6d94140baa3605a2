/** The per-user analysis history: one serialised record in `localStorage`
    mapping each user's identity key to that user's most recent analyses,
    newest first, at most five. */
module History {
  import opened Wrappers
  import opened JsValues
  import opened Storage
  import opened Session

  const HISTORY_KEY: string := "c4at3_history"

  /** How many analyses are kept per user. */
  const HISTORY_LIMIT: nat := 5

  /** One completed analysis as the analysis handler records it. `score`
      is `null` when the server sent no finite score. */
  datatype HistoryEntry = HistoryEntry(
    url: string,
    score: Option<int>,
    grade: Json,
    analysisType: string,
    completedAt: string)

  /** The object literal the analysis handler passes in. */
  function EntryJson(e: HistoryEntry): (v: Json)
    ensures v.Obj?
    ensures Get(v, "url") == Str(e.url) && Get(v, "completed_at") == Str(e.completedAt)
  {
    Obj(map[
      "url" := Str(e.url),
      "score" := (if e.score.Some? then Num(e.score.value) else Null),
      "grade" := e.grade,
      "analysis_type" := Str(e.analysisType),
      "completed_at" := Str(e.completedAt)])
  }

  /** The store: user identity key to stored value (a list, when intact). */
  type HistoryStore = map<string, Json>

  /** `getHistoryStore()` on the stored payload: the parsed object, and the
      empty store for a missing, empty, unparsable or non-object payload
      (arrays included, see the findings). */
  function ReadStore(raw: Option<string>, codec: JsonCodec): (store: HistoryStore)
    ensures raw.None? || raw == Some("") ==> store == map[]
    ensures store != map[] ==>
              raw.Some? && codec.parse(raw.value) == Some(Obj(store))
    ensures raw.Some? && raw.value != "" && codec.parse(raw.value).Some? && codec.parse(raw.value).value.Obj? ==>
              store == codec.parse(raw.value).value.fields
  {
    if raw.None? || raw.value == "" then map[]
    else
      match codec.parse(raw.value)
      case Some(Obj(fields)) => fields
      case _ => map[]
  }

  /** Writing a store and reading it back gives the same store. */
  lemma ReadStoreRoundTrip(store: HistoryStore, codec: JsonCodec)
    requires Faithful(codec)
    ensures ReadStore(Some(codec.stringify(Obj(store))), codec) == store
  {
    StringifyNonEmpty(codec, Obj(store));
  }

  /** `user?.id || user?.email`, converted to the property key it is used
      as; `None` when both are falsy (no user, or an anonymous one). */
  function IdentityKey(user: Json): (key: Option<string>)
    ensures key.Some? <==> Truthy(Get(user, "id")) || Truthy(Get(user, "email"))
    ensures Truthy(Get(user, "id")) ==> key == Some(ToString(Get(user, "id")))
    ensures !Truthy(Get(user, "id")) && Truthy(Get(user, "email")) ==> key == Some(ToString(Get(user, "email")))
  {
    var k := Or(Get(user, "id"), Get(user, "email"));
    if Truthy(k) then Some(ToString(k)) else None
  }

  /** `Array.isArray(store[key]) ? store[key] : []`. */
  function ListFor(store: HistoryStore, key: string): (list: seq<Json>)
    ensures key in store && store[key].Arr? ==> list == store[key].items
    ensures !(key in store && store[key].Arr?) ==> list == []
  {
    if key in store && store[key].Arr? then store[key].items else []
  }

  /** `list.slice(0, 5)`. */
  function Newest(list: seq<Json>): (r: seq<Json>)
    ensures |r| == if |list| <= HISTORY_LIMIT then |list| else HISTORY_LIMIT
    ensures r == list[..|r|]
  {
    if |list| <= HISTORY_LIMIT then list else list[..HISTORY_LIMIT]
  }

  /** `getHistoryForUser(user)` against the storage contents `items`. */
  function GetHistoryForUser(items: map<string, string>, codec: JsonCodec, user: Json): (h: seq<Json>)
    ensures IdentityKey(user).None? ==> h == []
    ensures h != [] ==> HISTORY_KEY in items
    ensures var store := ReadStore(ItemOf(items, HISTORY_KEY), codec);
            IdentityKey(user).Some? && IdentityKey(user).value in store && store[IdentityKey(user).value].Arr? ==>
              h == store[IdentityKey(user).value].items
    ensures var store := ReadStore(ItemOf(items, HISTORY_KEY), codec);
            IdentityKey(user).Some? && !(IdentityKey(user).value in store && store[IdentityKey(user).value].Arr?) ==>
              h == []
  {
    match IdentityKey(user)
    case None => []
    case Some(key) => ListFor(ReadStore(ItemOf(items, HISTORY_KEY), codec), key)
  }

  /** The storage contents after `saveAnalysisToHistory(entry)` while
      `user` is signed in: nothing changes without an identity key;
      otherwise only the history key is rewritten. */
  function SavedItems(items: map<string, string>, codec: JsonCodec, user: Json, entry: HistoryEntry): (r: map<string, string>)
    ensures IdentityKey(user).None? ==> r == items
    ensures IdentityKey(user).Some? ==> HISTORY_KEY in r
    ensures forall k :: k != HISTORY_KEY ==> (k in r <==> k in items) && (k in r ==> r[k] == items[k])
  {
    match IdentityKey(user)
    case None => items
    case Some(key) =>
      var store := ReadStore(ItemOf(items, HISTORY_KEY), codec);
      var list := [EntryJson(entry)] + ListFor(store, key);
      items[HISTORY_KEY := codec.stringify(Obj(store[key := Arr(Newest(list))]))]
  }

  /** `saveAnalysisToHistory(entry)`: keyed by the signed-in user; a
      silent no-op for an anonymous session. */
  method SaveAnalysisToHistory(auth: Auth, entry: HistoryEntry)
    modifies auth.storage
    ensures auth.storage.items == SavedItems(old(auth.storage.items), auth.codec, auth.GetUser(), entry)
  {
    var user := auth.GetUser();
    var key := IdentityKey(user);
    if key.None? {
      return;
    }
    var store := ReadStore(ItemOf(auth.storage.items, HISTORY_KEY), auth.codec);
    var list := ListFor(store, key.value);
    list := [EntryJson(entry)] + list;
    store := store[key.value := Arr(Newest(list))];
    auth.storage.SetItem(HISTORY_KEY, auth.codec.stringify(Obj(store)));
  }

  // ---------------------------------------------------------------------
  // Properties.
  // ---------------------------------------------------------------------

  /** Saving then reading for the same user: the new entry first, then the
      previous list, cut to five. */
  lemma SaveThenRead(items: map<string, string>, codec: JsonCodec, user: Json, entry: HistoryEntry)
    requires Faithful(codec)
    requires IdentityKey(user).Some?
    ensures GetHistoryForUser(SavedItems(items, codec, user, entry), codec, user)
              == Newest([EntryJson(entry)] + GetHistoryForUser(items, codec, user))
    ensures GetHistoryForUser(SavedItems(items, codec, user, entry), codec, user)[0] == EntryJson(entry)
  {
    var key := IdentityKey(user).value;
    var store := ReadStore(ItemOf(items, HISTORY_KEY), codec);
    var saved := store[key := Arr(Newest([EntryJson(entry)] + ListFor(store, key)))];
    ReadStoreRoundTrip(saved, codec);
  }

  /** Saving for one user leaves what every user with a different identity
      key reads unchanged. */
  lemma SaveKeepsOtherUsers(items: map<string, string>, codec: JsonCodec, user: Json, other: Json, entry: HistoryEntry)
    requires Faithful(codec)
    requires IdentityKey(other) != IdentityKey(user)
    ensures GetHistoryForUser(SavedItems(items, codec, user, entry), codec, other)
              == GetHistoryForUser(items, codec, other)
  {
    if IdentityKey(user).Some? && IdentityKey(other).Some? {
      var key := IdentityKey(user).value;
      var store := ReadStore(ItemOf(items, HISTORY_KEY), codec);
      var saved := store[key := Arr(Newest([EntryJson(entry)] + ListFor(store, key)))];
      ReadStoreRoundTrip(saved, codec);
    }
  }

  /** The stored list never exceeds five entries once it has been written
      by a save. */
  lemma SavedListBounded(items: map<string, string>, codec: JsonCodec, user: Json, entry: HistoryEntry)
    requires Faithful(codec)
    requires IdentityKey(user).Some?
    ensures 1 <= |GetHistoryForUser(SavedItems(items, codec, user, entry), codec, user)| <= HISTORY_LIMIT
  {
    SaveThenRead(items, codec, user, entry);
  }

  /** The storage after saving `entries` one after another, in call order. */
  function SaveAll(items: map<string, string>, codec: JsonCodec, user: Json, entries: seq<HistoryEntry>): (r: map<string, string>)
    ensures IdentityKey(user).None? ==> r == items
    decreases |entries|
  {
    if entries == [] then items
    else SavedItems(SaveAll(items, codec, user, entries[..|entries| - 1]), codec, user, entries[|entries| - 1])
  }

  /** The JSON forms of `entries`, last call first. */
  function NewestFirst(entries: seq<HistoryEntry>): (r: seq<Json>)
    ensures |r| == |entries|
    ensures forall i :: 0 <= i < |entries| ==> r[i] == EntryJson(entries[|entries| - 1 - i])
  {
    if entries == [] then []
    else [EntryJson(entries[|entries| - 1])] + NewestFirst(entries[..|entries| - 1])
  }

  /** Truncating before or after prepending gives the same five. */
  lemma NewestOfPrepend(x: Json, xs: seq<Json>, list: seq<Json>)
    ensures Newest([x] + Newest(xs + list)) == Newest(([x] + xs) + list)
  {
    var all := xs + list;
    if |all| > HISTORY_LIMIT {
      assert ([x] + all[..HISTORY_LIMIT])[..HISTORY_LIMIT] == ([x] + all)[..HISTORY_LIMIT];
    }
    assert [x] + all == ([x] + xs) + list;
  }

  /** A run of saves by one user: the list read back is the entries in
      reverse call order, followed by what was there before, cut to five. */
  lemma {:induction false} SaveAllNewestFirst(items: map<string, string>, codec: JsonCodec, user: Json, entries: seq<HistoryEntry>)
    requires Faithful(codec)
    requires IdentityKey(user).Some?
    requires entries != []
    ensures GetHistoryForUser(SaveAll(items, codec, user, entries), codec, user)
              == Newest(NewestFirst(entries) + GetHistoryForUser(items, codec, user))
  {
    var before := GetHistoryForUser(items, codec, user);
    var init := entries[..|entries| - 1];
    var last := entries[|entries| - 1];
    var mid := SaveAll(items, codec, user, init);
    SaveThenRead(mid, codec, user, last);
    var midHistory := GetHistoryForUser(mid, codec, user);
    assert NewestFirst(entries) == [EntryJson(last)] + NewestFirst(init);
    if init == [] {
      assert [EntryJson(last)] + midHistory == NewestFirst(entries) + before;
    } else {
      SaveAllNewestFirst(items, codec, user, init);
      NewestOfPrepend(EntryJson(last), NewestFirst(init), before);
    }
  }

  /** After five or more saves by one user, the list read back is exactly
      the last five entries saved, newest first. */
  lemma LastFiveSaves(items: map<string, string>, codec: JsonCodec, user: Json, entries: seq<HistoryEntry>)
    requires Faithful(codec)
    requires IdentityKey(user).Some?
    requires |entries| >= HISTORY_LIMIT
    ensures var h := GetHistoryForUser(SaveAll(items, codec, user, entries), codec, user);
            |h| == HISTORY_LIMIT &&
            forall i :: 0 <= i < HISTORY_LIMIT ==> h[i] == EntryJson(entries[|entries| - 1 - i])
  {
    SaveAllNewestFirst(items, codec, user, entries);
    var before := GetHistoryForUser(items, codec, user);
    var all := NewestFirst(entries) + before;
    assert forall i :: 0 <= i < HISTORY_LIMIT ==> all[i] == NewestFirst(entries)[i];
  }
}

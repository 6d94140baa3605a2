/** The session store (`C4AT3Auth`): an in-memory token and user profile,
    mirrored into `localStorage` under two keys, plus the refresh of the
    profile from the server and the authenticated request helper. */
module Session {
  import opened Wrappers
  import opened JsValues
  import opened Storage
  import opened Requests

  const TOKEN_KEY: string := "c4at3_token"
  const USER_KEY: string := "c4at3_user"

  /** The profile endpoint `refreshUser` asks. */
  const ME_PATH: string := "/api/auth/me"

  // ---------------------------------------------------------------------
  // The storage contents each operation leaves behind, and what `init`
  // reads back from them.
  // ---------------------------------------------------------------------

  /** Storage after the token half of `setSession`: a truthy token is
      written (as its string form), anything falsy removes the key. */
  function WithToken(items: map<string, string>, token: Json): (r: map<string, string>)
    ensures TOKEN_KEY in r <==> Truthy(token)
    ensures Truthy(token) ==> r[TOKEN_KEY] == ToString(token)
    ensures forall k :: k != TOKEN_KEY ==> (k in r <==> k in items) && (k in r ==> r[k] == items[k])
  {
    if Truthy(token) then items[TOKEN_KEY := ToString(token)] else items - {TOKEN_KEY}
  }

  /** Storage after `setUser`: a truthy profile is written serialised, a
      falsy one removes the key; no other key changes. */
  function WithUser(items: map<string, string>, user: Json, codec: JsonCodec): (r: map<string, string>)
    ensures USER_KEY in r <==> Truthy(user)
    ensures Truthy(user) ==> r[USER_KEY] == codec.stringify(user)
    ensures forall k :: k != USER_KEY ==> (k in r <==> k in items) && (k in r ==> r[k] == items[k])
  {
    if Truthy(user) then items[USER_KEY := codec.stringify(user)] else items - {USER_KEY}
  }

  /** Storage after `setSession(token, user)`: the two keys are decided
      independently, and no other key changes. */
  function WithSession(items: map<string, string>, token: Json, user: Json, codec: JsonCodec): (r: map<string, string>)
    ensures TOKEN_KEY in r <==> Truthy(token)
    ensures USER_KEY in r <==> Truthy(user)
    ensures forall k :: k != TOKEN_KEY && k != USER_KEY ==> (k in r <==> k in items) && (k in r ==> r[k] == items[k])
  {
    WithUser(WithToken(items, token), user, codec)
  }

  /** Storage after `clear()`: both session keys gone, nothing else
      touched. */
  function Cleared(items: map<string, string>): (r: map<string, string>)
    ensures TOKEN_KEY !in r && USER_KEY !in r
    ensures forall k :: k != TOKEN_KEY && k != USER_KEY ==> (k in r <==> k in items) && (k in r ==> r[k] == items[k])
  {
    items - {TOKEN_KEY} - {USER_KEY}
  }

  /** The token `init` rehydrates: `localStorage.getItem(TOKEN_KEY) || null`. */
  function StoredToken(items: map<string, string>): (t: Json)
    ensures Truthy(t) <==> TOKEN_KEY in items && items[TOKEN_KEY] != ""
    ensures Truthy(t) ==> t == Str(items[TOKEN_KEY])
    ensures !Truthy(t) ==> t == Null
  {
    match ItemOf(items, TOKEN_KEY)
    case Some(s) => if s != "" then Str(s) else Null
    case None => Null
  }

  /** The profile `init` leaves in memory: a missing or empty user key
      keeps what was there before; otherwise the parsed payload, or `null`
      when it does not parse. It never fails. */
  function StoredUser(previous: Json, items: map<string, string>, codec: JsonCodec): (u: Json)
    ensures USER_KEY !in items || items[USER_KEY] == "" ==> u == previous
    ensures USER_KEY in items && items[USER_KEY] != "" && codec.parse(items[USER_KEY]).None? ==> u == Null
    ensures USER_KEY in items && items[USER_KEY] != "" && codec.parse(items[USER_KEY]).Some? ==>
              u == codec.parse(items[USER_KEY]).value
  {
    match ItemOf(items, USER_KEY)
    case Some(stored) =>
      if stored == "" then previous
      else codec.parse(stored).GetOr(Null)
    case None => previous
  }

  /** What `refreshUser` makes of the profile response: the payload's
      `data` field, or the payload itself when that is falsy. `None` when
      nothing is taken from it: the response was not ok, its body did not
      parse, the request failed, or the payload was `null` (reading
      `.data` of it throws, and the throw is caught). */
  function RefreshedUser(outcome: FetchOutcome): (r: Option<Json>)
    ensures r.Some? <==> outcome.Response? && outcome.ok && outcome.body.Some? && !outcome.body.value.Null?
    ensures r.Some? && Truthy(Get(outcome.body.value, "data")) ==> r.value == Get(outcome.body.value, "data")
    ensures r.Some? && !Truthy(Get(outcome.body.value, "data")) ==> r.value == outcome.body.value
  {
    match outcome
    case Response(ok, body) =>
      if ok && body.Some? && !body.value.Null? then Some(Or(Get(body.value, "data"), body.value)) else None
    case NetworkError => None
  }

  // ---------------------------------------------------------------------
  // The session object.
  // ---------------------------------------------------------------------

  class Auth {
    var token: Json
    var user: Json
    const storage: LocalStorage
    const codec: JsonCodec

    /** The in-memory token is always `null` or truthy: every writer
        normalises it with `|| null`. */
    ghost predicate Valid()
      reads this
    {
      token == Null || Truthy(token)
    }

    /** A fresh closure: `token` and `user` start as `null`. */
    constructor (storage: LocalStorage, codec: JsonCodec)
      ensures Valid()
      ensures token == Null && user == Null
      ensures this.storage == storage && this.codec == codec
    {
      token := Null;
      user := Null;
      this.storage := storage;
      this.codec := codec;
    }

    /** `init()`: rehydrates from storage without ever failing. */
    method Init()
      modifies this
      ensures Valid()
      ensures token == StoredToken(storage.items)
      ensures user == StoredUser(old(user), storage.items, codec)
    {
      var stored := ItemOf(storage.items, TOKEN_KEY);
      token := if stored.Some? && stored.value != "" then Str(stored.value) else Null;
      var storedUser := ItemOf(storage.items, USER_KEY);
      if storedUser.Some? && storedUser.value != "" {
        var parsed := codec.parse(storedUser.value);
        user := if parsed.Some? then parsed.value else Null;
      }
    }

    /** `setSession(newToken, newUser)`. */
    method SetSession(newToken: Json, newUser: Json)
      modifies this, storage
      ensures Valid()
      ensures token == OrNull(newToken) && user == OrNull(newUser)
      ensures storage.items == WithSession(old(storage.items), newToken, newUser, codec)
    {
      token := OrNull(newToken);
      user := OrNull(newUser);
      if Truthy(token) {
        storage.SetItem(TOKEN_KEY, ToString(token));
      } else {
        storage.RemoveItem(TOKEN_KEY);
      }
      if Truthy(user) {
        storage.SetItem(USER_KEY, codec.stringify(user));
      } else {
        storage.RemoveItem(USER_KEY);
      }
    }

    /** `setUser(newUser)`: only the profile and its key change. */
    method SetUser(newUser: Json)
      modifies this`user, storage
      ensures Valid() == old(Valid())
      ensures token == old(token)
      ensures user == OrNull(newUser)
      ensures storage.items == WithUser(old(storage.items), newUser, codec)
      ensures ItemOf(storage.items, TOKEN_KEY) == ItemOf(old(storage.items), TOKEN_KEY)
    {
      user := OrNull(newUser);
      if Truthy(user) {
        storage.SetItem(USER_KEY, codec.stringify(user));
      } else {
        storage.RemoveItem(USER_KEY);
      }
    }

    /** `clear()`: logged out in memory and in storage. */
    method Clear()
      modifies this, storage
      ensures Valid()
      ensures GetToken() == Null && GetUser() == Null
      ensures storage.items == Cleared(old(storage.items))
    {
      token := Null;
      user := Null;
      storage.RemoveItem(TOKEN_KEY);
      storage.RemoveItem(USER_KEY);
    }

    /** `getToken()`: the in-memory token, never re-read from storage. */
    function GetToken(): (t: Json)
      reads this
      requires Valid()
      ensures t == Null || Truthy(t)
    {
      token
    }

    /** `getUser()`: the in-memory profile. */
    function GetUser(): Json
      reads this
    {
      user
    }

    /** `authedFetch(path, options)`: builds the request for the current
        token and hands the platform's outcome back untouched, failures
        included. */
    method AuthedFetch(path: string, options: FetchOptions, server: Request -> FetchOutcome)
      returns (req: Request, outcome: FetchOutcome)
      ensures req == BuildRequest(token, path, options)
      ensures outcome == server(req)
    {
      req := BuildRequest(token, path, options);
      outcome := server(req);
    }

    /** `refreshUser()`: without a token, `null` and no request; otherwise
        the profile endpoint is asked, a usable answer replaces the cached
        profile and is returned, and on any failure the cached profile is
        returned and nothing changes. */
    method RefreshUser(server: Request -> FetchOutcome) returns (r: Json, sent: Option<Request>)
      requires Valid()
      modifies this`user, storage
      ensures Valid() && token == old(token)
      ensures !Truthy(token) ==> r == Null && sent == None
      ensures !Truthy(token) ==> user == old(user) && storage.items == old(storage.items)
      ensures Truthy(token) ==> sent == Some(BuildRequest(token, ME_PATH, NoOptions))
      ensures sent.Some? && RefreshedUser(server(sent.value)).Some? ==>
                r == RefreshedUser(server(sent.value)).value &&
                user == OrNull(r) &&
                storage.items == WithUser(old(storage.items), r, codec)
      ensures sent.Some? && RefreshedUser(server(sent.value)).None? ==>
                r == old(user) && user == old(user) && storage.items == old(storage.items)
    {
      if !Truthy(token) {
        return Null, None;
      }
      var req, outcome := AuthedFetch(ME_PATH, NoOptions, server);
      sent := Some(req);
      if outcome.Response? && outcome.ok && outcome.body.Some? && !outcome.body.value.Null? {
        var payload := outcome.body.value;
        var data := Or(Get(payload, "data"), payload);
        SetUser(data);
        r := data;
      } else {
        r := user;
      }
    }
  }

  // ---------------------------------------------------------------------
  // Properties relating the operations.
  // ---------------------------------------------------------------------

  /** A page reload after `setSession` restores the session: a truthy
      token comes back as its string form, a truthy profile comes back
      exactly; a falsy profile removed its key, so `init` keeps whatever
      was in memory. */
  lemma SessionSurvivesReload(items: map<string, string>, token: Json, user: Json, codec: JsonCodec, previous: Json)
    requires Faithful(codec)
    ensures Truthy(token) && ToString(token) != "" ==> StoredToken(WithSession(items, token, user, codec)) == Str(ToString(token))
    ensures !Truthy(token) ==> StoredToken(WithSession(items, token, user, codec)) == Null
    ensures Truthy(user) ==> StoredUser(previous, WithSession(items, token, user, codec), codec) == user
    ensures !Truthy(user) ==> StoredUser(previous, WithSession(items, token, user, codec), codec) == previous
  {
    var r := WithSession(items, token, user, codec);
    if Truthy(user) {
      StringifyNonEmpty(codec, user);
      assert r[USER_KEY] == codec.stringify(user);
    }
  }

  /** A string token survives a reload unchanged. */
  lemma StringTokenSurvivesReload(items: map<string, string>, t: string, user: Json, codec: JsonCodec)
    ensures StoredToken(WithSession(items, Str(t), user, codec)) == OrNull(Str(t))
  {
  }

  /** `setSession(null, null)` is the same as `clear()` as far as storage
      is concerned. */
  lemma SetSessionNullIsClear(items: map<string, string>, codec: JsonCodec)
    ensures WithSession(items, Null, Null, codec) == Cleared(items)
  {
  }

  /** After `clear()` a reload finds no token, and no stored profile to
      replace the in-memory one; clearing twice is clearing once. */
  lemma ClearIsFinal(items: map<string, string>, codec: JsonCodec, previous: Json)
    ensures StoredToken(Cleared(items)) == Null
    ensures StoredUser(previous, Cleared(items), codec) == previous
    ensures Cleared(Cleared(items)) == Cleared(items)
  {
  }

  /** `setUser` never touches the token key, whatever the profile. */
  lemma SetUserKeepsToken(items: map<string, string>, user: Json, codec: JsonCodec)
    ensures StoredToken(WithUser(items, user, codec)) == StoredToken(items)
  {
  }

  /** Every key other than the two session keys (the analysis history
      among them) survives `setSession`, `setUser` and `clear`. */
  lemma SessionOpsKeepOtherKeys(items: map<string, string>, token: Json, user: Json, codec: JsonCodec, key: string)
    requires key != TOKEN_KEY && key != USER_KEY
    ensures ItemOf(WithSession(items, token, user, codec), key) == ItemOf(items, key)
    ensures ItemOf(WithUser(items, user, codec), key) == ItemOf(items, key)
    ensures ItemOf(Cleared(items), key) == ItemOf(items, key)
  {
  }

  /** A profile response wrapped as `{data: user}` or bare yields the same
      profile, provided the bare profile has no truthy `data` field. */
  lemma RefreshAcceptsBothEnvelopes(profile: Json)
    requires profile.Obj? && !Truthy(Get(profile, "data"))
    ensures RefreshedUser(Response(true, Some(Obj(map["data" := profile])))) == Some(profile)
    ensures RefreshedUser(Response(true, Some(profile))) == Some(profile)
  {
  }
}

/** How the session store turns a path and fetch options into the request
    it hands to the platform `fetch`: URL resolution against the API base
    and the header set with the bearer credential attached. */
module Requests {
  import opened Wrappers
  import opened JsValues

  /** The configured API base; this build of the client talks to its own
      origin, so the base is empty. */
  const API_BASE: string := ""

  /** Header names are compared case-insensitively, so a header set is
      keyed by the lower-cased name. */
  type HeaderMap = map<string, string>

  /** Caller-supplied options: the `headers` entries in the order the
      caller wrote them (an absent `headers` is the empty list) and every
      other option (`method`, `body`, ...) by name. */
  datatype FetchOptions = FetchOptions(headers: seq<(string, string)>, rest: map<string, Json>)

  const NoOptions: FetchOptions := FetchOptions([], map[])

  /** What reaches `fetch`: the resolved URL, the final header set and the
      caller's other options, unchanged. */
  datatype Request = Request(url: string, headers: HeaderMap, rest: map<string, Json>)

  /** What `fetch` produces for a request: a response (whose `json()` body
      may fail to parse, `None`), or a rejected promise. */
  datatype FetchOutcome =
    | Response(ok: bool, body: Option<Json>)
    | NetworkError

  /** `/^https?:/i.test(path)`: the path starts with `http:` or `https:`,
      letters in either case. */
  predicate IsHttpUrl(path: string) {
    && |path| >= 5
    && Lower(path[..4]) == "http"
    && (path[4] == ':' || (|path| >= 6 && LowerChar(path[4]) == 's' && path[5] == ':'))
  }

  /** The pattern accepts exactly the two scheme prefixes, in any case. */
  lemma IsHttpUrlIff(path: string)
    ensures IsHttpUrl(path) <==>
              (|path| >= 5 && Lower(path[..5]) == "http:") ||
              (|path| >= 6 && Lower(path[..6]) == "https:")
  {
    if |path| >= 5 && Lower(path[..5]) == "http:" {
      assert Lower(path[..4]) == Lower(path[..5])[..4];
    }
    if |path| >= 6 && Lower(path[..6]) == "https:" {
      assert Lower(path[..4]) == Lower(path[..6])[..4];
      assert LowerChar(path[4]) == 's';
    }
    if IsHttpUrl(path) {
      if path[4] == ':' {
        assert Lower(path[..5]) == Lower(path[..4]) + [':'];
      } else {
        assert Lower(path[..6]) == Lower(path[..4]) + ['s', ':'];
      }
    }
  }

  /** `buildUrl(path)`: the empty path stays empty, an absolute http(s) URL
      passes through, anything else is prefixed with the API base. */
  function BuildUrl(path: string): (url: string)
    ensures url == "" <==> path == ""
    ensures |path| <= |url| && url[|url| - |path|..] == path
    ensures IsHttpUrl(path) ==> url == path
    ensures !IsHttpUrl(path) ==> url == API_BASE + path
  {
    if path == "" then ""
    else if IsHttpUrl(path) then path
    else API_BASE + path
  }

  /** With an empty API base every path, relative or absolute, is fetched
      exactly as written. */
  lemma BuildUrlIsIdentity(path: string)
    ensures BuildUrl(path) == path
  {
  }

  /** `headers.append(name, value)`: a second value for the same name is
      joined to the first with a comma. */
  function AppendHeader(h: HeaderMap, name: string, value: string): (r: HeaderMap)
    ensures r.Keys == h.Keys + {Lower(name)}
    ensures forall k :: k in h && k != Lower(name) ==> r[k] == h[k]
    ensures Lower(name) !in h ==> r[Lower(name)] == value
    ensures Lower(name) in h ==> r[Lower(name)] == h[Lower(name)] + ", " + value
  {
    var k := Lower(name);
    if k in h then h[k := h[k] + ", " + value] else h[k := value]
  }

  /** The lower-cased names of the entries in `init`. */
  function HeaderNames(init: seq<(string, string)>): set<string> {
    set i | 0 <= i < |init| :: Lower(init[i].0)
  }

  /** `new Headers(init)`: the entries appended in order. */
  function HeadersFrom(init: seq<(string, string)>): (h: HeaderMap)
    ensures h.Keys == HeaderNames(init)
  {
    if init == [] then map[]
    else
      var prefix, last := init[..|init| - 1], init[|init| - 1];
      assert HeaderNames(init) == HeaderNames(prefix) + {Lower(last.0)} by {
        assert forall i :: 0 <= i < |prefix| ==> prefix[i] == init[i];
      }
      AppendHeader(HeadersFrom(prefix), last.0, last.1)
  }

  /** A header the caller names once (in any case) arrives with exactly the
      value the caller gave. */
  lemma {:induction false} HeadersFromSingle(init: seq<(string, string)>, j: nat)
    requires j < |init|
    requires forall i :: 0 <= i < |init| && i != j ==> Lower(init[i].0) != Lower(init[j].0)
    ensures Lower(init[j].0) in HeadersFrom(init)
    ensures HeadersFrom(init)[Lower(init[j].0)] == init[j].1
  {
    var n := |init| - 1;
    var prefix, k := init[..n], Lower(init[j].0);
    if j < n {
      PrefixUnique(init, prefix, j);
      HeadersFromSingle(prefix, j);
      LastKeepsEarlier(init, prefix, k);
    } else {
      LastAbsentFromPrefix(init, prefix);
    }
  }

  lemma PrefixUnique(init: seq<(string, string)>, prefix: seq<(string, string)>, j: nat)
    requires j < |init| - 1 && prefix == init[..|init| - 1]
    requires forall i :: 0 <= i < |init| && i != j ==> Lower(init[i].0) != Lower(init[j].0)
    ensures prefix[j] == init[j]
    ensures Lower(init[|init| - 1].0) != Lower(init[j].0)
    ensures forall i :: 0 <= i < |prefix| && i != j ==> Lower(prefix[i].0) != Lower(prefix[j].0)
  {
  }

  lemma LastKeepsEarlier(init: seq<(string, string)>, prefix: seq<(string, string)>, k: string)
    requires |init| > 0 && prefix == init[..|init| - 1]
    requires k in HeadersFrom(prefix) && Lower(init[|init| - 1].0) != k
    ensures k in HeadersFrom(init) && HeadersFrom(init)[k] == HeadersFrom(prefix)[k]
  {
  }

  lemma LastAbsentFromPrefix(init: seq<(string, string)>, prefix: seq<(string, string)>)
    requires |init| > 0 && prefix == init[..|init| - 1]
    requires forall i :: 0 <= i < |init| - 1 ==> Lower(init[i].0) != Lower(init[|init| - 1].0)
    ensures Lower(init[|init| - 1].0) !in HeadersFrom(prefix)
    ensures HeadersFrom(init)[Lower(init[|init| - 1].0)] == init[|init| - 1].1
  {
    assert forall i :: 0 <= i < |prefix| ==> prefix[i] == init[i];
  }

  /** Two caller headers whose names differ only in case are both kept,
      their values joined in order. */
  lemma DuplicateNamesJoined(a: string, va: string, b: string, vb: string)
    requires Lower(a) == Lower(b)
    ensures Lower(a) in HeadersFrom([(a, va), (b, vb)])
    ensures HeadersFrom([(a, va), (b, vb)])[Lower(a)] == va + ", " + vb
  {
    var init := [(a, va), (b, vb)];
    assert init[..1] == [(a, va)];
    assert init[..1][..0] == [];
    assert HeadersFrom(init[..1])[Lower(a)] == va;
  }

  const AUTHORIZATION: string := "authorization"

  /** The value `authedFetch` puts in the `Authorization` header. */
  function Bearer(token: Json): string {
    "Bearer " + ToString(token)
  }

  /** The request `authedFetch(path, options)` issues while the session
      holds `token`: the bearer header is set (replacing any caller
      `Authorization`) exactly when the token is truthy; every other
      caller header and option is passed on unchanged. */
  function BuildRequest(token: Json, path: string, options: FetchOptions): (req: Request)
    ensures req.url == BuildUrl(path)
    ensures req.rest == options.rest
    ensures Truthy(token) ==> AUTHORIZATION in req.headers && req.headers[AUTHORIZATION] == Bearer(token)
    ensures !Truthy(token) ==> req.headers == HeadersFrom(options.headers)
    ensures forall k :: k != AUTHORIZATION ==>
              (k in req.headers <==> k in HeadersFrom(options.headers)) &&
              (k in req.headers ==> req.headers[k] == HeadersFrom(options.headers)[k])
  {
    var headers := HeadersFrom(options.headers);
    var headers := if Truthy(token) then headers[AUTHORIZATION := Bearer(token)] else headers;
    Request(BuildUrl(path), headers, options.rest)
  }

  /** When the caller sends no `Authorization` of its own, the request
      carries one exactly when a token is held, and then it is the bearer
      form of that token. */
  lemma AuthorizationIffToken(token: Json, path: string, options: FetchOptions)
    requires forall i :: 0 <= i < |options.headers| ==> Lower(options.headers[i].0) != AUTHORIZATION
    ensures AUTHORIZATION in BuildRequest(token, path, options).headers <==> Truthy(token)
    ensures Truthy(token) ==> BuildRequest(token, path, options).headers[AUTHORIZATION] == Bearer(token)
  {
  }

  /** `authedFetch('/x')` without a token sends no `Authorization` header;
      with the token `abc` it sends `Bearer abc`. */
  lemma AuthedFetchExamples()
    ensures AUTHORIZATION !in BuildRequest(Null, "/x", NoOptions).headers
    ensures BuildRequest(Str("abc"), "/x", NoOptions).headers[AUTHORIZATION] == "Bearer abc"
    ensures BuildRequest(Str("abc"), "/x", NoOptions).url == "/x"
  {
  }
}

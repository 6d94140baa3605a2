# C⁴AT³ Analyzer client: session store, history cache, usage meter, plan lookup

This project models the state-handling core of the browser client in
`script.js`. The rest of that file is DOM wiring around four parts:

- **The session store** (`C4AT3Auth`). It keeps the bearer token and the user
  profile in memory and mirrors them into `localStorage` under `c4at3_token`
  and `c4at3_user`. It can rehydrate them on load (`init`) and replace, update or
  clear them. It refreshes the profile from `/api/auth/me` and builds
  authenticated requests (`buildUrl`, `authedFetch`).
- **The per-user history cache.** One serialised record sits under
  `c4at3_history`. It maps each user's identity key (`id`, else `email`) to
  the user's five most recent analyses, newest first.
- **The usage meter.** It holds the per-tier fallback quota used when the
  usage endpoint fails. It also derives the used, limit, remaining and
  percentage figures from a partial payload.
- **The checkout plan lookup.** It matches the lower-cased `plan` query
  parameter against the fixed catalogue.

The browser is abstracted as follows:
- `localStorage` is a class holding a `map<string, string>`.
- `JSON.parse` and `JSON.stringify` are a pair of function values
  (`JsValues.JsonCodec`). Round-trip results assume `JsValues.Faithful`:
  stringify followed by parse gives the value back.
- `fetch` is a function from the request built to an outcome: a response
  (whose body may not parse) or a network error.

JavaScript values are the datatype `JsValues.Json`. Its truthiness
(`Truthy`), `||` (`Or`) and `String(v)` (`ToString`) follow the language.

Modules, one per file:
- `wrappers.dfy`: `Wrappers`, the Option datatype.
- `js_values.dfy`: `JsValues`, JavaScript values and the JSON codec.
- `storage.dfy`: `Storage`, `localStorage`.
- `requests.dfy`: `Requests`, `buildUrl` and the request `authedFetch` builds.
- `session.dfy`: `Session`, the `C4AT3Auth` closure as class `Auth`.
- `history.dfy`: `History`, the history cache with the corrected read.
- `history_as_written.dfy`: `HistoryAsWritten`, the read exactly as coded (see Findings).
- `usage.dfy`: `Usage`, the meter.
- `checkout.dfy`: `Checkout`, the plan lookup.

## Notes on the code

- Without a token, `refreshUser` returns `null` (script.js:66), not the cached
  profile. The model follows the code.
- The usage percentage is capped at 100 but has no lower bound
  (script.js:510). It can be negative only when `used` is; for a
  non-negative `used` it is never negative (`Usage.PercentageMeaning`).
- An identity key is used as a property key through `String(key)`. A user
  whose `id` is `1` and one whose `email` is `"1"` therefore share a history
  list. Distinct numeric identifiers never collide (`JsValues.NumKeysDistinct`).
- `API_BASE` is empty (script.js:2), so `buildUrl` returns every path
  unchanged (`Requests.BuildUrlIsIdentity`).

## Model

| member | source | states |
|---|---|---|
| JsValues.Or | script.js:27-28 | JavaScript `a or b` is one of its operands and is truthy iff either operand is |
| JsValues.OrNull | script.js:27-28 | `v or null` keeps a truthy value and turns every falsy one into `null` |
| JsValues.Lower | script.js:491 | `toLowerCase` on ASCII letters: same length, each letter lowered, every other character kept |
| JsValues.NumKeysDistinct | script.js:668 | two different numeric identifiers convert to different property keys |
| JsValues.StringifyNonEmpty | script.js:16-17 | a serialised profile is never the empty string, so it always passes the `if (stored)` test |
| Requests.IsHttpUrlIff | script.js:83 | `/^https?:/i` matches exactly the paths starting with `http:` or `https:` in any letter case |
| Requests.BuildUrl | script.js:81-87 | the empty path stays empty; the path is always a suffix of the URL; absolute http(s) URLs pass unchanged, others get the API base in front |
| Requests.BuildUrlIsIdentity | script.js:81-87 | with the empty API base, every path is fetched as written |
| Requests.AppendHeader | script.js:90 | appending adds the lower-cased name and keeps every other header; a name already present gets the new value joined after the old one with `, ` |
| Requests.HeadersFrom | script.js:90 | `new Headers(init)` has exactly the lower-cased names the caller supplied |
| Requests.HeadersFromSingle | script.js:90 | a header the caller names once (in any case) arrives with the caller's value |
| Requests.DuplicateNamesJoined | script.js:90 | two caller headers whose names differ only in case both arrive, joined in order |
| Requests.BuildRequest | script.js:89-95 | a truthy token sets `authorization: Bearer <token>`, replacing a caller `Authorization`; without one the caller's headers are passed on as they are; every other header and option is preserved; the URL is `buildUrl(path)` |
| Requests.AuthorizationIffToken | script.js:91-93 | if the caller sends no `Authorization`, the request carries one iff a token is held, and it is the bearer form of that token |
| Requests.AuthedFetchExamples | script.js:89-95 | no token means no `Authorization` header; token `abc` means `Bearer abc` |
| Session.WithToken | script.js:29-33 | the token key is present iff the token is truthy and then holds its string form; other keys unchanged |
| Session.WithUser | script.js:41-48 | the user key is present iff the profile is truthy and then holds it serialised; other keys unchanged |
| Session.WithSession | script.js:26-39 | both session keys are decided independently by truthiness; no other key changes |
| Session.Cleared | script.js:50-55 | both session keys are absent afterwards; no other key changes |
| Session.StoredToken | script.js:15 | the rehydrated token is truthy iff the token key holds a non-empty string, which it then is; otherwise `null` |
| Session.StoredUser | script.js:16-23 | a missing or empty user key keeps the previous profile; an unparsable one gives `null`; a parsable one gives exactly the parsed payload |
| Session.RefreshedUser | script.js:68-73 | a profile is taken iff the response is ok, its body parses and is not `null`; it is `payload.data` when truthy, else the payload |
| Session.Auth.constructor | script.js:11-12 | the closure starts with `token` and `user` both `null` |
| Session.Auth.Init | script.js:14-24 | in-memory state becomes what storage holds, as `StoredToken` and `StoredUser` define it; never fails |
| Session.Auth.SetSession | script.js:26-39 | in memory: `token or null` and `user or null`; storage as `WithSession` |
| Session.Auth.SetUser | script.js:41-48 | only the profile and its key change; the token and token key are unchanged, so the token invariant is kept |
| Session.Auth.Clear | script.js:50-55 | `getToken()` and `getUser()` are `null` afterwards and both keys are removed |
| Session.Auth.GetToken | script.js:57-59 | the token read back is always `null` or truthy |
| Session.Auth.AuthedFetch | script.js:89-95 | the request is `BuildRequest` of the current token; the outcome, failures included, is returned unchanged |
| Session.Auth.RefreshUser | script.js:65-79 | no token: `null`, no request, nothing changes; a usable profile response is stored and returned; any failure returns the cached profile and changes nothing; the token never changes |
| Session.SessionSurvivesReload | script.js:14-39 | `init` after `setSession` gives back the token's string form and the profile; a falsy profile leaves the previous in-memory one |
| Session.StringTokenSurvivesReload | script.js:15-33 | a string token is rehydrated exactly as `token or null` |
| Session.SetSessionNullIsClear | script.js:26-55 | `setSession(null, null)` leaves storage exactly as `clear()` does |
| Session.ClearIsFinal | script.js:50-55 | after `clear()` a reload finds no token and no profile; clearing twice is clearing once |
| Session.SetUserKeepsToken | script.js:41-48 | `setUser` never changes the token that a reload would see |
| Session.SessionOpsKeepOtherKeys | script.js:26-55 | every other key, the history among them, survives `setSession`, `setUser` and `clear` |
| Session.RefreshAcceptsBothEnvelopes | script.js:70-71 | `{data: profile}` and a bare profile with no truthy `data` field yield the same profile |
| History.EntryJson | script.js:583-589 | the recorded entry is an object carrying the analysed URL and its completion time |
| History.ReadStore | script.js:651-660 | missing or empty payload reads as `{}`; a non-empty store comes only from a payload that parses to that object; arrays read as `{}` |
| History.ReadStoreRoundTrip | script.js:651-664 | a store written by `saveHistoryStore` reads back unchanged |
| History.IdentityKey | script.js:668 | a key exists iff `id` or `email` is truthy; `id` wins, converted to a string |
| History.ListFor | script.js:670 | the array stored under the key is returned; anything else (missing, not an array) gives `[]` |
| History.Newest | script.js:681 | `slice(0, 5)`: the first `min(n, 5)` entries in order |
| History.GetHistoryForUser | script.js:666-671 | no identity key means `[]`; otherwise the array stored under the user's key in the store read, and `[]` when there is none |
| History.SavedItems | script.js:673-683 | no identity key means storage is unchanged; otherwise only the history key is rewritten |
| History.SaveAnalysisToHistory | script.js:673-683 | the storage afterwards is `SavedItems` for the signed-in profile |
| History.SaveThenRead | script.js:673-683 | after a save, that user's list is the new entry followed by the old list, cut to five |
| History.SaveKeepsOtherUsers | script.js:673-683 | a save never changes what a user with a different identity key reads |
| History.SavedListBounded | script.js:681 | a saved list holds between one and five entries |
| History.SaveAll | script.js:673-683 | a run of saves by an anonymous session changes nothing |
| History.SaveAllNewestFirst | script.js:673-683 | a run of saves reads back as the entries in reverse call order followed by the old list, cut to five |
| History.LastFiveSaves | script.js:673-683 | after at least five saves, the list is exactly the last five entries, newest first |
| HistoryAsWritten.ReadStoreAsWritten | script.js:651-660 | as coded, the store is an object or an array; it is an array only when the payload parses to one |
| HistoryAsWritten.PropAsWritten | script.js:679 | `store[key]` on an object is the own property |
| HistoryAsWritten.ListAsWritten | script.js:679 | on an object store the list read is the corrected model's; a non-empty list is the array found under the key |
| HistoryAsWritten.SaveStoreAsWritten | script.js:678-682 | on an object store the save writes the new entry ahead of the old list, cut to five; on an array a non-index key other than `length` leaves the store unchanged, and `length` throws |
| HistoryAsWritten.AssignAsWritten | script.js:681-682 | on an object `store[key] = list` sets the key; on an array a key that is neither an index nor `length` leaves the serialised store unchanged |
| HistoryAsWritten.AsWrittenAgreesOffArrays | script.js:651-683 | for every payload other than an array, the code and the corrected model read and write the same store |
| HistoryAsWritten.ArrayStoreLosesSaves | script.js:651-683 | with `[]` stored, a save for user `u1` writes `[]` back and the entry is lost, where the corrected model keeps it |
| HistoryAsWritten.ArrayStoreThrowsOnLength | script.js:673-683 | with `[]` stored, a save for a user whose identifier is `length` throws |
| Usage.TierLimit | script.js:492-493 | the quota is one of 5, 20, 60, 150; 20, 60 and 150 belong to starter, professional and pro exactly |
| Usage.BuildUsageFallback | script.js:490-499 | throws iff the tier is truthy and not a string; a string tier gets the quota `TierLimit` gives its lower-cased name, as both limit and remaining, with nothing used; no tier means the free quota |
| Usage.RoundHalfUp | script.js:510 | `Math.round(n / d)` lies within half a unit of `n / d`, halves rounded up |
| Usage.RoundHalfUpUnique | script.js:510 | that is the only integer within half a unit |
| Usage.RoundHalfUpMonotone | script.js:510 | rounding never decreases as `n` grows |
| Usage.Percentage | script.js:510 | at most 100, and 0 without a positive limit |
| Usage.PercentageMeaning | script.js:510 | non-negative for non-negative use; 100 once use reaches the limit; otherwise the nearest percentage |
| Usage.PercentageMonotone | script.js:510 | more use never shows a smaller percentage |
| Usage.DeriveUsage | script.js:507-510 | missing `used` is 0; a missing limit is `used + remaining`; a missing remaining is the non-negative rest of the limit |
| Usage.StatusState | script.js:519-528 | a message means a warning; otherwise the state is the error state iff nothing remains |
| Usage.LimitReached | script.js:524-527 | the limit counts as reached exactly when the status line shows the limit-reached state |
| Usage.LimitReachedIffUsedUp | script.js:507-527 | without a `remaining` from the server, the limit is reached exactly when the count used has caught up with the limit |
| Usage.FullUsageScenario | script.js:507-528 | `{used: 5, limit: 5}` leaves 0 remaining, a full meter and the limit reported as reached |
| Usage.DerivationsAgree | script.js:508-509 | deriving remaining from a limit and the limit back from that remaining show the same meter |
| Usage.FallbackNotExhausted | script.js:490-528 | the fallback quota shows nothing used, the full quota remaining and a success state |
| Usage.FallbackTierCaseInsensitive | script.js:491-493 | the tier is matched in any letter case |
| Checkout.SelectPlan | script.js:687-703 | a plan is selected iff the lower-cased parameter is starter, professional or pro, and it is that plan |
| Checkout.CheckoutDisabled | script.js:705-707 | the checkout button is disabled iff the lower-cased parameter is none of starter, professional, pro |
| Checkout.SelectPlanCaseInsensitive | script.js:687 | the parameter is matched in any letter case |
| Checkout.NothingToBuy | script.js:697-708 | a missing, empty or `free` plan disables checkout; `Pro` enables it |
| Checkout.CatalogueMatchesTierLimits | script.js:697-701 | each plan on sale promises the quota the usage fallback assumes for that tier |

## Findings

| source | as written | input that shows it | evidently intended | confidence | as-written member | corrected member |
|---|---|---|---|---|---|---|
| script.js:651-660 | `typeof parsed === 'object' && parsed` also accepts an array as the history store. A save for a non-index identity key becomes a named array property, which `JSON.stringify` drops | `c4at3_history` holds `[]`, the signed-in user is `{id: "u1"}`, any analysis is saved | a payload that is not a plain object reads as the empty store, so the save records the entry | medium; not executed | HistoryAsWritten.ArrayStoreLosesSaves | History.SaveThenRead |

## Left out

- DOM work: modals, tabs, `syncAuthUI`, button states, history rendering, messages, redirects. It is element toggling with nothing to state.
- The login, sign-up, analysis and checkout handlers. script.js has no polling of analysis results. The handlers are asynchronous fetch-and-render glue. Their effect on the core is a call to `setSession`, `refreshUser` or `saveAnalysisToHistory`, and those are modelled.
- `fetch`, `Response.json`, `safeJson`, `JSON.parse` and `JSON.stringify` are parameters, not implementations. Their formatting, and the exact strings `JSON.stringify` writes, are not modelled.
- Promises and awaits. Each operation is one sequential step, and interleavings between tabs or tasks are not modelled.
- `localStorage` exceptions (quota exceeded, storage disabled) are not modelled.
- The usage status text and its pluralisation are left out, and so is the `—` shown for a zero limit. Only the state the status line is put in is modelled.
- `scripts.js` is left out entirely. It is mock-data templating and `alert` stubs, and it does not parse as JavaScript.
- JsValues.Json: numbers are unbounded integers, so fractional, infinite and NaN values are not modelled. Integers beyond 2^53, which JavaScript cannot hold exactly, are not modelled either. `String(n)` writes magnitudes of 1e21 and more in exponent form; `ToString` writes them in decimal. `ToString` and `NumKeysDistinct` therefore hold for the model's integers, not for every JSON numeral. `undefined` is folded into `null`, which is observable only where the core tests truthiness.
- JsValues.Lower: only ASCII letters are lowered. Only two non-ASCII characters lower to something containing an ASCII letter. U+212A (Kelvin sign) lowers to `k`, and none of the ASCII keys the lookups use contains a `k`. U+0130 (capital I with dot above) lowers to `i` followed by U+0307, and that combining mark keeps the result from ever equalling one of those keys, `professional` included. The `/i` test in `buildUrl` never maps non-ASCII characters to ASCII. Header names must be ASCII. So the results do not change.
- Requests.HeadersFrom: header-name validation and value whitespace trimming by `Headers` are not modelled.
- Requests.BuildRequest: `new Headers` and `headers.set` throw a TypeError for a header value that contains CR, LF or NUL, or a code unit above 0xFF. They also trim the value, the bearer value included. The model always builds the request and keeps values as given.
- Session.Auth.RefreshUser: if building the request throws for that reason (a token with such characters), the source catches the TypeError and returns the cached profile without sending anything. The model sends the request.
- Usage.DeriveUsage: only integer counters are taken, and any other `remaining` is treated as missing. When `limit` is missing, the source's `used + (data.remaining || 0) || 0` does not treat a truthy non-number `remaining` that way. A string, array or object concatenates. `true` adds 1: `{used: 2, remaining: true}` shows a limit of 3 with 1 remaining, where the model shows the limit reached. `Infinity` gives an infinite limit. None of these is modelled.
- Usage.RoundHalfUp: computes `used * 100 / limit` exactly. The floating-point rounding of `(used / limit) * 100` at exact halves is not modelled.
- Lookups by a key that names an inherited `Object.prototype` member are not modelled. These are a tier or plan named `constructor` or `__proto__`, and a user identifier `__proto__`.
- Session.Auth.GetUser: carries no contract. It returns the in-memory profile, and `Clear` states its value.

# SmallTools Pages Functions: session tokens and the data endpoint

A Dafny model of the two Cloudflare Pages Functions that serve the
SmallTools data API over one Workers KV namespace (`MY_KV`):

- `functions/api/index.js` – a handler with a bearer-token session store.
  It keeps a list of `{token, createdAt}` records under `AUTH_TOKENS`, each
  valid for 24 hours. It writes the default login `admin` / `123456` under
  `AUTH_CONFIG` on first use. Routes are tried in order: `OPTIONS` preflight,
  `POST /api/login`, `GET /api/check`, `GET /api`, and `POST /api` (which needs
  a token). Anything else is 404.
- `functions/api.js` – the older handler. `POST` stores the raw body under
  `USER_DATA` with no check, and every other method reads it back.

The namespace is the field `kv: map<string, string>` of class `Kv.Store`.
Both handlers work on it: `ApiIndex.OnRequest` and `ApiLegacy.OnRequest`.
Each is an imperative method that issues the same `get`/`put` sequence as the
source, with the same early returns. Each is proved equal to a function of the
namespace before the request (`ApiIndex.Handle`, `ApiLegacy.Handle`). That
function gives the namespace after the request and the response. The
properties are lemmas about those functions, in `IndexProperties` and
`LegacyProperties`.

The clock (`Date.now()`) and `crypto.randomUUID()` are parameters. So are the
request's method, pathname, `Authorization` header and body. The token list
and the login configuration are stored as strings, as in the source. Module
`Codec` stands in for `JSON.stringify`/`JSON.parse`. Its format is
length-prefixed, not JSON. What the handlers rely on is proved about it:
decoding an encoding gives the value back, and an encoding is never the falsy
empty string.

Modules, one per file: `Wrappers` (Option), `Text` (number rendering,
`String.prototype.replace`), `Tokens` (records, lifetime, `some`, `filter`),
`Codec`, `Kv` (the namespace, JS truthiness, `||` defaulting), `Http` (request
and response), `ApiIndex`, `IndexProperties`, `ApiLegacy`,
`LegacyProperties`.

Four behaviours of the code are worth stating outright:
- A known path with another method (`GET /api/login`, `PUT /api`) answers
  404, like an unknown path (`IndexProperties.UnroutedIsNotFound`).
- Bearer extraction removes the first `"Bearer "` wherever it occurs in the
  header, not only at its start (`IndexProperties.BearerInsideHeader`).
- No handler writes a default document: a read without a stored document
  serves `{"users":[]}` and writes nothing beyond the default login
  (`IndexProperties.ReadServesDocument`).
- The default login is written whenever the stored configuration is falsy,
  so an entry holding `""` is overwritten too
  (`ApiIndex.EnsureDefaultCredentials`).

## Model

| member | source | states |
|---|---|---|
| `Text.Decimal` | functions/api/index.js:8 | `String(Date.now())` is a non-empty string of digits without a leading zero |
| `Text.DecimalRoundTrip` | functions/api/index.js:8 | reading the rendered clock value back as digits gives the value |
| `Text.ReplaceFirstAt` | functions/api/index.js:91 | `replace` with a string pattern replaces exactly the first occurrence, wherever it starts |
| `Text.ReplaceFirstAbsent` | functions/api/index.js:91 | without an occurrence of the pattern, `replace` returns the string unchanged |
| `Tokens.AnyLive` | functions/api/index.js:19 | `tokens.some(...)` is true iff some record has exactly the candidate token and `now - createdAt < 86400000` |
| `Tokens.Prune` | functions/api/index.js:30 | `filter` keeps exactly the records live at `now`, and never lengthens the list |
| `Tokens.PruneAppend` | functions/api/index.js:30 | filtering works record by record, so the kept records stay in their original order |
| `Tokens.PruneSingle` | functions/api/index.js:30 | one record survives filtering iff it is live |
| `Tokens.PruneAllLive` | functions/api/index.js:30 | a list with only live records is left as it is |
| `Tokens.PruneLater` | functions/api/index.js:29-30 | filtering at an earlier time and then at a later one equals filtering once at the later time |
| `Tokens.PruneIdempotent` | functions/api/index.js:30 | filtering twice at the same time drops nothing more |
| `Tokens.PruneKeepsValidity` | functions/api/index.js:19-30 | filtering never changes which tokens validate at the filtering time or later |
| `Tokens.FreshTokenWindow` | functions/api/index.js:19-32 | a token absent from the list and appended with stamp `s` validates at `t` iff `t - s < 86400000` |
| `Tokens.AppendOtherKeepsValidity` | functions/api/index.js:19-32 | appending a record for another token does not change whether a candidate validates |
| `Tokens.AppendedValidates` | functions/api/index.js:19-32 | an appended record validates before it expires, whatever else is stored |
| `Codec.EncodeTokens` | functions/api/index.js:33 | the stored token list is never the falsy empty string |
| `Codec.TokensRoundTrip` | functions/api/index.js:16 | parsing a stored token list gives back the list that was stored |
| `Codec.DecodeTokens` | functions/api/index.js:16 | `JSON.parse` of the token list succeeds only on a bracketed list; the empty string never parses |
| `Codec.EncodeCredentials` | functions/api/index.js:59 | the stored login configuration is never the falsy empty string |
| `Codec.CredentialsRoundTrip` | functions/api/index.js:66 | parsing the stored configuration gives back the stored username and password |
| `Codec.DecodeCredentials` | functions/api/index.js:66 | `JSON.parse` of the configuration succeeds only on a braced object, and its username and password are each shorter than the stored string |
| `Kv.Lookup` | functions/api/index.js:14 | `MY_KV.get(key)` is present iff the key is stored, and then holds its value |
| `Kv.Truthy` | functions/api/index.js:13-15 | a `get` result or header is truthy iff it is present and non-empty; a missing value (`null`) is falsy |
| `Kv.Store.Get` | functions/api/index.js:14 | `MY_KV.get(key)` returns the current entry for the key, as `Lookup` describes, and changes nothing |
| `Kv.Store.Put` | functions/api/index.js:33 | `MY_KV.put(key, value)` sets that one key and leaves every other key as it was |
| `Kv.OrElse` | functions/api.js:14 | `value \|\| default` gives the value when it is present and non-empty, otherwise the default |
| `ApiIndex.KeysDistinct` | functions/api/index.js:2-4 | `AUTH_CONFIG`, `USER_DATA` and `AUTH_TOKENS` are three different keys |
| `ApiIndex.StoredTokensAfterPut` | functions/api/index.js:33 | after a list is written under `AUTH_TOKENS`, reading the list back gives that list |
| `ApiIndex.TokensWellFormed` | functions/api/index.js:14-16 | a namespace with no token list, or an empty one, is always readable; otherwise the stored list must parse |
| `ApiIndex.StoredTokens` | functions/api/index.js:24-27 | an absent `AUTH_TOKENS` entry, or one holding the falsy `""`, reads as the empty list; a non-empty entry is read as what it parses to |
| `ApiIndex.GenerateToken` | functions/api/index.js:7-9 | a token is the UUID, then `-`, then a non-empty run of digits without a leading zero that reads back as the clock reading, which is exactly `String(Date.now())` |
| `ApiIndex.Bearer` | functions/api/index.js:91 | `?.` gives a candidate iff the `Authorization` header is present |
| `ApiIndex.VerifyToken` | functions/api/index.js:12-20 | true iff the candidate is present and non-empty, a token list is stored, and some stored record has that token and is under 24 h old |
| `ApiIndex.ReadAndVerifyToken` | functions/api/index.js:12-20 | reading `AUTH_TOKENS` through one `get` and checking it gives exactly `VerifyToken` of the namespace |
| `ApiIndex.SaveToken` | functions/api/index.js:23-34 | the new `AUTH_TOKENS` holds the old records live at the first clock reading, in order, then `{token, createdAt}` at the second; no other key changes |
| `ApiIndex.EnsureDefaultCredentials` | functions/api/index.js:56-60 | afterwards the configuration is truthy; a truthy one is kept as it was; otherwise the default `admin`/`123456` is stored; no other key changes |
| `ApiIndex.HandleLogin` | functions/api/index.js:63-87 | the login branch keeps the token list well formed and writes no key except `AUTH_TOKENS` |
| `ApiIndex.Handle` | functions/api/index.js:36-136 | a request never throws, keeps the token list well formed, and changes no key other than the three it owns |
| `ApiIndex.Route` | functions/api/index.js:62-135 | the routes after the lazy write change only `AUTH_TOKENS` and `USER_DATA`, and always answer |
| `ApiIndex.Login` | functions/api/index.js:63-87 | the imperative login branch has exactly the effect and the response of `HandleLogin` |
| `ApiIndex.OnRequest` | functions/api/index.js:36-136 | the imperative handler has exactly the effect and the response of `Handle`, and keeps the token list well formed |
| `IndexProperties.BearerOfPrefixed` | functions/api/index.js:91 | the header `Bearer <t>` yields `<t>` |
| `IndexProperties.BearerRemovesFirstOccurrence` | functions/api/index.js:110 | the first `"Bearer "` is removed wherever it stands in the header |
| `IndexProperties.BearerInsideHeader` | functions/api/index.js:110 | `"xBearer y"` yields `"xy"`: extraction is not a prefix strip |
| `IndexProperties.BearerWithoutKeyword` | functions/api/index.js:110 | a header without `"Bearer "` is taken whole as the candidate |
| `IndexProperties.MissingOrBareHeaderRejected` | functions/api/index.js:13 | a missing header yields no candidate, and `"Bearer "` yields `""`; both fail verification |
| `IndexProperties.SaveContents` | functions/api/index.js:23-34 | after a save, the list is the old records live at pruning time in order, then the new record; a record is stored iff it was live or is the new one; other keys are unchanged |
| `IndexProperties.SavedTokenValidates` | functions/api/index.js:19 | a non-empty token just saved with stamp `s` validates at every `t` with `t - s < 24 h` |
| `IndexProperties.SavedTokenWindow` | functions/api/index.js:19-32 | a token that is new to the list validates after its save iff `t - s < 24 h`; from `s + 24 h` on it is rejected though still stored |
| `IndexProperties.SaveKeepsOtherSessions` | functions/api/index.js:23-34 | saving a token does not change whether any other token validates at the pruning time or later |
| `IndexProperties.BootstrapIdempotent` | functions/api/index.js:56-60 | running the lazy configuration write twice has the effect of running it once |
| `IndexProperties.PreflightIsInert` | functions/api/index.js:48-53 | OPTIONS on any path answers 204 with no body and leaves the namespace untouched |
| `IndexProperties.RequestsBootstrapConfiguration` | functions/api/index.js:56-60 | after any other request a truthy configuration is as it was, and a missing or empty one is the default |
| `IndexProperties.UnroutedIsNotFound` | functions/api/index.js:135 | every non-OPTIONS pair outside the route table answers 404 after the lazy write, including known paths with other methods |
| `IndexProperties.LoginAccepted` | functions/api/index.js:63-74 | matching credentials answer 200 with the generated token; the token list becomes the pruned list plus exactly that token; no other key changes beyond the lazy write |
| `IndexProperties.FirstLoginWithDefaults` | functions/api/index.js:56-74 | on a store never configured, `admin`/`123456` logs in with 200 |
| `IndexProperties.LoginRejected` | functions/api/index.js:75-80 | a mismatch in either field answers 401; the token list and document are unchanged |
| `IndexProperties.LoginFailure` | functions/api/index.js:81-86 | an unparsable body or stored configuration answers 500 and writes nothing beyond the lazy write |
| `IndexProperties.CheckReports` | functions/api/index.js:90-97 | GET /api/check always answers 200 with `loggedIn = verifyToken(...)` and writes nothing beyond the lazy write |
| `IndexProperties.ReadServesDocument` | functions/api/index.js:100-106 | GET /api answers 200 with the stored document, or `{"users":[]}` when it is absent or empty, and writes nothing beyond the lazy write |
| `IndexProperties.ReadIsRepeatable` | functions/api/index.js:100-106 | a second GET /api with nothing in between answers the same and leaves the same namespace |
| `IndexProperties.UnauthorisedWriteRejected` | functions/api/index.js:109-118 | POST /api without a valid token answers 401 and leaves `USER_DATA` as it was |
| `IndexProperties.AuthorisedWriteStores` | functions/api/index.js:120-132 | with a valid token the body is stored verbatim under `USER_DATA` with 200; a body that cannot be read answers 500 and stores nothing |
| `IndexProperties.LoginThenCheck` | functions/api/index.js:63-97 | after a successful login, GET /api/check with `Bearer <token>` reports logged in until 24 h after issue |
| `IndexProperties.LoginWriteRead` | functions/api/index.js:63-126 | log in, POST /api with the issued token within 24 h, then GET /api: the write answers 200 and the read returns the body (or the default for an empty one) |
| `ApiLegacy.Handle` | functions/api.js:1-17 | only `USER_DATA` can change, and any method other than POST changes nothing |
| `ApiLegacy.OnRequest` | functions/api.js:1-17 | the imperative handler has exactly the effect and the response of `ApiLegacy.Handle` |
| `LegacyProperties.WriteStoresBody` | functions/api.js:6-10 | POST stores the body verbatim under `USER_DATA` and answers 200 "Saved", with no authorisation check |
| `LegacyProperties.ReadNeverWrites` | functions/api.js:12-16 | any other method never writes, and answers the stored value or `{"users":[]}` when it is absent or `""` |
| `LegacyProperties.WriteThenRead` | functions/api.js:7-14 | after POST of `b`, a read answers `b`; an empty `b` reads as the default |
| `LegacyProperties.LastWriteWins` | functions/api.js:8 | a second POST overwrites the first |
| `LegacyProperties.UnreadableBodyWritesNothing` | functions/api.js:7 | a rejected body read throws and leaves the namespace as it was |
| `LegacyProperties.SharedDocument` | functions/api.js:8 | a non-empty body written by this handler is served by GET /api of the other, and their token list is untouched |

## Left out

- JSON syntax. `Codec` is a length-prefixed stand-in for `JSON.stringify`/`JSON.parse`. Only its round trips and non-emptiness matter to the handlers.
- Malformed data stored under `AUTH_TOKENS` is excluded by the precondition `TokensWellFormed`. In `verifyToken` the parse would throw uncaught. In the login branch it would be caught and answer 500.
- A stored configuration with missing or extra fields is not modelled. The configuration either decodes to two strings or fails, and failing answers 500 at login. In the source, a configuration without `username`/`password` would match a body without them (`undefined === undefined`).
- Login bodies are modelled coarsely. A JSON value that cannot be destructured (`null`) counts as unparsable. A field that is missing or not a string is `None`, which never equals a stored string.
- The concurrent-login lost update on `AUTH_TOKENS` is left out. Execution is sequential and each request runs to completion.
- `Date.now()` is read once per request in `OnRequest`. `SaveToken` takes its two readings as separate parameters.
- The uniqueness and unpredictability of `crypto.randomUUID()` cannot be stated. `IndexProperties.SavedTokenWindow` assumes the token is new to the list instead.
- Clock values and `createdAt` are non-negative integers.
- KV failures, eventual consistency and key expiry are left out. `get`/`put` always succeed.
- URL parsing is left out: the pathname is an input. Response headers are left out: CORS, `Content-Type`, message texts and `e.message`.
- `functions/api/[[path]].js` and its `/api/notify` and `/api/webhook/*` routes are not part of this model.
- `functions/api.js`: when `request.text()` rejects in the POST branch, the promise rejects with nothing written. The model records this as `Threw`, not as a platform error page.

# Server-side sessions: a Dafny model

This project models the core of a small Go library for server-side HTTP sessions. A session is a token plus a map from string keys to dynamically typed values. A store keeps each session's serialized form under its token. A manager does four things per request: it hydrates the session named by the request's cookie (or starts a fresh one), runs the wrapped handler, saves the session back with a sliding expiry, and sets the session cookie.

Modules, one per source file or library concern:

- `Wrappers` (`wrappers.dfy`): `Option` and `Result`.
- `GoTypes` (`gotypes.dfy`): the Go types the core depends on, with 64-bit widths written out. These are `int`/`int64`, `byte`, `[]byte` (a nil slice is distinct from an empty one), `time.Duration`, and `time.Time` as nanoseconds since the zero time. It also has `Time.Unix` (rounds toward negative infinity) and Go's truncating `Duration / time.Second`.
- `Uuid` (`uuid.dfy`): the 16-byte token. It has its canonical 8-4-4-4-12 lower-case text form (the cookie value) and `uuid.Parse` on that form. The manager discards `uuid.Parse`'s error; the model takes the token of a failed parse to be the nil token (see "Left out").
- `GoText` (`gotext.dfy`): `strconv.Atoi`, with `strconv.Itoa` as a reference inverse, and `strings.EqualFold` restricted to ASCII.
- `SessionContainer` (`session.dfy`): `session/session.go`. Stored values are a tagged union `VStr | VBool | VInt | VFloat | VTime | VOther`, and a missing key is a missing map entry. `Session` is a class with `token`, `values` and `dirtyRead` fields, constructors, an in-place `Put`, and the five typed getters. The getters are functions that read the object.
- `MemoryStore` (`memstore.dfy`): `store/memstore/memstore.go`. `MemStore` is a class with one `map<Token, Payload>` field. A payload is text or bytes, so the last write wins across kinds. `LookupText` and `LookupBytes` give what `Get` and `GetBytes` report.
- `Manager` (`manager.dfy`): `sessionmanager/sessionmanager.go`. It has four pure functions:
  - `Decide`: `getSession`'s branching once the store has answered.
  - `PlanSave`: `saveSession`'s choice of store call and its expiry.
  - `SessionCookie`: `addSessionCookie`.
  - `Hydrate`/`Serve`: one whole request as a function of the store's contents.

  The class `SessionManager` holds the configuration and the store. Its methods `GetSession`, `SaveSession` and `Handler` do the store reads and writes, and each one's `ensures` ties its result and the new store to those functions.
- `ManagerProperties` (`manager_properties.dfy`): lemmas about defaults, expiry, cookies, and sessions surviving from one request to the next.

The model takes as inputs everything the core gets from outside:

- the text and binary encoders/decoders, as a `Codec` of partial functions;
- `strconv.ParseFloat` and RFC 3339 time parsing, as partial-function parameters of `GetFloat` and `GetTime`;
- the random token of a fresh session, and the two clock readings of a request (in `saveSession` and in `addSessionCookie`), as an `Env`;
- the request's cookie value, as `Option<string>`;
- the wrapped handler, as a function `SessionData -> SessionData` on the session's exported state.

`Handler` requires, and preserves, `Valid()`: every stored payload has the kind the configured encoding reads. Without it, the in-memory store's type assertion could panic (`store/memstore/memstore.go:20`, `:34`). Go panics only when the entry under the token being looked up has the other kind, and the no-cookie path never reads the store. `Valid()` is stated of the whole store, which is stronger. It holds of every store a manager writes, because no modelled operation changes `encoding`.

Where the code differs from its documented design, the model follows the code:

- A cookie value that does not parse as a UUID is not treated as "no cookie". `uuid.Parse` then yields the nil UUID, and that token is looked up in the store (`sessionmanager/sessionmanager.go:67-68`).
- If a found payload fails to decode, the error does not reach a caller. `Handler` discards it and then dereferences the nil session. The model's response for this case is `NilSessionPanic`, with the store unchanged (`sessionmanager/sessionmanager.go:68`, `:78-79`).
- Fresh and hydrated sessions never take the manager's `DirtyReadFromSession` setting; that field is never read. Every session the manager makes has dirty reads off.
- On a miss, the text path returns the store's error with the fresh session, while the binary path returns no error (`sessionmanager/sessionmanager.go:98`, `:112`).
- The in-memory `DeleteExpired` removes nothing and returns 0.

## Model

| member | source | states |
|---|---|---|
| `SessionContainer.Session.New` | session/session.go:20-26 | the given fresh token, an empty map, dirty reads off |
| `SessionContainer.Session.NewWithDirtyRead` | session/session.go:28-35 | the given fresh token, an empty map, the dirty-read flag as given |
| `SessionContainer.Session.NewWithValues` | session/session.go:37-46 | a non-nil map: token and map kept, dirty reads off; a nil map: the same result as `New` (fresh token, empty map) |
| `SessionContainer.Session.Put` | session/session.go:48-53 | the key now maps to the value, overwriting; every other key, the token and the flag unchanged |
| `SessionContainer.Session.GetString` | session/session.go:55-69 | succeeds exactly when a string is stored, and returns it; otherwise "" and a mismatch naming the stored value (or its absence); reads only |
| `SessionContainer.Session.GetBool` | session/session.go:71-93 | a stored bool as is; a string that case-folds to "true"/"false" gives true/false; anything else false and a mismatch |
| `SessionContainer.Session.GetInt` | session/session.go:95-116 | a stored int as is; a string `strconv.Atoi` accepts gives its value; anything else (including a float) 0 and a mismatch |
| `SessionContainer.Session.GetFloat` | session/session.go:118-139 | a stored float64 as is; a string the float parser accepts gives its value; anything else (including an int) 0 and a mismatch |
| `SessionContainer.Session.GetTime` | session/session.go:141-163 | a stored time as is; a string the RFC 3339 parser accepts gives its value; anything else the zero time and a mismatch |
| `SessionContainer.PutThenGet` | session/session.go:48-163 | a value `Put` under a key is returned by the getter of its kind with no error, for all five kinds; the key ends holding the last value put |
| `SessionContainer.GetIntOfItoa` | session/session.go:107-112 | every int written as decimal text reads back through `GetInt` as that int, with no error |
| `SessionContainer.GetBoolIgnoresCase` | session/session.go:83-90 | upper-casing a stored string changes neither whether `GetBool` accepts it nor the bool it gives |
| `GoText.Atoi` | session/session.go:109 | accepts exactly an optional sign followed by one or more decimal digits whose value is in the 64-bit range, and returns that value |
| `GoText.AtoiItoa` | session/session.go:109 | `Atoi` reads back every 64-bit int that `Itoa` prints |
| `GoText.AtoiExamples` | session/session_test.go:90-99 | "33" reads as 33; signs and leading zeros are accepted; empty, sign-only, underscored, spaced and hex strings are refused |
| `GoText.EqualFoldAscii` | session/session.go:85-87 | two strings fold equal exactly when their ASCII lower-casings are equal; every string folds equal to itself |
| `GoText.CaseBlind` | session/session.go:85-88 | ASCII case folding ignores case: an upper-cased string matches exactly what the original matches |
| `Uuid.TokenString` | sessionmanager/sessionmanager.go:147 | the cookie value is the 36-character canonical text of the token |
| `Uuid.Parse` | sessionmanager/sessionmanager.go:67 | a parsed text is 36 characters long with dashes at offsets 8, 13, 18 and 23 |
| `Uuid.ParseCanonical` | sessionmanager/sessionmanager.go:67 | parsing succeeds exactly on the canonical form: dashes at offsets 8, 13, 18 and 23, hexadecimal digits of either case elsewhere |
| `Uuid.ParseOrNil` | sessionmanager/sessionmanager.go:67 | the token a cookie names is the parsed one when parsing succeeds, and the nil token exactly when parsing fails or the text names the nil token |
| `Uuid.ParseTokenString` | sessionmanager/sessionmanager.go:67 | parsing a token's cookie value gives back that token (so it is never mistaken for the nil token) |
| `GoTypes.Unix` | sessionmanager/sessionmanager.go:127 | the Unix seconds of an instant: the whole seconds since 1970, rounded down |
| `GoTypes.WholeSeconds` | sessionmanager/sessionmanager.go:157 | Go's `Duration / time.Second`, truncated toward zero for negative durations as well |
| `MemoryStore.LookupText` | store/memstore/memstore.go:17-24 | found exactly when the token has an entry, which is then returned; otherwise "" and not found; never an error; an entry written by `SaveBytes` is excluded (it panics) |
| `MemoryStore.LookupBytes` | store/memstore/memstore.go:31-38 | found exactly when the token has an entry, which is then returned; otherwise nil and not found; never an error; an entry written by `Save` is excluded (it panics) |
| `MemoryStore.MemStore.New` | store/memstore/memstore.go:11-15 | an empty store |
| `MemoryStore.MemStore.Get` | store/memstore/memstore.go:17-24 | returns what `LookupText` gives for the current map; changes nothing |
| `MemoryStore.MemStore.Save` | store/memstore/memstore.go:26-29 | the token now holds the text, whatever the expiry and whatever it held before; other tokens unchanged; no error |
| `MemoryStore.MemStore.GetBytes` | store/memstore/memstore.go:31-38 | returns what `LookupBytes` gives for the current map; changes nothing |
| `MemoryStore.MemStore.SaveBytes` | store/memstore/memstore.go:40-43 | the token now holds the bytes, whatever the expiry and whatever it held before; other tokens unchanged; no error |
| `MemoryStore.MemStore.Delete` | store/memstore/memstore.go:45-48 | the token's entry is removed and nothing else; no error |
| `MemoryStore.MemStore.DeleteExpired` | store/memstore/memstore.go:50-52 | returns (0, no error) and changes nothing: expiry is never enforced |
| `MemoryStore.SaveThenGet` | store/memstore/memstore.go:17-29 | after `Save(t, d, e)`, `Get(t)` returns (d, true, nil), and every other token reads as before |
| `MemoryStore.SaveBytesThenGetBytes` | store/memstore/memstore.go:31-43 | after `SaveBytes(t, b, e)`, `GetBytes(t)` returns (b, true, nil), and every other token reads as before |
| `MemoryStore.DeleteThenGet` | store/memstore/memstore.go:45-48 | after `Delete(t)` both reads report t absent; deleting an absent token leaves the map as it was |
| `Manager.Decide` | sessionmanager/sessionmanager.go:84-115 | a found, non-empty, error-free payload is decoded: success gives that session with no error, failure gives no session and the decode error; anything else gives a fresh session, with the store's error on the text path and none on the binary path |
| `Manager.PlanSave` | sessionmanager/sessionmanager.go:122-141 | `SaveBytes` exactly when the encoding is "Binary", `Save` for every other string; the encoder's output under the session's token, with expiry = Unix(now + IdleTimeout); an encoding failure makes no call and returns the error |
| `Manager.Persist` | sessionmanager/sessionmanager.go:122-141 | for "Binary" the session's token holds the binary encoding, for any other string its text encoding; on an encoding failure the store is unchanged |
| `Manager.SessionCookie` | sessionmanager/sessionmanager.go:143-163 | value = the token's text; name, domain, path, HttpOnly, Secure, SameSite copied; a non-zero timeout sets Expires = now + timeout and MaxAge = its whole seconds; a zero timeout sets neither |
| `Manager.DefaultCookieOptions` | sessionmanager/sessionmanager.go:165-175 | name "Session", domain "", path "/", HttpOnly, not Secure, not Persist, SameSite Lax |
| `Manager.Hydrate` | sessionmanager/sessionmanager.go:57-71 | no cookie or an empty one gives a fresh session and no error, without reading the store; otherwise `getSession` on the parsed token (nil when it does not parse); no session only on a decode failure; a session other than the fresh one only when the cookie's token is stored |
| `Manager.Serve` | sessionmanager/sessionmanager.go:55-82 | one request keeps every payload of the kind the encoding reads; it panics exactly when hydration gives no session, and the store is then unchanged; otherwise only the entry of the handler's session's token changes, and the cookie of the configured name carries that token |
| `Manager.SessionManager.NewSessionManager` | sessionmanager/sessionmanager.go:46-53 | 10-minute idle timeout, "Json" encoding, an empty fresh memory store, cookie options "Session", domain "", path "/", HttpOnly, not Secure, not Persist, Lax |
| `Manager.SessionManager.GetSession` | sessionmanager/sessionmanager.go:84-115 | reads `GetBytes` for "Binary" and `Get` otherwise; returns `Decide`'s verdict as a fresh `Session` (nil when decoding failed) with dirty reads off, and its error |
| `Manager.SessionManager.SaveSession` | sessionmanager/sessionmanager.go:122-141 | the store becomes what `PlanSave`'s call does to it, or stays as it was when encoding fails (the error is returned); stored kinds keep agreeing with the encoding |
| `Manager.SessionManager.Handler` | sessionmanager/sessionmanager.go:55-82 | the new store and the response are exactly one request of `Serve`: hydrate (fresh without a cookie, else getSession on the parsed token), run the handler, save what it left, set the cookie for the session's own token; errors dropped |
| `ManagerProperties.DefaultCookie` | sessionmanager/sessionmanager.go:143-175 | a default manager's cookie is "Session", path "/", HttpOnly, not Secure, Lax, with Max-Age 600 and Expires ten minutes after now |
| `ManagerProperties.PersistOptionIgnored` | sessionmanager/sessionmanager.go:143-163 | the cookie does not depend on the Persist option |
| `ManagerProperties.CookieLifetimesAgree` | sessionmanager/sessionmanager.go:155-158 | for a positive timeout, Max-Age is Expires minus now, rounded down to whole seconds |
| `ManagerProperties.StoreExpiryIsCookieExpiry` | sessionmanager/sessionmanager.go:127-156 | read at the same instant, the expiry given to the store is the Unix time of the cookie's Expires |
| `ManagerProperties.PersistKeepsAgreement` | sessionmanager/sessionmanager.go:122-141 | saving never stores a payload of the kind the encoding does not read |
| `ManagerProperties.PersistWritesOneEntry` | sessionmanager/sessionmanager.go:122-141 | saving writes the session's own entry and no other; a failed encoding writes nothing |
| `ManagerProperties.NoCookieIgnoresStore` | sessionmanager/sessionmanager.go:57-71 | with no cookie or an empty cookie, the handler gets a fresh session, whatever the store holds |
| `ManagerProperties.UnknownTokenStartsFresh` | sessionmanager/sessionmanager.go:66-68 | a cookie whose token has no stored entry yields a fresh session with a new token and no error; the presented token is dropped |
| `ManagerProperties.CookieFindsStoredSession` | sessionmanager/sessionmanager.go:84-115 | a cookie carrying a token whose stored payload decodes gives the handler the decoded session, with no error |
| `ManagerProperties.UndecodableSessionPanics` | sessionmanager/sessionmanager.go:65-79 | a cookie carrying a token whose stored payload does not decode ends in the nil-session panic, with the store unchanged |
| `ManagerProperties.FirstRequestStoresSession` | sessionmanager/sessionmanager.go:55-82 | for any encoding that encodes the session, a request without a cookie stores the handler's session under its token (binary payload for "Binary", text otherwise) and sets a cookie carrying that token with Expires = now + timeout |
| `ManagerProperties.NextRequestResumesSession` | sessionmanager/sessionmanager.go:55-82 | if the encoding reads back what the handler left, the next request that presents the cookie it was given gets exactly that session |
| `ManagerProperties.PutThenGetAcrossRequests` | sessionmanager/sessionmanager_test.go:82-128 | on a default manager, a value put in one request is returned by `GetString` in the next request that presents the cookie |

## Left out

- Locking (`sync.Mutex`) and the dirty-read branches serve concurrency only. The model is sequential, and `dirtyRead` is only a stored flag.
- HTTP plumbing is left out: `r.Cookie`, `context.WithValue`, `ServeHTTP` and `http.SetCookie`. The wrapped handler can change only the session's exported state; writing a response body is not modelled.
- The JSON and gob formats stay outside the model. The codec is a parameter. Library effects are not modelled, for example JSON turning stored ints into float64s, or a JSON payload without `Values` leaving a nil map.
- UUID generation is a parameter. It may give any token, including the nil token that `uuid.NewRandom` yields on failure.
- Uuid.ParseOrNil: that a failed `uuid.Parse` yields the nil token is a modelling assumption. The manager discards the error and uses whatever UUID value comes back. The google/uuid library is not part of this model, and it may return a partly filled UUID for some malformed texts.
- Uuid.Parse: only the 36-character canonical form is accepted. The urn-prefixed, braced and undashed forms that `uuid.Parse` also takes are rejected here, so such a cookie is looked up as the nil token.
- SessionContainer.Session.GetBool: ASCII case folding only. `strings.EqualFold` uses Unicode simple folding, so it also matches for example U+017F 'ſ' with 's' and U+212A (Kelvin sign) with 'k'.
- SessionContainer.Session.GetFloat: `strconv.ParseFloat` is an opaque partial parse function. A float64 is kept as its bit pattern, with no arithmetic.
- SessionContainer.Session.GetTime: `time.Parse(time.RFC3339, …)` (the date-time format of RFC 3339, section 5.6) is an opaque partial parse function.
- Time is an instant in nanoseconds. Go's location and monotonic reading, and the int64 limits of time arithmetic and of `Unix()`, are not modelled.
- Strings are sequences of characters, while Go strings are bytes. Offsets into non-ASCII strings differ.
- `NewWithValues` shares the caller's map in Go. Dafny maps are values, so that aliasing is not modelled.
- When decoding fails, Go first runs the wrapped handler with a nil session and then panics in `saveSession`. The model stops at `NilSessionPanic` without running the handler and does not model the panic itself.
- `VOther` carries no payload. A type-mismatch error for such a value does not show the value.
- The `store.Store` interface (`store/store.go`) is represented only by its in-core implementation, the in-memory store. The store errors of that contract appear only in `Decide`, through the `StoreRead` records. `store/sqlstore/sqlstore.go` is not part of this model.

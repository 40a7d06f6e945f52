/**
 * The session manager of sessionmanager/sessionmanager.go: per request it
 * hydrates a session from the cookie's token and the store (or starts a
 * fresh one), runs the wrapped handler, saves the session back with a
 * sliding expiry, and emits the session cookie.
 *
 * Encoding and decoding, the random token of a fresh session and the clock
 * are inputs: a `Codec`, and an `Env` per request.
 */
module Manager {
  import opened Wrappers
  import opened GoTypes
  import opened Uuid
  import opened SessionContainer
  import opened MemoryStore

  /** The two names of `EncodingTypes`. */
  const JsonEncoding: string := "Json"
  const BinaryEncoding: string := "Binary"

  const DefaultIdleTimeout: Duration := 10 * Minute

  /** `http.SameSite`. */
  datatype SameSite = SameSiteDefaultMode | SameSiteLaxMode | SameSiteStrictMode | SameSiteNoneMode

  datatype CookieOptions = CookieOptions(
    name: string,
    domain: string,
    httpOnly: bool,
    path: string,
    persist: bool,
    secure: bool,
    sameSite: SameSite)

  /**
   * The attributes of the `http.Cookie` the manager sets. `expires` is the
   * zero time and `maxAge` is 0 when they are not set, as in Go.
   */
  datatype Cookie = Cookie(
    name: string,
    value: string,
    domain: string,
    path: string,
    httpOnly: bool,
    secure: bool,
    sameSite: SameSite,
    expires: Time,
    maxAge: int)

  datatype CodecError = CodecError(message: string)

  /** The `encoding/json` (text) and `encoding/gob` (binary) encoders and decoders, each of which may fail. */
  datatype Codec = Codec(
    encodeText: SessionData -> Result<string, CodecError>,
    decodeText: string -> Result<SessionData, CodecError>,
    encodeBinary: SessionData -> Result<ByteSlice, CodecError>,
    decodeBinary: seq<Byte> -> Result<SessionData, CodecError>)

  /** The errors `getSession` and `saveSession` return. */
  datatype Failure = StoreFailure(store: StoreError) | CodecFailure(codec: CodecError)

  /** The store's answer on the path the encoding selects. */
  datatype StoreRead = TextRead(text: TextLookup) | BytesRead(bytes: BytesLookup)

  /** `getSession`'s `(*Session, error)`; `session == None` is the nil pointer. */
  datatype Loaded = Loaded(session: Option<SessionData>, err: Option<Failure>)

  /** The store call `saveSession` makes. */
  datatype StoreCall =
    | SaveCall(token: Token, data: string, expiry: int)
    | SaveBytesCall(token: Token, bytes: ByteSlice, expiry: int)

  /**
   * What one request draws from outside: the token `session.New()` would
   * generate, and the two readings of `time.Now()` (in `saveSession` and in
   * `addSessionCookie`).
   */
  datatype Env = Env(freshToken: Token, saveNow: Time, cookieNow: Time)

  /**
   * The outcome of one request: the cookie written, or the nil-pointer panic
   * that follows when the stored payload does not decode.
   */
  datatype Response = Served(cookie: Cookie) | NilSessionPanic

  /** The store after a request, and its response. */
  datatype Exchange = Exchange(store: map<Token, Payload>, response: Response)

  /** `defaultCookieOptions()`. */
  function DefaultCookieOptions(): (o: CookieOptions)
    ensures o.name == "Session" && o.domain == "" && o.path == "/"
    ensures o.httpOnly && !o.secure && !o.persist && o.sameSite == SameSiteLaxMode
  {
    CookieOptions("Session", "", true, "/", false, false, SameSiteLaxMode)
  }

  /** A store's error, passed on as it is. */
  function FromStore(e: Option<StoreError>): Option<Failure>
  {
    match e
    case Some(x) => Some(StoreFailure(x))
    case None => None
  }

  /** A new session as `session.New()` makes it. */
  function Fresh(token: Token): SessionData
  {
    SessionData(token, map[])
  }

  /**
   * Every stored payload is of the kind the encoding reads. Go panics only
   * when the entry under the token looked up is of the other kind; holding
   * this of the whole store rules that out for every token. It holds of
   * every store a manager writes, since no operation changes `encoding`.
   */
  ghost predicate Agrees(m: map<Token, Payload>, encoding: string)
  {
    forall t | t in m :: (m[t].Binary? <==> encoding == BinaryEncoding)
  }

  /** The store read `getSession` makes: `GetBytes` exactly for the binary encoding, `Get` otherwise. */
  function Read(m: map<Token, Payload>, encoding: string, token: Token): StoreRead
    requires Agrees(m, encoding)
  {
    if encoding == BinaryEncoding then BytesRead(LookupBytes(m, token)) else TextRead(LookupText(m, token))
  }

  /**
   * `getSession`'s decision once the store has answered. A found, non-empty
   * payload read without error is decoded; anything else yields a fresh
   * session, together with the store's error on the text path and no error
   * on the binary path. A decoding failure yields no session and the error.
   */
  function Decide(read: StoreRead, codec: Codec, freshToken: Token): (r: Loaded)
    ensures read.TextRead? && !(read.text.found && read.text.data != "" && read.text.err.None?) ==>
      r == Loaded(Some(Fresh(freshToken)), FromStore(read.text.err))
    ensures read.BytesRead? && !(read.bytes.found && read.bytes.data != Nil && read.bytes.err.None?) ==>
      r == Loaded(Some(Fresh(freshToken)), None)
    ensures read.TextRead? && read.text.found && read.text.data != "" && read.text.err.None? ==>
      r == match codec.decodeText(read.text.data)
           case Ok(d) => Loaded(Some(d), None)
           case Err(e) => Loaded(None, Some(CodecFailure(e)))
    ensures read.BytesRead? && read.bytes.found && read.bytes.data != Nil && read.bytes.err.None? ==>
      r == match codec.decodeBinary(read.bytes.data.elems)
           case Ok(d) => Loaded(Some(d), None)
           case Err(e) => Loaded(None, Some(CodecFailure(e)))
    ensures r.session.None? ==> r.err.Some? && r.err.value.CodecFailure?
  {
    match read
    case TextRead(TextLookup(data, found, err)) =>
      if found && data != "" && err.None? then
        match codec.decodeText(data)
        case Ok(d) => Loaded(Some(d), None)
        case Err(e) => Loaded(None, Some(CodecFailure(e)))
      else
        Loaded(Some(Fresh(freshToken)), FromStore(err))
    case BytesRead(BytesLookup(data, found, err)) =>
      if found && data != Nil && err.None? then
        match codec.decodeBinary(data.elems)
        case Ok(d) => Loaded(Some(d), None)
        case Err(e) => Loaded(None, Some(CodecFailure(e)))
      else
        Loaded(Some(Fresh(freshToken)), None)
  }

  /** The expiry `saveSession` passes: the Unix seconds of now + IdleTimeout. */
  function Expiry(now: Time, idleTimeout: Duration): int
  {
    Unix(Add(now, idleTimeout))
  }

  /**
   * `saveSession`'s choice of call: `SaveBytes` exactly when the encoding is
   * "Binary", `Save` for every other encoding string; an encoding failure
   * makes no call.
   */
  function PlanSave(encoding: string, codec: Codec, d: SessionData, idleTimeout: Duration, now: Time): (r: Result<StoreCall, CodecError>)
    ensures r.Ok? ==> r.value.token == d.token && r.value.expiry == Expiry(now, idleTimeout)
    ensures r.Ok? ==> (r.value.SaveBytesCall? <==> encoding == BinaryEncoding)
    ensures encoding == BinaryEncoding ==>
      (r.Err? <==> codec.encodeBinary(d).Err?) &&
      (r.Ok? ==> codec.encodeBinary(d) == Ok(r.value.bytes)) &&
      (r.Err? ==> codec.encodeBinary(d) == Err(r.error))
    ensures encoding != BinaryEncoding ==>
      (r.Err? <==> codec.encodeText(d).Err?) &&
      (r.Ok? ==> codec.encodeText(d) == Ok(r.value.data)) &&
      (r.Err? ==> codec.encodeText(d) == Err(r.error))
  {
    if encoding == BinaryEncoding then
      match codec.encodeBinary(d)
      case Ok(b) => Ok(SaveBytesCall(d.token, b, Expiry(now, idleTimeout)))
      case Err(e) => Err(e)
    else
      match codec.encodeText(d)
      case Ok(s) => Ok(SaveCall(d.token, s, Expiry(now, idleTimeout)))
      case Err(e) => Err(e)
  }

  /** The in-memory store after the call. */
  function Apply(m: map<Token, Payload>, call: StoreCall): map<Token, Payload>
  {
    match call
    case SaveCall(t, data, _) => m[t := Text(data)]
    case SaveBytesCall(t, bytes, _) => m[t := Binary(bytes)]
  }

  /** The in-memory store after `saveSession`: unchanged when encoding fails. */
  function Persist(m: map<Token, Payload>, encoding: string, codec: Codec, d: SessionData, idleTimeout: Duration, now: Time): (r: map<Token, Payload>)
    ensures encoding == BinaryEncoding ==>
      r == match codec.encodeBinary(d)
           case Ok(b) => m[d.token := Binary(b)]
           case Err(_) => m
    ensures encoding != BinaryEncoding ==>
      r == match codec.encodeText(d)
           case Ok(t) => m[d.token := Text(t)]
           case Err(_) => m
  {
    match PlanSave(encoding, codec, d, idleTimeout, now)
    case Ok(call) => Apply(m, call)
    case Err(_) => m
  }

  /**
   * `addSessionCookie`: the token's string, the options' name, domain,
   * HttpOnly, path, secure and SameSite (not Persist), and, for a non-zero
   * idle timeout, Expires = now + IdleTimeout and MaxAge = its whole seconds.
   */
  function SessionCookie(opts: CookieOptions, idleTimeout: Duration, now: Time, token: Token): (c: Cookie)
    ensures c.name == opts.name && c.domain == opts.domain && c.path == opts.path
    ensures c.httpOnly == opts.httpOnly && c.secure == opts.secure && c.sameSite == opts.sameSite
    ensures c.value == TokenString(token)
    ensures idleTimeout != 0 ==> c.expires == Add(now, idleTimeout) && c.maxAge == WholeSeconds(idleTimeout)
    ensures idleTimeout == 0 ==> c.expires == ZeroTime && c.maxAge == 0
  {
    var c := Cookie(opts.name, TokenString(token), opts.domain, opts.path, opts.httpOnly, opts.secure, opts.sameSite, ZeroTime, 0);
    if idleTimeout != 0 then c.(expires := Add(now, idleTimeout), maxAge := WholeSeconds(idleTimeout)) else c
  }

  /**
   * The session `Handler` hands to the wrapped handler: a fresh one when the
   * request has no cookie or an empty one, without reading the store;
   * otherwise `getSession` on the parsed token (the nil token when it does
   * not parse).
   */
  function Hydrate(m: map<Token, Payload>, encoding: string, codec: Codec, cookie: Option<string>, freshToken: Token): (r: Loaded)
    requires Agrees(m, encoding)
    ensures cookie.None? || cookie.value == "" ==> r == Loaded(Some(Fresh(freshToken)), None)
    ensures cookie.Some? && cookie.value != "" ==>
      r == Decide(Read(m, encoding, ParseOrNil(cookie.value)), codec, freshToken)
    ensures r.session.None? ==> cookie.Some? && r.err.Some? && r.err.value.CodecFailure?
    ensures r.session.Some? && r.session.value != Fresh(freshToken) ==> cookie.Some? && ParseOrNil(cookie.value) in m
  {
    var strToken := if cookie.Some? then cookie.value else "";
    if strToken != "" then Decide(Read(m, encoding, ParseOrNil(strToken)), codec, freshToken)
    else Loaded(Some(Fresh(freshToken)), None)
  }

  /**
   * One request through `Handler`: hydrate, run the wrapped handler, save
   * what it left, and set the cookie for the session's own token. The errors
   * of hydration and of saving are dropped.
   */
  function Serve(
    m: map<Token, Payload>, encoding: string, idleTimeout: Duration, opts: CookieOptions,
    codec: Codec, cookie: Option<string>, next: SessionData -> SessionData, env: Env): (x: Exchange)
    requires Agrees(m, encoding)
    ensures Agrees(x.store, encoding)
    ensures x.response.NilSessionPanic? <==> Hydrate(m, encoding, codec, cookie, env.freshToken).session.None?
    ensures x.response.NilSessionPanic? ==> x.store == m
    ensures x.response.Served? ==>
      var after := next(Hydrate(m, encoding, codec, cookie, env.freshToken).session.value);
      x.store - {after.token} == m - {after.token} &&
      x.response.cookie.value == TokenString(after.token) &&
      x.response.cookie.name == opts.name
  {
    var loaded := Hydrate(m, encoding, codec, cookie, env.freshToken);
    if loaded.session.None? then Exchange(m, NilSessionPanic)
    else
      var after := next(loaded.session.value);
      Exchange(
        Persist(m, encoding, codec, after, idleTimeout, env.saveNow),
        Served(SessionCookie(opts, idleTimeout, env.cookieNow, after.token)))
  }

  class SessionManager {
    var idleTimeout: Duration
    var encoding: string
    /** Never consulted: every session the manager makes has dirty reads off. */
    var dirtyReadFromSession: bool
    var store: MemStore
    var cookieOptions: CookieOptions

    ghost predicate Valid()
      reads this, store
    {
      Agrees(store.values, encoding)
    }

    /** `NewSessionManager()`. */
    constructor NewSessionManager()
      ensures Valid() && fresh(store)
      ensures idleTimeout == 10 * Minute && encoding == JsonEncoding && !dirtyReadFromSession
      ensures store.values == map[]
      ensures cookieOptions == CookieOptions("Session", "", true, "/", false, false, SameSiteLaxMode)
    {
      idleTimeout := DefaultIdleTimeout;
      encoding := JsonEncoding;
      dirtyReadFromSession := false;
      store := new MemStore.New();
      cookieOptions := DefaultCookieOptions();
    }

    /** `getSession(token)`: the store read, then `Decide`. */
    method GetSession(token: Token, codec: Codec, freshToken: Token) returns (sn: Session?, err: Option<Failure>)
      requires Valid()
      ensures var loaded := Decide(Read(store.values, encoding, token), codec, freshToken);
        err == loaded.err &&
        (sn == null <==> loaded.session.None?) &&
        (sn != null ==> fresh(sn) && sn.Data() == loaded.session.value && !sn.dirtyRead)
    {
      var read: StoreRead;
      if encoding == BinaryEncoding {
        var data, found, e := store.GetBytes(token);
        read := BytesRead(BytesLookup(data, found, e));
      } else {
        var data, found, e := store.Get(token);
        read := TextRead(TextLookup(data, found, e));
      }
      var loaded := Decide(read, codec, freshToken);
      err := loaded.err;
      if loaded.session.Some? {
        var d := loaded.session.value;
        sn := new Session.NewWithValues(d.token, Some(d.values), freshToken);
      } else {
        sn := null;
      }
    }

    /** `saveSession(sn)`: encode, then `SaveBytes` for "Binary" and `Save` otherwise. */
    method SaveSession(sn: Session, codec: Codec, now: Time) returns (err: Option<Failure>)
      requires Valid()
      modifies store
      ensures Valid()
      ensures store.values == Persist(old(store.values), encoding, codec, sn.Data(), idleTimeout, now)
      ensures PlanSave(encoding, codec, sn.Data(), idleTimeout, now).Err? ==>
        err == Some(CodecFailure(PlanSave(encoding, codec, sn.Data(), idleTimeout, now).error))
      ensures PlanSave(encoding, codec, sn.Data(), idleTimeout, now).Ok? ==> err == None
    {
      var expiry := Expiry(now, idleTimeout);
      if encoding == BinaryEncoding {
        match codec.encodeBinary(sn.Data())
        case Ok(b) =>
          var e := store.SaveBytes(sn.token, b, expiry);
          err := FromStore(e);
        case Err(e) =>
          err := Some(CodecFailure(e));
      } else {
        match codec.encodeText(sn.Data())
        case Ok(data) =>
          var e := store.Save(sn.token, data, expiry);
          err := FromStore(e);
        case Err(e) =>
          err := Some(CodecFailure(e));
      }
    }

    /**
     * One request through `Handler(next)`: `cookie` is the value of the
     * request's cookie of the configured name, if it has one.
     */
    method Handler(cookie: Option<string>, next: SessionData -> SessionData, codec: Codec, env: Env) returns (resp: Response)
      requires Valid()
      modifies store
      ensures Valid()
      ensures Exchange(store.values, resp) ==
        Serve(old(store.values), encoding, idleTimeout, cookieOptions, codec, cookie, next, env)
    {
      var strToken := if cookie.Some? then cookie.value else "";
      var sn: Session?;
      if strToken != "" {
        var token := ParseOrNil(strToken);
        var loadErr;
        sn, loadErr := GetSession(token, codec, env.freshToken);
      } else {
        sn := new Session.New(env.freshToken);
      }
      if sn == null {
        return NilSessionPanic;
      }
      var after := next(sn.Data());
      sn.token, sn.values := after.token, after.values;
      var saveErr := SaveSession(sn, codec, env.saveNow);
      resp := Served(SessionCookie(cookieOptions, idleTimeout, env.cookieNow, sn.token));
    }
  }
}

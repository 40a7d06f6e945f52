/**
 * What the session manager promises across its operations and across
 * requests, stated over the specification functions of module Manager.
 */
module ManagerProperties {
  import opened Wrappers
  import opened GoTypes
  import opened Uuid
  import opened SessionContainer
  import opened MemoryStore
  import opened Manager

  /** A default manager's cookie: "Session", path "/", HttpOnly, Lax, ten minutes both as Max-Age and as Expires. */
  lemma DefaultCookie(now: Time, token: Token)
    ensures SessionCookie(DefaultCookieOptions(), DefaultIdleTimeout, now, token) ==
      Cookie("Session", TokenString(token), "", "/", true, false, SameSiteLaxMode, Time(now.nanos + 600 * Second), 600)
  {
  }

  /** The Persist option has no effect on the cookie. */
  lemma PersistOptionIgnored(opts: CookieOptions, persist: bool, idleTimeout: Duration, now: Time, token: Token)
    ensures SessionCookie(opts.(persist := persist), idleTimeout, now, token) == SessionCookie(opts, idleTimeout, now, token)
  {
  }

  /** For a positive idle timeout, Max-Age is the lifetime that Expires gives, rounded down to whole seconds. */
  lemma CookieLifetimesAgree(opts: CookieOptions, idleTimeout: Duration, now: Time, token: Token)
    requires idleTimeout > 0
    ensures var c := SessionCookie(opts, idleTimeout, now, token);
      c.maxAge * Second <= c.expires.nanos - now.nanos < c.maxAge * Second + Second
  {
  }

  /** Read at the same instant, the store's expiry is the Unix time of the cookie's Expires. */
  lemma StoreExpiryIsCookieExpiry(encoding: string, codec: Codec, d: SessionData, idleTimeout: Duration, now: Time, opts: CookieOptions)
    requires idleTimeout != 0
    requires PlanSave(encoding, codec, d, idleTimeout, now).Ok?
    ensures PlanSave(encoding, codec, d, idleTimeout, now).value.expiry ==
      Unix(SessionCookie(opts, idleTimeout, now, d.token).expires)
  {
  }

  /** Saving keeps every payload of the kind the encoding reads. */
  lemma PersistKeepsAgreement(m: map<Token, Payload>, encoding: string, codec: Codec, d: SessionData, idleTimeout: Duration, now: Time)
    requires Agrees(m, encoding)
    ensures Agrees(Persist(m, encoding, codec, d, idleTimeout, now), encoding)
  {
  }

  /**
   * Saving writes the session's own entry and no other; a failed encoding
   * writes nothing.
   */
  lemma PersistWritesOneEntry(m: map<Token, Payload>, encoding: string, codec: Codec, d: SessionData, idleTimeout: Duration, now: Time)
    ensures Persist(m, encoding, codec, d, idleTimeout, now) - {d.token} == m - {d.token}
    ensures PlanSave(encoding, codec, d, idleTimeout, now).Err? ==> Persist(m, encoding, codec, d, idleTimeout, now) == m
    ensures PlanSave(encoding, codec, d, idleTimeout, now).Ok? ==> d.token in Persist(m, encoding, codec, d, idleTimeout, now)
  {
  }

  /** Without a cookie, or with an empty one, the handler gets a fresh session whatever the store holds. */
  lemma NoCookieIgnoresStore(m1: map<Token, Payload>, m2: map<Token, Payload>, encoding: string, codec: Codec, cookie: Option<string>, freshToken: Token)
    requires Agrees(m1, encoding) && Agrees(m2, encoding)
    requires cookie == None || cookie == Some("")
    ensures Hydrate(m1, encoding, codec, cookie, freshToken) == Loaded(Some(Fresh(freshToken)), None)
    ensures Hydrate(m1, encoding, codec, cookie, freshToken) == Hydrate(m2, encoding, codec, cookie, freshToken)
  {
  }

  /** A cookie naming no stored session is treated like no cookie: the presented token is dropped for a fresh one. */
  lemma UnknownTokenStartsFresh(m: map<Token, Payload>, encoding: string, codec: Codec, c: string, freshToken: Token)
    requires Agrees(m, encoding) && c != "" && ParseOrNil(c) !in m
    ensures Hydrate(m, encoding, codec, Some(c), freshToken) == Loaded(Some(Fresh(freshToken)), None)
  {
  }

  /** The stored payload under `token` decodes to `d` on the path the encoding selects. */
  ghost predicate StoredDecodes(m: map<Token, Payload>, encoding: string, codec: Codec, token: Token, d: SessionData)
  {
    token in m &&
    if encoding == BinaryEncoding then
      m[token].Binary? && m[token].bytes.Slice? && codec.decodeBinary(m[token].bytes.elems) == Ok(d)
    else
      m[token].Text? && m[token].text != "" && codec.decodeText(m[token].text) == Ok(d)
  }

  /** A cookie carrying a stored token hands the handler the decoded session, with no error. */
  lemma CookieFindsStoredSession(m: map<Token, Payload>, encoding: string, codec: Codec, token: Token, d: SessionData, freshToken: Token)
    requires Agrees(m, encoding) && StoredDecodes(m, encoding, codec, token, d)
    ensures Hydrate(m, encoding, codec, Some(TokenString(token)), freshToken) == Loaded(Some(d), None)
  {
    ParseTokenString(token);
  }

  /**
   * A stored payload that does not decode ends the request in the nil
   * session panic, with the store as it was.
   */
  lemma UndecodableSessionPanics(
    m: map<Token, Payload>, encoding: string, idleTimeout: Duration, opts: CookieOptions,
    codec: Codec, token: Token, next: SessionData -> SessionData, env: Env)
    requires Agrees(m, encoding) && token in m
    requires encoding == BinaryEncoding ==> m[token].bytes.Slice? && codec.decodeBinary(m[token].bytes.elems).Err?
    requires encoding != BinaryEncoding ==> m[token].text != "" && codec.decodeText(m[token].text).Err?
    ensures Serve(m, encoding, idleTimeout, opts, codec, Some(TokenString(token)), next, env) == Exchange(m, NilSessionPanic)
  {
    ParseTokenString(token);
  }

  /** The encoding reads back what it wrote, for this session, and does not write an empty payload. */
  ghost predicate Recoverable(codec: Codec, encoding: string, d: SessionData)
  {
    if encoding == BinaryEncoding then
      codec.encodeBinary(d).Ok? && codec.encodeBinary(d).value.Slice? &&
      codec.decodeBinary(codec.encodeBinary(d).value.elems) == Ok(d)
    else
      codec.encodeText(d).Ok? && codec.encodeText(d).value != "" &&
      codec.decodeText(codec.encodeText(d).value) == Ok(d)
  }

  /**
   * A request with no cookie stores the session the handler left under that
   * session's token, as the payload the encoding selects, and sets a cookie
   * carrying the token, with Expires = now + IdleTimeout.
   */
  lemma FirstRequestStoresSession(
    m: map<Token, Payload>, encoding: string, idleTimeout: Duration, opts: CookieOptions,
    codec: Codec, next: SessionData -> SessionData, env: Env)
    requires Agrees(m, encoding)
    requires PlanSave(encoding, codec, next(Fresh(env.freshToken)), idleTimeout, env.saveNow).Ok?
    ensures var after := next(Fresh(env.freshToken));
      var x := Serve(m, encoding, idleTimeout, opts, codec, None, next, env);
      x.store == m[after.token :=
        if encoding == BinaryEncoding then Binary(codec.encodeBinary(after).value)
        else Text(codec.encodeText(after).value)] &&
      x.response.Served? && x.response.cookie.value == TokenString(after.token) &&
      (idleTimeout != 0 ==> x.response.cookie.expires == Add(env.cookieNow, idleTimeout))
  {
  }

  /**
   * Sessions survive between requests: when a request hydrates a session and
   * the encoding reads back what the handler left, the next request that
   * presents the cookie it was given hands its handler exactly that session.
   */
  lemma NextRequestResumesSession(
    m: map<Token, Payload>, encoding: string, idleTimeout: Duration, opts: CookieOptions,
    codec: Codec, cookie: Option<string>, next: SessionData -> SessionData, env: Env, freshToken: Token)
    requires Agrees(m, encoding)
    requires Hydrate(m, encoding, codec, cookie, env.freshToken).session.Some?
    requires Recoverable(codec, encoding, next(Hydrate(m, encoding, codec, cookie, env.freshToken).session.value))
    ensures var after := next(Hydrate(m, encoding, codec, cookie, env.freshToken).session.value);
      var x := Serve(m, encoding, idleTimeout, opts, codec, cookie, next, env);
      x.response.Served? && Agrees(x.store, encoding) &&
      Hydrate(x.store, encoding, codec, Some(x.response.cookie.value), freshToken) == Loaded(Some(after), None)
  {
    var after := next(Hydrate(m, encoding, codec, cookie, env.freshToken).session.value);
    var x := Serve(m, encoding, idleTimeout, opts, codec, cookie, next, env);
    PersistKeepsAgreement(m, encoding, codec, after, idleTimeout, env.saveNow);
    assert StoredDecodes(x.store, encoding, codec, after.token, after);
    CookieFindsStoredSession(x.store, encoding, codec, after.token, after, freshToken);
  }

  /** The wrapped handler of the "/put" route: `session.Put(key, value)`. */
  function PutHandler(key: string, value: string): SessionData -> SessionData
  {
    (d: SessionData) => d.(values := d.values[key := VStr(value)])
  }

  /**
   * The put-then-get exchange of the manager's tests, with a fresh default
   * manager: the first request runs the "/put" handler, the second presents
   * the cookie it was given, and `GetString` on the session it hydrates
   * returns the value put, without error.
   */
  method PutThenGetAcrossRequests(codec: Codec, key: string, value: string, env1: Env, env2: Env) returns (got: Got<string>)
    requires Recoverable(codec, JsonEncoding, PutHandler(key, value)(Fresh(env1.freshToken)))
    ensures got == Got(value, None)
  {
    var mgr := new SessionManager.NewSessionManager();
    ghost var m0 := mgr.store.values;
    var resp := mgr.Handler(None, PutHandler(key, value), codec, env1);
    NextRequestResumesSession(m0, JsonEncoding, DefaultIdleTimeout, DefaultCookieOptions(), codec, None, PutHandler(key, value), env1, env2.freshToken);
    var sn, err := mgr.GetSession(ParseOrNil(resp.cookie.value), codec, env2.freshToken);
    got := sn.GetString(key);
  }
}

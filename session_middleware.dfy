/** src/app/core/middleware/redis_session_middleware.py: every request gets a
    server-side session holding a CSRF token. The session is loaded from the
    store, or created, placed in the request scope, written back with a
    sliding TTL after the downstream handler returns, and its id is set as a
    cookie. The id and CSRF generators and the clock are the parameters
    `freshId`, `freshCsrf` and `now`; `codec` is `json.dumps`/`json.loads`. */
module SessionMiddleware {
  import opened Wrappers
  import opened KeyValue
  import opened Http

  const SessionTtl: int := 3600
  const CookieName := "redis_session_id"

  /** `redis_session:{session_id}` */
  function SessionKey(id: string): string {
    "redis_session:" + id
  }

  /** `json.dumps` and `json.loads` for session dictionaries; `loads` gives
      `None` where the stored text is not a session object. */
  datatype JsonCodec = JsonCodec(dumps: Session -> string, loads: string -> Option<Session>)

  /** What the two functions of the standard library guarantee: a dumped
      session reads back as itself, and its text is never empty. */
  ghost predicate RoundTrips(codec: JsonCodec) {
    forall s :: codec.loads(codec.dumps(s)) == Some(s) && codec.dumps(s) != ""
  }

  /** The session id of a request: the cookie when it is present and not
      empty, otherwise a newly generated one. */
  function SessionIdFor(cookies: map<string, string>, freshId: string): (id: string)
    ensures CookieName in cookies && cookies[CookieName] != "" ==> id == cookies[CookieName]
    ensures !(CookieName in cookies && cookies[CookieName] != "") ==> id == freshId
  {
    if CookieName in cookies && cookies[CookieName] != "" then cookies[CookieName] else freshId
  }

  /** The session created when the store holds none for the id. */
  function NewSession(id: string, csrf: string, createdAt: string): (s: Session)
    ensures s.Keys == {"redis_session_id", "csrf_token", "created_at"}
    ensures s["redis_session_id"] == id && s["csrf_token"] == csrf && s["created_at"] == createdAt
  {
    map["redis_session_id" := id, "csrf_token" := csrf, "created_at" := createdAt]
  }

  /** Lines 18-26: reuse the stored session when the store returns a
      non-empty text, otherwise create one. */
  function LoadOrCreate(stored: Option<string>, codec: JsonCodec, id: string, csrf: string, createdAt: string)
    : (r: Result<Session, Failure>)
    ensures (stored.None? || stored.value == "") ==> r == Success(NewSession(id, csrf, createdAt))
    ensures stored.Some? && stored.value != "" && codec.loads(stored.value).Some? ==>
              r == Success(codec.loads(stored.value).value)
    ensures stored.Some? && stored.value != "" && codec.loads(stored.value).None? ==>
              r == Failure(Raised("JSONDecodeError", ""))
  {
    if stored.Some? && stored.value != "" then
      match codec.loads(stored.value)
      case Some(s) => Success(s)
      case None => Failure(Raised("JSONDecodeError", ""))
    else Success(NewSession(id, csrf, createdAt))
  }

  /** The cookie set on every completed response: Path=/ (Starlette's
      default; RFC 6265, section 4.1.2.4), HttpOnly (section 4.1.2.6),
      Secure (section 4.1.2.5) and SameSite=strict. */
  function SessionCookie(id: string): (c: Cookie)
    ensures c.name == CookieName && c.value == id && c.path == "/"
    ensures c.httpOnly && c.secure && c.sameSite == "strict"
  {
    Cookie(CookieName, id, "/", true, true, "strict")
  }

  /** `RedisSessionMiddleware.dispatch`. When loading the session raises, or
      the downstream handler raises, nothing is written and no cookie is
      set. Otherwise the scope session is the one persisted, under the
      cookie's id, with TTL 3600, in exactly one store command. */
  method Dispatch(req: Request, redis: Store, codec: JsonCodec, freshId: string, freshCsrf: string, now: string,
                  next: Handler)
    returns (r: Result<Response, Failure>)
    modifies req, redis
    ensures var id := SessionIdFor(req.cookies, freshId);
            var loaded := LoadOrCreate(old(redis.Lookup(SessionKey(id))), codec, id, freshCsrf, now);
            if loaded.Failure? then
              && r == Failure(loaded.error) && req.session == old(req.session)
              && redis.data == old(redis.data) && redis.log == old(redis.log)
            else
              var down := next(old(req.Snapshot()).(session := Some(loaded.value)));
              && req.session == Some(loaded.value)
              && (down.Failure? ==>
                    r == Failure(down.error) && redis.data == old(redis.data) && redis.log == old(redis.log))
              && (down.Success? ==>
                    && r.Success? && fresh(r.value)
                    && r.value.Data() == down.value.(cookies := down.value.cookies + [SessionCookie(id)])
                    && redis.data == old(redis.data)[SessionKey(id) := Entry(codec.dumps(loaded.value), SessionTtl)]
                    && redis.log == old(redis.log) + [SetCommand(SessionKey(id), codec.dumps(loaded.value), SessionTtl)])
    ensures req.cspNonce == old(req.cspNonce)
  {
    var sessionId := SessionIdFor(req.cookies, freshId);
    var sessionData := redis.Get(SessionKey(sessionId));
    var loaded := LoadOrCreate(sessionData, codec, sessionId, freshCsrf, now);
    if loaded.Failure? {
      return Failure(loaded.error);
    }
    var session := loaded.value;
    req.session := Some(session);

    var down := next(req.Snapshot());
    if down.Failure? {
      return Failure(down.error);
    }

    var _ := redis.Set(SessionKey(sessionId), codec.dumps(session), SessionTtl);
    var response := new Response(down.value);
    response.SetCookie(SessionCookie(sessionId));
    r := Success(response);
  }

  /** A stored session is reused unchanged on the next request that
      carries its id, so its CSRF token persists across requests; the
      generator's output is then not used. */
  lemma StoredSessionReused(codec: JsonCodec, s: Session, id: string, csrf: string, createdAt: string)
    requires RoundTrips(codec)
    ensures LoadOrCreate(Some(codec.dumps(s)), codec, id, csrf, createdAt) == Success(s)
  {
    assert codec.loads(codec.dumps(s)) == Some(s) && codec.dumps(s) != "";
  }

  /** A cookie whose record is missing keeps its id: the fresh session is
      bound to the cookie's id, not to a regenerated one. */
  lemma MissingRecordKeepsCookieId(cookies: map<string, string>, codec: JsonCodec, freshId: string, csrf: string, createdAt: string)
    requires CookieName in cookies && cookies[CookieName] != ""
    ensures var id := SessionIdFor(cookies, freshId);
            && id == cookies[CookieName]
            && LoadOrCreate(None, codec, id, csrf, createdAt).value["redis_session_id"] == cookies[CookieName]
            && LoadOrCreate(None, codec, id, csrf, createdAt).value["csrf_token"] == csrf
  {
  }
}

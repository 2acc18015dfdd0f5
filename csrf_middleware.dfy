/** src/app/core/middleware/csrf_middleware.py: state-changing requests
    must echo the session's CSRF token in the `X-CSRF-Token` header; the
    login and registration endpoints are exempt. */
module CsrfMiddleware {
  import opened Wrappers
  import opened Json
  import opened Http
  import SessionMiddleware

  const ExemptPaths: set<string> := {"/api/v1/auth/login", "/api/v1/auth/register"}
  const CheckedMethods: set<string> := {"POST", "PUT", "DELETE", "PATCH"}
  /** The header's name as the framework stores it (lower-case). */
  const HeaderName := "x-csrf-token"

  /** The exception raised on a failed check. */
  const CsrfError := HttpException(403, JObject(map["message" := JStr("Неверный CSRF-токен")]), map[])

  /** `scope.get("redis_session", {}).get("csrf_token")`. */
  function SessionToken(session: Option<Session>): (t: Option<string>)
    ensures t.Some? <==> session.Some? && "csrf_token" in session.value
    ensures t.Some? ==> t.value == session.value["csrf_token"]
  {
    match session
    case Some(s) => if "csrf_token" in s then Some(s["csrf_token"]) else None
    case None => None
  }

  /** Whether the request is forwarded: exempt paths and methods pass;
      otherwise the header must be present, non-empty and equal to the
      session's token. */
  function Allows(path: string, verb: string, header: Option<string>, sessionToken: Option<string>): (ok: bool)
    ensures path in ExemptPaths ==> ok
    ensures path !in ExemptPaths && verb !in CheckedMethods ==> ok
    ensures path !in ExemptPaths && verb in CheckedMethods ==>
              (ok <==> header.Some? && header.value != "" && sessionToken == header)
  {
    if path in ExemptPaths then true
    else if verb in CheckedMethods then
      var passes := header.Some? && header.value != "" && sessionToken.Some? && header.value == sessionToken.value;
      passes
    else true
  }

  /** The header lookup of the request. */
  function Header(req: RequestData): Option<string> {
    if HeaderName in req.headers then Some(req.headers[HeaderName]) else None
  }

  /** `CSRFMiddleware.dispatch`: forwards the request unchanged and returns
      the downstream result as is, or raises the 403 exception without
      calling the downstream handler. */
  function Dispatch(req: RequestData, next: Handler): (r: Result<ResponseData, Failure>)
    ensures Allows(req.path, req.verb, Header(req), SessionToken(req.session)) ==> r == next(req)
    ensures !Allows(req.path, req.verb, Header(req), SessionToken(req.session)) ==> r == Failure(Http(CsrfError))
  {
    if Allows(req.path, req.verb, Header(req), SessionToken(req.session)) then next(req)
    else Failure(Http(CsrfError))
  }

  /** Without a token in the session, every state-changing request to a
      non-exempt path is refused, whatever its header says. */
  lemma NoSessionTokenRejects(req: RequestData, next: Handler)
    requires req.path !in ExemptPaths && req.verb in CheckedMethods
    requires req.session.None? || "csrf_token" !in req.session.value
    ensures Dispatch(req, next) == Failure(Http(CsrfError))
  {
  }

  /** Under a session the session middleware has just created, a
      state-changing request to a non-exempt path passes exactly when its
      header repeats the token generated for that session. */
  lemma NewSessionAcceptsOnlyItsToken(req: RequestData, id: string, csrf: string, createdAt: string, next: Handler)
    requires req.path !in ExemptPaths && req.verb in CheckedMethods
    requires req.session == Some(SessionMiddleware.NewSession(id, csrf, createdAt))
    ensures Dispatch(req, next) == next(req) || Dispatch(req, next) == Failure(Http(CsrfError))
    ensures Allows(req.path, req.verb, Header(req), SessionToken(req.session)) <==>
              csrf != "" && HeaderName in req.headers && req.headers[HeaderName] == csrf
  {
    assert SessionToken(req.session) == Some(csrf);
  }
}

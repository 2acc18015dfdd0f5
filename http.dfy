/** The web framework's objects as the middlewares and handlers see them:
    exceptions, cookies, and the request and response objects they update. */
module Http {
  import opened Wrappers
  import opened Json

  /** FastAPI's `HTTPException(status_code, detail, headers)`. */
  datatype HttpException = HttpException(status: int, detail: Json, headers: map<string, string>)

  /** An exception escaping a handler: an `HTTPException`, or any other
      Python exception given by its class name and `str(exc)`. */
  datatype Failure =
    | Http(exc: HttpException)
    | Raised(kind: string, message: string)

  /** A `Set-Cookie` directive with the attributes of RFC 6265, section 4.1.2
      that the application sets or Starlette fills in. */
  datatype Cookie = Cookie(name: string, value: string, path: string, httpOnly: bool, secure: bool, sameSite: string)

  type Session = map<string, string>

  /** What a downstream handler sees of a request. Header names are
      lower-case, as the framework stores them. */
  datatype RequestData = RequestData(
    path: string,
    verb: string,
    headers: map<string, string>,
    cookies: map<string, string>,
    session: Option<Session>,
    cspNonce: Option<string>)

  /** What a downstream handler returns. */
  datatype ResponseData = ResponseData(
    status: int,
    headers: map<string, string>,
    cookies: seq<Cookie>,
    body: Json)

  /** The rest of the application below a middleware (`call_next`). */
  type Handler = RequestData -> Result<ResponseData, Failure>

  /** The request object; the middlewares write `scope["redis_session"]`
      and `state.csp_nonce`. */
  class Request {
    const path: string
    const verb: string
    const headers: map<string, string>
    const cookies: map<string, string>
    var session: Option<Session>
    var cspNonce: Option<string>

    constructor (path: string, verb: string, headers: map<string, string>, cookies: map<string, string>)
      ensures this.path == path && this.verb == verb
      ensures this.headers == headers && this.cookies == cookies
      ensures session == None && cspNonce == None
    {
      this.path := path;
      this.verb := verb;
      this.headers := headers;
      this.cookies := cookies;
      session := None;
      cspNonce := None;
    }

    function Snapshot(): (d: RequestData)
      reads this
      ensures d.path == path && d.verb == verb && d.headers == headers
      ensures d.cookies == cookies && d.session == session && d.cspNonce == cspNonce
    {
      RequestData(path, verb, headers, cookies, session, cspNonce)
    }
  }

  /** The response object returned by `call_next`, which the middlewares
      update before returning it. */
  class Response {
    var status: int
    var headers: map<string, string>
    var cookies: seq<Cookie>
    var body: Json

    constructor (d: ResponseData)
      ensures Data() == d
    {
      status := d.status;
      headers := d.headers;
      cookies := d.cookies;
      body := d.body;
    }

    function Data(): ResponseData
      reads this
    {
      ResponseData(status, headers, cookies, body)
    }

    /** `response.headers[name] = value`: replaces any earlier value. */
    method SetHeader(name: string, value: string)
      modifies this
      ensures Data() == old(Data()).(headers := old(headers)[name := value])
    {
      headers := headers[name := value];
    }

    /** `response.set_cookie(...)`: adds one `Set-Cookie` directive. */
    method SetCookie(c: Cookie)
      modifies this
      ensures Data() == old(Data()).(cookies := old(cookies) + [c])
    {
      cookies := cookies + [c];
    }
  }
}

/** src/app/core/exception_handlers.py: the JSON bodies the application
    answers with when a handler raises. */
module ExceptionHandlers {
  import opened Json
  import opened Http
  import opened Strings
  import Auth
  import BackendAuth

  /** `ORJSONResponse` sets only its media type. */
  const JsonHeaders: map<string, string> := map["content-type" := "application/json"]

  /** The header name the credential exceptions spell out. */
  const Challenge := "WWW-Authenticate"

  /** `exc.detail.get(key) if isinstance(exc.detail, dict) else otherwise`. */
  function FromDetail(detail: Json, key: string, otherwise: Json): (v: Json)
    ensures detail.JObject? ==> v == GetOrNull(detail.fields, key)
    ensures !detail.JObject? ==> v == otherwise
  {
    if detail.JObject? then GetOrNull(detail.fields, key) else otherwise
  }

  /** The `error` envelope of lines 9-25. */
  function ErrorEnvelope(detail: Json): (body: Json)
    ensures body.JObject? && body.fields.Keys == {"error"}
    ensures body.fields["error"].JObject?
    ensures body.fields["error"].fields.Keys == {"code", "message", "detail"}
  {
    JObject(map["error" := JObject(map[
      "code" := FromDetail(detail, "code", JStr("unknown")),
      "message" := FromDetail(detail, "message", detail),
      "detail" := FromDetail(detail, "detail", JNull)])])
  }

  /** `http_exception_handler`: the exception's status, the envelope as
      body, and none of the exception's own headers. */
  function HttpExceptionHandler(exc: HttpException): (r: ResponseData)
    ensures r.status == exc.status
    ensures r.headers == JsonHeaders && r.cookies == []
    ensures r.body == ErrorEnvelope(exc.detail)
  {
    ResponseData(exc.status, JsonHeaders, [], ErrorEnvelope(exc.detail))
  }

  /** The three entries of the envelope: for a dictionary detail they are
      that dictionary's `code`, `message` and `detail`, null where missing;
      for any other detail, `"unknown"`, the detail itself, and null. */
  lemma EnvelopeEntries(exc: HttpException)
    ensures var e := HttpExceptionHandler(exc).body.fields["error"].fields;
            && (exc.detail.JObject? ==>
                  && e["code"] == GetOrNull(exc.detail.fields, "code")
                  && e["message"] == GetOrNull(exc.detail.fields, "message")
                  && e["detail"] == GetOrNull(exc.detail.fields, "detail"))
            && (!exc.detail.JObject? ==>
                  e["code"] == JStr("unknown") && e["message"] == exc.detail && e["detail"] == JNull)
  {
  }

  /** The bearer challenge that both credential exceptions carry does not
      reach the response, under any capitalisation of its name. */
  lemma ExceptionHeadersDropped()
    ensures Auth.CredentialException.headers == map[Challenge := "Bearer"]
    ensures BackendAuth.CredentialsException.headers == map[Challenge := "Bearer"]
    ensures forall k :: k in HttpExceptionHandler(Auth.CredentialException).headers ==> Lower(k) != Lower(Challenge)
    ensures forall k :: k in HttpExceptionHandler(BackendAuth.CredentialsException).headers ==> Lower(k) != Lower(Challenge)
  {
    forall k | k in JsonHeaders
      ensures Lower(k) != Lower(Challenge)
    {
      assert k == "content-type";
      FirstLetterDiffers(k, Challenge);
    }
  }

  lemma FirstLetterDiffers(a: string, b: string)
    requires a != [] && b != [] && LowerChar(a[0]) != LowerChar(b[0])
    ensures Lower(a) != Lower(b)
  {
    assert Lower(a)[0] != Lower(b)[0];
  }

  /** `generic_exception_handler`: status 500 whatever was raised, with
      `str(exc)` as detail. */
  function GenericExceptionHandler(message: string): (r: ResponseData)
    ensures r.status == 500 && r.headers == JsonHeaders && r.cookies == []
    ensures r.body.JObject? && r.body.fields.Keys == {"message", "detail"}
    ensures r.body.fields["message"] == JStr("Internal Server Error")
    ensures r.body.fields["detail"] == JStr(message)
  {
    ResponseData(500, JsonHeaders, [],
      JObject(map["message" := JStr("Internal Server Error"), "detail" := JStr(message)]))
  }
}

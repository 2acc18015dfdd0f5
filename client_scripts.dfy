/** src/app/static/js/scripts.js: the pure parts of the page script —
    HTML escaping of user-supplied text, the headers `secureFetch` sends,
    and the error it throws for a failed response. */
module ClientScripts {
  import opened Wrappers
  import opened Strings
  import opened Json
  import opened Http
  import opened ExceptionHandlers

  // ---------------------------------------------------------------------
  // escapeHtml (lines 234-241)

  /** `s.replace(/c/g, rep)`: every occurrence of `c`, left to right, is
      replaced by `rep`; the replacement text is not scanned again. */
  function ReplaceAll(s: string, c: char, rep: string): (r: string)
    ensures c !in s ==> r == s
    ensures forall x :: x in r ==> (x in s && x != c) || x in rep
  {
    if s == [] then []
    else (if s[0] == c then rep else [s[0]]) + ReplaceAll(s[1..], c, rep)
  }

  lemma {:induction false} ReplaceAllAppend(a: string, b: string, c: char, rep: string)
    ensures ReplaceAll(a + b, c, rep) == ReplaceAll(a, c, rep) + ReplaceAll(b, c, rep)
  {
    if a == [] {
      assert a + b == b;
    } else {
      assert (a + b)[1..] == a[1..] + b;
      ReplaceAllAppend(a[1..], b, c, rep);
    }
  }

  /** The five chained replacements of `escapeHtml`, `&` first. */
  function Replaced(s: string): string {
    ReplaceAll(ReplaceAll(ReplaceAll(ReplaceAll(ReplaceAll(s,
      '&', "&amp;"), '<', "&lt;"), '>', "&gt;"), '"', "&quot;"), '\'', "&#039;")
  }

  /** The characters `escapeHtml` rewrites. */
  predicate Special(c: char) {
    c == '&' || c == '<' || c == '>' || c == '"' || c == '\''
  }

  /** The characters that may open a tag or end an attribute value. */
  predicate Markup(c: char) {
    c == '<' || c == '>' || c == '"' || c == '\''
  }

  /** Reference definition: each character on its own. */
  function EscapeChar(c: char): string {
    if c == '&' then "&amp;"
    else if c == '<' then "&lt;"
    else if c == '>' then "&gt;"
    else if c == '"' then "&quot;"
    else if c == '\'' then "&#039;"
    else [c]
  }

  function EscapeEach(s: string): string {
    if s == [] then "" else EscapeChar(s[0]) + EscapeEach(s[1..])
  }

  lemma ReplacedAppend(a: string, b: string)
    ensures Replaced(a + b) == Replaced(a) + Replaced(b)
  {
    var a1, b1 := ReplaceAll(a, '&', "&amp;"), ReplaceAll(b, '&', "&amp;");
    ReplaceAllAppend(a, b, '&', "&amp;");
    var a2, b2 := ReplaceAll(a1, '<', "&lt;"), ReplaceAll(b1, '<', "&lt;");
    ReplaceAllAppend(a1, b1, '<', "&lt;");
    var a3, b3 := ReplaceAll(a2, '>', "&gt;"), ReplaceAll(b2, '>', "&gt;");
    ReplaceAllAppend(a2, b2, '>', "&gt;");
    var a4, b4 := ReplaceAll(a3, '"', "&quot;"), ReplaceAll(b3, '"', "&quot;");
    ReplaceAllAppend(a3, b3, '"', "&quot;");
    ReplaceAllAppend(a4, b4, '\'', "&#039;");
  }

  /** One character: the entity replacing it is not touched by the later
      replacements, because `&` is handled first. */
  lemma ReplacedOne(c: char)
    ensures Replaced([c]) == EscapeChar(c)
  {
    if c == '&' {
      EscapeAmp();
    } else if c == '<' {
      EscapeLt();
    } else if c == '>' {
      EscapeGt();
    } else if c == '"' {
      EscapeQuot();
    } else if c == '\'' {
      EscapeApos();
    } else {
      assert '&' !in [c] && '<' !in [c] && '>' !in [c] && '"' !in [c] && '\'' !in [c];
    }
  }

  lemma EscapeAmp()
    ensures Replaced("&") == "&amp;"
  {
    var e := "&amp;";
    assert ReplaceAll("&", '&', e) == e + ReplaceAll([], '&', e);
    assert '<' !in e && '>' !in e && '"' !in e && '\'' !in e;
  }

  lemma EscapeLt()
    ensures Replaced("<") == "&lt;"
  {
    var e := "&lt;";
    assert ReplaceAll("<", '<', e) == e + ReplaceAll([], '<', e);
    assert '>' !in e && '"' !in e && '\'' !in e;
  }

  lemma EscapeGt()
    ensures Replaced(">") == "&gt;"
  {
    var e := "&gt;";
    assert ReplaceAll(">", '>', e) == e + ReplaceAll([], '>', e);
    assert '"' !in e && '\'' !in e;
  }

  lemma EscapeQuot()
    ensures Replaced("\"") == "&quot;"
  {
    var e := "&quot;";
    assert ReplaceAll("\"", '"', e) == e + ReplaceAll([], '"', e);
    assert '\'' !in e;
  }

  lemma EscapeApos()
    ensures Replaced("'") == "&#039;"
  {
    var e := "&#039;";
    assert ReplaceAll("'", '\'', e) == e + ReplaceAll([], '\'', e);
  }

  /** The chained replacements escape each character independently. */
  lemma {:induction false} ReplacedIsPerChar(s: string)
    ensures Replaced(s) == EscapeEach(s)
  {
    if s != [] {
      assert s == [s[0]] + s[1..];
      ReplacedAppend([s[0]], s[1..]);
      ReplacedOne(s[0]);
      ReplacedIsPerChar(s[1..]);
    }
  }

  lemma {:induction false} EscapeEachHasNoMarkup(s: string)
    ensures forall x :: x in EscapeEach(s) ==> !Markup(x)
  {
    if s != [] {
      EscapeEachHasNoMarkup(s[1..]);
    }
  }

  /** `escapeHtml`: each character is escaped on its own, so the output
      contains no `<`, `>`, `"` or `'`. */
  function EscapeHtml(s: string): (r: string)
    ensures r == EscapeEach(s)
    ensures forall x :: x in r ==> !Markup(x)
  {
    ReplacedIsPerChar(s);
    EscapeEachHasNoMarkup(s);
    Replaced(s)
  }

  /** Text without special characters is returned unchanged. */
  lemma EscapeHtmlKeepsPlainText(s: string)
    requires forall i :: 0 <= i < |s| ==> !Special(s[i])
    ensures EscapeHtml(s) == s
  {
    assert EscapeHtml(s) == Replaced(s);
    assert '&' !in s && '<' !in s && '>' !in s && '"' !in s && '\'' !in s;
  }

  /** Each special character grows by its entity's length minus one, and
      nothing is escaped twice. */
  lemma {:induction false} EscapeHtmlLength(s: string)
    ensures |EscapeHtml(s)| == |s| + 4 * Count(s, '&') + 3 * Count(s, '<') + 3 * Count(s, '>')
                                   + 5 * Count(s, '"') + 5 * Count(s, '\'')
  {
    EscapeEachLength(s);
  }

  lemma {:induction false} EscapeEachLength(s: string)
    ensures |EscapeEach(s)| == |s| + 4 * Count(s, '&') + 3 * Count(s, '<') + 3 * Count(s, '>')
                                   + 5 * Count(s, '"') + 5 * Count(s, '\'')
  {
    if s != [] {
      EscapeEachLength(s[1..]);
    }
  }

  /** The username fragment of the navigation bar (line 211): whatever the
      username, the fragment holds exactly the two tags of the template. */
  function GreetingFragment(username: string): string {
    "<strong>" + EscapeHtml(username) + "</strong>"
  }

  lemma GreetingHasTwoTags(username: string)
    ensures Count(GreetingFragment(username), '<') == 2
  {
    CountZero(EscapeHtml(username), '<');
    CountAppend("<strong>", EscapeHtml(username), '<');
    CountAppend("<strong>" + EscapeHtml(username), "</strong>", '<');
    assert Count("<strong>", '<') == 1;
    assert Count("</strong>", '<') == 1;
  }

  // ---------------------------------------------------------------------
  // secureFetch (lines 88-111)

  const CsrfHeader := "X-CSRF-Token"

  /** The `content` of the `csrf-token` meta tag is used when it is a
      non-empty string (JavaScript truthiness). */
  predicate TokenPresent(csrfToken: Option<string>) {
    csrfToken.Some? && csrfToken.value != ""
  }

  /** The header object of lines 90-93: the caller's headers (none when
      `options.headers` is undefined), then the token header spread over
      them. */
  function MergeHeaders(callerHeaders: Option<map<string, string>>, csrfToken: Option<string>): (h: map<string, string>)
    ensures forall k :: k != CsrfHeader ==> (k in h <==> callerHeaders.Some? && k in callerHeaders.value)
    ensures forall k :: k != CsrfHeader && k in h ==> h[k] == callerHeaders.value[k]
    ensures TokenPresent(csrfToken) ==> CsrfHeader in h && h[CsrfHeader] == csrfToken.value
    ensures !TokenPresent(csrfToken) ==>
              (CsrfHeader in h <==> callerHeaders.Some? && CsrfHeader in callerHeaders.value)
    ensures !TokenPresent(csrfToken) && CsrfHeader in h ==> h[CsrfHeader] == callerHeaders.value[CsrfHeader]
  {
    var base := callerHeaders.GetOr(map[]);
    if TokenPresent(csrfToken) then base[CsrfHeader := csrfToken.value] else base
  }

  /** What `secureFetch` throws. */
  datatype Thrown =
    | JsError(value: Json)            // `new Error(value)`
    | JsTypeError(message: string)    // reading a property of `null`
    | JsSyntaxError                   // `response.json()` on a body that is not JSON

  const ServerErrorText := "Ошибка сервера"

  function StatusText(status: nat): string {
    "Ошибка HTTP: " + NatToString(status)
  }

  /** The error of lines 103-104 for a response that is not ok. `body` is
      the parsed body, `None` when it is not JSON (then the fallback
      `{message: 'Ошибка сервера'}` is used). */
  function FailureThrown(body: Option<Json>, status: nat): (t: Thrown)
    ensures body.None? ==> t == JsError(JStr(ServerErrorText))
    ensures body == Some(JNull) ==> t.JsTypeError?
    ensures body.Some? && !body.value.JObject? && body.value != JNull ==> t == JsError(JStr(StatusText(status)))
  {
    if body.None? then JsError(JStr(ServerErrorText))
    else match body.value
      case JNull => JsTypeError("Cannot read properties of null (reading 'detail')")
      case JObject(f) =>
        if "detail" in f && Truthy(f["detail"]) then JsError(f["detail"])
        else if "message" in f && Truthy(f["message"]) then JsError(f["message"])
        else JsError(JStr(StatusText(status)))
      case _ => JsError(JStr(StatusText(status)))
  }

  /** The value `secureFetch` resolves with, or what it throws. */
  function SecureFetchOutcome(status: nat, body: Option<Json>): (r: Result<Json, Thrown>)
    ensures 200 <= status <= 299 ==> (r.Success? <==> body.Some?)
    ensures r.Success? ==> body.Some? && r.value == body.value
    ensures !(200 <= status <= 299) ==> r == Failure(FailureThrown(body, status))
  {
    if 200 <= status <= 299 then
      if body.Some? then Success(body.value) else Failure(JsSyntaxError)
    else Failure(FailureThrown(body, status))
  }

  /** A truthy `detail` wins over `message`, which wins over the status. */
  lemma DetailThenMessageThenStatus(f: Object, status: nat)
    ensures "detail" in f && Truthy(f["detail"]) ==> FailureThrown(Some(JObject(f)), status) == JsError(f["detail"])
    ensures !("detail" in f && Truthy(f["detail"])) && "message" in f && Truthy(f["message"])
            ==> FailureThrown(Some(JObject(f)), status) == JsError(f["message"])
    ensures !("detail" in f && Truthy(f["detail"])) && !("message" in f && Truthy(f["message"]))
            ==> FailureThrown(Some(JObject(f)), status) == JsError(JStr(StatusText(status)))
  {
  }

  /** Every `HTTPException` answered by the server's handler comes back as
      the bare status text: the envelope nests `message` and `detail`
      under `error`, where the script does not look. */
  lemma HttpErrorsShowOnlyStatus(exc: HttpException)
    requires exc.status >= 0 && !(200 <= exc.status <= 299)
    ensures SecureFetchOutcome(exc.status, Some(HttpExceptionHandler(exc).body))
         == Failure(JsError(JStr(StatusText(exc.status))))
  {
    var f := HttpExceptionHandler(exc).body.fields;
    assert "detail" !in f && "message" !in f;
  }

  /** An unhandled server error shows its text, or the generic message
      when that text is empty. */
  lemma ServerErrorsShowDetail(message: string)
    ensures message != "" ==> SecureFetchOutcome(500, Some(GenericExceptionHandler(message).body))
                              == Failure(JsError(JStr(message)))
    ensures message == "" ==> SecureFetchOutcome(500, Some(GenericExceptionHandler(message).body))
                              == Failure(JsError(JStr("Internal Server Error")))
  {
  }
}

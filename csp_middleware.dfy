/** src/app/core/middleware/csp_middleware.py: one nonce per request, kept
    on the request for the templates and placed into the
    Content-Security-Policy header as a nonce-source (W3C Content Security
    Policy Level 3, section 2.3.1). The nonce generator is the parameter
    `nonce`; `allowOrigins` is `settings.cors.allow_origins`. */
module CspMiddleware {
  import opened Wrappers
  import opened Strings
  import opened Http

  /** The header's name as the framework stores it (lower-case). */
  const HeaderName := "content-security-policy"

  function NonceSource(nonce: string): string {
    "'nonce-" + nonce + "'"
  }

  /** The eleven string literals of lines 17-27, in order (Python joins
      adjacent literals into one). Each is written split at its spaces:
      the text is the same. */
  function Lines(nonce: string, allowOrigins: seq<string>): seq<string> {
    [ "default-src" + " " + "'self'" + ";" + " ",
      "script-src" + " " + "'self'" + " " + NonceSource(nonce) + " " + "https://cdn.jsdelivr.net" + " " + "https://cdnjs.cloudflare.com" + ";" + " ",
      "style-src" + " " + "'self'" + " " + NonceSource(nonce) + " " + "https://cdn.jsdelivr.net" + ";" + " ",
      "style-src-attr" + " " + "'self'" + ";" + " ",
      "font-src" + " " + "'self'" + " " + "https://fonts.gstatic.com" + " " + "https://cdn.jsdelivr.net" + ";" + " ",
      "img-src" + " " + "'self'" + " " + "data:" + ";" + " ",
      "connect-src" + " " + "'self'" + " " + Join(allowOrigins, " ") + ";" + " ",
      "frame-src" + " " + "'none'" + ";" + " ",
      "object-src" + " " + "'none'" + ";" + " ",
      "form-action" + " " + "'self'" + ";" + " ",
      "upgrade-insecure-requests" + ";" ]
  }

  function Concat(parts: seq<string>): string {
    if parts == [] then "" else parts[0] + Concat(parts[1..])
  }

  /** The header value: with at least one allowed origin, exactly the
      serialization of the directive list, every directive ending in `;`,
      the nonce in `script-src` and `style-src`, and `connect-src` being
      `'self'` followed by the origins in order. */
  function PolicyValue(nonce: string, allowOrigins: seq<string>): (r: string)
    ensures allowOrigins != [] ==> r == Serialize(Directives(nonce, allowOrigins))
  {
    if allowOrigins != [] then
      LinesAreSerializedDirectives(nonce, allowOrigins);
      Concat(Lines(nonce, allowOrigins))
    else Concat(Lines(nonce, allowOrigins))
  }

  /** A policy directive: a name and its source list (section 2.2 of the
      same standard). */
  datatype Directive = Directive(name: string, sources: seq<string>)

  function Render(d: Directive): string {
    if d.sources == [] then d.name + ";" else d.name + " " + Join(d.sources, " ") + ";"
  }

  /** A serialized policy: the rendered directives separated by spaces. */
  function Serialize(ds: seq<Directive>): string {
    if ds == [] then ""
    else if |ds| == 1 then Render(ds[0])
    else Render(ds[0]) + " " + Serialize(ds[1..])
  }

  /** The directives the header is meant to carry, one per line of the
      source. */
  function Directives(nonce: string, allowOrigins: seq<string>): (ds: seq<Directive>)
    ensures |ds| == 11
    ensures ds[0] == Directive("default-src", ["'self'"])
    ensures ds[1].name == "script-src" && NonceSource(nonce) in ds[1].sources
    ensures ds[2].name == "style-src" && NonceSource(nonce) in ds[2].sources
    ensures ds[6] == Directive("connect-src", ["'self'"] + allowOrigins)
    ensures ds[7] == Directive("frame-src", ["'none'"])
    ensures ds[8] == Directive("object-src", ["'none'"])
    ensures ds[9] == Directive("form-action", ["'self'"])
    ensures ds[10] == Directive("upgrade-insecure-requests", [])
  {
    [ Directive("default-src", ["'self'"]),
      Directive("script-src", ["'self'", NonceSource(nonce), "https://cdn.jsdelivr.net", "https://cdnjs.cloudflare.com"]),
      Directive("style-src", ["'self'", NonceSource(nonce), "https://cdn.jsdelivr.net"]),
      Directive("style-src-attr", ["'self'"]),
      Directive("font-src", ["'self'", "https://fonts.gstatic.com", "https://cdn.jsdelivr.net"]),
      Directive("img-src", ["'self'", "data:"]),
      Directive("connect-src", ["'self'"] + allowOrigins),
      Directive("frame-src", ["'none'"]),
      Directive("object-src", ["'none'"]),
      Directive("form-action", ["'self'"]),
      Directive("upgrade-insecure-requests", []) ]
  }

  lemma {:induction false} JoinCons(x: string, rest: seq<string>, sep: string)
    requires rest != []
    ensures Join([x] + rest, sep) == x + sep + Join(rest, sep)
  {
    assert ([x] + rest)[1..] == rest;
    if |rest| == 1 {
    }
  }

  /** Each rendered directive followed by the separator that comes after
      it in a serialization. */
  function Pieces(ds: seq<Directive>): (ps: seq<string>)
    ensures |ps| == |ds|
  {
    seq(|ds|, i requires 0 <= i < |ds| => if i < |ds| - 1 then Render(ds[i]) + " " else Render(ds[i]))
  }

  lemma {:induction false} SerializeIsConcat(ds: seq<Directive>)
    ensures Serialize(ds) == Concat(Pieces(ds))
  {
    var ps := Pieces(ds);
    if |ds| == 1 {
      assert ps == [Render(ds[0])];
      assert Concat(ps) == Render(ds[0]) + Concat([]);
    } else if |ds| > 1 {
      var tail := Pieces(ds[1..]);
      forall i | 0 <= i < |tail|
        ensures ps[1..][i] == tail[i]
      {
        assert ds[1..][i] == ds[i + 1];
      }
      assert ps[1..] == tail;
      assert ps[0] == Render(ds[0]) + " ";
      SerializeIsConcat(ds[1..]);
    }
  }

  lemma {:induction false} Join2(a: string, b: string, sep: string)
    ensures Join([a, b], sep) == a + sep + b
  {
    assert [a, b][1..] == [b];
  }

  lemma {:induction false} Join3(a: string, b: string, c: string, sep: string)
    ensures Join([a, b, c], sep) == a + sep + (b + sep + c)
  {
    assert [a, b, c][1..] == [b, c];
    Join2(b, c, sep);
  }

  lemma {:induction false} Join4(a: string, b: string, c: string, d: string, sep: string)
    ensures Join([a, b, c, d], sep) == a + sep + (b + sep + (c + sep + d))
  {
    assert [a, b, c, d][1..] == [b, c, d];
    Join3(b, c, d, sep);
  }

  lemma Render3(name: string, a: string, b: string, c: string)
    ensures Render(Directive(name, [a, b, c])) + " " == name + " " + a + " " + b + " " + c + ";" + " "
  {
    Join3(a, b, c, " ");
  }

  lemma Render4(name: string, a: string, b: string, c: string, d: string)
    ensures Render(Directive(name, [a, b, c, d])) + " " == name + " " + a + " " + b + " " + c + " " + d + ";" + " "
  {
    Join4(a, b, c, d, " ");
  }

  /** Line `i` of the literal is directive `i` rendered, with the
      separating space after every directive but the last. */
  lemma LineIsRendered(nonce: string, allowOrigins: seq<string>, i: nat)
    requires i < 11 && (i == 6 ==> allowOrigins != [])
    ensures Lines(nonce, allowOrigins)[i] == Pieces(Directives(nonce, allowOrigins))[i]
  {
    if i == 0 {
      Line0(nonce, allowOrigins);
    } else if i == 1 {
      Line1(nonce, allowOrigins);
    } else if i == 2 {
      Line2(nonce, allowOrigins);
    } else if i == 3 {
      Line3(nonce, allowOrigins);
    } else if i == 4 {
      Line4(nonce, allowOrigins);
    } else if i == 5 {
      Line5(nonce, allowOrigins);
    } else if i == 6 {
      Line6(nonce, allowOrigins);
    } else if i == 7 {
      Line7(nonce, allowOrigins);
    } else if i == 8 {
      Line8(nonce, allowOrigins);
    } else if i == 9 {
      Line9(nonce, allowOrigins);
    } else if i == 10 {
      Line10(nonce, allowOrigins);
    }
  }

  lemma Line0(nonce: string, allowOrigins: seq<string>)
    ensures Lines(nonce, allowOrigins)[0] == Pieces(Directives(nonce, allowOrigins))[0]
  {
  }

  lemma Line1(nonce: string, allowOrigins: seq<string>)
    ensures Lines(nonce, allowOrigins)[1] == Pieces(Directives(nonce, allowOrigins))[1]
  {
    Render4("script-src", "'self'", NonceSource(nonce), "https://cdn.jsdelivr.net", "https://cdnjs.cloudflare.com");
  }

  lemma Line2(nonce: string, allowOrigins: seq<string>)
    ensures Lines(nonce, allowOrigins)[2] == Pieces(Directives(nonce, allowOrigins))[2]
  {
    Render3("style-src", "'self'", NonceSource(nonce), "https://cdn.jsdelivr.net");
  }

  lemma Line3(nonce: string, allowOrigins: seq<string>)
    ensures Lines(nonce, allowOrigins)[3] == Pieces(Directives(nonce, allowOrigins))[3]
  {
  }

  lemma Line4(nonce: string, allowOrigins: seq<string>)
    ensures Lines(nonce, allowOrigins)[4] == Pieces(Directives(nonce, allowOrigins))[4]
  {
    Render3("font-src", "'self'", "https://fonts.gstatic.com", "https://cdn.jsdelivr.net");
  }

  lemma Line5(nonce: string, allowOrigins: seq<string>)
    ensures Lines(nonce, allowOrigins)[5] == Pieces(Directives(nonce, allowOrigins))[5]
  {
    Join2("'self'", "data:", " ");
  }

  lemma Line6(nonce: string, allowOrigins: seq<string>)
    requires allowOrigins != []
    ensures Lines(nonce, allowOrigins)[6] == Pieces(Directives(nonce, allowOrigins))[6]
  {
    JoinCons("'self'", allowOrigins, " ");
  }

  lemma Line7(nonce: string, allowOrigins: seq<string>)
    ensures Lines(nonce, allowOrigins)[7] == Pieces(Directives(nonce, allowOrigins))[7]
  {
  }

  lemma Line8(nonce: string, allowOrigins: seq<string>)
    ensures Lines(nonce, allowOrigins)[8] == Pieces(Directives(nonce, allowOrigins))[8]
  {
  }

  lemma Line9(nonce: string, allowOrigins: seq<string>)
    ensures Lines(nonce, allowOrigins)[9] == Pieces(Directives(nonce, allowOrigins))[9]
  {
  }

  lemma Line10(nonce: string, allowOrigins: seq<string>)
    ensures Lines(nonce, allowOrigins)[10] == Pieces(Directives(nonce, allowOrigins))[10]
  {
  }

  /** The eleven literal lines are the rendered directives, separated by
      single spaces. */
  lemma LinesAreSerializedDirectives(nonce: string, allowOrigins: seq<string>)
    requires allowOrigins != []
    ensures Concat(Lines(nonce, allowOrigins)) == Serialize(Directives(nonce, allowOrigins))
  {
    var ds := Directives(nonce, allowOrigins);
    var ls := Lines(nonce, allowOrigins);
    var ps := Pieces(ds);
    SerializeIsConcat(ds);
    forall i | 0 <= i < 11
      ensures ls[i] == ps[i]
    {
      LineIsRendered(nonce, allowOrigins, i);
    }
    assert ps == ls;
  }

  /** With no allowed origins the literal keeps a space before the
      semicolon, `connect-src 'self' ;`, where a serializer would write
      `connect-src 'self';`; browsers read both alike. */
  lemma NoOriginsLeavesSpace(nonce: string)
    ensures Lines(nonce, [])[6] == "connect-src 'self' ; "
    ensures Render(Directives(nonce, [])[6]) == "connect-src 'self';"
  {
  }

  /** The characters `secrets.token_urlsafe` draws from. */
  predicate UrlSafeChar(c: char) {
    'A' <= c <= 'Z' || 'a' <= c <= 'z' || '0' <= c <= '9' || c == '-' || c == '_'
  }

  /** The trailing `=` characters of `s`, at most two. */
  function PadLength(s: string): (k: nat)
    ensures k <= 2 && k <= |s|
  {
    if |s| >= 1 && s[|s| - 1] == '=' then
      if |s| >= 2 && s[|s| - 2] == '=' then 2 else 1
    else 0
  }

  predicate Base64Body(s: string) {
    forall i :: 0 <= i < |s| ==> UrlSafeChar(s[i]) || s[i] == '+' || s[i] == '/'
  }

  /** `base64-value = 1*( ALPHA / DIGIT / "+" / "/" / "-" / "_" )*2( "=" )`
      of section 2.3.1. */
  predicate Base64Value(s: string) {
    var k := PadLength(s);
    |s| > k && Base64Body(s[..|s| - k])
  }

  /** `nonce-source = "'nonce-" base64-value "'"`. */
  predicate IsNonceSource(s: string) {
    |s| >= 9 && s[..7] == "'nonce-" && s[|s| - 1] == '\'' && Base64Value(s[7..|s| - 1])
  }

  /** A nonce from `token_urlsafe(32)` (43 such characters) makes the two
      directives' `'nonce-…'` entries well-formed nonce-sources, so the
      browser matches it against the `nonce` attribute of scripts and
      styles rather than ignoring it. */
  lemma NonceIsNonceSource(nonce: string)
    requires |nonce| == 43 && forall i :: 0 <= i < |nonce| ==> UrlSafeChar(nonce[i])
    ensures IsNonceSource(NonceSource(nonce))
  {
    var s := NonceSource(nonce);
    assert s[7..|s| - 1] == nonce;
    assert !UrlSafeChar('=');
    assert PadLength(nonce) == 0;
  }

  /** `CSPMiddleware.dispatch`: the nonce is stored on the request before
      the downstream handler runs and is the one the header carries; the
      header is assigned over any earlier value, and status, body, cookies
      and the other headers are those of the downstream response. */
  method Dispatch(req: Request, nonce: string, allowOrigins: seq<string>, next: Handler)
    returns (r: Result<Response, Failure>)
    modifies req
    ensures req.cspNonce == Some(nonce) && req.session == old(req.session)
    ensures var down := next(old(req.Snapshot()).(cspNonce := Some(nonce)));
            && (down.Failure? ==> r == Failure(down.error))
            && (down.Success? ==>
                  && r.Success? && fresh(r.value)
                  && r.value.Data() == down.value.(headers := down.value.headers[HeaderName := PolicyValue(nonce, allowOrigins)]))
  {
    req.cspNonce := Some(nonce);
    var down := next(req.Snapshot());
    if down.Failure? {
      return Failure(down.error);
    }
    var response := new Response(down.value);
    response.SetHeader(HeaderName, PolicyValue(nonce, allowOrigins));
    r := Success(response);
  }
}

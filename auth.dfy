/** src/app/services/auth.py: the claim sets of the access and refresh
    tokens, and the checks applied to a decoded bearer token. The signer
    (`encode_jwt`) and verifier (`decode_jwt`) are parameters; the clock's
    reading is `iat`, in seconds since the epoch. */
module Auth {
  import opened Wrappers
  import opened Json
  import opened Http

  const TokenTypeField := "type"
  const AccessTokenType := "access"
  const RefreshTokenType := "refresh"

  const CredentialException :=
    HttpException(401, JStr("Could not validate credentials"), map["WWW-Authenticate" := "Bearer"])

  /** Raised when the payload has no `type`; `{token_type!r}` renders the
      missing value as `None`. */
  const TokenTypeMissing :=
    HttpException(401, JStr("Invalid token type None expected 'access'"), map[])

  /** `decode_jwt`: the payload of a valid token, `None` for a token it
      rejects, or an exception it raises. */
  type Decoder = string -> Result<Option<Object>, Failure>

  /** `get_current_auth_payload`: null or missing `type` and `sub` claims
      are refused, in that order; the value of `type` is not compared with
      `"access"`. */
  function GetCurrentAuthPayload(decode: Decoder, token: string): (r: Result<Object, Failure>)
    ensures decode(token).Failure? ==> r == Failure(decode(token).error)
    ensures decode(token) == Success(None) ==> r == Failure(Http(CredentialException))
    ensures decode(token).Success? && decode(token).value.Some? ==>
              var p := decode(token).value.value;
              && (IsNone(p, TokenTypeField) ==> r == Failure(Http(TokenTypeMissing)))
              && (!IsNone(p, TokenTypeField) && IsNone(p, "sub") ==> r == Failure(Http(CredentialException)))
              && (!IsNone(p, TokenTypeField) && !IsNone(p, "sub") ==> r == Success(p))
  {
    var decoded :- decode(token);
    if decoded.None? then Failure(Http(CredentialException))
    else
      var payload := decoded.value;
      if IsNone(payload, TokenTypeField) then Failure(Http(TokenTypeMissing))
      else if IsNone(payload, "sub") then Failure(Http(CredentialException))
      else Success(payload)
  }

  /** A payload is returned exactly when the decoder yields one whose
      `type` and `sub` are both present and not null, and it is then
      returned unchanged. */
  lemma AcceptedIff(decode: Decoder, token: string)
    ensures GetCurrentAuthPayload(decode, token).Success? <==>
              && decode(token).Success? && decode(token).value.Some?
              && !IsNone(decode(token).value.value, TokenTypeField)
              && !IsNone(decode(token).value.value, "sub")
    ensures GetCurrentAuthPayload(decode, token).Success? ==>
              GetCurrentAuthPayload(decode, token).value == decode(token).value.value
  {
  }

  /** The arguments `create_jwt` passes to `encode_jwt`. */
  datatype EncodeCall = EncodeCall(payload: Object, expireMinutes: int, expireTimedelta: Option<int>)

  type Encoder = EncodeCall -> Result<string, Failure>

  /** `p` holds the claims of lines 74-78: `type` and `iat`, overlaid by
      `token_data` (`dict.update`). */
  predicate Carries(p: Object, tokenType: string, tokenData: Object, iat: int) {
    && p.Keys == tokenData.Keys + {TokenTypeField, "iat"}
    && (forall k :: k in tokenData ==> p[k] == tokenData[k])
    && (TokenTypeField !in tokenData ==> p[TokenTypeField] == JStr(tokenType))
    && ("iat" !in tokenData ==> p["iat"] == JInt(iat))
  }

  function JwtPayload(tokenType: string, tokenData: Object, iat: int): (p: Object)
    ensures Carries(p, tokenType, tokenData, iat)
  {
    map[TokenTypeField := JStr(tokenType), "iat" := JInt(iat)] + tokenData
  }

  /** `create_jwt`: the token is what the encoder returns for a payload
      carrying those claims and the two lifetime arguments unchanged; an
      encoder failure propagates. */
  function CreateJwt(encode: Encoder, tokenType: string, tokenData: Object, iat: int,
                     expireMinutes: int, expireTimedelta: Option<int>): (r: Result<string, Failure>)
    ensures exists c: EncodeCall :: r == encode(c) && Carries(c.payload, tokenType, tokenData, iat)
                                    && c.expireMinutes == expireMinutes && c.expireTimedelta == expireTimedelta
  {
    var c := EncodeCall(JwtPayload(tokenType, tokenData, iat), expireMinutes, expireTimedelta);
    assert Carries(c.payload, tokenType, tokenData, iat);
    encode(c)
  }

  /** The token lifetime in seconds as `encode_jwt` takes it: a timedelta
      takes precedence over the minutes (lines 68-69). */
  function Lifetime(c: EncodeCall): (seconds: int)
    ensures c.expireTimedelta.Some? ==> seconds == c.expireTimedelta.value
    ensures c.expireTimedelta.None? ==> seconds == 60 * c.expireMinutes
  {
    if c.expireTimedelta.Some? then c.expireTimedelta.value else 60 * c.expireMinutes
  }

  /** `settings.auth`: access lifetime in minutes, refresh lifetime in days. */
  datatype AuthSettings = AuthSettings(accessTokenExpires: int, refreshTokenExpires: int)

  /** The user fields the token builders read. */
  datatype User = User(username: string, email: string)

  function AccessTokenData(user: User): Object {
    map["sub" := JStr(user.username), "username" := JStr(user.username), "email" := JStr(user.email)]
  }

  function RefreshTokenData(user: User): Object {
    map["sub" := JStr(user.username)]
  }

  /** The encoder call of `create_access_token`. */
  function AccessTokenCall(settings: AuthSettings, user: User, iat: int): (c: EncodeCall)
    ensures c.payload.Keys == {"sub", "username", "email", TokenTypeField, "iat"}
    ensures c.payload["sub"] == JStr(user.username) && c.payload["username"] == JStr(user.username)
    ensures c.payload["email"] == JStr(user.email)
    ensures c.payload[TokenTypeField] == JStr(AccessTokenType) && c.payload["iat"] == JInt(iat)
    ensures Lifetime(c) == 60 * settings.accessTokenExpires
  {
    EncodeCall(JwtPayload(AccessTokenType, AccessTokenData(user), iat), settings.accessTokenExpires, None)
  }

  /** The encoder call of `create_refresh_token`: the minutes keep their
      default, the access lifetime, but the day-based timedelta wins. */
  function RefreshTokenCall(settings: AuthSettings, user: User, iat: int): (c: EncodeCall)
    ensures c.payload.Keys == {"sub", TokenTypeField, "iat"}
    ensures c.payload["sub"] == JStr(user.username)
    ensures c.payload[TokenTypeField] == JStr(RefreshTokenType) && c.payload["iat"] == JInt(iat)
    ensures c.expireMinutes == settings.accessTokenExpires
    ensures Lifetime(c) == 86400 * settings.refreshTokenExpires
  {
    EncodeCall(JwtPayload(RefreshTokenType, RefreshTokenData(user), iat), settings.accessTokenExpires,
               Some(86400 * settings.refreshTokenExpires))
  }

  /** `create_access_token`: the encoder receives the access call. */
  function CreateAccessToken(encode: Encoder, settings: AuthSettings, user: User, iat: int): (r: Result<string, Failure>)
    ensures r == encode(AccessTokenCall(settings, user, iat))
  {
    CreateJwt(encode, AccessTokenType, AccessTokenData(user), iat, settings.accessTokenExpires, None)
  }

  /** `create_refresh_token`: the encoder receives the refresh call. */
  function CreateRefreshToken(encode: Encoder, settings: AuthSettings, user: User, iat: int): (r: Result<string, Failure>)
    ensures r == encode(RefreshTokenCall(settings, user, iat))
  {
    CreateJwt(encode, RefreshTokenType, RefreshTokenData(user), iat, settings.accessTokenExpires,
              Some(86400 * settings.refreshTokenExpires))
  }

  /** Access and refresh tokens of one user share `sub` and differ in `type`. */
  lemma SameSubjectDifferentType(settings: AuthSettings, user: User, iat1: int, iat2: int)
    ensures AccessTokenCall(settings, user, iat1).payload["sub"] == RefreshTokenCall(settings, user, iat2).payload["sub"]
    ensures AccessTokenCall(settings, user, iat1).payload[TokenTypeField] != RefreshTokenCall(settings, user, iat2).payload[TokenTypeField]
  {
  }

  /** `p` holds every entry of `claims`; the signer may add more, such as
      `exp`. */
  predicate Extends(p: Object, claims: Object) {
    forall k :: k in claims ==> k in p && p[k] == claims[k]
  }

  /** With a decoder that returns the signed claims, extended in any way,
      the payload of either token is accepted unchanged: a refresh token
      passes the check as well as an access token does. */
  lemma IssuedTokensAccepted(decode: Decoder, token: string, settings: AuthSettings, user: User, iat: int)
    requires decode(token).Success? && decode(token).value.Some?
    requires Extends(decode(token).value.value, AccessTokenCall(settings, user, iat).payload)
          || Extends(decode(token).value.value, RefreshTokenCall(settings, user, iat).payload)
    ensures GetCurrentAuthPayload(decode, token) == Success(decode(token).value.value)
  {
    var p := decode(token).value.value;
    var a, f := AccessTokenCall(settings, user, iat).payload, RefreshTokenCall(settings, user, iat).payload;
    var claims := if Extends(p, a) then a else f;
    assert TokenTypeField in claims && "sub" in claims;
    assert p[TokenTypeField] == claims[TokenTypeField] && p["sub"] == claims["sub"];
  }

  /** In particular the refresh token's own `type` value reaches the caller
      of the access check. */
  lemma RefreshPassesAccessCheck(decode: Decoder, token: string, settings: AuthSettings, user: User, iat: int)
    requires decode(token).Success? && decode(token).value.Some?
    requires Extends(decode(token).value.value, RefreshTokenCall(settings, user, iat).payload)
    ensures GetCurrentAuthPayload(decode, token).Success?
    ensures GetCurrentAuthPayload(decode, token).value[TokenTypeField] == JStr(RefreshTokenType)
  {
    var claims := RefreshTokenCall(settings, user, iat).payload;
    assert TokenTypeField in claims && "sub" in claims;
  }
}

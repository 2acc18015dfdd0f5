# nutricoreiq: authentication, session and nutrition core in Dafny

This project models the server-side core of the nutricoreiq nutrition web
application and the pure parts of its page script, and proves properties of
the model. The modelled parts are:

- **Refresh tokens.** Refresh tokens are kept in Redis under
  `refresh_token:{uid}:{hash}`, with a blacklist under `blacklist:refresh:{hash}`.
  The model covers their validation and revocation, one token at a time or
  all of a user's at once.
- **Middlewares.** A Redis-backed browser session that carries a CSRF token,
  the CSRF gate in front of state-changing requests, and the per-request
  Content-Security-Policy nonce and header.
- **Tokens.** The claim sets of the access and refresh tokens. The checks
  applied to a decoded bearer token. The older backend's login and bearer
  checks.
- **Error bodies.** The JSON bodies returned when a handler raises.
- **Nutrition.** `map_to_schema`, the fold of a product's nutrient
  associations into the nested detail response, and that response's
  default-valued records.
- **Energy arithmetic.** The Mifflin–St Jeor BMR and the TDEE (BMR times the
  activity factor `kfa`).
- **User schemas.** The field constraints pydantic applies to the user
  schemas.
- **Page script.** `escapeHtml`, and the header merge and error-message
  choice of `secureFetch`.

Redis is the class `KeyValue.Store` (a map from key to value and TTL, plus a
log of the mutating commands). Its methods are called by the imperative
operations, which are methods with `modifies` clauses:

- `set_in_redis`;
- the revocations;
- the session middleware's `dispatch`;
- the CSP middleware's `dispatch`;
- `map_to_schema`, with its loop.

The pure parts are functions with lemmas.

Some external pieces are parameters of the functions that use them:

- salted token hash: `hash`
- JWT signer and decoder: `encode`, `decode`
- password verifier: `verify`
- `json.dumps`/`json.loads`: `codec`
- random session id, CSRF token and nonce generators: `freshId`, `freshCsrf`, `nonce`
- clock: `now`, `iat`
- downstream handler: `next`

Each module follows one source file:

- `RedisUtils`: `src/app/utils/redis.py`
- `RedisService`: `src/app/services/redis.py`
- `SessionMiddleware`: `redis_session_middleware.py`
- `CsrfMiddleware`: `csrf_middleware.py`
- `CspMiddleware`: `csp_middleware.py`
- `ExceptionHandlers`: `exception_handlers.py`
- `Auth`: `src/app/services/auth.py`
- `BackendAuth`: `backend/src/app/services/auth.py`
- `ProductSchema`: `src/app/schemas/product.py`
- `ProductMapping`: `src/app/utils/product.py`
- `UserSchema`: `src/app/schemas/user.py`
- `UserService`: `src/app/services/user.py`
- `ClientScripts`: `src/app/static/js/scripts.js`

`Wrappers`, `Json`, `Strings`, `KeyValue` and `Http` are shared support
modules.

Where the system's design and this revision of the code differ, the model
follows the code:

- The design caps live refresh-token records at four per user, evicting the
  oldest. `set_in_redis` has no cap (`RedisService.NoPerUserCap`).
- The design has the CSRF guard also check `Origin`/`Referer` against an
  allow list. `csrf_middleware.py` checks only the token
  (`CsrfMiddleware.Allows`).
- The design refuses a token of the wrong kind. `get_current_auth_payload`
  does not compare `type` with `"access"` (`Auth.RefreshPassesAccessCheck`).
- The design refuses blacklisted refresh tokens. `validate_refresh_jwt` as
  written looks up the wrong blacklist key (the first finding below).

## Model

| member | source | states |
|---|---|---|
| KeyValue.KeysWithPrefix | src/app/utils/redis.py:80 | a `KEYS "prefix*"` answer holds exactly the stored keys that start with the prefix |
| KeyValue.Store.Get | src/app/services/redis.py:17 | `GET` returns the stored value exactly when the key is present and changes nothing |
| KeyValue.Store.Exists | src/app/utils/redis.py:32 | `EXISTS ... == 1` is true exactly when the key is stored |
| KeyValue.Store.Keys | src/app/utils/redis.py:80 | `KEYS` returns the prefix matches of the current data |
| KeyValue.Store.Set | src/app/services/redis.py:31-35 | a write with a positive TTL stores the value with that TTL; a non-positive TTL is refused and leaves the data as it was; the command is logged either way |
| KeyValue.Store.Delete | src/app/utils/redis.py:64 | `DEL` removes exactly the given keys (absent ones are ignored) and logs one command |
| RedisService.AfterSet | src/app/services/redis.py:30-35 | after the write, the refresh key holds `"valid"` with TTL `exp`; every other key is present and unchanged exactly as before |
| RedisService.PrefixOfKey | src/app/utils/redis.py:80 | every refresh key of a user matches that user's `refresh_token:{uid}:*` pattern |
| RedisService.RefreshKeyInjective | src/app/services/redis.py:32 | for colon-free hashes, equal refresh keys mean the same user and the same hash |
| RedisService.PrefixSeparatesUsers | src/app/utils/redis.py:80 | for colon-free user ids, one user's pattern matches no other user's refresh key |
| RedisService.NoPerUserCap | src/app/services/redis.py:30-35 | a write adds at most the one key to the user's namespace and evicts none (no per-user cap) |
| RedisService.SetTwice | src/app/services/redis.py:31-35 | writing the same token twice leaves one record, with the later TTL |
| RedisService.SetInRedis | src/app/services/redis.py:24-35 | the store becomes `AfterSet` of the old data, keyed by `hash(jwt)` with TTL `exp` (refused when `exp` is not positive), in one logged `SET` |
| RedisService.RedisService.constructor | src/app/services/redis.py:13-14 | the service wraps the given store |
| RedisService.RedisService.GetUserSession | src/app/services/redis.py:16-17 | returns the value under `user:{user_id}:session` exactly when it exists, and modifies nothing |
| RedisUtils.AfterRevoke | src/app/utils/redis.py:63-64 | the token's refresh key is gone; every other key is present and unchanged exactly as before |
| RedisUtils.AfterRevokeAll | src/app/utils/redis.py:80-82 | exactly the keys matching `refresh_token:{uid}:*` are gone; all others keep their entries |
| RedisUtils.BlacklistRequest | src/app/utils/redis.py:67-72 | a decode failure propagates; a payload without `exp` raises `KeyError`; a non-numeric `exp` raises `TypeError`; otherwise the blacklist call carries the token hash, the user id and the `exp` claim |
| RedisUtils.IsTokenBlacklisted | src/app/utils/redis.py:15-32 | true exactly when `blacklist:refresh:{hash(token)}` exists; the store is not modified |
| RedisUtils.ValidateRefreshJwtAsWritten | src/app/utils/redis.py:35-50 | as written: true exactly when the refresh key of `hash(t)` exists and `blacklist:refresh:{hash(hash(t))}` does not; read-only |
| RedisUtils.ValidateRefreshJwt | src/app/utils/redis.py:35-50 | corrected: true exactly when the refresh key exists and the token's own blacklist key does not; a blacklist hit forces false; read-only |
| RedisUtils.RevokeRefreshToken | src/app/utils/redis.py:55-72 | the refresh key is deleted (one logged `DEL`) before decoding, so it is gone even when decoding then fails; the result is the blacklist request or its failure |
| RedisUtils.RevokeAllRefreshTokens | src/app/utils/redis.py:75-82 | removes exactly the user's matching keys in one `DEL`, and issues no command when there are none |
| RedisUtils.KeyShapesDiffer | src/app/utils/redis.py:32-50 | a refresh key is never a blacklist key |
| RedisUtils.SetThenValidate | src/app/services/redis.py:30-35 | round trip: after `set_in_redis(u, t)` the token validates exactly when the blacklist check does not hit, in both the as-written and the corrected validation |
| RedisUtils.BlacklistWins | src/app/utils/redis.py:44-46 | a blacklist hit refuses the token whatever the active record says |
| RedisUtils.RevokeThenReject | src/app/utils/redis.py:60-64 | after revocation the token does not validate |
| RedisUtils.RevokeOnlyThatToken | src/app/utils/redis.py:63-64 | for colon-free hashes, revocation leaves every other user's record, and the same user's records under another hash, unchanged |
| RedisUtils.RevokeIdempotent | src/app/utils/redis.py:63-64 | a second revocation of the same token changes nothing more |
| RedisUtils.RevokeAllRejectsEveryToken | src/app/utils/redis.py:80-82 | after revoke-all no token of that user validates |
| RedisUtils.RevokeAllKeepsOtherUsers | src/app/utils/redis.py:80-82 | revoke-all keeps every record of any other colon-free user id |
| RedisUtils.DoubleHashMissesBlacklist | src/app/utils/redis.py:31-46 | a concrete store where `is_token_blacklisted(t)` holds, yet the as-written validation accepts `t` and the corrected one refuses it |
| SessionMiddleware.SessionIdFor | src/app/core/middleware/redis_session_middleware.py:14-16 | the cookie id is kept when present and non-empty; a fresh id is used only otherwise |
| SessionMiddleware.NewSession | src/app/core/middleware/redis_session_middleware.py:22-26 | a new session has exactly the keys `redis_session_id` (the session id), `csrf_token` (the fresh token) and `created_at` |
| SessionMiddleware.LoadOrCreate | src/app/core/middleware/redis_session_middleware.py:18-26 | a non-empty stored text is decoded and reused (decoding errors propagate); a missing or empty one yields the new session |
| SessionMiddleware.SessionCookie | src/app/core/middleware/redis_session_middleware.py:36-42 | the cookie `redis_session_id` carries the id, has Starlette's default path `/`, and is HttpOnly, Secure and SameSite=strict |
| SessionMiddleware.Dispatch | src/app/core/middleware/redis_session_middleware.py:13-43 | the scope session is the one persisted, written only after the downstream handler returns, under the cookie's id, with TTL 3600, in exactly one store command; on a failure nothing is written |
| SessionMiddleware.StoredSessionReused | src/app/core/middleware/redis_session_middleware.py:18-20 | a stored session reads back unchanged, so its CSRF token persists across requests |
| SessionMiddleware.MissingRecordKeepsCookieId | src/app/core/middleware/redis_session_middleware.py:14-26 | a cookie id whose record is missing is kept, and the new session is bound to it with the fresh CSRF token |
| CsrfMiddleware.SessionToken | src/app/core/middleware/csrf_middleware.py:20-21 | the session's `csrf_token`, or none when there is no session or no such entry |
| CsrfMiddleware.Allows | src/app/core/middleware/csrf_middleware.py:15-23 | exempt paths and other methods pass; a state-changing request passes exactly when the header is present, non-empty and equal to the session token |
| CsrfMiddleware.Dispatch | src/app/core/middleware/csrf_middleware.py:14-36 | an allowed request is forwarded unchanged and its downstream result returned; any other raises the 403 exception; the decision reads only the path, method, header and session token |
| CsrfMiddleware.NoSessionTokenRejects | src/app/core/middleware/csrf_middleware.py:20-33 | without a session token every state-changing, non-exempt request is refused |
| CsrfMiddleware.NewSessionAcceptsOnlyItsToken | src/app/core/middleware/csrf_middleware.py:19-23 | under a freshly created session, a request passes exactly when its header repeats that session's non-empty token |
| CspMiddleware.Directives | src/app/core/middleware/csp_middleware.py:17-27 | the eleven directives: `default-src 'self'`, the nonce in `script-src` and `style-src`, `connect-src` = `'self'` then the origins in order, and the fixed `frame-src`, `object-src`, `form-action` and `upgrade-insecure-requests` |
| CspMiddleware.LineIsRendered | src/app/core/middleware/csp_middleware.py:17-27 | each literal line of the header is its directive rendered and followed by the separator |
| CspMiddleware.LinesAreSerializedDirectives | src/app/core/middleware/csp_middleware.py:17-27 | the eleven literal lines, concatenated, are the directives serialized with single spaces between them |
| CspMiddleware.PolicyValue | src/app/core/middleware/csp_middleware.py:16-28 | with at least one origin, the header value is exactly the serialized directive list, each directive ending in `;` |
| CspMiddleware.NoOriginsLeavesSpace | src/app/core/middleware/csp_middleware.py:23 | with no origins the literal keeps a space before the `;` of `connect-src` |
| CspMiddleware.PadLength | src/app/core/middleware/csp_middleware.py:11 | counts at most two trailing `=` |
| CspMiddleware.NonceIsNonceSource | src/app/core/middleware/csp_middleware.py:11-19 | a 43-character URL-safe nonce makes `'nonce-…'` a well-formed nonce-source |
| CspMiddleware.Dispatch | src/app/core/middleware/csp_middleware.py:10-30 | the one nonce is stored on the request before the handler runs and is the one in the header; the header is assigned over any earlier value; status, body and cookies are untouched |
| ExceptionHandlers.FromDetail | src/app/core/exception_handlers.py:11-23 | a dictionary detail gives its entry, or null when it is missing; any other detail gives the fallback |
| ExceptionHandlers.ErrorEnvelope | src/app/core/exception_handlers.py:9-25 | the body has the single key `error`, holding exactly `code`, `message` and `detail` |
| ExceptionHandlers.HttpExceptionHandler | src/app/core/exception_handlers.py:6-26 | the status is the exception's, the body is the envelope, and no headers but the media type |
| ExceptionHandlers.EnvelopeEntries | src/app/core/exception_handlers.py:11-23 | the entries of a dictionary detail, null where missing; otherwise `"unknown"`, the detail itself, and null |
| ExceptionHandlers.ExceptionHeadersDropped | src/app/core/exception_handlers.py:7-26 | the `WWW-Authenticate: Bearer` challenge of both credential exceptions does not reach the response, under any capitalisation of the name |
| ExceptionHandlers.GenericExceptionHandler | src/app/core/exception_handlers.py:29-33 | always 500, with `message` "Internal Server Error" and `detail` `str(exc)` as the only keys |
| Auth.GetCurrentAuthPayload | src/app/services/auth.py:26-45 | decoder errors propagate; `None` raises the credential exception; a missing `type` raises "Invalid token type None expected 'access'" before `sub` is looked at; a missing `sub` raises the credential exception; otherwise the payload is returned |
| Auth.AcceptedIff | src/app/services/auth.py:26-45 | a payload is returned exactly when `type` and `sub` are present and not null, and it is returned unchanged; the `type` value is not compared with `"access"` |
| Auth.JwtPayload | src/app/services/auth.py:74-78 | the claims are `type` and `iat` overlaid by `token_data`: every `token_data` entry verbatim, `type`/`iat` only where not overridden |
| Auth.Lifetime | src/app/services/auth.py:68-69 | a timedelta takes precedence over the minutes |
| Auth.AccessTokenCall | src/app/services/auth.py:106-116 | exactly `sub` = username, `username`, `email`, `type` = `access` and `iat`, expiring after the configured minutes |
| Auth.RefreshTokenCall | src/app/services/auth.py:137-145 | exactly `sub` = username, `type` = `refresh` and `iat`, with the day-based lifetime winning over the default minutes |
| Auth.CreateJwt | src/app/services/auth.py:48-88 | the token is the encoder's result for a payload carrying every `token_data` entry, `type` and `iat` where not overridden, and both lifetime arguments unchanged; encoder failures propagate |
| Auth.CreateAccessToken | src/app/services/auth.py:90-119 | the encoder receives exactly the access call |
| Auth.CreateRefreshToken | src/app/services/auth.py:122-148 | the encoder receives exactly the refresh call |
| Auth.SameSubjectDifferentType | src/app/services/auth.py:106-145 | access and refresh tokens of one user share `sub` and differ in `type` |
| Auth.IssuedTokensAccepted | src/app/services/auth.py:26-45 | a decoded payload holding the claims of an access or refresh token, extended by any further claims such as `exp`, passes the check unchanged |
| Auth.RefreshPassesAccessCheck | src/app/services/auth.py:33-45 | a payload holding a refresh token's claims passes the bearer check with its `type` `refresh` |
| BackendAuth.FirstActive | backend/src/app/crud/user.py:16-20 | the first active row in query order that matches, or none exactly when no active row matches |
| BackendAuth.GetUserByEmail | backend/src/app/crud/user.py:16-20 | the first active row with that email in query order, or none exactly when no active row has it |
| BackendAuth.GetUserByName | backend/src/app/services/auth.py:47 | the first active row with that username in query order, or none exactly when no active row has it |
| BackendAuth.GetCurrentUser | backend/src/app/services/auth.py:17-35 | every failure is the one shared 401 exception; success exactly when the decoded `sub` is an email of an active user, who is returned |
| BackendAuth.AuthenticateUserAsWritten | backend/src/app/services/auth.py:38-50 | as written: never succeeds; an unknown user or a wrong password gives the 401, and a valid login raises `ValidationError` |
| BackendAuth.AuthenticateUser | backend/src/app/services/auth.py:38-50 | corrected: success exactly when the named user exists and the password verifies, with the email as `sub`; every failure is the one 401 "Invalid email or password" |
| BackendAuth.FailuresIndistinguishable | backend/src/app/services/auth.py:43-49 | an unknown username and a wrong password for the row the lookup finds give the same result |
| BackendAuth.MissingUserSkipsVerify | backend/src/app/services/auth.py:48 | for a missing user the verifier is not consulted |
| BackendAuth.SubjectIsEmail | backend/src/app/services/auth.py:47-50 | the login is by username, but `sub` is that user's email |
| BackendAuth.AsWrittenRejectsValidLogin | backend/src/app/services/auth.py:50 | a concrete valid login that the corrected function accepts and the as-written one rejects |
| ProductSchema.NewResponse | src/app/schemas/product.py:11-81 | the response keeps `id`, `title`, `group_name`; every number defaults to 0.0 and every list to empty |
| ProductSchema.ValidateInheritedId | src/app/schemas/base.py:4-5 | a schema constructor call fails with `ValidationError` whenever `id` is missing from its arguments; the other required fields of the record are not checked here |
| ProductSchema.NestedConstructionsRaiseAsWritten | src/app/schemas/product.py:26-48 | the argument-less nested defaults and the `NutrientBase(name=, amount=, unit=)` calls lack `id` and raise as written |
| ProductMapping.Classify | src/app/utils/product.py:28-100 | an association is routed to `water` exactly when it is a macronutrient whose name mentions `вода` and none of the earlier keywords |
| ProductMapping.ClassifyCases | src/app/utils/product.py:28-100 | energy values and `FATS` reach no field; a macronutrient reaches a total, `water` or nothing; saturated fats go to cholesterol exactly when the name mentions `холестерин` |
| ProductMapping.Field | src/app/schemas/product.py:69-81 | assigned and summed fields are numbers; list fields are lists |
| ProductMapping.TouchOneField | src/app/utils/product.py:28-100 | one association changes only the field it is routed to (assigned, `+=` or appended), and never `id`, `title` or `group_name` |
| ProductMapping.ApplyOwnField | src/app/utils/product.py:28-100 | the routed field is assigned, increased or appended to, by kind |
| ProductMapping.ApplyOtherFields | src/app/utils/product.py:28-100 | every field but the routed one is unchanged |
| ProductMapping.FoldedFields | src/app/utils/product.py:16-100 | after the loop each field is the last amount routed to it, the sum of those amounts, or their entries in order, and `id`, `title`, `group_name` are copied |
| ProductMapping.UnroutedIgnored | src/app/utils/product.py:28-100 | an association without a branch leaves the response unchanged |
| ProductMapping.SumConcat | src/app/utils/product.py:40-56 | the summed fields add up over concatenated runs |
| ProductMapping.SumRemove | src/app/utils/product.py:40-56 | removing one association subtracts exactly its contribution |
| ProductMapping.SumOrderIndependent | src/app/utils/product.py:39-46 | the sums depend only on the multiset of associations |
| ProductMapping.AccumulatedFieldsOrderIndependent | src/app/utils/product.py:39-56 | the amino-acid, saturated and monounsaturated totals of the response do not depend on the association order |
| ProductMapping.LastWins | src/app/utils/product.py:28-71 | an assigned field holds the amount of the last association routed to it |
| ProductMapping.LastDefault | src/app/utils/product.py:16-20 | an assigned field without routed associations keeps 0.0 |
| ProductMapping.EntriesConcat | src/app/utils/product.py:74-100 | list entries are appended in iteration order |
| ProductMapping.EntriesSingle | src/app/utils/product.py:74-100 | one association gives one `(amount, name, unit)` entry in its own list and none elsewhere |
| ProductMapping.NoAssocsGivesDefaults | src/app/utils/product.py:16-22 | with no associations the result is the default response |
| ProductMapping.Route | src/app/utils/product.py:23-100 | one pass of the loop body: no response exactly when the association is routed to `water`, otherwise the response after that one association |
| ProductMapping.RouteMacro | src/app/utils/product.py:28-36 | the macronutrient branch: fails exactly when `вода` is the first keyword found, otherwise updates as the classification prescribes |
| ProductMapping.RouteSaturated | src/app/utils/product.py:49-53 | the saturated-fat branch updates the response as the classification prescribes |
| ProductMapping.RoutePolyunsaturated | src/app/utils/product.py:58-64 | the polyunsaturated-fat branch updates the response as the classification prescribes |
| ProductMapping.RouteCarbs | src/app/utils/product.py:67-71 | the carbohydrate branch updates the response as the classification prescribes |
| ProductMapping.FoldedPrefix | src/app/utils/product.py:22 | the fold over one more association is one more `Touch` |
| ProductMapping.MapToSchema | src/app/utils/product.py:6-102 | over the corrected schema (nested records built without the inherited `id`): the loop returns `MapSpec`, the folded response, or the `AttributeError` when any association reaches `water` |
| UserSchema.FieldString | src/app/schemas/user.py:9-30 | a string field validates exactly when it is sent as a string within its length bounds |
| UserSchema.FieldInt | src/app/schemas/user.py:18-35 | an integer (positive where `gt=0`) validates as itself; strict mode accepts only integers, lax mode also booleans and whole floats |
| UserSchema.FieldFloat | src/app/schemas/user.py:26-37 | a float validates as itself (positive where `gt=0`); strict mode accepts only floats and integers |
| UserSchema.FieldBytes | src/app/schemas/user.py:20 | a bytes field validates exactly when bytes are sent |
| UserSchema.FieldGender | src/app/schemas/user.py:24-34 | validates exactly `"female"` or `"male"` |
| UserSchema.FieldDefaulted | src/app/schemas/user.py:29-39 | a `= Literal[...]` field takes any string and defaults to the typing object when absent |
| UserSchema.OrNull | src/app/schemas/user.py:24-28 | an `X \| None` field without default must be sent; `null` gives `None` |
| UserSchema.Errors | src/app/schemas/user.py:8-46 | a field contributes at most one error, and none exactly when it validates |
| UserSchema.ValidateUserBase | src/app/schemas/user.py:8-10 | validates exactly when `id` validates, the username is a 3–20 character string and the email a string; the record holds the sent values |
| UserSchema.ValidateUserCreate | src/app/schemas/user.py:13-14 | a validated signup has a 3–20 character username and a password of at least 8 characters, and holds the sent values |
| UserSchema.ValidateUserResponse | src/app/schemas/user.py:17-20 | the record holds the sent `id`, username, email and `uid`; `hashed_password` is `None` when absent or null, and the sent bytes otherwise |
| UserSchema.ValidateUserAccount | src/app/schemas/user.py:23-30 | gender, age, weight, height and kfa may be null but must be sent; `created_at` is required |
| UserSchema.ValidateUserProfile | src/app/schemas/user.py:33-41 | strict mode: gender in the literal set, positive integer age, positive weight and height |
| UserSchema.ValidatePasswordChange | src/app/schemas/user.py:44-46 | both passwords have at least 8 characters |
| UserSchema.UserBaseRoundTrip | src/app/schemas/user.py:8-10 | every base record with a valid username validates back to itself |
| UserSchema.UserResponseRoundTrip | src/app/schemas/user.py:17-20 | every response record with a valid username validates back to itself, its hash sent as bytes or left out |
| UserSchema.UserResponseNullHash | src/app/schemas/user.py:20 | a `null` hash validates to `None` |
| UserSchema.UserCreateRoundTrip | src/app/schemas/user.py:13-14 | every well-formed signup validates back to itself |
| UserSchema.SubmitAccountFields | src/app/schemas/user.py:23-30 | the submitted account map holds every field |
| UserSchema.AccountFieldsDecode | src/app/schemas/user.py:23-30 | each submitted account field validates back to itself |
| UserSchema.AccountRoundTrip | src/app/schemas/user.py:23-30 | every well-formed account validates back to itself |
| UserSchema.ProfileRoundTrip | src/app/schemas/user.py:33-41 | every well-formed profile validates back to itself, with any `kfa` and `goal` string |
| UserSchema.PasswordChangeRoundTrip | src/app/schemas/user.py:44-46 | every well-formed password change validates back to itself |
| UserSchema.StrictProfileRefusesFloatAge | src/app/schemas/user.py:35-41 | strict mode refuses the float age 30.0 that lax mode converts, and reports only that field |
| UserSchema.AccountRequiresEveryField | src/app/schemas/user.py:24-30 | omitting any nullable field or `created_at` fails account validation |
| UserService.SexOf | src/app/services/user.py:17 | only `"male"` selects the male equation |
| UserService.CalculateBmr | src/app/services/user.py:4-19 | the Mifflin–St Jeor value (+5 for `"male"`, −161 otherwise, including `None`); a missing weight, height or age raises `TypeError`, the first one missing deciding the message |
| UserService.MaleExceedsFemaleBy166 | src/app/services/user.py:18-19 | male minus non-male BMR is 166, and a missing gender counts as female |
| UserService.BmrIncrements | src/app/services/user.py:18-19 | +10 per kg, +6.25 per cm, −5 per year |
| UserService.PyInt | src/app/services/user.py:33 | `int()` of a digit string is its decimal value |
| UserService.PyIntOfNatToString | src/app/services/user.py:33 | `int()` reads back a rendered number |
| UserService.ActivityFactor | src/app/services/user.py:33 | `int(None)` raises `TypeError`; a non-integer string raises `ValueError`; otherwise its integer |
| UserService.CalculateTdee | src/app/services/user.py:22-33 | BMR times `int(kfa)`; BMR errors win over `kfa` errors |
| UserService.KfaDomainValues | src/app/alembic/versions/2025_05_15_0942-12d9ec7a4890_init_all_models.py:81-85 | each stored activity factor `"1"`…`"5"` reads as its number |
| UserService.TdeeWithinActivityRange | src/app/services/user.py:33 | with a stored `kfa` and a positive BMR the TDEE lies in [BMR, 5·BMR] |
| UserService.NoIntFromWord | src/app/services/user.py:33 | a string starting with neither sign nor digit is no integer |
| UserService.ProfileKfaCanBreakTdee | src/app/schemas/user.py:38 | a validated profile `kfa` such as a word makes the TDEE raise `ValueError` |
| ClientScripts.ReplaceAll | src/app/static/js/scripts.js:236 | without the character the text is unchanged; every output character is an input character other than the replaced one, or comes from the replacement |
| ClientScripts.ReplaceAllAppend | src/app/static/js/scripts.js:236-240 | a global replace distributes over concatenation |
| ClientScripts.ReplacedAppend | src/app/static/js/scripts.js:236-240 | the chained replacements distribute over concatenation |
| ClientScripts.ReplacedOne | src/app/static/js/scripts.js:236-240 | one character escapes to its own entity: `&` first, so later entities are not re-escaped |
| ClientScripts.ReplacedIsPerChar | src/app/static/js/scripts.js:236-240 | the chained replacements equal escaping each character on its own |
| ClientScripts.EscapeEachHasNoMarkup | src/app/static/js/scripts.js:236-240 | escaping each character on its own leaves no `<`, `>`, `"` or `'` |
| ClientScripts.EscapeHtml | src/app/static/js/scripts.js:234-241 | the output is each character escaped on its own, and contains no `<`, `>`, `"` or `'` |
| ClientScripts.EscapeHtmlKeepsPlainText | src/app/static/js/scripts.js:235-240 | text without `& < > " '` is returned unchanged |
| ClientScripts.EscapeHtmlLength | src/app/static/js/scripts.js:236-240 | output length = length + 4·#& + 3·#< + 3·#> + 5·#" + 5·#' |
| ClientScripts.GreetingHasTwoTags | src/app/static/js/scripts.js:211 | the greeting fragment has exactly its two own `<`, whatever the username |
| ClientScripts.MergeHeaders | src/app/static/js/scripts.js:89-93 | the caller's headers are kept; `X-CSRF-Token` is added exactly when the meta token is non-empty, overriding the caller's |
| ClientScripts.FailureThrown | src/app/static/js/scripts.js:103-104 | an unparsable body throws "Ошибка сервера"; a `null` body throws a `TypeError`; a non-object body throws `Ошибка HTTP: <status>` |
| ClientScripts.SecureFetchOutcome | src/app/static/js/scripts.js:88-111 | an ok response resolves with its parsed body, or fails when the body does not parse; any other status throws that error |
| ClientScripts.DetailThenMessageThenStatus | src/app/static/js/scripts.js:104 | a truthy `detail` wins over `message`, which wins over the status text |
| ClientScripts.HttpErrorsShowOnlyStatus | src/app/static/js/scripts.js:104 | an error body from `http_exception_handler` shows only `Ошибка HTTP: <status>`, because its fields sit under `error` |
| ClientScripts.ServerErrorsShowDetail | src/app/static/js/scripts.js:104 | a 500 from the generic handler shows `str(exc)`, or "Internal Server Error" when that is empty |
| Strings.Lower | src/app/utils/product.py:29 | lower-casing keeps the length and maps each character |
| Strings.NatToString | src/app/static/js/scripts.js:104 | a rendered number is a non-empty digit string |
| Strings.DigitsValueOfNatToString | src/app/services/user.py:33 | the decimal value of a rendered number is that number |
| Json.Get | src/app/services/auth.py:33 | `dict.get` returns the entry exactly when the key is present |
| Json.GetOrNull | src/app/core/exception_handlers.py:12 | the entry, or null when missing |
| Http.Response.SetHeader | src/app/core/middleware/csp_middleware.py:16 | assigns one header over any earlier value and changes nothing else |
| Http.Response.SetCookie | src/app/core/middleware/redis_session_middleware.py:36-42 | adds one cookie and changes nothing else |

## Left out

- The `exp` timedelta of `set_in_redis` is a whole number of seconds.
- Redis expiry is not simulated. TTLs are recorded with each write, and a refused non-positive TTL leaves the store unchanged.
- `add_to_blacklist` is only imported. Its implementation is not part of this model. `RevokeRefreshToken` returns the call it would make instead of performing it.
- The capped, timestamp-suffixed `add_refresh_to_redis` and `camel_case_to_snake_case` are known only from tests. They are not part of this model.
- `generate_hash_token`, JWT encoding and decoding, bcrypt and `json.dumps`/`json.loads` are function parameters. The session codec is assumed to round-trip wherever a lemma needs it.
- The random generators of session ids, CSRF tokens and nonces are parameters. Freshness is not modelled.
- The clock (`datetime.now()`, `iat`, `created_at`) is a parameter. `iat` is a count of seconds.
- User ids are taken as their f-string rendering. The `KEYS refresh_token:{uid}:*` pattern is a prefix match, so glob metacharacters inside an id are not interpreted.
- `KeyValue.Store`: its commands never fail. Connection and timeout errors of the Redis client are not modelled, so a Redis call that raises in `redis.py`, `services/redis.py` or the session middleware has no counterpart here.
- SessionMiddleware.Dispatch: its promise that a successful downstream response gives a successful result holds only because the session write (`redis_session_middleware.py:31-35`) cannot fail in this model. A failing write after the handler would turn that response into an error.
- SessionMiddleware.LoadOrCreate: the codec's `loads` gives a session or nothing, and nothing is read as `JSONDecodeError`. Stored text that is valid JSON but not an object of strings (a list, a number) makes `json.loads` succeed at line 20 in the source, which then runs the handler with that value. The model does not capture that outcome.
- Async concurrency between requests is not modelled. Each request is one sequential step.
- Middleware order is not composed. The session middleware, added last, is taken to be outermost.
- The wire status with which an exception raised inside `BaseHTTPMiddleware` reaches the client is not modelled. The CSRF gate is modelled as the exception it raises.
- Header names of requests and responses are lower-case map keys. Request headers are not matched case-insensitively. The headers an `HTTPException` carries keep the source's spelling (`WWW-Authenticate`).
- Of Starlette's `set_cookie` defaults only `path="/"` is modelled. `max_age`, `expires` and `domain` stay unset in the source and are not represented.
- `fetch` `Headers` objects and their case-insensitive merging are not modelled. The caller's headers are a plain map.
- JavaScript `String()` conversion of a thrown non-string value is not modelled. `Error`'s message is kept as the JSON value.
- Amounts, weights, heights and the BMR are reals. IEEE rounding is not modelled.
- `Strings.Lower` folds only ASCII and the Cyrillic alphabet (with Ё). Other Unicode case mappings are not modelled.
- `UserService.PyInt`: Python `int()` is modelled for ASCII digits with an optional sign and surrounding ASCII whitespace. Underscores, non-ASCII digits and the `repr` quoting of the `ValueError` message are not.
- `UserSchema.FieldInt`: pydantic's lax coercion of numeric strings to `int` is not modelled (such a string is refused).
- `UserSchema.FieldFloat`: pydantic's lax coercion of numeric strings to `float` is not modelled.
- `UserSchema.FieldString`: lax-mode coercion of bytes to `str` is not modelled.
- `UserSchema.FieldBytes`: lax-mode coercion of strings to `bytes` is not modelled.
- `EmailStr` is not validated. An e-mail is any string.
- Pydantic error messages and their locations are reduced to a field name and an error kind.
- `UserSchema.ValidateUserAccount`: the remaining `goal` and `id` constraints are not restated in its contract; `AccountRoundTrip` and `AccountRequiresEveryField` cover the field set.
- Route handlers, CRUD queries, ORM models, migrations (except the `kfa` domain), email, the task broker and the DOM parts of the page script are not part of this model.
- Some tests expect behaviour the source does not have: `ValueError` validation in the user service, a fractional `kfa`, and refusal of a refresh token by the bearer check. The source is modelled, not these tests.
- `ExceptionHandlers.HttpExceptionHandler`: `ORJSONResponse` headers beyond the media type are not modelled, and neither is the serialization to bytes.
- ProductMapping.MapToSchema: it is modelled over the corrected schema of the third finding. As written, the default `PolyunsaturatedFats()` at `schemas/product.py:26` already raises when the module is imported, and every `NutrientBase(...)` call of lines 75-100 raises as well, so the function as written never returns a response.
- backend/src/app/schemas/base.py is not part of this model. `TokenPayload` is taken to need only `sub` and `exp`.
- CspMiddleware.PolicyValue: its contract covers only a non-empty origin list, because with none the literal keeps a space before the `;` of `connect-src` (`CspMiddleware.NoOriginsLeavesSpace`).
- `get_user_by_name` is imported by the backend but not defined in the backend crud module. It is taken to filter `User.username` as `get_user_by_email` filters `User.email`.

## Findings

| source | as written | input that shows it | evidently intended | confidence | as-written member | corrected member |
|---|---|---|---|---|---|---|
| src/app/utils/redis.py:31,41,44 | `validate_refresh_jwt` hashes the token and hands the hash to `is_token_blacklisted`, which hashes again; the blacklist lookup uses `hash(hash(t))` | a store holding `blacklist:refresh:{hash(t)}` and the token's active key: the token is blacklisted, yet it validates | the blacklist check consults the token's own key, so a blacklisted token is refused | not executed | RedisUtils.ValidateRefreshJwtAsWritten, RedisUtils.DoubleHashMissesBlacklist | RedisUtils.ValidateRefreshJwt |
| backend/src/app/services/auth.py:50 | `TokenPayload(sub=user.email, exp=settings)` passes the settings object where `exp: timedelta` is declared (backend/src/app/schemas/auth.py:14-16) | one active user `alice` with the right password: construction raises `ValidationError` instead of returning the payload | `exp` is the token lifetime | not executed | BackendAuth.AuthenticateUserAsWritten, BackendAuth.AsWrittenRejectsValidLogin | BackendAuth.AuthenticateUser |
| src/app/schemas/base.py:4-5 | every schema, including the nested records and `NutrientBase`, inherits a required `id: int`, so the defaults `AminoAcids()` etc. and `NutrientBase(name=…, amount=…, unit=…)` raise `ValidationError` | the argument set `{}` or `{"name", "amount", "unit"}` | the nested records take their declared defaults without an `id` | not executed | ProductSchema.ValidateInheritedId, ProductSchema.NestedConstructionsRaiseAsWritten | ProductSchema.NewResponse, ProductMapping.MapToSchema, ProductMapping.Route, ProductMapping.FoldedFields |

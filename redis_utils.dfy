/** src/app/utils/redis.py: the blacklist check, refresh-token validation
    and revocation over the key-value store. The salted token hash is the
    deterministic function `hash`, and `decode` is the JWT decoder. */
module RedisUtils {
  import opened Wrappers
  import opened Json
  import opened KeyValue
  import opened Http
  import opened RedisService

  /** `blacklist:refresh:{hash}` */
  function BlacklistKey(h: string): string {
    "blacklist:refresh:" + h
  }

  /** The answer of `is_token_blacklisted(redis, token)`: the key built from
      the hash of whatever it is given exists. */
  predicate OnBlacklist(data: map<string, Entry>, hash: string -> string, token: string) {
    BlacklistKey(hash(token)) in data
  }

  /** The answer of `validate_refresh_jwt(uid, token)` as written: the
      already-hashed token is handed to the blacklist check, which hashes it
      a second time. */
  predicate AcceptedAsWritten(data: map<string, Entry>, hash: string -> string, uid: string, token: string) {
    !OnBlacklist(data, hash, hash(token)) && RefreshKey(uid, hash(token)) in data
  }

  /** The answer validation evidently intends: the token itself is checked
      against the blacklist, so that `is_token_blacklisted(redis, token)`
      and validation agree. */
  predicate Accepted(data: map<string, Entry>, hash: string -> string, uid: string, token: string) {
    !OnBlacklist(data, hash, token) && RefreshKey(uid, hash(token)) in data
  }

  /** The store after `revoke_refresh_token` deleted the active record. */
  function AfterRevoke(data: map<string, Entry>, uid: string, tokenHash: string): (d: map<string, Entry>)
    ensures RefreshKey(uid, tokenHash) !in d
    ensures forall k :: k != RefreshKey(uid, tokenHash) ==> (k in d <==> k in data)
    ensures forall k :: k in d ==> k in data && d[k] == data[k]
  {
    data - {RefreshKey(uid, tokenHash)}
  }

  /** The store after `revoke_all_refresh_tokens` deleted the user's namespace. */
  function AfterRevokeAll(data: map<string, Entry>, uid: string): (d: map<string, Entry>)
    ensures forall k :: k in d <==> k in data && !(RefreshPrefix(uid) <= k)
    ensures forall k :: k in d ==> d[k] == data[k]
  {
    data - KeysWithPrefix(data, RefreshPrefix(uid))
  }

  /** The `add_to_blacklist(redis, token_hash, user_id, expire_at)` call that
      revocation makes once the token has been decoded. */
  datatype BlacklistCall = BlacklistCall(tokenHash: string, userId: string, expireAt: Json)

  /** The second half of `revoke_refresh_token`: decode the token, read its
      `exp` claim and build the blacklist call, or the exception raised. */
  function BlacklistRequest(decoded: Result<Object, HttpException>, tokenHash: string, userId: string): (r: Result<BlacklistCall, Failure>)
    ensures decoded.Failure? ==> r == Failure(Http(decoded.error))
    ensures decoded.Success? && "exp" !in decoded.value ==> r == Failure(Raised("KeyError", "'exp'"))
    ensures r.Success? ==> decoded.Success? && "exp" in decoded.value
    ensures r.Success? ==> r.value == BlacklistCall(tokenHash, userId, decoded.value["exp"])
    ensures r.Success? ==> r.value.expireAt.JInt? || r.value.expireAt.JReal? || r.value.expireAt.JBool?
  {
    if decoded.Failure? then Failure(Http(decoded.error))
    else if "exp" !in decoded.value then Failure(Raised("KeyError", "'exp'"))
    else
      var exp := decoded.value["exp"];
      // `datetime.fromtimestamp` takes numbers only (a bool is an int in Python).
      if exp.JInt? || exp.JReal? || exp.JBool? then Success(BlacklistCall(tokenHash, userId, exp))
      else Failure(Raised("TypeError", ""))
  }

  /** `is_token_blacklisted(redis, token)`. */
  method IsTokenBlacklisted(redis: Store, hash: string -> string, token: string) returns (b: bool)
    ensures b <==> BlacklistKey(hash(token)) in redis.data
  {
    var hashedToken := hash(token);
    b := redis.Exists(BlacklistKey(hashedToken));
  }

  /** `validate_refresh_jwt(uid, refresh_token, redis)` as written. */
  method ValidateRefreshJwtAsWritten(uid: string, refreshToken: string, redis: Store, hash: string -> string) returns (b: bool)
    ensures b <==> AcceptedAsWritten(redis.data, hash, uid, refreshToken)
    ensures b ==> RefreshKey(uid, hash(refreshToken)) in redis.data
    ensures BlacklistKey(hash(hash(refreshToken))) in redis.data ==> !b
  {
    var tokenHash := hash(refreshToken);
    var blacklisted := IsTokenBlacklisted(redis, hash, tokenHash);
    if blacklisted {
      return false;
    }
    b := redis.Exists(RefreshKey(uid, tokenHash));
  }

  /** `validate_refresh_jwt` with the token, not its hash, given to the
      blacklist check. */
  method ValidateRefreshJwt(uid: string, refreshToken: string, redis: Store, hash: string -> string) returns (b: bool)
    ensures b <==> Accepted(redis.data, hash, uid, refreshToken)
    ensures b ==> RefreshKey(uid, hash(refreshToken)) in redis.data
    ensures BlacklistKey(hash(refreshToken)) in redis.data ==> !b
  {
    var blacklisted := IsTokenBlacklisted(redis, hash, refreshToken);
    if blacklisted {
      return false;
    }
    b := redis.Exists(RefreshKey(uid, hash(refreshToken)));
  }

  /** `revoke_refresh_token(user_id, refresh_token, redis)`: the active record
      is deleted first, whatever decoding the token then does. */
  method RevokeRefreshToken(userId: string, refreshToken: string, redis: Store, hash: string -> string,
                            decode: string -> Result<Object, HttpException>)
    returns (r: Result<BlacklistCall, Failure>)
    modifies redis
    ensures redis.data == AfterRevoke(old(redis.data), userId, hash(refreshToken))
    ensures redis.log == old(redis.log) + [DeleteCommand({RefreshKey(userId, hash(refreshToken))})]
    ensures r == BlacklistRequest(decode(refreshToken), hash(refreshToken), userId)
  {
    var tokenHash := hash(refreshToken);
    var tokenKey := RefreshKey(userId, tokenHash);
    redis.Delete({tokenKey});
    r := BlacklistRequest(decode(refreshToken), tokenHash, userId);
  }

  /** `revoke_all_refresh_tokens(user_id, redis)`: one delete of every
      matching key, and no command at all when there is none. */
  method RevokeAllRefreshTokens(userId: string, redis: Store)
    modifies redis
    ensures redis.data == AfterRevokeAll(old(redis.data), userId)
    ensures redis.log == old(redis.log) +
      (if KeysWithPrefix(old(redis.data), RefreshPrefix(userId)) == {} then []
       else [DeleteCommand(KeysWithPrefix(old(redis.data), RefreshPrefix(userId)))])
  {
    var keys := redis.Keys(RefreshPrefix(userId));
    if keys != {} {
      redis.Delete(keys);
    }
  }

  lemma KeyShapesDiffer(uid: string, h: string, x: string)
    ensures RefreshKey(uid, h) != BlacklistKey(x)
  {
    assert RefreshKey(uid, h)[0] == 'r' && BlacklistKey(x)[0] == 'b';
  }

  /** Round trip: a freshly written record validates unless the token is on
      the blacklist the check consults. */
  lemma SetThenValidate(data: map<string, Entry>, hash: string -> string, uid: string, token: string, exp: int)
    ensures Accepted(AfterSet(data, uid, hash(token), exp), hash, uid, token) <==> !OnBlacklist(data, hash, token)
    ensures AcceptedAsWritten(AfterSet(data, uid, hash(token), exp), hash, uid, token) <==> !OnBlacklist(data, hash, hash(token))
  {
    KeyShapesDiffer(uid, hash(token), hash(token));
    KeyShapesDiffer(uid, hash(token), hash(hash(token)));
  }

  /** A blacklisted token is refused whatever the active record says. */
  lemma BlacklistWins(data: map<string, Entry>, hash: string -> string, uid: string, token: string)
    ensures OnBlacklist(data, hash, token) ==> !Accepted(data, hash, uid, token)
    ensures OnBlacklist(data, hash, hash(token)) ==> !AcceptedAsWritten(data, hash, uid, token)
  {
  }

  /** After revocation the token no longer validates. */
  lemma RevokeThenReject(data: map<string, Entry>, hash: string -> string, uid: string, token: string)
    ensures !Accepted(AfterRevoke(data, uid, hash(token)), hash, uid, token)
    ensures !AcceptedAsWritten(AfterRevoke(data, uid, hash(token)), hash, uid, token)
  {
  }

  /** Revoking one token leaves every other refresh-token record (another
      user's, or the same user's under another hash) as it was. */
  lemma RevokeOnlyThatToken(data: map<string, Entry>, uid: string, h: string, otherUid: string, otherH: string)
    requires ':' !in h && ':' !in otherH
    requires (otherUid, otherH) != (uid, h)
    ensures RefreshKey(otherUid, otherH) in AfterRevoke(data, uid, h) <==> RefreshKey(otherUid, otherH) in data
    ensures RefreshKey(otherUid, otherH) in data ==>
              AfterRevoke(data, uid, h)[RefreshKey(otherUid, otherH)] == data[RefreshKey(otherUid, otherH)]
  {
    if RefreshKey(otherUid, otherH) == RefreshKey(uid, h) {
      RefreshKeyInjective(otherUid, otherH, uid, h);
    }
  }

  /** A second revocation of the same token changes nothing more. */
  lemma RevokeIdempotent(data: map<string, Entry>, uid: string, h: string)
    ensures AfterRevoke(AfterRevoke(data, uid, h), uid, h) == AfterRevoke(data, uid, h)
  {
  }

  /** After revoke-all no token of the user validates. */
  lemma RevokeAllRejectsEveryToken(data: map<string, Entry>, hash: string -> string, uid: string, token: string)
    ensures !Accepted(AfterRevokeAll(data, uid), hash, uid, token)
    ensures !AcceptedAsWritten(AfterRevokeAll(data, uid), hash, uid, token)
  {
    PrefixOfKey(uid, hash(token));
  }

  /** Revoke-all keeps the records of every other user whose id, like this
      one, holds no colon. */
  lemma RevokeAllKeepsOtherUsers(data: map<string, Entry>, uid: string, otherUid: string, h: string)
    requires ':' !in uid && ':' !in otherUid && otherUid != uid
    ensures RefreshKey(otherUid, h) in AfterRevokeAll(data, uid) <==> RefreshKey(otherUid, h) in data
  {
    if RefreshPrefix(uid) <= RefreshKey(otherUid, h) {
      PrefixSeparatesUsers(uid, otherUid, h);
    }
  }

  /** The double hash in the blacklist lookup, shown on a concrete store: the
      token is blacklisted by `is_token_blacklisted`'s own key, yet the
      as-written validation accepts it; the corrected one refuses it. */
  lemma DoubleHashMissesBlacklist()
    ensures var hash := (s: string) => "h" + s;
            var data := map[BlacklistKey(hash("tok")) := Entry("1", 60), RefreshKey("7", hash("tok")) := Entry(ValidMarker, 60)];
            OnBlacklist(data, hash, "tok")
            && AcceptedAsWritten(data, hash, "7", "tok")
            && !Accepted(data, hash, "7", "tok")
  {
    var hash := (s: string) => "h" + s;
    var data := map[BlacklistKey(hash("tok")) := Entry("1", 60), RefreshKey("7", hash("tok")) := Entry(ValidMarker, 60)];
    assert |BlacklistKey(hash(hash("tok")))| == 23;
    assert |BlacklistKey(hash("tok"))| == 22 && |RefreshKey("7", hash("tok"))| == 20;
  }
}

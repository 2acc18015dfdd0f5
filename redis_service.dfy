/** src/app/services/redis.py: the refresh-token record write and the
    read-only session lookup, together with the key shapes both Redis
    modules share. */
module RedisService {
  import opened Wrappers
  import opened KeyValue

  /** The liveness marker stored under every refresh-token key. */
  const ValidMarker := "valid"

  /** `refresh_token:{uid}:{hash}` */
  function RefreshKey(uid: string, tokenHash: string): string {
    "refresh_token:" + uid + ":" + tokenHash
  }

  /** The fixed part of the `refresh_token:{uid}:*` pattern. */
  function RefreshPrefix(uid: string): string {
    "refresh_token:" + uid + ":"
  }

  /** `user:{uid}:session` */
  function UserSessionKey(uid: string): string {
    "user:" + uid + ":session"
  }

  /** The store after `set_in_redis` wrote a refresh-token record. */
  function AfterSet(data: map<string, Entry>, uid: string, tokenHash: string, exp: int): (d: map<string, Entry>)
    ensures RefreshKey(uid, tokenHash) in d
    ensures d[RefreshKey(uid, tokenHash)] == Entry(ValidMarker, exp)
    ensures forall k :: k != RefreshKey(uid, tokenHash) ==> (k in d <==> k in data)
    ensures forall k :: k in data && k != RefreshKey(uid, tokenHash) ==> d[k] == data[k]
  {
    data[RefreshKey(uid, tokenHash):= Entry(ValidMarker, exp)]
  }

  lemma PrefixOfKey(uid: string, tokenHash: string)
    ensures RefreshPrefix(uid) <= RefreshKey(uid, tokenHash)
  {
    assert RefreshKey(uid, tokenHash) == RefreshPrefix(uid) + tokenHash;
  }

  /** The characters before the first colon. */
  function UntilColon(s: string): string {
    if s == [] || s[0] == ':' then [] else [s[0]] + UntilColon(s[1..])
  }

  /** The characters after the last colon. */
  function AfterLastColon(s: string): string {
    if s == [] || s[|s| - 1] == ':' then [] else AfterLastColon(s[..|s| - 1]) + [s[|s| - 1]]
  }

  lemma {:induction false} UntilColonOf(u: string, rest: string)
    requires ':' !in u
    ensures UntilColon(u + ":" + rest) == u
  {
    if u != [] {
      assert (u + ":" + rest)[1..] == u[1..] + ":" + rest;
      UntilColonOf(u[1..], rest);
    }
  }

  lemma {:induction false} AfterLastColonOf(p: string, h: string)
    requires ':' !in h
    ensures AfterLastColon(p + ":" + h) == h
  {
    var s := p + ":" + h;
    if h != [] {
      assert s[..|s| - 1] == p + ":" + h[..|h| - 1];
      AfterLastColonOf(p, h[..|h| - 1]);
      assert h == h[..|h| - 1] + [h[|h| - 1]];
    }
  }

  /** Two refresh-token keys whose hashes hold no colon (the salted hash is
      a hex digest) are equal only for the same user and the same hash. */
  lemma RefreshKeyInjective(u1: string, h1: string, u2: string, h2: string)
    requires ':' !in h1 && ':' !in h2
    requires RefreshKey(u1, h1) == RefreshKey(u2, h2)
    ensures u1 == u2 && h1 == h2
  {
    var k := RefreshKey(u1, h1);
    assert k == ("refresh_token:" + u1) + ":" + h1;
    assert k == ("refresh_token:" + u2) + ":" + h2;
    AfterLastColonOf("refresh_token:" + u1, h1);
    AfterLastColonOf("refresh_token:" + u2, h2);
    assert u1 == k[14..|k| - |h1| - 1] == u2;
  }

  /** For user ids without a colon, the `refresh_token:{uid}:*` pattern of
      one user matches the keys of that user only. */
  lemma PrefixSeparatesUsers(u: string, v: string, h: string)
    requires ':' !in u && ':' !in v
    requires RefreshPrefix(u) <= RefreshKey(v, h)
    ensures u == v
  {
    var k := RefreshKey(v, h);
    var rest := k[|RefreshPrefix(u)|..];
    assert k == "refresh_token:" + (u + ":" + rest);
    assert k == "refresh_token:" + (v + ":" + h);
    assert k[14..] == u + ":" + rest == v + ":" + h;
    UntilColonOf(u, rest);
    UntilColonOf(v, h);
  }

  /** Writing a record adds at most one key to the user's namespace and
      evicts nothing: this revision has no per-user cap on refresh tokens. */
  lemma NoPerUserCap(data: map<string, Entry>, uid: string, tokenHash: string, exp: int)
    ensures KeysWithPrefix(AfterSet(data, uid, tokenHash, exp), RefreshPrefix(uid))
         == KeysWithPrefix(data, RefreshPrefix(uid)) + {RefreshKey(uid, tokenHash)}
    ensures |KeysWithPrefix(AfterSet(data, uid, tokenHash, exp), RefreshPrefix(uid))|
         == |KeysWithPrefix(data, RefreshPrefix(uid))| + (if RefreshKey(uid, tokenHash) in data then 0 else 1)
  {
    PrefixOfKey(uid, tokenHash);
    var before := KeysWithPrefix(data, RefreshPrefix(uid));
    assert RefreshKey(uid, tokenHash) in data ==> RefreshKey(uid, tokenHash) in before;
    assert RefreshKey(uid, tokenHash) !in data ==> RefreshKey(uid, tokenHash) !in before;
  }

  /** Writing the same token twice leaves one record, with the later TTL. */
  lemma SetTwice(data: map<string, Entry>, uid: string, tokenHash: string, exp1: int, exp2: int)
    ensures AfterSet(AfterSet(data, uid, tokenHash, exp1), uid, tokenHash, exp2) == AfterSet(data, uid, tokenHash, exp2)
  {
  }

  /** `set_in_redis(user_id, jwt, exp)`. */
  method SetInRedis(userId: string, jwt: string, exp: int, redis: Store, hash: string -> string) returns (ok: bool)
    modifies redis
    ensures ok <==> exp > 0
    ensures redis.data == if ok then AfterSet(old(redis.data), userId, hash(jwt), exp) else old(redis.data)
    ensures redis.log == old(redis.log) + [SetCommand(RefreshKey(userId, hash(jwt)), ValidMarker, exp)]
  {
    var tokenHash := hash(jwt);
    ok := redis.Set(RefreshKey(userId, tokenHash), ValidMarker, exp);
  }

  /** `RedisService`: a wrapper around the store object. */
  class RedisService {
    const redis: Store

    constructor (redis: Store)
      ensures this.redis == redis
    {
      this.redis := redis;
    }

    /** `get_user_session(user_id)`: reads `user:{user_id}:session` only. */
    method GetUserSession(userId: string) returns (v: Option<string>)
      ensures v.Some? <==> UserSessionKey(userId) in redis.data
      ensures v.Some? ==> v.value == redis.data[UserSessionKey(userId)].value
    {
      v := redis.Get(UserSessionKey(userId));
    }
  }
}

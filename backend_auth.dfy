/** backend/src/app/services/auth.py: the older backend's bearer check and
    login check. The user table is a sequence of rows in query order;
    `decode_token` and `verify_password` are parameters. */
module BackendAuth {
  import opened Wrappers
  import opened Json
  import opened Http

  type Bytes = seq<bv8>

  /** The columns of the `User` row the checks read. */
  datatype UserRecord = UserRecord(username: string, email: string, hashedPassword: Bytes, isActive: bool)

  /** `decode_token`: the payload, or `None` for a token it rejects
      (backend/src/app/core/utils/security.py:41-50). */
  type Decoder = string -> Option<Object>

  /** `verify_password(plain, hashed)`. */
  type Verifier = (string, Bytes) -> bool

  /** `select(User).filter(<column match>, User.is_active == True)`
      followed by `.scalars().first()`: the first active row satisfying
      `matches`. */
  function FirstActive(users: seq<UserRecord>, matches: UserRecord -> bool): (r: Option<UserRecord>)
    ensures r.None? <==> forall i :: 0 <= i < |users| ==> !(users[i].isActive && matches(users[i]))
    ensures r.Some? ==> exists i :: 0 <= i < |users| && users[i] == r.value && r.value.isActive && matches(r.value)
                                   && forall j :: 0 <= j < i ==> !(users[j].isActive && matches(users[j]))
  {
    if users == [] then None
    else if users[0].isActive && matches(users[0]) then Some(users[0])
    else
      var rest := FirstActive(users[1..], matches);
      assert forall j :: 1 <= j < |users| ==> users[j] == users[1..][j - 1];
      if rest.Some? then
        ghost var i :| 0 <= i < |users[1..]| && users[1..][i] == rest.value && rest.value.isActive && matches(rest.value)
                        && forall j :: 0 <= j < i ==> !(users[1..][j].isActive && matches(users[1..][j]));
        assert users[i + 1] == rest.value;
        rest
      else rest
  }

  /** `get_user_by_email`: the first active row, in query order, with
      that email; `None` exactly when no active row has it. */
  function GetUserByEmail(users: seq<UserRecord>, email: string): (r: Option<UserRecord>)
    ensures r.None? <==> forall u :: u in users ==> !(u.isActive && u.email == email)
    ensures r.Some? ==> exists i :: 0 <= i < |users| && users[i] == r.value && r.value.isActive && r.value.email == email
                                   && forall j :: 0 <= j < i ==> !(users[j].isActive && users[j].email == email)
  {
    assert forall i :: 0 <= i < |users| ==> users[i] in users;
    FirstActive(users, (u: UserRecord) => u.email == email)
  }

  /** `get_user_by_name`, which the shown crud module does not define; it
      is taken to filter `User.username` as `get_user_by_email` filters
      `User.email`. */
  function GetUserByName(users: seq<UserRecord>, name: string): (r: Option<UserRecord>)
    ensures r.None? <==> forall u :: u in users ==> !(u.isActive && u.username == name)
    ensures r.Some? ==> exists i :: 0 <= i < |users| && users[i] == r.value && r.value.isActive && r.value.username == name
                                   && forall j :: 0 <= j < i ==> !(users[j].isActive && users[j].username == name)
  {
    assert forall i :: 0 <= i < |users| ==> users[i] in users;
    FirstActive(users, (u: UserRecord) => u.username == name)
  }

  const CredentialsException :=
    HttpException(401, JStr("Could not validate credentials"), map["WWW-Authenticate" := "Bearer"])

  const UnauthedException := HttpException(401, JStr("Invalid email or password"), map[])

  /** `get_current_user`. A `sub` that is not a string matches no email. */
  function GetCurrentUser(decode: Decoder, users: seq<UserRecord>, token: string): (r: Result<UserRecord, HttpException>)
    ensures r.Failure? ==> r.error == CredentialsException
    ensures r.Success? <==>
              && decode(token).Some? && !IsNone(decode(token).value, "sub")
              && decode(token).value["sub"].JStr?
              && exists u :: u in users && u.isActive && u.email == decode(token).value["sub"].s
    ensures r.Success? ==> r.value in users && r.value.isActive && JStr(r.value.email) == decode(token).value["sub"]
  {
    var payload := decode(token);
    if payload.None? then Failure(CredentialsException)
    else if IsNone(payload.value, "sub") then Failure(CredentialsException)
    else
      var sub := payload.value["sub"];
      var user := if sub.JStr? then GetUserByEmail(users, sub.s) else None;
      if user.None? then Failure(CredentialsException)
      else Success(user.value)
  }

  /** `TokenPayload`, with the expiry as a number of seconds. */
  datatype TokenPayload = TokenPayload(sub: string, exp: int)

  /** `authenticate_user` as written: line 50 passes the settings object
      where `TokenPayload.exp` expects a timedelta, so constructing the
      result raises pydantic's `ValidationError` on the success path. */
  function AuthenticateUserAsWritten(users: seq<UserRecord>, verify: Verifier, username: string, password: string)
    : (r: Result<TokenPayload, Failure>)
    ensures r.Failure?
    ensures r.error == Http(UnauthedException) <==>
              GetUserByName(users, username).None? || !verify(password, GetUserByName(users, username).value.hashedPassword)
    ensures r.error != Http(UnauthedException) ==> r.error == Raised("ValidationError", "exp")
  {
    var user := GetUserByName(users, username);
    if user.None? || !verify(password, user.value.hashedPassword) then Failure(Http(UnauthedException))
    else Failure(Raised("ValidationError", "exp"))
  }

  /** `authenticate_user` with the token lifetime `exp` that line 50 was
      evidently meant to pass: the found user's email as `sub`. */
  function AuthenticateUser(users: seq<UserRecord>, verify: Verifier, username: string, password: string, exp: int)
    : (r: Result<TokenPayload, Failure>)
    ensures r.Failure? ==> r == Failure(Http(UnauthedException))
    ensures r.Success? <==> GetUserByName(users, username).Some?
                            && verify(password, GetUserByName(users, username).value.hashedPassword)
    ensures r.Success? ==> r.value == TokenPayload(GetUserByName(users, username).value.email, exp)
  {
    var user := GetUserByName(users, username);
    if user.None? || !verify(password, user.value.hashedPassword) then Failure(Http(UnauthedException))
    else Success(TokenPayload(user.value.email, exp))
  }

  /** An unknown username and a wrong password give the very same failure. */
  lemma {:induction false} FailuresIndistinguishable(users1: seq<UserRecord>, users2: seq<UserRecord>, verify: Verifier,
                                                    name1: string, name2: string, password1: string, password2: string, exp: int)
    requires forall u :: u in users1 ==> !(u.isActive && u.username == name1)
    requires exists u :: u in users2 && u.isActive && u.username == name2
    requires !verify(password2, GetUserByName(users2, name2).value.hashedPassword)
    ensures AuthenticateUser(users1, verify, name1, password1, exp) == AuthenticateUser(users2, verify, name2, password2, exp)
    ensures AuthenticateUserAsWritten(users1, verify, name1, password1) == AuthenticateUserAsWritten(users2, verify, name2, password2)
  {
    assert GetUserByName(users1, name1).None?;
  }

  /** The password is not checked for a missing user: the result does not
      depend on the verifier. */
  lemma MissingUserSkipsVerify(users: seq<UserRecord>, v1: Verifier, v2: Verifier, name: string, password: string, exp: int)
    requires GetUserByName(users, name).None?
    ensures AuthenticateUser(users, v1, name, password, exp) == AuthenticateUser(users, v2, name, password, exp)
    ensures AuthenticateUser(users, v1, name, password, exp) == Failure(Http(UnauthedException))
  {
  }

  /** The login is by username but the subject is the email. */
  lemma SubjectIsEmail(users: seq<UserRecord>, verify: Verifier, name: string, password: string, exp: int)
    requires AuthenticateUser(users, verify, name, password, exp).Success?
    ensures exists u :: u in users && u.isActive && u.username == name
                        && AuthenticateUser(users, verify, name, password, exp).value.sub == u.email
  {
    var u := GetUserByName(users, name).value;
    var i :| 0 <= i < |users| && users[i] == u && u.isActive && u.username == name;
    assert u in users;
  }

  /** The input that shows the defect: one active user, the right password. */
  lemma AsWrittenRejectsValidLogin()
    ensures var users := [UserRecord("alice", "alice@example.com", [1], true)];
            var verify: Verifier := (p: string, h: Bytes) => p == "secret" && h == [1];
            && AuthenticateUser(users, verify, "alice", "secret", 3600) == Success(TokenPayload("alice@example.com", 3600))
            && AuthenticateUserAsWritten(users, verify, "alice", "secret") == Failure(Raised("ValidationError", "exp"))
  {
  }
}

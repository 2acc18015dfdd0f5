/** The user schemas: the records the API accepts and returns for users,
    and the validation pydantic applies to a submitted field map before
    building one of them.  Every schema inherits a required `id: int`
    from the base schema; `UserProfile` validates in strict mode, all the
    others in lax mode. */
module UserSchema {
  import opened Wrappers

  type Bytes = seq<bv8>

  /** A submitted field value. */
  datatype Value = Str(s: string) | Int(i: int) | Float(x: real) | Bool(b: bool) | BytesValue(bytes: Bytes) | Null

  /** The submitted fields by name; a name that is absent was not sent. */
  type Input = map<string, Value>

  /** The error kinds pydantic reports for these fields. */
  datatype ErrorKind =
    | Missing
    | StringType
    | IntType
    | IntFromFloat
    | FloatType
    | BytesType
    | LiteralError
    | StringTooShort
    | StringTooLong
    | GreaterThan

  datatype FieldError = FieldError(field: string, kind: ErrorKind)

  datatype Mode = Lax | Strict

  /** A `str` field whose declared default is the typing object
      `Literal[...]` (written with `=` instead of `:`): either a string was
      sent, or the field holds that object. */
  datatype Defaulted = Given(s: string) | TypingDefault

  const Genders: set<string> := {"female", "male"}

  // ---------------------------------------------------------------------
  // Field validation

  /** A `str` field with the given length bounds. */
  function FieldString(m: Input, f: string, minLen: nat, maxLen: Option<nat>): (r: Result<string, FieldError>)
    ensures r.Success? <==> f in m && m[f].Str? && minLen <= |m[f].s| && (maxLen.Some? ==> |m[f].s| <= maxLen.value)
    ensures r.Success? ==> r.value == m[f].s
    ensures r.Failure? ==> r.error.field == f
  {
    if f !in m then Failure(FieldError(f, Missing))
    else match m[f]
      case Str(s) =>
        if |s| < minLen then Failure(FieldError(f, StringTooShort))
        else if maxLen.Some? && |s| > maxLen.value then Failure(FieldError(f, StringTooLong))
        else Success(s)
      case _ => Failure(FieldError(f, StringType))
  }

  /** An `int` field, optionally `gt=0`.  Lax mode also takes a boolean
      and a float without fractional part; strict mode takes integers only. */
  function FieldInt(m: Input, f: string, mode: Mode, positive: bool): (r: Result<int, FieldError>)
    ensures r.Success? ==> f in m && (positive ==> r.value > 0)
    ensures r.Success? && mode == Strict ==> m[f] == Int(r.value)
    ensures f in m && m[f].Int? && (positive ==> m[f].i > 0) ==> r == Success(m[f].i)
    ensures r.Failure? ==> r.error.field == f
  {
    if f !in m then Failure(FieldError(f, Missing))
    else
      var n :=
        match m[f]
        case Int(i) => Success(i)
        case Bool(b) => if mode == Lax then Success(if b then 1 else 0) else Failure(IntType)
        case Float(x) =>
          if mode == Strict then Failure(IntType)
          else if x == x.Floor as real then Success(x.Floor)
          else Failure(IntFromFloat)
        case _ => Failure(IntType);
      if n.Failure? then Failure(FieldError(f, n.error))
      else if positive && n.value <= 0 then Failure(FieldError(f, GreaterThan))
      else Success(n.value)
  }

  /** A `float` field, optionally `gt=0`.  Both modes take integers; lax
      mode also takes a boolean. */
  function FieldFloat(m: Input, f: string, mode: Mode, positive: bool): (r: Result<real, FieldError>)
    ensures r.Success? ==> f in m && (positive ==> r.value > 0.0)
    ensures r.Success? && mode == Strict ==> m[f] == Float(r.value) || m[f] == Int(r.value.Floor)
    ensures f in m && m[f].Float? && (positive ==> m[f].x > 0.0) ==> r == Success(m[f].x)
    ensures r.Failure? ==> r.error.field == f
  {
    if f !in m then Failure(FieldError(f, Missing))
    else
      var x :=
        match m[f]
        case Float(x) => Success(x)
        case Int(i) => Success(i as real)
        case Bool(b) => if mode == Lax then Success(if b then 1.0 else 0.0) else Failure(FloatType)
        case _ => Failure(FloatType);
      if x.Failure? then Failure(FieldError(f, x.error))
      else if positive && x.value <= 0.0 then Failure(FieldError(f, GreaterThan))
      else Success(x.value)
  }

  /** A `bytes` field. */
  function FieldBytes(m: Input, f: string): (r: Result<Bytes, FieldError>)
    ensures r.Success? <==> f in m && m[f].BytesValue?
    ensures r.Success? ==> r.value == m[f].bytes
  {
    if f !in m then Failure(FieldError(f, Missing))
    else match m[f]
      case BytesValue(b) => Success(b)
      case _ => Failure(FieldError(f, BytesType))
  }

  /** A `Literal["female", "male"]` field. */
  function FieldGender(m: Input, f: string): (r: Result<string, FieldError>)
    ensures r.Success? <==> f in m && m[f].Str? && m[f].s in Genders
    ensures r.Success? ==> r.value == m[f].s
  {
    if f !in m then Failure(FieldError(f, Missing))
    else if m[f].Str? && m[f].s in Genders then Success(m[f].s)
    else Failure(FieldError(f, LiteralError))
  }

  /** A `str` field with a typing-object default. */
  function FieldDefaulted(m: Input, f: string): (r: Result<Defaulted, FieldError>)
    ensures f !in m ==> r == Success(TypingDefault)
    ensures f in m ==> (r.Success? <==> m[f].Str?)
    ensures f in m && m[f].Str? ==> r == Success(Given(m[f].s))
  {
    if f !in m then Success(TypingDefault)
    else match m[f]
      case Str(s) => Success(Given(s))
      case _ => Failure(FieldError(f, StringType))
  }

  /** `X | None` without a default: the field must be sent, and `null`
      stands for `None`; any other value is validated as `X` (given as
      `r`). */
  function OrNull<T>(m: Input, f: string, r: Result<T, FieldError>): (o: Result<Option<T>, FieldError>)
    ensures f in m && m[f] == Null ==> o == Success(None)
    ensures !(f in m && m[f] == Null) ==> (o.Success? <==> r.Success?)
    ensures !(f in m && m[f] == Null) && r.Success? ==> o == Success(Some(r.value))
  {
    if f in m && m[f] == Null then Success(None)
    else if r.Success? then Success(Some(r.value))
    else Failure(r.error)
  }

  /** The error a field contributes to the report, if any. */
  function Errors<T>(r: Result<T, FieldError>): (e: seq<FieldError>)
    ensures |e| <= 1
    ensures e == [] <==> r.Success?
  {
    if r.Failure? then [r.error] else []
  }

  // ---------------------------------------------------------------------
  // The schemas

  datatype UserBase = UserBase(id: int, username: string, email: string)

  datatype UserCreate = UserCreate(id: int, username: string, email: string, password: string)

  datatype UserResponse = UserResponse(id: int, username: string, email: string, uid: string, hashedPassword: Option<Bytes>)

  datatype UserAccount = UserAccount(
    id: int, username: string, email: string,
    gender: Option<string>, age: Option<int>, weight: Option<real>, height: Option<real>,
    kfa: Option<string>, goal: Defaulted, createdAt: string)

  datatype UserProfile = UserProfile(
    id: int, gender: string, age: int, weight: real, height: real, kfa: Defaulted, goal: Defaulted)

  datatype PasswordChange = PasswordChange(id: int, currentPassword: string, newPassword: string)

  /** `username`: between 3 and 20 characters. */
  predicate ValidUsername(s: string) {
    3 <= |s| <= 20
  }

  /** A password field: at least 8 characters. */
  predicate ValidPassword(s: string) {
    |s| >= 8
  }

  predicate WellFormedUserCreate(u: UserCreate) {
    ValidUsername(u.username) && ValidPassword(u.password)
  }

  predicate WellFormedAccount(a: UserAccount) {
    ValidUsername(a.username) && (a.gender.Some? ==> a.gender.value in Genders)
  }

  /** `kfa` and `goal` carry no constraint. */
  predicate WellFormedProfile(p: UserProfile) {
    p.gender in Genders && p.age > 0 && p.weight > 0.0 && p.height > 0.0
  }

  predicate WellFormedPasswordChange(p: PasswordChange) {
    ValidPassword(p.currentPassword) && ValidPassword(p.newPassword)
  }

  // ---------------------------------------------------------------------
  // Validation of a field map into a schema; the error report lists the
  // failing fields in declaration order.

  function ValidateUserBase(m: Input): (r: Result<UserBase, seq<FieldError>>)
    ensures r.Success? <==> && FieldInt(m, "id", Lax, false).Success?
                            && "username" in m && m["username"].Str? && ValidUsername(m["username"].s)
                            && "email" in m && m["email"].Str?
    ensures r.Success? ==> "username" in m && m["username"] == Str(r.value.username)
    ensures r.Success? ==> "email" in m && m["email"] == Str(r.value.email)
    ensures r.Success? ==> "id" in m && (m["id"].Int? ==> r.value.id == m["id"].i)
  {
    var id := FieldInt(m, "id", Lax, false);
    var username := FieldString(m, "username", 3, Some(20));
    var email := FieldString(m, "email", 0, None);
    var errs := Errors(id) + Errors(username) + Errors(email);
    if errs == [] then Success(UserBase(id.value, username.value, email.value)) else Failure(errs)
  }

  function ValidateUserCreate(m: Input): (r: Result<UserCreate, seq<FieldError>>)
    ensures r.Success? ==> WellFormedUserCreate(r.value)
    ensures r.Success? ==> "username" in m && m["username"] == Str(r.value.username)
    ensures r.Success? ==> "email" in m && m["email"] == Str(r.value.email)
    ensures r.Success? ==> "password" in m && m["password"] == Str(r.value.password)
    ensures r.Success? ==> "id" in m && (m["id"].Int? ==> r.value.id == m["id"].i)
  {
    var id := FieldInt(m, "id", Lax, false);
    var username := FieldString(m, "username", 3, Some(20));
    var email := FieldString(m, "email", 0, None);
    var password := FieldString(m, "password", 8, None);
    var errs := Errors(id) + Errors(username) + Errors(email) + Errors(password);
    if errs == [] then Success(UserCreate(id.value, username.value, email.value, password.value)) else Failure(errs)
  }

  function ValidateUserResponse(m: Input): (r: Result<UserResponse, seq<FieldError>>)
    ensures r.Success? ==> ValidUsername(r.value.username)
    ensures r.Success? ==> "username" in m && m["username"] == Str(r.value.username)
    ensures r.Success? ==> "email" in m && m["email"] == Str(r.value.email)
    ensures r.Success? ==> "uid" in m && m["uid"] == Str(r.value.uid)
    ensures r.Success? ==> "id" in m && (m["id"].Int? ==> r.value.id == m["id"].i)
    ensures r.Success? && ("hashed_password" !in m || m["hashed_password"] == Null) ==> r.value.hashedPassword == None
    ensures r.Success? && "hashed_password" in m && m["hashed_password"] != Null ==>
              r.value.hashedPassword.Some? && m["hashed_password"] == BytesValue(r.value.hashedPassword.value)
  {
    var id := FieldInt(m, "id", Lax, false);
    var username := FieldString(m, "username", 3, Some(20));
    var email := FieldString(m, "email", 0, None);
    var uid := FieldString(m, "uid", 0, None);
    var hashed :=
      if "hashed_password" !in m then Success(None)
      else OrNull(m, "hashed_password", FieldBytes(m, "hashed_password"));
    var errs := Errors(id) + Errors(username) + Errors(email) + Errors(uid) + Errors(hashed);
    if errs == [] then Success(UserResponse(id.value, username.value, email.value, uid.value, hashed.value)) else Failure(errs)
  }

  function ValidateUserAccount(m: Input): (r: Result<UserAccount, seq<FieldError>>)
    ensures r.Success? ==> WellFormedAccount(r.value)
    ensures r.Success? ==> "created_at" in m && m["created_at"] == Str(r.value.createdAt)
    ensures r.Success? ==> forall f :: f in AccountNullable ==> f in m
  {
    var id := FieldInt(m, "id", Lax, false);
    var username := FieldString(m, "username", 3, Some(20));
    var email := FieldString(m, "email", 0, None);
    var gender := OrNull(m, "gender", FieldGender(m, "gender"));
    var age := OrNull(m, "age", FieldInt(m, "age", Lax, false));
    var weight := OrNull(m, "weight", FieldFloat(m, "weight", Lax, false));
    var height := OrNull(m, "height", FieldFloat(m, "height", Lax, false));
    var kfa := OrNull(m, "kfa", FieldString(m, "kfa", 0, None));
    var goal := FieldDefaulted(m, "goal");
    var createdAt := FieldString(m, "created_at", 0, None);
    var errs := Errors(id) + Errors(username) + Errors(email) + Errors(gender) + Errors(age)
      + Errors(weight) + Errors(height) + Errors(kfa) + Errors(goal) + Errors(createdAt);
    if errs == [] then
      Success(UserAccount(id.value, username.value, email.value, gender.value, age.value,
                          weight.value, height.value, kfa.value, goal.value, createdAt.value))
    else Failure(errs)
  }

  /** The account fields that may be `null` but must be sent. */
  const AccountNullable: set<string> := {"gender", "age", "weight", "height", "kfa"}

  function ValidateUserProfile(m: Input): (r: Result<UserProfile, seq<FieldError>>)
    ensures r.Success? ==> WellFormedProfile(r.value)
    ensures r.Success? ==> "age" in m && m["age"] == Int(r.value.age)
  {
    var id := FieldInt(m, "id", Strict, false);
    var gender := FieldGender(m, "gender");
    var age := FieldInt(m, "age", Strict, true);
    var weight := FieldFloat(m, "weight", Strict, true);
    var height := FieldFloat(m, "height", Strict, true);
    var kfa := FieldDefaulted(m, "kfa");
    var goal := FieldDefaulted(m, "goal");
    var errs := Errors(id) + Errors(gender) + Errors(age) + Errors(weight) + Errors(height)
      + Errors(kfa) + Errors(goal);
    if errs == [] then
      Success(UserProfile(id.value, gender.value, age.value, weight.value, height.value, kfa.value, goal.value))
    else Failure(errs)
  }

  function ValidatePasswordChange(m: Input): (r: Result<PasswordChange, seq<FieldError>>)
    ensures r.Success? ==> WellFormedPasswordChange(r.value)
  {
    var id := FieldInt(m, "id", Lax, false);
    var current := FieldString(m, "current_password", 8, None);
    var newPassword := FieldString(m, "new_password", 8, None);
    var errs := Errors(id) + Errors(current) + Errors(newPassword);
    if errs == [] then Success(PasswordChange(id.value, current.value, newPassword.value)) else Failure(errs)
  }

  // ---------------------------------------------------------------------
  // Submissions: the field map that carries a record's values.  Validating
  // the submission of a well-formed record gives that record back.

  function SubmitUserBase(u: UserBase): Input {
    map["id" := Int(u.id), "username" := Str(u.username), "email" := Str(u.email)]
  }

  /** `hashed_password` is left out when it is `None`. */
  function SubmitUserResponse(u: UserResponse): Input {
    var m := map["id" := Int(u.id), "username" := Str(u.username), "email" := Str(u.email), "uid" := Str(u.uid)];
    if u.hashedPassword.Some? then m["hashed_password" := BytesValue(u.hashedPassword.value)] else m
  }

  function SubmitUserCreate(u: UserCreate): Input {
    map["id" := Int(u.id), "username" := Str(u.username), "email" := Str(u.email), "password" := Str(u.password)]
  }

  function OptionalValue<T>(o: Option<T>, v: T -> Value): Value {
    if o.Some? then v(o.value) else Null
  }

  function SubmitDefaulted(m: Input, f: string, d: Defaulted): Input {
    if d.Given? then m[f := Str(d.s)] else m
  }

  function SubmitAccount(a: UserAccount): Input {
    var m := map[
      "id" := Int(a.id), "username" := Str(a.username), "email" := Str(a.email),
      "gender" := OptionalValue(a.gender, s => Str(s)),
      "age" := OptionalValue(a.age, i => Int(i)),
      "weight" := OptionalValue(a.weight, x => Float(x)),
      "height" := OptionalValue(a.height, x => Float(x)),
      "kfa" := OptionalValue(a.kfa, s => Str(s)),
      "created_at" := Str(a.createdAt)];
    SubmitDefaulted(m, "goal", a.goal)
  }

  function SubmitProfile(p: UserProfile): Input {
    var m := map[
      "id" := Int(p.id), "gender" := Str(p.gender), "age" := Int(p.age),
      "weight" := Float(p.weight), "height" := Float(p.height)];
    SubmitDefaulted(SubmitDefaulted(m, "kfa", p.kfa), "goal", p.goal)
  }

  function SubmitPasswordChange(p: PasswordChange): Input {
    map["id" := Int(p.id), "current_password" := Str(p.currentPassword), "new_password" := Str(p.newPassword)]
  }

  lemma UserBaseRoundTrip(u: UserBase)
    requires ValidUsername(u.username)
    ensures ValidateUserBase(SubmitUserBase(u)) == Success(u)
  {
  }

  /** With the hash sent as bytes or left out. */
  lemma UserResponseRoundTrip(u: UserResponse)
    requires ValidUsername(u.username)
    ensures ValidateUserResponse(SubmitUserResponse(u)) == Success(u)
  {
  }

  /** With the hash sent as `null`. */
  lemma UserResponseNullHash(u: UserResponse)
    requires ValidUsername(u.username)
    ensures ValidateUserResponse(SubmitUserResponse(u)["hashed_password" := Null]) == Success(u.(hashedPassword := None))
  {
  }

  lemma UserCreateRoundTrip(u: UserCreate)
    requires WellFormedUserCreate(u)
    ensures ValidateUserCreate(SubmitUserCreate(u)) == Success(u)
  {
  }

  lemma SubmitAccountFields(a: UserAccount)
    ensures var m := SubmitAccount(a);
      && "id" in m && "username" in m && "email" in m && "created_at" in m
      && (forall f :: f in AccountNullable ==> f in m)
      && m["id"] == Int(a.id) && m["username"] == Str(a.username) && m["email"] == Str(a.email)
      && m["gender"] == OptionalValue(a.gender, s => Str(s))
      && m["age"] == OptionalValue(a.age, i => Int(i))
      && m["weight"] == OptionalValue(a.weight, x => Float(x))
      && m["height"] == OptionalValue(a.height, x => Float(x))
      && m["kfa"] == OptionalValue(a.kfa, s => Str(s))
      && m["created_at"] == Str(a.createdAt)
      && ("goal" in m <==> a.goal.Given?)
      && (a.goal.Given? ==> m["goal"] == Str(a.goal.s))
  {
  }

  /** Each field of a submitted account reads back as itself. */
  lemma AccountFieldsDecode(a: UserAccount)
    requires WellFormedAccount(a)
    ensures var m := SubmitAccount(a);
      && FieldInt(m, "id", Lax, false) == Success(a.id)
      && FieldString(m, "username", 3, Some(20)) == Success(a.username)
      && FieldString(m, "email", 0, None) == Success(a.email)
      && OrNull(m, "gender", FieldGender(m, "gender")) == Success(a.gender)
      && OrNull(m, "age", FieldInt(m, "age", Lax, false)) == Success(a.age)
      && OrNull(m, "weight", FieldFloat(m, "weight", Lax, false)) == Success(a.weight)
      && OrNull(m, "height", FieldFloat(m, "height", Lax, false)) == Success(a.height)
      && OrNull(m, "kfa", FieldString(m, "kfa", 0, None)) == Success(a.kfa)
      && FieldDefaulted(m, "goal") == Success(a.goal)
      && FieldString(m, "created_at", 0, None) == Success(a.createdAt)
  {
    SubmitAccountFields(a);
  }

  lemma AccountRoundTrip(a: UserAccount)
    requires WellFormedAccount(a)
    ensures ValidateUserAccount(SubmitAccount(a)) == Success(a)
  {
    AccountFieldsDecode(a);
  }

  /** Any `kfa` and `goal` string passes profile validation. */
  lemma ProfileRoundTrip(p: UserProfile)
    requires WellFormedProfile(p)
    ensures ValidateUserProfile(SubmitProfile(p)) == Success(p)
  {
  }

  lemma PasswordChangeRoundTrip(p: PasswordChange)
    requires WellFormedPasswordChange(p)
    ensures ValidatePasswordChange(SubmitPasswordChange(p)) == Success(p)
  {
  }

  /** Strict mode: the profile refuses a float age that lax mode would
      convert, and reports only that field. */
  lemma StrictProfileRefusesFloatAge()
    ensures var m := map["id" := Int(1), "gender" := Str("male"), "age" := Float(30.0),
                         "weight" := Float(80.0), "height" := Float(180.0)];
            ValidateUserProfile(m) == Failure([FieldError("age", IntType)])
            && FieldInt(m, "age", Lax, false) == Success(30)
  {
    var m := map["id" := Int(1), "gender" := Str("male"), "age" := Float(30.0),
                 "weight" := Float(80.0), "height" := Float(180.0)];
    assert FieldInt(m, "id", Strict, false) == Success(1);
    assert FieldGender(m, "gender") == Success("male");
    assert FieldFloat(m, "weight", Strict, true) == Success(80.0);
    assert FieldFloat(m, "height", Strict, true) == Success(180.0);
    assert FieldInt(m, "age", Strict, true) == Failure(FieldError("age", IntType));
    assert FieldDefaulted(m, "kfa") == Success(TypingDefault);
    assert FieldDefaulted(m, "goal") == Success(TypingDefault);
    assert (30.0).Floor == 30;
    var none: seq<FieldError> := [];
    assert none + none + [FieldError("age", IntType)] + none + none + none + none == [FieldError("age", IntType)];
  }

  /** An account must carry `created_at`, and each nullable field must be
      sent even when it is `null`. */
  lemma AccountRequiresEveryField(a: UserAccount, f: string)
    requires WellFormedAccount(a) && f in AccountNullable + {"created_at"}
    ensures ValidateUserAccount(SubmitAccount(a) - {f}).Failure?
  {
    if f == "created_at" {
      assert "created_at" !in SubmitAccount(a) - {f};
    }
  }
}

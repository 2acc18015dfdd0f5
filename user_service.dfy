/** The energy calculations on a user account: the basal metabolic rate
    (Mifflin–St Jeor) and the total daily energy expenditure, the BMR
    times the activity factor `kfa`.  Python arithmetic on `None` raises
    `TypeError`, and `int()` of a string that is not an integer raises
    `ValueError`; both are modelled as failures. */
module UserService {
  import opened Wrappers
  import opened Strings
  import opened Http
  import opened UserSchema

  datatype Sex = Male | Female

  /** The Mifflin–St Jeor equation: weight in kg, height in cm, age in
      years; +5 for men, −161 for women. */
  function MifflinStJeor(sex: Sex, weight: real, height: real, age: int): real {
    10.0 * weight + 6.25 * height - 5.0 * (age as real) + (if sex == Male then 5.0 else -161.0)
  }

  /** `<number> * None`, with the type name of the left operand. */
  function NoneOperand(left: string): Failure {
    Raised("TypeError", "unsupported operand type(s) for *: '" + left + "' and 'NoneType'")
  }

  /** Only the exact string `"male"` selects the male equation; `"female"`
      and a missing gender get the female one. */
  function SexOf(gender: Option<string>): (s: Sex)
    ensures s == Male <==> gender == Some("male")
  {
    if gender == Some("male") then Male else Female
  }

  /** `calculate_bmr`.  The operands are evaluated left to right, so the
      first missing one of weight, height, age decides the error. */
  function CalculateBmr(u: UserAccount): (r: Result<real, Failure>)
    ensures r.Success? <==> u.weight.Some? && u.height.Some? && u.age.Some?
    ensures r.Success? ==> r.value == MifflinStJeor(SexOf(u.gender), u.weight.value, u.height.value, u.age.value)
    ensures u.weight.None? ==> r == Failure(NoneOperand("int"))
    ensures u.weight.Some? && u.height.None? ==> r == Failure(NoneOperand("float"))
    ensures u.weight.Some? && u.height.Some? && u.age.None? ==> r == Failure(NoneOperand("int"))
  {
    if u.weight.None? then Failure(NoneOperand("int"))
    else if u.height.None? then Failure(NoneOperand("float"))
    else if u.age.None? then Failure(NoneOperand("int"))
    else
      var w, h, a := u.weight.value, u.height.value, u.age.value as real;
      if u.gender == Some("male") then Success(10.0 * w + 6.25 * h - 5.0 * a + 5.0)
      else Success(10.0 * w + 6.25 * h - 5.0 * a - 161.0)
  }

  /** For the same body, the male BMR exceeds the female one by 166. */
  lemma MaleExceedsFemaleBy166(u: UserAccount)
    requires CalculateBmr(u).Success?
    ensures CalculateBmr(u.(gender := Some("male"))).value
         == CalculateBmr(u.(gender := Some("female"))).value + 166.0
    ensures CalculateBmr(u.(gender := None)) == CalculateBmr(u.(gender := Some("female")))
  {
  }

  /** One more kilogram adds 10, one more centimetre 6.25, one more year
      takes away 5. */
  lemma BmrIncrements(u: UserAccount)
    requires CalculateBmr(u).Success?
    ensures CalculateBmr(u.(weight := Some(u.weight.value + 1.0))).value == CalculateBmr(u).value + 10.0
    ensures CalculateBmr(u.(height := Some(u.height.value + 1.0))).value == CalculateBmr(u).value + 6.25
    ensures CalculateBmr(u.(age := Some(u.age.value + 1))).value == CalculateBmr(u).value - 5.0
  {
  }

  // ---------------------------------------------------------------------
  // Python's int() on a string

  predicate IsSpace(c: char) {
    c == ' ' || '\t' <= c <= '\r'
  }

  function TrimStart(s: string): (t: string)
    ensures |t| <= |s|
    ensures t != [] ==> !IsSpace(t[0])
  {
    if s != [] && IsSpace(s[0]) then TrimStart(s[1..]) else s
  }

  function TrimEnd(s: string): (t: string)
    ensures |t| <= |s|
    ensures t != [] ==> !IsSpace(t[|t| - 1])
  {
    if s != [] && IsSpace(s[|s| - 1]) then TrimEnd(s[..|s| - 1]) else s
  }

  predicate AllDigits(s: string) {
    s != [] && forall i :: 0 <= i < |s| ==> IsDigit(s[i])
  }

  /** A trimmed `int()` argument: an optional sign, then decimal digits. */
  function SignedDigits(t: string): Option<int> {
    if t != [] && (t[0] == '-' || t[0] == '+') then
      var d := t[1..];
      if AllDigits(d) then Some(if t[0] == '-' then -(DigitsValue(d) as int) else DigitsValue(d)) else None
    else if AllDigits(t) then Some(DigitsValue(t))
    else None
  }

  /** `int(s)`: surrounding whitespace is ignored, and a digit string is
      read as its decimal value. */
  function PyInt(s: string): (r: Option<int>)
    ensures AllDigits(s) ==> r == Some(DigitsValue(s))
  {
    var t := TrimEnd(TrimStart(s));
    assert AllDigits(s) ==> t == s && s[0] != '-' && s[0] != '+' by {
      if AllDigits(s) {
        assert IsDigit(s[0]) && IsDigit(s[|s| - 1]);
        TrimUnpadded(s);
      }
    }
    SignedDigits(t)
  }

  /** `int()` reads back a rendered number. */
  lemma PyIntOfNatToString(n: nat)
    ensures PyInt(NatToString(n)) == Some(n)
  {
    var r := NatToString(n);
    DigitsValueOfNatToString(n);
    assert AllDigits(r);
  }

  lemma TrimUnpadded(s: string)
    requires s != [] && !IsSpace(s[0]) && !IsSpace(s[|s| - 1])
    ensures TrimEnd(TrimStart(s)) == s
  {
  }

  /** The activity factors the database admits. */
  const KfaDomain: set<string> := {"1", "2", "3", "4", "5"}

  const NoneToInt: Failure :=
    Raised("TypeError", "int() argument must be a string, a bytes-like object or a real number, not 'NoneType'")

  function InvalidIntLiteral(s: string): Failure {
    Raised("ValueError", "invalid literal for int() with base 10: '" + s + "'")
  }

  /** `int(user.kfa)`. */
  function ActivityFactor(kfa: Option<string>): (r: Result<int, Failure>)
    ensures kfa.None? ==> r == Failure(NoneToInt)
    ensures kfa.Some? && PyInt(kfa.value).None? ==> r == Failure(InvalidIntLiteral(kfa.value))
    ensures kfa.Some? && PyInt(kfa.value).Some? ==> r == Success(PyInt(kfa.value).value)
  {
    if kfa.None? then Failure(NoneToInt)
    else match PyInt(kfa.value)
      case None => Failure(InvalidIntLiteral(kfa.value))
      case Some(k) => Success(k)
  }

  /** `calculate_tdee`: the BMR is computed before `kfa` is read, so its
      error wins. */
  function CalculateTdee(u: UserAccount): (r: Result<real, Failure>)
    ensures CalculateBmr(u).Failure? ==> r == CalculateBmr(u)
    ensures CalculateBmr(u).Success? && ActivityFactor(u.kfa).Failure? ==> r == Failure(ActivityFactor(u.kfa).error)
    ensures r.Success? <==> CalculateBmr(u).Success? && ActivityFactor(u.kfa).Success?
    ensures r.Success? ==> r.value == CalculateBmr(u).value * ActivityFactor(u.kfa).value as real
  {
    var bmr := CalculateBmr(u);
    if bmr.Failure? then bmr
    else
      var k := ActivityFactor(u.kfa);
      if k.Failure? then Failure(k.error)
      else Success(bmr.value * k.value as real)
  }

  /** Each stored activity factor reads as its number. */
  lemma KfaDomainValues(k: string)
    requires k in KfaDomain
    ensures PyInt(k).Some? && 1 <= PyInt(k).value <= 5
    ensures k == NatToString(PyInt(k).value)
  {
    var n: nat :| 1 <= n <= 5 && k == NatToString(n) by {
      if k == "1" { assert k == NatToString(1); }
      else if k == "2" { assert k == NatToString(2); }
      else if k == "3" { assert k == NatToString(3); }
      else if k == "4" { assert k == NatToString(4); }
      else { assert k == NatToString(5); }
    }
    PyIntOfNatToString(n);
  }

  /** With a stored activity factor and a positive BMR, the TDEE lies
      between one and five times the BMR. */
  lemma TdeeWithinActivityRange(u: UserAccount)
    requires CalculateBmr(u).Success? && CalculateBmr(u).value > 0.0
    requires u.kfa.Some? && u.kfa.value in KfaDomain
    ensures CalculateTdee(u).Success?
    ensures CalculateBmr(u).value <= CalculateTdee(u).value <= 5.0 * CalculateBmr(u).value
  {
    KfaDomainValues(u.kfa.value);
    ScaledWithin(CalculateBmr(u).value, ActivityFactor(u.kfa).value);
  }

  lemma ScaledWithin(b: real, k: int)
    requires b > 0.0 && 1 <= k <= 5
    ensures b <= b * k as real <= 5.0 * b
  {
    var d := 5.0 - k as real;
    assert b * k as real == b + b * (k as real - 1.0);
    assert 5.0 * b == b * k as real + b * d;
  }

  /** A string that starts with neither a sign nor a digit (and is not
      padded) is no integer. */
  lemma NoIntFromWord(w: string)
    requires w != [] && !IsSpace(w[0]) && !IsSpace(w[|w| - 1])
    requires w[0] != '-' && w[0] != '+' && !IsDigit(w[0])
    ensures PyInt(w).None?
  {
    TrimUnpadded(w);
    assert !AllDigits(w) by { assert !IsDigit(w[0]); }
  }

  /** The profile schema leaves `kfa` unconstrained, so a validated
      profile value can still make the TDEE raise. */
  lemma ProfileKfaCanBreakTdee(p: UserProfile, a: UserAccount, w: string)
    requires w != [] && !IsSpace(w[0]) && !IsSpace(w[|w| - 1])
    requires w[0] != '-' && w[0] != '+' && !IsDigit(w[0])
    requires WellFormedProfile(p) && p.kfa == Given(w)
    requires a.weight == Some(p.weight) && a.height == Some(p.height) && a.age == Some(p.age)
    requires a.kfa == Some(w)
    ensures ValidateUserProfile(SubmitProfile(p)) == Success(p)
    ensures CalculateTdee(a) == Failure(InvalidIntLiteral(w))
  {
    ProfileRoundTrip(p);
    NoIntFromWord(w);
  }
}

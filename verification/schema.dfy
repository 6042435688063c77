/** The validation rules the handlers share: zod's field checks as lists of
    issues, the phone pattern `^\+?[1-9]\d{1,14}$`, and the gender rewrite
    the registration routes apply before validating. */
module Schema {
  import opened Common
  import opened Externals

  datatype Field =
    | FirstName | LastName | Email | Password | PhoneNumber | DateOfBirth
    | Gender | CustomGender | Specialty | Education | ConsultationFee
    | Experience | LicenseNumber | Role

  datatype Check =
    | Required      // the field is absent (zod's invalid_type)
    | TooShort      // a `.min(n)` on a string
    | TooLong       // a `.max(n)` on a string
    | InvalidEmail
    | InvalidPhone
    | InvalidDate
    | InvalidEnum
    | InvalidFee
    | Negative      // a `.min(0)` on a number

  /** One entry of a ZodError's `errors` list. */
  datatype Issue = Issue(field: Field, check: Check)

  /** `z.string().min(n)` on a required field; the length is JavaScript's. */
  function MinLength(f: Field, v: Option<string>, n: nat): (issues: seq<Issue>)
    ensures issues == [] <==> v.Some? && JsLength(v.value) >= n
    ensures forall i :: 0 <= i < |issues| ==> issues[i].field == f
  {
    match v
    case None => [Issue(f, Required)]
    case Some(s) => if JsLength(s) < n then [Issue(f, TooShort)] else []
  }

  /** Four characters outside the Basic Multilingual Plane are eight
      UTF-16 units, so they pass a password's `.min(8)`, while seven ASCII
      letters do not. */
  lemma {:induction false} SurrogatePairsCountTwice()
    ensures MinLength(Password, Some("\U{1F600}\U{1F600}\U{1F600}\U{1F600}"), 8) == []
    ensures MinLength(Password, Some("abcdefg"), 8) == [Issue(Password, TooShort)]
  {
    var e := "\U{1F600}";
    assert JsLength(e) == 2;
    assert e + e + e + e == "\U{1F600}\U{1F600}\U{1F600}\U{1F600}";
    JsLengthAppend(e, e);
    JsLengthAppend(e + e, e);
    JsLengthAppend(e + e + e, e);
    JsLengthOfBmp("abcdefg");
  }

  /** `z.string().min(n).optional()`: absence is fine, a present string
      must still be long enough. */
  function OptionalMinLength(f: Field, v: Option<string>, n: nat): (issues: seq<Issue>)
    ensures issues == [] <==> v.None? || JsLength(v.value) >= n
    ensures forall i :: 0 <= i < |issues| ==> issues[i].field == f
  {
    match v
    case None => []
    case Some(s) => if JsLength(s) < n then [Issue(f, TooShort)] else []
  }

  /** `z.string().email()`. */
  function EmailCheck(val: Validators, v: Option<string>): (issues: seq<Issue>)
    ensures issues == [] <==> v.Some? && val.isEmail(v.value)
  {
    match v
    case None => [Issue(Email, Required)]
    case Some(e) => if val.isEmail(e) then [] else [Issue(Email, InvalidEmail)]
  }

  /** `z.string().refine(date => !isNaN(Date.parse(date)))`. */
  function DateCheck(val: Validators, v: Option<string>): (issues: seq<Issue>)
    ensures issues == [] <==> v.Some? && val.parsesAsDate(v.value)
  {
    match v
    case None => [Issue(DateOfBirth, Required)]
    case Some(d) => if val.parsesAsDate(d) then [] else [Issue(DateOfBirth, InvalidDate)]
  }

  predicate IsDigit(c: char)
  {
    '0' <= c <= '9'
  }

  /** The national part of a phone number: what follows an optional '+'. */
  function NationalPart(s: string): (n: string)
    ensures |n| <= |s| && n == s[|s| - |n|..]
  {
    if |s| > 0 && s[0] == '+' then s[1..] else s
  }

  /** `^\+?[1-9]\d{1,14}$`: an optional '+', a non-zero digit, then one to
      fourteen more digits. */
  predicate MatchesPhone(s: string)
  {
    var n := NationalPart(s);
    2 <= |n| <= 15 && '1' <= n[0] <= '9' &&
    forall i :: 1 <= i < |n| ==> IsDigit(n[i])
  }

  /** `z.string().regex(/^\+?[1-9]\d{1,14}$/)` on a required field. */
  function PhoneCheck(v: Option<string>): (issues: seq<Issue>)
    ensures issues == [] <==> v.Some? && MatchesPhone(v.value)
  {
    match v
    case None => [Issue(PhoneNumber, Required)]
    case Some(p) => if MatchesPhone(p) then [] else [Issue(PhoneNumber, InvalidPhone)]
  }

  /** The enumeration `z.enum(['male', 'female', 'other'])`, matching the
      Gender column of the Users table. */
  const GenderValues: set<string> := {"male", "female", "other"}

  /** The Spanish spellings the registration routes translate. */
  const SpanishGenders: set<string> := {"masculino", "femenino", "otro"}

  function GenderCheck(v: Option<string>): (issues: seq<Issue>)
    ensures issues == [] <==> v.Some? && v.value in GenderValues
  {
    match v
    case None => [Issue(Gender, Required)]
    case Some(g) => if g in GenderValues then [] else [Issue(Gender, InvalidEnum)]
  }

  /** `transformGender`: the three Spanish names become the enumeration
      values, every other string is returned as it is. */
  function TransformGender(g: string): (r: string)
    ensures r in GenderValues <==> g in GenderValues || g in SpanishGenders
    ensures g !in SpanishGenders ==> r == g
    ensures g == "masculino" ==> r == "male"
    ensures g == "femenino" ==> r == "female"
    ensures g == "otro" ==> r == "other"
  {
    match g
    case "masculino" => "male"
    case "femenino" => "female"
    case "otro" => "other"
    case _ => g
  }

  /** Applying the rewrite a second time changes nothing. */
  lemma TransformGenderIdempotent(g: string)
    ensures TransformGender(TransformGender(g)) == TransformGender(g)
  {
  }

  /** The stored `GenderIdentity`: the custom text when the (validated)
      gender is 'other', NULL otherwise. With gender 'other' and no custom
      text the bound value is `undefined` (see `CustomGenderMissing`). */
  function GenderIdentity(gender: string, customGender: Option<string>): (r: Option<string>)
    ensures gender == "other" ==> r == customGender
    ensures gender != "other" ==> r.None?
  {
    if gender == "other" then customGender else None
  }

  /** `parsedData.gender === 'other' ? parsedData.customGender : null` is
      `undefined` when the optional custom text was not sent. */
  predicate CustomGenderMissing(gender: string, customGender: Option<string>)
  {
    gender == "other" && customGender.None?
  }

  /** What a registration handler's `try` block can throw: a ZodError
      carrying its issues, or a failure raised by a statement. */
  datatype Thrown = Invalid(issues: seq<Issue>) | Raised(failure: Failure)
}

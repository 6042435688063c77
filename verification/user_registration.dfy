/** POST /api/auth/register: validate a user (optional phone and date of
    birth, role 'Healthcare Professional' or 'Patient'), hash the password,
    insert one Users row and map what was thrown to 400, 409 or 500. */
module UserRegistration {
  import opened Common
  import opened Externals
  import opened Schema
  import opened Database

  /** The destructured body. The professional fields the registration form
      may also send are listed so that their (lack of) effect can be stated:
      `userSchema` does not mention them. */
  datatype UserBody = UserBody(
    firstName: Option<string>,
    lastName: Option<string>,
    email: Option<string>,
    password: Option<string>,
    phoneNumber: Option<string>,
    dateOfBirth: Option<string>,
    role: Option<string>,
    licenseNumber: Option<string>,
    specialty: Option<string>,
    education: Option<string>,
    consultationFee: Option<string>
  )

  datatype UserResponse =
    | Created                          // 201, a message and no id
    | InvalidInput(issues: seq<Issue>)
    | AlreadyRegistered
    | ServerError(detail: Option<string>)
  {
    function Status(): int
    {
      match this
      case Created => 201
      case InvalidInput(_) => 400
      case AlreadyRegistered => 409
      case ServerError(_) => 500
    }
  }

  const Roles: set<string> := {RoleProfessional, RolePatient}

  /** `.regex(...).optional()`: an absent phone passes, a present one must match. */
  function OptionalPhoneCheck(v: Option<string>): (issues: seq<Issue>)
    ensures issues == [] <==> v.None? || MatchesPhone(v.value)
  {
    match v
    case None => []
    case Some(p) => if MatchesPhone(p) then [] else [Issue(PhoneNumber, InvalidPhone)]
  }

  /** `.optional().refine(date => date ? !isNaN(Date.parse(date)) : true)`:
      absent and empty dates pass. */
  function OptionalDateCheck(val: Validators, v: Option<string>): (issues: seq<Issue>)
    ensures issues == [] <==> !Truthy(v) || val.parsesAsDate(v.value)
  {
    if Truthy(v) && !val.parsesAsDate(v.value) then [Issue(DateOfBirth, InvalidDate)] else []
  }

  function RoleCheck(v: Option<string>): (issues: seq<Issue>)
    ensures issues == [] <==> v.Some? && v.value in Roles
  {
    match v
    case None => [Issue(Role, Required)]
    case Some(r) => if r in Roles then [] else [Issue(Role, InvalidEnum)]
  }

  /** `userSchema.parse`. */
  function UserIssues(val: Validators, b: UserBody): (issues: seq<Issue>)
    ensures issues == [] <==> UserAccepted(val, b)
  {
    MinLength(FirstName, b.firstName, 1)
    + MinLength(LastName, b.lastName, 1)
    + EmailCheck(val, b.email)
    + MinLength(Password, b.password, 8)
    + OptionalPhoneCheck(b.phoneNumber)
    + OptionalDateCheck(val, b.dateOfBirth)
    + RoleCheck(b.role)
  }

  predicate UserAccepted(val: Validators, b: UserBody)
  {
    && b.firstName.Some? && b.firstName.value != ""
    && b.lastName.Some? && b.lastName.value != ""
    && b.email.Some? && val.isEmail(b.email.value)
    && b.password.Some? && JsLength(b.password.value) >= 8
    && (b.phoneNumber.Some? ==> MatchesPhone(b.phoneNumber.value))
    && (Truthy(b.dateOfBirth) ==> val.parsesAsDate(b.dateOfBirth.value))
    && b.role.Some? && b.role.value in Roles
  }

  /** The seven inserted columns; Gender, GenderIdentity and Status keep
      their column defaults. */
  function NewUser(val: Validators, hasher: Hasher, b: UserBody): (row: UserRow)
    requires UserAccepted(val, b)
    ensures row.role == b.role.value && row.role in Roles
    ensures row.email == b.email.value && row.passwordHash == hasher.hash(b.password.value)
    ensures row.phoneNumber == b.phoneNumber && row.dateOfBirth == b.dateOfBirth
  {
    UserRow(0, b.firstName.value, b.lastName.value, b.email.value, hasher.hash(b.password.value),
            b.phoneNumber, b.dateOfBirth, None, None, b.role.value, None)
  }

  /** The phone and the date are bound as the schema left them: an absent
      one is `undefined`, which mysql2 refuses before the INSERT is sent. */
  predicate BindsUndefined(b: UserBody)
  {
    b.phoneNumber.None? || b.dateOfBirth.None?
  }

  function Classify(t: Thrown): (r: UserResponse)
    ensures r.Status() == 400 <==> t.Invalid?
    ensures r.Status() == 409 <==> t.Raised? && t.failure.DuplicateEntry?
    ensures r.Status() == 500 <==> t.Raised? && !t.failure.DuplicateEntry?
  {
    match t
    case Invalid(issues) => InvalidInput(issues)
    case Raised(DuplicateEntry(_)) => AlreadyRegistered
    case Raised(ErrorThrown(m)) => ServerError(Some(m))
    case Raised(NonErrorThrown) => ServerError(None)
  }

  function RegisterUser(s: Store, val: Validators, hasher: Hasher, b: UserBody, fault: Fault): (UserResponse, Store)
  {
    var issues := UserIssues(val, b);
    if issues != [] then (Classify(Invalid(issues)), s)
    else if BindsUndefined(b) then (Classify(Raised(ErrorThrown(UndefinedBindMessage))), s)
    else
      var u := Exec(UserInsertStep, fault, InsertUserRow(s, NewUser(val, hasher, b)));
      if u.Err? then (Classify(Raised(u.error)), s)
      else (Created, u.value.0)
  }

  method Post(pool: Pool, val: Validators, hasher: Hasher, b: UserBody, fault: Fault) returns (response: UserResponse)
    modifies pool
    ensures (response, pool.store) == RegisterUser(old(pool.store), val, hasher, b, fault)
  {
    var issues := UserIssues(val, b);
    if issues != [] {
      return Classify(Invalid(issues));
    }
    if b.phoneNumber.None? || b.dateOfBirth.None? {
      return Classify(Raised(ErrorThrown(UndefinedBindMessage)));
    }
    var result := pool.InsertUser(NewUser(val, hasher, b), fault);
    if result.Err? {
      return Classify(Raised(result.error));
    }
    response := Created;
  }

  // ---------------------------------------------------------------- properties

  /** 400 exactly when the schema refuses the body; nothing is inserted
      unless the answer is 201. */
  lemma BadRequestIffSchemaRejects(s: Store, val: Validators, hasher: Hasher, b: UserBody, fault: Fault)
    ensures var o := RegisterUser(s, val, hasher, b, fault);
            (o.0.Status() == 400 <==> !UserAccepted(val, b)) && (o.0.Status() != 201 ==> o.1 == s)
  {
  }

  /** A 201 adds one Users row carrying the validated role and the hash of
      the password; the other tables are untouched. */
  lemma CreatedRow(s: Store, val: Validators, hasher: Hasher, b: UserBody, fault: Fault)
    requires RegisterUser(s, val, hasher, b, fault).0.Created?
    ensures var o := RegisterUser(s, val, hasher, b, fault);
            && UserAccepted(val, b)
            && b.phoneNumber.Some? && b.dateOfBirth.Some?
            && o.1.users == s.users + [NewUser(val, hasher, b).(userId := s.nextUserId)]
            && o.1.users[|s.users|].role == b.role.value
            && o.1.users[|s.users|].passwordHash == hasher.hash(b.password.value)
            && o.1.specialties == s.specialties && o.1.professionals == s.professionals
  {
  }

  /** For a body the schema accepts: leaving out the optional phone or date
      of birth is answered 500 with mysql2's message and inserts nothing,
      so those fields are in effect required; with both present and no
      injected fault the answer is 409 exactly when the email is taken and
      201 otherwise. */
  lemma AcceptedOutcome(s: Store, val: Validators, hasher: Hasher, b: UserBody, fault: Fault)
    requires UserAccepted(val, b)
    ensures BindsUndefined(b) ==>
              RegisterUser(s, val, hasher, b, fault) == (ServerError(Some(UndefinedBindMessage)), s)
    ensures !BindsUndefined(b) ==>
              RegisterUser(s, val, hasher, b, NoFault).0 ==
                (if EmailInUse(s.users, b.email.value) then AlreadyRegistered else Created)
  {
  }

  /** The plaintext only reaches the store through its hash: two accepted
      passwords with the same hash give the same response and store. */
  lemma OnlyHashReachesStore(s: Store, val: Validators, hasher: Hasher, b: UserBody, p: string, fault: Fault)
    requires UserAccepted(val, b) && JsLength(p) >= 8
    requires hasher.hash(p) == hasher.hash(b.password.value)
    ensures RegisterUser(s, val, hasher, b.(password := Some(p)), fault) == RegisterUser(s, val, hasher, b, fault)
  {
    var b' := b.(password := Some(p));
    assert UserAccepted(val, b');
    assert BindsUndefined(b') == BindsUndefined(b);
    assert NewUser(val, hasher, b') == NewUser(val, hasher, b);
  }

  /** The professional fields of the form are dropped: the outcome does not
      depend on them, and no HealthcareProfessionals row is ever written. */
  lemma ProfessionalFieldsIgnored(s: Store, val: Validators, hasher: Hasher, b: UserBody,
                                  license: Option<string>, specialty: Option<string>,
                                  education: Option<string>, fee: Option<string>, fault: Fault)
    ensures var b' := b.(licenseNumber := license, specialty := specialty, education := education, consultationFee := fee);
            RegisterUser(s, val, hasher, b', fault) == RegisterUser(s, val, hasher, b, fault)
            && RegisterUser(s, val, hasher, b, fault).1.professionals == s.professionals
  {
    var b' := b.(licenseNumber := license, specialty := specialty, education := education, consultationFee := fee);
    assert UserIssues(val, b') == UserIssues(val, b);
    if UserAccepted(val, b) {
      assert NewUser(val, hasher, b') == NewUser(val, hasher, b);
    }
  }

  lemma KeepsValid(s: Store, val: Validators, hasher: Hasher, b: UserBody, fault: Fault)
    requires Valid(s)
    ensures Valid(RegisterUser(s, val, hasher, b, fault).1)
  {
    if RegisterUser(s, val, hasher, b, fault).0.Created? {
      InsertUserKeepsValid(s, NewUser(val, hasher, b));
    }
  }
}

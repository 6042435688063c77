/** POST /api/auth/register/patient: rewrite the gender, validate, hash the
    password, insert one Users row with role 'Patient', and map what was
    thrown to 400, 409 or 500. The insert commits on its own. */
module PatientRegistration {
  import opened Common
  import opened Externals
  import opened Schema
  import opened Database

  datatype PatientBody = PatientBody(
    firstName: Option<string>,
    lastName: Option<string>,
    email: Option<string>,
    password: Option<string>,
    phoneNumber: Option<string>,
    dateOfBirth: Option<string>,
    gender: Option<string>,
    customGender: Option<string>
  )

  /** The success body holds only a message and the new id: no constructor
      carries the password or its hash. */
  datatype PatientResponse =
    | Registered(userId: nat)
    | InvalidInput(issues: seq<Issue>)
    | AlreadyRegistered
    | ServerError(detail: string)
  {
    function Status(): int
    {
      match this
      case Registered(_) => 201
      case InvalidInput(_) => 400
      case AlreadyRegistered => 409
      case ServerError(_) => 500
    }
  }

  const UnknownErrorDetail := "Error desconocido"

  /** `body.gender = transformGender(body.gender)`. */
  function Rewritten(b: PatientBody): PatientBody
  {
    b.(gender := MapOption(TransformGender, b.gender))
  }

  /** `patientSchema.parse`: the issues of every field in key order. */
  function PatientIssues(val: Validators, b: PatientBody): (issues: seq<Issue>)
    ensures issues == [] <==> PatientAccepted(val, b)
  {
    MinLength(FirstName, b.firstName, 1)
    + MinLength(LastName, b.lastName, 1)
    + EmailCheck(val, b.email)
    + MinLength(Password, b.password, 8)
    + PhoneCheck(b.phoneNumber)
    + DateCheck(val, b.dateOfBirth)
    + GenderCheck(b.gender)
  }

  predicate PatientAccepted(val: Validators, b: PatientBody)
  {
    && b.firstName.Some? && b.firstName.value != ""
    && b.lastName.Some? && b.lastName.value != ""
    && b.email.Some? && val.isEmail(b.email.value)
    && b.password.Some? && JsLength(b.password.value) >= 8
    && b.phoneNumber.Some? && MatchesPhone(b.phoneNumber.value)
    && b.dateOfBirth.Some? && val.parsesAsDate(b.dateOfBirth.value)
    && b.gender.Some? && b.gender.value in GenderValues
  }

  /** The inserted row; `phoneNumber || null` keeps a non-empty phone. */
  function PatientUser(val: Validators, hasher: Hasher, b: PatientBody): (row: UserRow)
    requires PatientAccepted(val, b)
    ensures row.role == RolePatient && row.status == Some(StatusActive)
    ensures row.email == b.email.value && row.passwordHash == hasher.hash(b.password.value)
    ensures row.phoneNumber == b.phoneNumber && row.gender == b.gender
    ensures row.genderIdentity == (if b.gender.value == "other" then b.customGender else None)
  {
    UserRow(0, b.firstName.value, b.lastName.value, b.email.value, hasher.hash(b.password.value),
            if Truthy(b.phoneNumber) then b.phoneNumber else None,
            Some(val.isoDate(b.dateOfBirth.value)), b.gender,
            GenderIdentity(b.gender.value, b.customGender), RolePatient, Some(StatusActive))
  }

  /** The `catch` block: a ZodError is 400, any ER_DUP_ENTRY is 409 whatever
      index fired, any other Error is 500 with its message, and anything
      else is 500 with 'Error desconocido'. */
  function Classify(t: Thrown): (r: PatientResponse)
    ensures r.Status() == 400 <==> t.Invalid?
    ensures r.Status() == 409 <==> t.Raised? && t.failure.DuplicateEntry?
    ensures t == Raised(NonErrorThrown) ==> r == ServerError(UnknownErrorDetail)
    ensures t.Raised? && t.failure.ErrorThrown? ==> r == ServerError(t.failure.message)
  {
    match t
    case Invalid(issues) => InvalidInput(issues)
    case Raised(DuplicateEntry(_)) => AlreadyRegistered
    case Raised(ErrorThrown(m)) => ServerError(m)
    case Raised(NonErrorThrown) => ServerError(UnknownErrorDetail)
  }

  /** The handler as a whole: its response and the store it leaves. */
  function RegisterPatient(s: Store, val: Validators, hasher: Hasher,
                           request: Json<PatientBody>, fault: Fault): (PatientResponse, Store)
  {
    match request
    case Malformed(m) => (Classify(Raised(ErrorThrown(m))), s)
    case Body(raw) =>
      var b := Rewritten(raw);
      var issues := PatientIssues(val, b);
      if issues != [] then (Classify(Invalid(issues)), s)
      else if CustomGenderMissing(b.gender.value, b.customGender) then
        (Classify(Raised(ErrorThrown(UndefinedBindMessage))), s)
      else
        var u := Exec(UserInsertStep, fault, InsertUserRow(s, PatientUser(val, hasher, b)));
        if u.Err? then (Classify(Raised(u.error)), s)
        else (Registered(u.value.1), u.value.0)
  }

  /** `POST`. */
  method Post(pool: Pool, val: Validators, hasher: Hasher,
              request: Json<PatientBody>, fault: Fault) returns (response: PatientResponse)
    modifies pool
    ensures (response, pool.store) == RegisterPatient(old(pool.store), val, hasher, request, fault)
  {
    if request.Malformed? {
      return Classify(Raised(ErrorThrown(request.message)));
    }
    var body := request.body;
    body := body.(gender := MapOption(TransformGender, body.gender));
    var issues := PatientIssues(val, body);
    if issues != [] {
      return Classify(Invalid(issues));
    }
    if body.gender.value == "other" && body.customGender.None? {
      return Classify(Raised(ErrorThrown(UndefinedBindMessage)));
    }
    var result := pool.InsertUser(PatientUser(val, hasher, body), fault);
    if result.Err? {
      return Classify(Raised(result.error));
    }
    response := Registered(result.value);
  }

  // ---------------------------------------------------------------- properties

  /** Status 400 exactly when the rewritten body fails the schema, and then
      nothing is inserted. */
  lemma BadRequestIffSchemaRejects(s: Store, val: Validators, hasher: Hasher,
                                    request: Json<PatientBody>, fault: Fault)
    ensures var o := RegisterPatient(s, val, hasher, request, fault);
            (o.0.Status() == 400 <==> request.Body? && !PatientAccepted(val, Rewritten(request.body)))
            && (o.0.Status() != 201 ==> o.1 == s)
  {
  }

  /** A 201 adds exactly one Users row, with role 'Patient' and status
      'Active', under the answered id; the other tables are untouched. */
  lemma RegisteredRow(s: Store, val: Validators, hasher: Hasher, raw: PatientBody, fault: Fault)
    requires RegisterPatient(s, val, hasher, Body(raw), fault).0.Registered?
    ensures var o := RegisterPatient(s, val, hasher, Body(raw), fault);
            var b := Rewritten(raw);
            && PatientAccepted(val, b)
            && o.0.userId == s.nextUserId
            && o.1.users == s.users + [PatientUser(val, hasher, b).(userId := o.0.userId)]
            && o.1.users[|s.users|].role == RolePatient
            && o.1.users[|s.users|].status == Some(StatusActive)
            && o.1.specialties == s.specialties && o.1.professionals == s.professionals
            && o.1.appointments == s.appointments
  {
  }

  /** For a body the rewritten schema accepts: gender 'other' without a
      custom text is answered 500 with mysql2's message and inserts nothing;
      otherwise, without an injected fault, the body is refused with 409
      exactly when its email is already registered. */
  lemma ConflictIffEmailTaken(s: Store, val: Validators, hasher: Hasher, raw: PatientBody, fault: Fault)
    requires PatientAccepted(val, Rewritten(raw))
    ensures var b := Rewritten(raw);
            CustomGenderMissing(b.gender.value, b.customGender) ==>
              RegisterPatient(s, val, hasher, Body(raw), fault) == (ServerError(UndefinedBindMessage), s)
    ensures var b := Rewritten(raw);
            var o := RegisterPatient(s, val, hasher, Body(raw), NoFault);
            !CustomGenderMissing(b.gender.value, b.customGender) ==>
              (o.0 == AlreadyRegistered <==> EmailInUse(s.users, raw.email.value))
              && (o.0.Registered? <==> !EmailInUse(s.users, raw.email.value))
  {
  }

  /** Registering the same valid body twice: the second attempt is a 409
      and adds no row. */
  lemma {:induction false} SecondRegistrationConflicts(s: Store, val: Validators, hasher: Hasher,
                                                       raw: PatientBody, fault: Fault)
    requires RegisterPatient(s, val, hasher, Body(raw), fault).0.Registered?
    ensures var s1 := RegisterPatient(s, val, hasher, Body(raw), fault).1;
            RegisterPatient(s1, val, hasher, Body(raw), NoFault) == (AlreadyRegistered, s1)
  {
    RegisteredRow(s, val, hasher, raw, fault);
    var s1 := RegisterPatient(s, val, hasher, Body(raw), fault).1;
    assert s1.users[|s.users|].email == raw.email.value;
    assert EmailInUse(s1.users, raw.email.value);
  }

  lemma {:induction false} KeepsValid(s: Store, val: Validators, hasher: Hasher,
                                      request: Json<PatientBody>, fault: Fault)
    requires Valid(s)
    ensures Valid(RegisterPatient(s, val, hasher, request, fault).1)
  {
    if request.Body? {
      var b := Rewritten(request.body);
      if PatientAccepted(val, b) && !CustomGenderMissing(b.gender.value, b.customGender) {
        var row := PatientUser(val, hasher, b);
        if InsertUserRow(s, row).Ok? {
          InsertUserKeepsValid(s, row);
        }
      }
    }
  }
}

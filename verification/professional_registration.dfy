/** POST /api/auth/register/professionalhealthcare: inside one transaction,
    rewrite and validate the body, insert the user, look up or create the
    specialty, insert the professional row and commit; on any throw roll
    back and sort the error into 400, 409 or 500; release the connection on
    every path. */
module ProfessionalRegistration {
  import opened Common
  import opened Externals
  import opened Schema
  import opened Database

  /** The JSON body as received; an absent key is None. */
  datatype ProfessionalBody = ProfessionalBody(
    firstName: Option<string>,
    lastName: Option<string>,
    email: Option<string>,
    password: Option<string>,
    phoneNumber: Option<string>,
    dateOfBirth: Option<string>,
    gender: Option<string>,
    customGender: Option<string>,
    specialty: Option<string>,
    education: Option<string>,
    consultationFee: Option<string>,
    experience: Option<int>,
    licenseNumber: Option<string>
  )

  datatype ProfessionalResponse =
    | Registered(userId: nat)
    | InvalidInput(issues: seq<Issue>)
    | EmailTaken
    | LicenseTaken
    | DuplicateInfo
    | ServerError(detail: Option<string>)
  {
    function Status(): int
    {
      match this
      case Registered(_) => 201
      case InvalidInput(_) => 400
      case EmailTaken => 409
      case LicenseTaken => 409
      case DuplicateInfo => 409
      case ServerError(_) => 500
    }

    function Message(): string
    {
      match this
      case Registered(_) => "Profesional de la salud registrado con éxito"
      case InvalidInput(_) => "Error en los datos de entrada"
      case EmailTaken => "El correo electrónico ya está registrado"
      case LicenseTaken => "El número de licencia ya está registrado"
      case DuplicateInfo => "Información duplicada detectada"
      case ServerError(_) => "Error en el servidor"
    }
  }

  /** `body.gender = transformGender(body.gender)`. */
  function Rewritten(b: ProfessionalBody): ProfessionalBody
  {
    b.(gender := MapOption(TransformGender, b.gender))
  }

  /** The fee refinement: a present fee must be a non-negative number. */
  function FeeCheck(val: Validators, v: Option<string>): (issues: seq<Issue>)
    ensures issues == [] <==> v.None? || val.isNonNegativeNumber(v.value)
  {
    match v
    case None => []
    case Some(f) => if val.isNonNegativeNumber(f) then [] else [Issue(ConsultationFee, InvalidFee)]
  }

  /** `z.number().min(0).optional()`. */
  function ExperienceCheck(v: Option<int>): (issues: seq<Issue>)
    ensures issues == [] <==> v.None? || v.value >= 0
  {
    match v
    case None => []
    case Some(x) => if x < 0 then [Issue(Experience, Negative)] else []
  }

  /** `healthcareProfessionalSchema.parse`: the issues of every field, in
      the schema's key order. */
  function ProfessionalIssues(val: Validators, b: ProfessionalBody): (issues: seq<Issue>)
    ensures issues == [] <==> ProfessionalAccepted(val, b)
  {
    MinLength(FirstName, b.firstName, 1)
    + MinLength(LastName, b.lastName, 1)
    + EmailCheck(val, b.email)
    + MinLength(Password, b.password, 8)
    + PhoneCheck(b.phoneNumber)
    + DateCheck(val, b.dateOfBirth)
    + GenderCheck(b.gender)
    + MinLength(Specialty, b.specialty, 1)
    + OptionalMinLength(Education, b.education, 1)
    + FeeCheck(val, b.consultationFee)
    + ExperienceCheck(b.experience)
    + OptionalMinLength(LicenseNumber, b.licenseNumber, 1)
  }

  /** The schema as one condition: what a body must satisfy to be parsed. */
  predicate ProfessionalAccepted(val: Validators, b: ProfessionalBody)
  {
    && b.firstName.Some? && b.firstName.value != ""
    && b.lastName.Some? && b.lastName.value != ""
    && b.email.Some? && val.isEmail(b.email.value)
    && b.password.Some? && JsLength(b.password.value) >= 8
    && b.phoneNumber.Some? && MatchesPhone(b.phoneNumber.value)
    && b.dateOfBirth.Some? && val.parsesAsDate(b.dateOfBirth.value)
    && b.gender.Some? && b.gender.value in GenderValues
    && b.specialty.Some? && b.specialty.value != ""
    && (b.education.Some? ==> b.education.value != "")
    && (b.consultationFee.Some? ==> val.isNonNegativeNumber(b.consultationFee.value))
    && (b.experience.Some? ==> b.experience.value >= 0)
    && (b.licenseNumber.Some? ==> b.licenseNumber.value != "")
  }

  /** The Users row of the first INSERT (its id is assigned by the store). */
  function ProfessionalUser(val: Validators, hasher: Hasher, b: ProfessionalBody): (row: UserRow)
    requires ProfessionalAccepted(val, b)
    ensures row.role == RoleProfessional && row.status == Some(StatusActive)
    ensures row.email == b.email.value && row.passwordHash == hasher.hash(b.password.value)
    ensures row.gender == b.gender
    ensures row.genderIdentity == (if b.gender.value == "other" then b.customGender else None)
  {
    UserRow(0, b.firstName.value, b.lastName.value, b.email.value, hasher.hash(b.password.value),
            Some(b.phoneNumber.value), Some(val.isoDate(b.dateOfBirth.value)), b.gender,
            GenderIdentity(b.gender.value, b.customGender), RoleProfessional, Some(StatusActive))
  }

  /** `consultationFee ? parseFloat(consultationFee) : null`. */
  function StoredFee(val: Validators, fee: Option<string>): (r: Option<real>)
    ensures r.Some? <==> Truthy(fee)
  {
    if Truthy(fee) then Some(val.parseFee(fee.value)) else None
  }

  /** The HealthcareProfessionals row of the last INSERT. */
  function ProfessionalEntry(val: Validators, b: ProfessionalBody, userId: nat, specialtyId: nat): (row: ProfessionalRow)
    ensures row.userId == userId && row.specialtyId == specialtyId && row.status == StatusAvailable
    ensures row.licenseNumber == b.licenseNumber
  {
    ProfessionalRow(0, userId, specialtyId, b.experience, b.licenseNumber, b.education,
                    StoredFee(val, b.consultationFee), StatusAvailable)
  }

  /** Lines 94-109: reuse the id of the first specialty with that name, or
      insert one and use its new id. */
  function ResolveSpecialty(s: Store, name: string, fault: Fault): (r: Result<(Store, nat), Failure>)
  {
    var found := Exec(SpecialtyLookupStep, fault, Ok(FindSpecialty(s.specialties, name)));
    if found.Err? then Err(found.error)
    else if found.value.Some? then Ok((s, found.value.value))
    else Exec(SpecialtyInsertStep, fault, Ok(InsertSpecialtyRow(s, name)))
  }

  /** The `try` block up to and including COMMIT: the committed store and
      the new user id, or what was thrown (the store is then rolled back). */
  function Transaction(s: Store, val: Validators, hasher: Hasher,
                       request: Json<ProfessionalBody>, fault: Fault): Result<(Store, nat), Thrown>
  {
    match request
    case Malformed(m) => Err(Raised(ErrorThrown(m)))
    case Body(raw) =>
      var b := Rewritten(raw);
      var issues := ProfessionalIssues(val, b);
      if issues != [] then Err(Invalid(issues))
      else if CustomGenderMissing(b.gender.value, b.customGender) then Err(Raised(ErrorThrown(UndefinedBindMessage)))
      else
        var u := Exec(UserInsertStep, fault, InsertUserRow(s, ProfessionalUser(val, hasher, b)));
        if u.Err? then Err(Raised(u.error))
        else
          var sp := ResolveSpecialty(u.value.0, b.specialty.value, fault);
          if sp.Err? then Err(Raised(sp.error))
          else
            var p := Exec(ProfessionalInsertStep, fault,
                          InsertProfessionalRow(sp.value.0, ProfessionalEntry(val, b, u.value.1, sp.value.1)));
            if p.Err? then Err(Raised(p.error))
            else
              var c := Exec(CommitStep, fault, Ok(()));
              if c.Err? then Err(Raised(c.error))
              else Ok((p.value.0, u.value.1))
  }

  /** The `catch` block's classification. */
  function Classify(t: Thrown): (r: ProfessionalResponse)
    ensures r.Status() == 400 <==> t.Invalid?
    ensures r.Status() == 409 <==> t.Raised? && t.failure.DuplicateEntry?
    ensures r.Status() == 500 <==> t.Raised? && !t.failure.DuplicateEntry?
    ensures r == EmailTaken <==> t == Raised(DuplicateEntry(EmailKey))
    ensures r == LicenseTaken <==> t == Raised(DuplicateEntry(LicenseKey))
    ensures r.ServerError? ==> r.detail == Detail(t.failure)
  {
    match t
    case Invalid(issues) => InvalidInput(issues)
    case Raised(DuplicateEntry(EmailKey)) => EmailTaken
    case Raised(DuplicateEntry(LicenseKey)) => LicenseTaken
    case Raised(DuplicateEntry(OtherKey)) => DuplicateInfo
    case Raised(ErrorThrown(m)) => ServerError(Some(m))
    case Raised(NonErrorThrown) => ServerError(None)
  }

  /** The handler as a whole: its response and the store it leaves. */
  function RegisterProfessional(s: Store, val: Validators, hasher: Hasher,
                                request: Json<ProfessionalBody>, fault: Fault): (ProfessionalResponse, Store)
  {
    match Transaction(s, val, hasher, request, fault)
    case Ok((s', id)) => (Registered(id), s')
    case Err(t) => (Classify(t), s)
  }

  // ---------------------------------------------------------------- the handler

  /** The `try` block, statement by statement, on an open transaction. */
  method TryRegister(conn: Connection, val: Validators, hasher: Hasher,
                     request: Json<ProfessionalBody>, fault: Fault) returns (r: Result<nat, Thrown>)
    requires !conn.released && conn.snapshot == Some(conn.pool.store)
    modifies conn, conn.pool
    ensures !conn.released
    ensures var t := Transaction(old(conn.pool.store), val, hasher, request, fault);
            && (r.Ok? <==> t.Ok?)
            && (r.Ok? ==> conn.snapshot.None? && conn.pool.store == t.value.0 && r.value == t.value.1)
            && (r.Err? ==> r.error == t.error && conn.snapshot == old(conn.snapshot))
  {
    if request.Malformed? {
      return Err(Raised(ErrorThrown(request.message)));
    }
    var body := request.body;
    body := body.(gender := MapOption(TransformGender, body.gender));
    var issues := ProfessionalIssues(val, body);
    if issues != [] {
      return Err(Invalid(issues));
    }
    if body.gender.value == "other" && body.customGender.None? {
      return Err(Raised(ErrorThrown(UndefinedBindMessage)));
    }
    var userRow := ProfessionalUser(val, hasher, body);
    var user := conn.InsertUser(userRow, fault);
    if user.Err? {
      return Err(Raised(user.error));
    }
    var userId := user.value;
    var specialty := ResolveSpecialtyOn(conn, body.specialty.value, fault);
    if specialty.Err? {
      return Err(Raised(specialty.error));
    }
    var specialtyId := specialty.value;
    var professional := conn.InsertProfessional(ProfessionalEntry(val, body, userId, specialtyId), fault);
    if professional.Err? {
      return Err(Raised(professional.error));
    }
    var committed := conn.Commit(fault);
    if committed.Err? {
      return Err(Raised(committed.error));
    }
    r := Ok(userId);
  }

  /** Step 2 of the `try` block on the open connection: reuse the id of the
      specialty with that name, or insert one. */
  method ResolveSpecialtyOn(conn: Connection, name: string, fault: Fault) returns (r: Result<nat, Failure>)
    requires !conn.released
    modifies conn.pool
    ensures var e := ResolveSpecialty(old(conn.pool.store), name, fault);
            && (r.Ok? <==> e.Ok?)
            && (r.Ok? ==> conn.pool.store == e.value.0 && r.value == e.value.1)
            && (r.Err? ==> r.error == e.error)
  {
    var found := conn.SelectSpecialty(name, fault);
    if found.Err? {
      return Err(found.error);
    }
    if found.value.None? {
      r := conn.InsertSpecialty(name, fault);
    } else {
      r := Ok(found.value.value);
    }
  }

  /** `POST`: acquire a connection, run the transaction, roll back and
      classify on a throw, release in `finally`. */
  method Post(pool: Pool, val: Validators, hasher: Hasher,
              request: Json<ProfessionalBody>, fault: Fault) returns (response: ProfessionalResponse, conn: Connection)
    modifies pool
    ensures conn.pool == pool && conn.released && conn.snapshot.None?
    ensures (response, pool.store) == RegisterProfessional(old(pool.store), val, hasher, request, fault)
  {
    conn := new Connection(pool);
    conn.BeginTransaction();
    var r := TryRegister(conn, val, hasher, request, fault);
    if r.Ok? {
      response := Registered(r.value);
    } else {
      conn.Rollback();
      response := Classify(r.error);
    }
    conn.Release();
  }

  // ---------------------------------------------------------------- properties

  /** Status 400 exactly when the rewritten body fails the schema; the store
      is then untouched, so no statement ran before validation. */
  lemma BadRequestIffSchemaRejects(s: Store, val: Validators, hasher: Hasher,
                                    request: Json<ProfessionalBody>, fault: Fault)
    ensures var o := RegisterProfessional(s, val, hasher, request, fault);
            (o.0.Status() == 400 <==> request.Body? && !ProfessionalAccepted(val, Rewritten(request.body)))
            && (o.0.Status() == 400 ==> o.1 == s && o.0 == InvalidInput(ProfessionalIssues(val, Rewritten(request.body))))
  {
  }

  /** All or nothing: unless the handler answers 201, the store it leaves
      is the one it found. */
  lemma AllOrNothing(s: Store, val: Validators, hasher: Hasher,
                     request: Json<ProfessionalBody>, fault: Fault)
    ensures var o := RegisterProfessional(s, val, hasher, request, fault);
            o.0.Status() == 201 || o.1 == s
  {
  }

  /** A 201 adds exactly one Users row (role 'Healthcare Professional',
      status 'Active', under the answered id) and one HealthcareProfessionals
      row ('Available', pointing at that user and at the resolved
      specialty). An existing specialty is reused and Specialties is left
      alone; otherwise exactly one Specialties row with that name is added. */
  lemma {:induction false} RegisteredRows(s: Store, val: Validators, hasher: Hasher,
                                          raw: ProfessionalBody, fault: Fault)
    requires RegisterProfessional(s, val, hasher, Body(raw), fault).0.Registered?
    ensures var b := Rewritten(raw);
            var o := RegisterProfessional(s, val, hasher, Body(raw), fault);
            var id := o.0.userId;
            var existing := FindSpecialty(s.specialties, b.specialty.value);
            var specialtyId := if existing.Some? then existing.value else s.nextSpecialtyId;
            && ProfessionalAccepted(val, b)
            && id == s.nextUserId
            && o.1.users == s.users + [ProfessionalUser(val, hasher, b).(userId := id)]
            && o.1.users[|s.users|].role == RoleProfessional
            && o.1.users[|s.users|].status == Some(StatusActive)
            && o.1.professionals == s.professionals +
                 [ProfessionalEntry(val, b, id, specialtyId).(professionalId := s.nextProfessionalId)]
            && o.1.professionals[|s.professionals|].userId == id
            && o.1.professionals[|s.professionals|].status == StatusAvailable
            && (existing.Some? ==> o.1.specialties == s.specialties)
            && (existing.None? ==> o.1.specialties == s.specialties + [SpecialtyRow(specialtyId, b.specialty.value)])
            && o.1.appointments == s.appointments
  {
    var b := Rewritten(raw);
    var u := Exec(UserInsertStep, fault, InsertUserRow(s, ProfessionalUser(val, hasher, b)));
    assert u.Ok?;
    var sp := ResolveSpecialty(u.value.0, b.specialty.value, fault);
    assert sp.Ok?;
  }

  /** With no injected fault the outcome is decided in the order the code
      meets the checks: schema, then the `undefined` custom gender, then the Email index, then the
      LicenseNumber index. */
  lemma {:induction false} OutcomeWithoutFault(s: Store, val: Validators, hasher: Hasher, raw: ProfessionalBody)
    ensures var b := Rewritten(raw);
            RegisterProfessional(s, val, hasher, Body(raw), NoFault).0 ==
              if !ProfessionalAccepted(val, b) then InvalidInput(ProfessionalIssues(val, b))
              else if CustomGenderMissing(b.gender.value, b.customGender) then ServerError(Some(UndefinedBindMessage))
              else if EmailInUse(s.users, b.email.value) then EmailTaken
              else if b.licenseNumber.Some? && LicenseInUse(s.professionals, b.licenseNumber.value) then LicenseTaken
              else Registered(s.nextUserId)
  {
    var b := Rewritten(raw);
    if ProfessionalAccepted(val, b) && !EmailInUse(s.users, b.email.value) {
      var u := InsertUserRow(s, ProfessionalUser(val, hasher, b));
      var sp := ResolveSpecialty(u.value.0, b.specialty.value, NoFault);
      assert sp.value.0.professionals == s.professionals;
    }
  }

  /** The handler keeps the schema's constraints: keys, unique indexes and
      the foreign keys of HealthcareProfessionals. */
  lemma {:induction false} KeepsValid(s: Store, val: Validators, hasher: Hasher,
                                      request: Json<ProfessionalBody>, fault: Fault)
    requires Valid(s)
    ensures Valid(RegisterProfessional(s, val, hasher, request, fault).1)
  {
    if Transaction(s, val, hasher, request, fault).Ok? {
      TransactionKeepsValid(s, val, hasher, request.body, fault);
    }
  }

  /** A committed transaction leaves a store that keeps the constraints. */
  lemma {:induction false} TransactionKeepsValid(s: Store, val: Validators, hasher: Hasher,
                                                 raw: ProfessionalBody, fault: Fault)
    requires Valid(s)
    requires Transaction(s, val, hasher, Body(raw), fault).Ok?
    ensures Valid(Transaction(s, val, hasher, Body(raw), fault).value.0)
  {
    var t := Transaction(s, val, hasher, Body(raw), fault);
    var b := Rewritten(raw);
    assert ProfessionalAccepted(val, b);
    var row := ProfessionalUser(val, hasher, b);
    var u := InsertUserRow(s, row);
    assert Exec(UserInsertStep, fault, u) == u;
    assert u.Ok?;
    InsertUserKeepsValid(s, row);
    var s1 := u.value.0;
    var sp := ResolveSpecialty(s1, b.specialty.value, fault);
    assert sp.Ok?;
    ResolveSpecialtyKeepsValid(s1, b.specialty.value, fault);
    var entry := ProfessionalEntry(val, b, u.value.1, sp.value.1);
    var p := InsertProfessionalRow(sp.value.0, entry);
    assert p.Ok?;
    InsertProfessionalKeepsValid(sp.value.0, entry);
    assert t.value.0 == p.value.0;
  }

  lemma {:induction false} ResolveSpecialtyKeepsValid(s: Store, name: string, fault: Fault)
    requires Valid(s)
    requires ResolveSpecialty(s, name, fault).Ok?
    ensures var r := ResolveSpecialty(s, name, fault).value;
            Valid(r.0) && r.0.users == s.users && SpecialtyExists(r.0.specialties, r.1)
  {
    var r := ResolveSpecialty(s, name, fault).value;
    if FindSpecialty(s.specialties, name).None? {
      InsertSpecialtyKeepsValid(s, name);
      assert r.0.specialties[|s.specialties|].specialtyId == r.1;
    }
  }

  /** After a 201 the lookup by the registered specialty name finds the
      specialty the new professional points at. */
  lemma {:induction false} SpecialtyFoundAfterwards(s: Store, val: Validators, hasher: Hasher,
                                                    raw: ProfessionalBody, fault: Fault)
    requires RegisterProfessional(s, val, hasher, Body(raw), fault).0.Registered?
    ensures var o := RegisterProfessional(s, val, hasher, Body(raw), fault);
            |o.1.professionals| == |s.professionals| + 1 &&
            FindSpecialty(o.1.specialties, Rewritten(raw).specialty.value) ==
              Some(o.1.professionals[|s.professionals|].specialtyId)
  {
    RegisteredRows(s, val, hasher, raw, fault);
    var o := RegisterProfessional(s, val, hasher, Body(raw), fault);
    var name := Rewritten(raw).specialty.value;
    var existing := FindSpecialty(s.specialties, name);
    if existing.None? {
      var r := FindSpecialty(o.1.specialties, name);
      var last := |s.specialties|;
      assert o.1.specialties[last].name == name;
      assert r.Some?;
      var i :| 0 <= i < |o.1.specialties| && o.1.specialties[i].name == name &&
               o.1.specialties[i].specialtyId == r.value;
      assert i == last;
    }
  }

  /** Two successful registrations naming the same specialty point at the
      same Specialties row, and the second one adds no specialty. */
  lemma {:induction false} SpecialtyShared(s: Store, val: Validators, hasher: Hasher,
                                           raw1: ProfessionalBody, fault1: Fault,
                                           raw2: ProfessionalBody, fault2: Fault)
    requires RegisterProfessional(s, val, hasher, Body(raw1), fault1).0.Registered?
    requires RegisterProfessional(RegisterProfessional(s, val, hasher, Body(raw1), fault1).1,
                                  val, hasher, Body(raw2), fault2).0.Registered?
    requires raw1.specialty == raw2.specialty
    ensures var s1 := RegisterProfessional(s, val, hasher, Body(raw1), fault1).1;
            var s2 := RegisterProfessional(s1, val, hasher, Body(raw2), fault2).1;
            |s1.professionals| == |s.professionals| + 1 &&
            |s2.professionals| == |s1.professionals| + 1 &&
            s2.specialties == s1.specialties &&
            s2.professionals[|s1.professionals|].specialtyId ==
              s1.professionals[|s.professionals|].specialtyId
  {
    var s1 := RegisterProfessional(s, val, hasher, Body(raw1), fault1).1;
    SpecialtyFoundAfterwards(s, val, hasher, raw1, fault1);
    RegisteredRows(s, val, hasher, raw1, fault1);
    RegisteredRows(s1, val, hasher, raw2, fault2);
    assert Rewritten(raw1).specialty == Rewritten(raw2).specialty;
  }
}

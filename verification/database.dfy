/** The relational store behind the handlers: the Users, Specialties,
    HealthcareProfessionals and Appointments tables as sequences of rows in
    insertion order (the order the modelled SELECTs return them in; SQL
    itself promises none without ORDER BY), AUTO_INCREMENT counters, the
    unique indexes on Email and LicenseNumber, and the single statements the
    handlers execute. `Pool` and `Connection` are the mysql2 objects through
    which those statements change the store. */
module Database {
  import opened Common

  datatype UserRow = UserRow(
    userId: nat,
    firstName: string,
    lastName: string,
    email: string,
    passwordHash: string,
    phoneNumber: Option<string>,
    dateOfBirth: Option<string>,
    gender: Option<string>,
    genderIdentity: Option<string>,
    role: string,
    status: Option<string>      // None: the column default
  )

  datatype SpecialtyRow = SpecialtyRow(specialtyId: nat, name: string)

  datatype ProfessionalRow = ProfessionalRow(
    professionalId: nat,
    userId: nat,
    specialtyId: nat,
    experience: Option<int>,
    licenseNumber: Option<string>,
    education: Option<string>,
    consultationFee: Option<real>,
    status: string
  )

  /** Read-only here: no handler in the model creates appointments. */
  datatype AppointmentRow = AppointmentRow(
    appointmentId: nat,
    userId: nat,
    professionalId: Option<nat>,
    date: string,
    status: string
  )

  datatype Store = Store(
    users: seq<UserRow>,
    specialties: seq<SpecialtyRow>,
    professionals: seq<ProfessionalRow>,
    appointments: seq<AppointmentRow>,
    nextUserId: nat,
    nextSpecialtyId: nat,
    nextProfessionalId: nat
  )

  const RoleProfessional := "Healthcare Professional"
  const RolePatient := "Patient"
  const StatusActive := "Active"
  const StatusAvailable := "Available"

  /** The Error mysql2 throws, before anything reaches the server, when a
      bind value is `undefined`; SQL NULL has to be passed as `null`. */
  const UndefinedBindMessage := "Bind parameters must not contain undefined. To pass SQL NULL specify JS null"

  // ---------------------------------------------------------------- lookups

  predicate EmailInUse(users: seq<UserRow>, email: string)
  {
    exists i :: 0 <= i < |users| && users[i].email == email
  }

  predicate LicenseInUse(professionals: seq<ProfessionalRow>, license: string)
  {
    exists i :: 0 <= i < |professionals| && professionals[i].licenseNumber == Some(license)
  }

  /** The position of the first row with the given email, or |users|. */
  function FirstEmailIndex(users: seq<UserRow>, email: string): (i: nat)
    ensures i <= |users|
    ensures i < |users| ==> users[i].email == email
    ensures forall j :: 0 <= j < i ==> users[j].email != email
  {
    if users == [] then 0
    else if users[0].email == email then 0
    else 1 + FirstEmailIndex(users[1..], email)
  }

  /** `SELECT * FROM Users WHERE Email = ?`, first row. */
  function FirstUserByEmail(users: seq<UserRow>, email: string): (r: Option<UserRow>)
    ensures r.None? <==> !EmailInUse(users, email)
    ensures r.Some? ==> r.value.email == email && r.value == users[FirstEmailIndex(users, email)]
  {
    var i := FirstEmailIndex(users, email);
    if i < |users| then Some(users[i]) else None
  }

  /** `SELECT ... FROM Users WHERE UserID = ?`, first row. */
  function FirstUserById(users: seq<UserRow>, id: int): (r: Option<UserRow>)
    ensures r.None? <==> forall i :: 0 <= i < |users| ==> users[i].userId != id
    ensures r.Some? ==> r.value in users && r.value.userId == id
  {
    if users == [] then None
    else if users[0].userId == id then Some(users[0])
    else FirstUserById(users[1..], id)
  }

  /** `SELECT SpecialtyID FROM Specialties WHERE SpecialtyName = ?`, first row. */
  function FindSpecialty(specialties: seq<SpecialtyRow>, name: string): (r: Option<nat>)
    ensures r.None? <==> forall i :: 0 <= i < |specialties| ==> specialties[i].name != name
    ensures r.Some? ==> exists i :: 0 <= i < |specialties| &&
                          specialties[i].name == name && specialties[i].specialtyId == r.value
  {
    if specialties == [] then None
    else if specialties[0].name == name then Some(specialties[0].specialtyId)
    else FindSpecialty(specialties[1..], name)
  }

  // ---------------------------------------------------------------- invariant

  /** The invariant the handlers keep: primary keys below their
      AUTO_INCREMENT counters and pairwise distinct, unique Email and
      LicenseNumber (the indexes the inserts check), unique SpecialtyName
      (kept by looking a name up before inserting it), and the two foreign
      keys of HealthcareProfessionals. */
  ghost predicate Valid(s: Store)
  {
    && (forall i :: 0 <= i < |s.users| ==> s.users[i].userId < s.nextUserId)
    && (forall i, j :: 0 <= i < j < |s.users| ==>
          s.users[i].userId != s.users[j].userId && s.users[i].email != s.users[j].email)
    && (forall i :: 0 <= i < |s.specialties| ==> s.specialties[i].specialtyId < s.nextSpecialtyId)
    && (forall i, j :: 0 <= i < j < |s.specialties| ==>
          s.specialties[i].specialtyId != s.specialties[j].specialtyId &&
          s.specialties[i].name != s.specialties[j].name)
    && (forall i :: 0 <= i < |s.professionals| ==> s.professionals[i].professionalId < s.nextProfessionalId)
    && (forall i, j :: 0 <= i < j < |s.professionals| ==>
          s.professionals[i].professionalId != s.professionals[j].professionalId &&
          (s.professionals[i].licenseNumber.Some? ==>
             s.professionals[i].licenseNumber != s.professionals[j].licenseNumber))
    && (forall i :: 0 <= i < |s.professionals| ==>
          UserExists(s.users, s.professionals[i].userId) &&
          SpecialtyExists(s.specialties, s.professionals[i].specialtyId))
  }

  predicate UserExists(users: seq<UserRow>, id: nat)
  {
    exists u :: 0 <= u < |users| && users[u].userId == id
  }

  predicate SpecialtyExists(specialties: seq<SpecialtyRow>, id: nat)
  {
    exists k :: 0 <= k < |specialties| && specialties[k].specialtyId == id
  }

  // ---------------------------------------------------------------- statements

  /** `INSERT INTO Users`: fails with ER_DUP_ENTRY on the Email index,
      otherwise appends the row under the next AUTO_INCREMENT id. */
  function InsertUserRow(s: Store, row: UserRow): (r: Result<(Store, nat), Failure>)
    ensures r.Err? <==> EmailInUse(s.users, row.email)
    ensures r.Err? ==> r.error == DuplicateEntry(EmailKey)
    ensures r.Ok? ==> r.value.1 == s.nextUserId &&
                      r.value.0.users == s.users + [row.(userId := r.value.1)] &&
                      r.value.0.specialties == s.specialties &&
                      r.value.0.professionals == s.professionals &&
                      r.value.0.appointments == s.appointments
  {
    if EmailInUse(s.users, row.email) then Err(DuplicateEntry(EmailKey))
    else
      Ok((s.(users := s.users + [row.(userId := s.nextUserId)], nextUserId := s.nextUserId + 1),
          s.nextUserId))
  }

  /** `INSERT INTO Specialties (SpecialtyName)`. */
  function InsertSpecialtyRow(s: Store, name: string): (r: (Store, nat))
    ensures r.1 == s.nextSpecialtyId
    ensures r.0.specialties == s.specialties + [SpecialtyRow(r.1, name)]
    ensures r.0.users == s.users && r.0.professionals == s.professionals &&
            r.0.appointments == s.appointments
  {
    (s.(specialties := s.specialties + [SpecialtyRow(s.nextSpecialtyId, name)],
        nextSpecialtyId := s.nextSpecialtyId + 1),
     s.nextSpecialtyId)
  }

  /** `INSERT INTO HealthcareProfessionals`: fails with ER_DUP_ENTRY on the
      LicenseNumber index when a present license is already taken. */
  function InsertProfessionalRow(s: Store, row: ProfessionalRow): (r: Result<(Store, nat), Failure>)
    ensures r.Err? <==> row.licenseNumber.Some? && LicenseInUse(s.professionals, row.licenseNumber.value)
    ensures r.Err? ==> r.error == DuplicateEntry(LicenseKey)
    ensures r.Ok? ==> r.value.1 == s.nextProfessionalId &&
                      r.value.0.professionals == s.professionals + [row.(professionalId := r.value.1)] &&
                      r.value.0.users == s.users && r.value.0.specialties == s.specialties &&
                      r.value.0.appointments == s.appointments
  {
    if row.licenseNumber.Some? && LicenseInUse(s.professionals, row.licenseNumber.value) then
      Err(DuplicateEntry(LicenseKey))
    else
      Ok((s.(professionals := s.professionals + [row.(professionalId := s.nextProfessionalId)],
             nextProfessionalId := s.nextProfessionalId + 1),
          s.nextProfessionalId))
  }

  /** A statement run under an injected fault: the statement at the faulty
      step raises the fault's failure and writes nothing. */
  function Exec<T>(step: Step, fault: Fault, r: Result<T, Failure>): (e: Result<T, Failure>)
    ensures fault.FailAt? && fault.step == step ==> e == Err(fault.failure)
    ensures !(fault.FailAt? && fault.step == step) ==> e == r
  {
    if fault.FailAt? && fault.step == step then Err(fault.failure) else r
  }

  /** The store after a statement: the new one on success, the old one on failure. */
  function After<T>(s: Store, r: Result<(Store, T), Failure>): Store
  {
    if r.Ok? then r.value.0 else s
  }

  /** What the caller of a statement gets back: the insert id or the failure. */
  function Answer<T>(r: Result<(Store, T), Failure>): Result<T, Failure>
  {
    if r.Ok? then Ok(r.value.1) else Err(r.error)
  }

  // ---------------------------------------------------------------- invariant preservation

  lemma {:induction false} InsertUserKeepsValid(s: Store, row: UserRow)
    requires Valid(s)
    requires InsertUserRow(s, row).Ok?
    ensures Valid(InsertUserRow(s, row).value.0)
    ensures UserExists(InsertUserRow(s, row).value.0.users, InsertUserRow(s, row).value.1)
  {
    var s' := InsertUserRow(s, row).value.0;
    var n := |s.users|;
    assert s'.users[n].email == row.email;
    assert s'.users[n].userId == InsertUserRow(s, row).value.1;
    forall i | 0 <= i < n ensures s'.users[i].email != row.email {
      assert s'.users[i] == s.users[i];
    }
    forall i | 0 <= i < |s'.professionals|
      ensures UserExists(s'.users, s'.professionals[i].userId)
    {
      var u :| 0 <= u < |s.users| && s.users[u].userId == s.professionals[i].userId;
      assert s'.users[u] == s.users[u];
    }
  }

  lemma {:induction false} InsertSpecialtyKeepsValid(s: Store, name: string)
    requires Valid(s)
    requires FindSpecialty(s.specialties, name).None?
    ensures Valid(InsertSpecialtyRow(s, name).0)
  {
    var s' := InsertSpecialtyRow(s, name).0;
    forall i | 0 <= i < |s'.professionals|
      ensures SpecialtyExists(s'.specialties, s'.professionals[i].specialtyId)
    {
      var k :| 0 <= k < |s.specialties| && s.specialties[k].specialtyId == s.professionals[i].specialtyId;
      assert s'.specialties[k] == s.specialties[k];
    }
  }

  lemma {:induction false} InsertProfessionalKeepsValid(s: Store, row: ProfessionalRow)
    requires Valid(s)
    requires InsertProfessionalRow(s, row).Ok?
    requires UserExists(s.users, row.userId)
    requires SpecialtyExists(s.specialties, row.specialtyId)
    ensures Valid(InsertProfessionalRow(s, row).value.0)
  {
    var s' := InsertProfessionalRow(s, row).value.0;
    var n := |s.professionals|;
    forall i | 0 <= i < n && s'.professionals[i].licenseNumber.Some?
      ensures s'.professionals[i].licenseNumber != s'.professionals[n].licenseNumber
    {
      assert s'.professionals[i] == s.professionals[i];
    }
  }

  // ---------------------------------------------------------------- mysql2 objects

  /** The connection pool: statements executed on it commit on their own. */
  class Pool {
    var store: Store

    constructor (s: Store)
      ensures store == s
    {
      store := s;
    }

    method InsertUser(row: UserRow, fault: Fault) returns (r: Result<nat, Failure>)
      modifies this
      ensures r == Answer(Exec(UserInsertStep, fault, InsertUserRow(old(store), row)))
      ensures store == After(old(store), Exec(UserInsertStep, fault, InsertUserRow(old(store), row)))
    {
      var e := Exec(UserInsertStep, fault, InsertUserRow(store, row));
      r := Answer(e);
      store := After(store, e);
    }
  }

  /** A connection taken from the pool. While a transaction is open,
      `snapshot` holds the store as it was at `beginTransaction`. */
  class Connection {
    const pool: Pool
    var snapshot: Option<Store>
    var released: bool

    constructor (pool: Pool)
      ensures this.pool == pool && snapshot == None && !released
    {
      this.pool := pool;
      snapshot := None;
      released := false;
    }

    method BeginTransaction()
      requires !released
      modifies this
      ensures snapshot == Some(pool.store) && !released
    {
      snapshot := Some(pool.store);
    }

    method InsertUser(row: UserRow, fault: Fault) returns (r: Result<nat, Failure>)
      requires !released
      modifies pool
      ensures r == Answer(Exec(UserInsertStep, fault, InsertUserRow(old(pool.store), row)))
      ensures pool.store == After(old(pool.store), Exec(UserInsertStep, fault, InsertUserRow(old(pool.store), row)))
    {
      r := pool.InsertUser(row, fault);
    }

    method SelectSpecialty(name: string, fault: Fault) returns (r: Result<Option<nat>, Failure>)
      requires !released
      ensures r == Exec(SpecialtyLookupStep, fault, Ok(FindSpecialty(pool.store.specialties, name)))
    {
      r := Exec(SpecialtyLookupStep, fault, Ok(FindSpecialty(pool.store.specialties, name)));
    }

    method InsertSpecialty(name: string, fault: Fault) returns (r: Result<nat, Failure>)
      requires !released
      modifies pool
      ensures r == Answer(Exec(SpecialtyInsertStep, fault, Ok(InsertSpecialtyRow(old(pool.store), name))))
      ensures pool.store == After(old(pool.store), Exec(SpecialtyInsertStep, fault, Ok(InsertSpecialtyRow(old(pool.store), name))))
    {
      var e := Exec(SpecialtyInsertStep, fault, Ok(InsertSpecialtyRow(pool.store, name)));
      r := Answer(e);
      pool.store := After(pool.store, e);
    }

    method InsertProfessional(row: ProfessionalRow, fault: Fault) returns (r: Result<nat, Failure>)
      requires !released
      modifies pool
      ensures r == Answer(Exec(ProfessionalInsertStep, fault, InsertProfessionalRow(old(pool.store), row)))
      ensures pool.store == After(old(pool.store), Exec(ProfessionalInsertStep, fault, InsertProfessionalRow(old(pool.store), row)))
    {
      var e := Exec(ProfessionalInsertStep, fault, InsertProfessionalRow(pool.store, row));
      r := Answer(e);
      pool.store := After(pool.store, e);
    }

    /** COMMIT: the changes stay and the transaction closes; a failing
        commit leaves the transaction open for the caller to roll back. */
    method Commit(fault: Fault) returns (r: Result<(), Failure>)
      requires !released
      modifies this
      ensures r == Exec(CommitStep, fault, Ok(()))
      ensures snapshot == (if r.Ok? then None else old(snapshot))
      ensures released == old(released)
    {
      r := Exec(CommitStep, fault, Ok(()));
      if r.Ok? {
        snapshot := None;
      }
    }

    /** ROLLBACK: the store returns to its state at BEGIN. */
    method Rollback()
      requires !released
      modifies this, pool
      ensures pool.store == (if old(snapshot).Some? then old(snapshot).value else old(pool.store))
      ensures snapshot == None && released == old(released)
    {
      if snapshot.Some? {
        pool.store := snapshot.value;
      }
      snapshot := None;
    }

    method Release()
      modifies this
      ensures released && snapshot == old(snapshot)
    {
      released := true;
    }
  }
}

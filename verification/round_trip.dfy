/** What one handler's effect means for another: a patient registered
    through POST /api/auth/register/patient and then logging in through
    POST /api/auth/login with the same email and password. The two schemas
    bound the password differently (registration asks for at least 8 UTF-16
    units, login for 8 to 72, and login also caps the email at 100),
    so the round trip holds exactly within login's bounds. */
module RoundTrip {
  import opened Common
  import opened Externals
  import opened Schema
  import opened Database
  import PatientRegistration
  import Login

  /** The first row with an email that was not in use is the appended one. */
  lemma {:induction false} AppendedRowIsFirstByEmail(users: seq<UserRow>, row: UserRow)
    requires !EmailInUse(users, row.email)
    ensures FirstUserByEmail(users + [row], row.email) == Some(row)
  {
    var all := users + [row];
    assert all[|users|] == row;
    var i := FirstEmailIndex(all, row.email);
    assert i == |users|;
  }

  /** A patient registered without a fault logs in with the same email and
      password, provided the password is at most 72 UTF-16 units, the email
      at most 100, bcrypt's compare accepts its own hash and the signing
      secret is set. The token names the new id, the email and the role
      'Patient'. */
  lemma {:induction false} RegisteredPatientLogsIn(s: Store, val: Validators, hasher: Hasher, sign: Signer,
                                                   secret: Option<string>, raw: PatientRegistration.PatientBody,
                                                   fault: Fault)
    requires PatientRegistration.RegisterPatient(s, val, hasher, Body(raw), fault).0.Registered?
    requires raw.password.Some? && JsLength(raw.password.value) <= Login.MaxPasswordLength
    requires raw.email.Some? && JsLength(raw.email.value) <= Login.MaxEmailLength
    requires hasher.compare(raw.password.value, hasher.hash(raw.password.value))
    requires Truthy(secret)
    ensures var o := PatientRegistration.RegisterPatient(s, val, hasher, Body(raw), fault);
            var r := Login.Login(o.1, val, hasher, sign, secret, Body(Login.LoginBody(raw.email, raw.password)), NoFault);
            && r.LoggedIn?
            && r.user.userID == o.0.userId
            && r.user.email == raw.email.value
            && r.user.role == RolePatient
            && r.token == sign(TokenUser(o.0.userId, raw.email.value, RolePatient), secret.value, Login.TokenLifetime)
  {
    var b := PatientRegistration.Rewritten(raw);
    PatientRegistration.RegisteredRow(s, val, hasher, raw, fault);
    var o := PatientRegistration.RegisterPatient(s, val, hasher, Body(raw), fault);
    var row := PatientRegistration.PatientUser(val, hasher, b);
    assert !EmailInUse(s.users, row.email);
    AppendedRowIsFirstByEmail(s.users, row.(userId := o.0.userId));
    var lb := Login.LoginBody(raw.email, raw.password);
    assert Login.LoginAccepted(val, lb);
    assert FirstUserByEmail(o.1.users, raw.email.value) == Some(row.(userId := o.0.userId));
  }

  /** The other side of the bound: a patient registered with a password
      longer than 72 UTF-16 units can never log in with it; login answers 400
      with the password's length issue, whatever the store holds. */
  lemma {:induction false} LongPasswordNeverLogsIn(s: Store, val: Validators, hasher: Hasher, sign: Signer,
                                                   secret: Option<string>, raw: PatientRegistration.PatientBody,
                                                   fault: Fault, later: Store)
    requires PatientRegistration.RegisterPatient(s, val, hasher, Body(raw), fault).0.Registered?
    requires JsLength(raw.password.value) > Login.MaxPasswordLength
    requires JsLength(raw.email.value) <= Login.MaxEmailLength
    ensures Login.Login(later, val, hasher, sign, secret, Body(Login.LoginBody(raw.email, raw.password)), NoFault)
            == Login.InvalidInput(Issue(Password, TooLong))
  {
    PatientRegistration.RegisteredRow(s, val, hasher, raw, fault);
  }

  /** A registration with an email longer than 100 UTF-16 units succeeds too,
      and login refuses that email before looking at the store. */
  lemma {:induction false} LongEmailNeverLogsIn(s: Store, val: Validators, hasher: Hasher, sign: Signer,
                                                secret: Option<string>, raw: PatientRegistration.PatientBody,
                                                fault: Fault, later: Store)
    requires PatientRegistration.RegisterPatient(s, val, hasher, Body(raw), fault).0.Registered?
    requires JsLength(raw.email.value) > Login.MaxEmailLength
    ensures Login.Login(later, val, hasher, sign, secret, Body(Login.LoginBody(raw.email, raw.password)), NoFault)
            == Login.InvalidInput(Issue(Email, TooLong))
  {
    PatientRegistration.RegisteredRow(s, val, hasher, raw, fault);
  }
}

/** The general registration form, used in patient and professional mode
    (`isProfessional` comes from the shared store and is a parameter here):
    its required-field check, the payload it posts to /api/auth/register,
    and the component state the change and submit handlers update. */
module RegisterForm {
  import opened Common
  import opened Client
  import Database
  import Externals
  import UserRegistration

  /** The `id` of each input. `role` has no input but is a key of the state. */
  datatype FormField =
    | FirstName | LastName | Email | Password | PhoneNumber | DateOfBirth
    | Role | LicenseNumber | Specialty | Education | ConsultationFee

  datatype FormData = FormData(
    firstName: string,
    lastName: string,
    email: string,
    password: string,
    phoneNumber: string,
    dateOfBirth: string,
    role: string,
    licenseNumber: string,
    specialty: string,
    education: string,
    consultationFee: string
  )
  {
    function Get(f: FormField): string
    {
      match f
      case FirstName => firstName
      case LastName => lastName
      case Email => email
      case Password => password
      case PhoneNumber => phoneNumber
      case DateOfBirth => dateOfBirth
      case Role => role
      case LicenseNumber => licenseNumber
      case Specialty => specialty
      case Education => education
      case ConsultationFee => consultationFee
    }

    /** `{ ...formData, [id]: value }`. */
    function With(f: FormField, v: string): (d: FormData)
      ensures d.Get(f) == v
      ensures forall g :: g != f ==> d.Get(g) == Get(g)
    {
      match f
      case FirstName => this.(firstName := v)
      case LastName => this.(lastName := v)
      case Email => this.(email := v)
      case Password => this.(password := v)
      case PhoneNumber => this.(phoneNumber := v)
      case DateOfBirth => this.(dateOfBirth := v)
      case Role => this.(role := v)
      case LicenseNumber => this.(licenseNumber := v)
      case Specialty => this.(specialty := v)
      case Education => this.(education := v)
      case ConsultationFee => this.(consultationFee := v)
    }
  }

  const InitialForm := FormData("", "", "", "", "", "", Database.RolePatient, "", "", "", "")

  const BaseFields: set<FormField> := {FirstName, LastName, Email, Password, PhoneNumber, DateOfBirth}
  const ProfessionalFields: set<FormField> := {LicenseNumber, Specialty, Education, ConsultationFee}

  /** The message stored under each key of the errors object. */
  function RequiredMessage(f: FormField): string
  {
    match f
    case FirstName => "El nombre es obligatorio"
    case LastName => "El apellido es obligatorio"
    case Email => "El correo es obligatorio"
    case Password => "La contraseña es obligatoria"
    case PhoneNumber => "El número de teléfono es obligatorio"
    case DateOfBirth => "La fecha de nacimiento es obligatoria"
    case Role => ""  // never flagged
    case LicenseNumber => "El número de licencia es obligatorio"
    case Specialty => "La especialidad es obligatoria"
    case Education => "La educación es obligatoria"
    case ConsultationFee => "La tarifa de consulta es obligatoria"
  }

  function Flag(errors: set<FormField>, f: FormField, missing: bool): set<FormField>
  {
    if missing then errors + {f} else errors
  }

  /** The errors after the six base checks of `validateForm`. */
  function BaseErrors(d: FormData): set<FormField>
  {
    var e := {};
    var e := Flag(e, FirstName, |d.firstName| == 0);
    var e := Flag(e, LastName, |d.lastName| == 0);
    var e := Flag(e, Email, |d.email| == 0);
    var e := Flag(e, Password, |d.password| == 0);
    var e := Flag(e, PhoneNumber, |d.phoneNumber| == 0);
    Flag(e, DateOfBirth, |d.dateOfBirth| == 0)
  }

  /** `validateForm`: the base checks, then the professional ones in
      professional mode. The errors object is represented by its keys: each
      key's message is `RequiredMessage`. */
  function Validate(d: FormData, isProfessional: bool): set<FormField>
  {
    var e := BaseErrors(d);
    if !isProfessional then e
    else
      var e := Flag(e, LicenseNumber, |d.licenseNumber| == 0);
      var e := Flag(e, Specialty, |d.specialty| == 0);
      var e := Flag(e, Education, |d.education| == 0);
      Flag(e, ConsultationFee, |d.consultationFee| == 0)
  }

  /** The base checks flag exactly the empty base inputs. */
  lemma {:induction false} BaseFlags(d: FormData, f: FormField)
    ensures f in BaseErrors(d) <==> f in BaseFields && |d.Get(f)| == 0
  {
    var e := BaseErrors(d);
    match f
    case FirstName => assert FirstName in e <==> |d.firstName| == 0;
    case LastName => assert LastName in e <==> |d.lastName| == 0;
    case Email => assert Email in e <==> |d.email| == 0;
    case Password => assert Password in e <==> |d.password| == 0;
    case PhoneNumber => assert PhoneNumber in e <==> |d.phoneNumber| == 0;
    case DateOfBirth => assert DateOfBirth in e <==> |d.dateOfBirth| == 0;
    case _ =>
  }

  /** One input's entry in the errors: a base input is flagged exactly when
      empty, a professional input exactly when empty in professional mode,
      and `role` never. */
  lemma {:induction false} ValidateFlags(d: FormData, isProfessional: bool, f: FormField)
    ensures f in Validate(d, isProfessional) <==>
            (f in BaseFields || (isProfessional && f in ProfessionalFields)) && |d.Get(f)| == 0
  {
    BaseFlags(d, f);
    var e := Validate(d, isProfessional);
    match f
    case LicenseNumber => assert LicenseNumber in e <==> isProfessional && |d.licenseNumber| == 0;
    case Specialty => assert Specialty in e <==> isProfessional && |d.specialty| == 0;
    case Education => assert Education in e <==> isProfessional && |d.education| == 0;
    case ConsultationFee => assert ConsultationFee in e <==> isProfessional && |d.consultationFee| == 0;
    case _ =>
  }

  // ---------------------------------------------------------------- the payload

  datatype ProfessionalExtras = ProfessionalExtras(
    licenseNumber: string, specialty: string, education: string, consultationFee: string)

  /** `userPayload`: the six base values, the role of the mode, and the
      four professional values only in professional mode. */
  datatype RegisterPayload = RegisterPayload(
    firstName: string,
    lastName: string,
    email: string,
    password: string,
    phoneNumber: string,
    dateOfBirth: string,
    role: string,
    extras: Option<ProfessionalExtras>
  )

  function ModeRole(isProfessional: bool): string
  {
    if isProfessional then Database.RoleProfessional else Database.RolePatient
  }

  function BuildPayload(d: FormData, isProfessional: bool): (p: RegisterPayload)
    ensures p.role == Database.RoleProfessional <==> isProfessional
    ensures p.role in UserRegistration.Roles
    ensures p.extras.Some? <==> isProfessional
  {
    RegisterPayload(d.firstName, d.lastName, d.email, d.password, d.phoneNumber, d.dateOfBirth,
                    ModeRole(isProfessional),
                    if isProfessional
                    then Some(ProfessionalExtras(d.licenseNumber, d.specialty, d.education, d.consultationFee))
                    else None)
  }

  /** `formData.role` never reaches the payload. */
  lemma {:induction false} StoredRoleIgnored(d: FormData, isProfessional: bool, r: string)
    ensures BuildPayload(d.With(Role, r), isProfessional) == BuildPayload(d, isProfessional)
  {
    var d' := d.With(Role, r);
    assert d'.firstName == d'.Get(FirstName) == d.Get(FirstName);
    assert d'.lastName == d'.Get(LastName) == d.Get(LastName);
    assert d'.email == d'.Get(Email) == d.Get(Email);
    assert d'.password == d'.Get(Password) == d.Get(Password);
    assert d'.phoneNumber == d'.Get(PhoneNumber) == d.Get(PhoneNumber);
    assert d'.dateOfBirth == d'.Get(DateOfBirth) == d.Get(DateOfBirth);
    assert d'.licenseNumber == d'.Get(LicenseNumber) == d.Get(LicenseNumber);
    assert d'.specialty == d'.Get(Specialty) == d.Get(Specialty);
    assert d'.education == d'.Get(Education) == d.Get(Education);
    assert d'.consultationFee == d'.Get(ConsultationFee) == d.Get(ConsultationFee);
  }

  /** The body the route receives. */
  function ServerBody(p: RegisterPayload): UserRegistration.UserBody
  {
    UserRegistration.UserBody(
      Some(p.firstName), Some(p.lastName), Some(p.email), Some(p.password),
      Some(p.phoneNumber), Some(p.dateOfBirth), Some(p.role),
      MapOption((x: ProfessionalExtras) => x.licenseNumber, p.extras),
      MapOption((x: ProfessionalExtras) => x.specialty, p.extras),
      MapOption((x: ProfessionalExtras) => x.education, p.extras),
      MapOption((x: ProfessionalExtras) => x.consultationFee, p.extras))
  }

  /** The server never refuses the form's role, and a user it creates has
      the role of the mode the form was in. */
  lemma {:induction false} ServerStoresModeRole(s: Database.Store, val: Externals.Validators,
                                                hasher: Externals.Hasher, d: FormData, isProfessional: bool,
                                                fault: Fault)
    ensures UserRegistration.RoleCheck(ServerBody(BuildPayload(d, isProfessional)).role) == []
    ensures var body := ServerBody(BuildPayload(d, isProfessional));
            var o := UserRegistration.RegisterUser(s, val, hasher, body, fault);
            o.0.Created? ==>
              o.1.users[|s.users|].role == (if isProfessional then Database.RoleProfessional else Database.RolePatient)
  {
    var body := ServerBody(BuildPayload(d, isProfessional));
    if UserRegistration.RegisterUser(s, val, hasher, body, fault).0.Created? {
      UserRegistration.CreatedRow(s, val, hasher, body, fault);
    }
  }

  // ---------------------------------------------------------------- the component

  function LoginPath(isProfessional: bool): string
  {
    if isProfessional then "/login?isProfessional=true" else "/login?isProfessional=false"
  }

  class RegisterComponent {
    var formData: FormData
    var errors: set<FormField>
    var message: Option<string>
    var messageType: Option<MessageKind>
    /** The route pushed when the post-success timer fires. */
    var redirect: Option<string>

    constructor ()
      ensures formData == InitialForm && errors == {}
      ensures message.None? && messageType.None? && redirect.None?
    {
      formData := InitialForm;
      errors := {};
      message := None;
      messageType := None;
      redirect := None;
    }

    /** `handleChange`: only the field named by the input's id changes. */
    method HandleChange(id: FormField, value: string)
      modifies this
      ensures formData == old(formData).With(id, value)
      ensures errors == old(errors) && message == old(message) && messageType == old(messageType)
      ensures redirect == old(redirect)
    {
      formData := formData.With(id, value);
    }

    /** `handleSubmit` in the given mode; `outcome` is how the request went. */
    method HandleSubmit(isProfessional: bool, outcome: FetchOutcome<()>) returns (sent: Option<RegisterPayload>)
      modifies this
      ensures var e := RegisterSubmit(Validate(old(formData), isProfessional),
                                      BuildPayload(old(formData), isProfessional), outcome,
                                      LoginPath(isProfessional));
              && sent == e.sent
              && errors == (if e.errors.Some? then e.errors.value else old(errors))
              && message == Some(e.message) && messageType == Some(e.kind)
              && redirect == (if e.redirect.Some? then e.redirect else old(redirect))
      ensures formData == old(formData)
    {
      var validationErrors := Validate(formData, isProfessional);
      ghost var e := RegisterSubmit(validationErrors, BuildPayload(formData, isProfessional), outcome,
                                    LoginPath(isProfessional));
      if |validationErrors| > 0 {
        errors := validationErrors;
        message := Some(IncompleteMessage);
        messageType := Some(Error);
        return None;
      }
      sent := Some(BuildPayload(formData, isProfessional));
      match outcome {
        case Ok(_) =>
          message := Some(RegisteredMessage);
          messageType := Some(Success);
          redirect := Some(LoginPath(isProfessional));
        case NotOk(m) =>
          message := Some(MessageOr(m, RegisterFailedMessage));
          messageType := Some(Error);
        case Threw(isError) =>
          message := Some(CaughtMessage(isError));
          messageType := Some(Error);
      }
    }
  }

  /** Nothing is sent while a required input is empty; a sent payload has
      the mode's role and the professional values exactly in professional
      mode; after success the login page opens in the same mode. */
  lemma {:induction false} SubmitGate(d: FormData, isProfessional: bool, outcome: FetchOutcome<()>)
    ensures var e := RegisterSubmit(Validate(d, isProfessional), BuildPayload(d, isProfessional), outcome,
                                    LoginPath(isProfessional));
            && (e.sent.None? <==> exists f :: (f in BaseFields || (isProfessional && f in ProfessionalFields))
                                              && |d.Get(f)| == 0)
            && (e.sent.Some? ==> (e.sent.value.role == Database.RoleProfessional <==> isProfessional)
                                 && (e.sent.value.extras.Some? <==> isProfessional))
            && (e.redirect.Some? ==> e.redirect.value == LoginPath(isProfessional))
  {
    var errs := Validate(d, isProfessional);
    if exists f :: (f in BaseFields || (isProfessional && f in ProfessionalFields)) && |d.Get(f)| == 0 {
      var f :| (f in BaseFields || (isProfessional && f in ProfessionalFields)) && |d.Get(f)| == 0;
      ValidateFlags(d, isProfessional, f);
    } else {
      forall f | f in errs ensures false {
        ValidateFlags(d, isProfessional, f);
      }
      assert errs == {};
    }
  }
}

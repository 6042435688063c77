/** The healthcare professional registration form: its nine inputs, the
    required-field check, the payload it posts to
    /api/auth/register/professionalhealthcare, and the component state the
    change and submit handlers update. */
module ProfessionalForm {
  import opened Common
  import opened Client
  import Schema
  import Database
  import Externals
  import ProfessionalRegistration

  /** The `id` of each input, which `handleChange` uses as the key. */
  datatype FormField =
    | FirstName | LastName | Email | Password | PhoneNumber | DateOfBirth
    | Specialty | Gender | CustomGender

  datatype FormData = FormData(
    firstName: string,
    lastName: string,
    email: string,
    password: string,
    phoneNumber: string,
    dateOfBirth: string,
    specialty: string,
    gender: string,
    customGender: string
  )
  {
    function Get(f: FormField): string
    {
      match f
      case FirstName => firstName
      case LastName => lastName
      case Email => email
      case Password => password
      case PhoneNumber => phoneNumber
      case DateOfBirth => dateOfBirth
      case Specialty => specialty
      case Gender => gender
      case CustomGender => customGender
    }

    /** `{ ...prevData, [id]: value }`. */
    function With(f: FormField, v: string): (d: FormData)
      ensures d.Get(f) == v
      ensures forall g :: g != f ==> d.Get(g) == Get(g)
    {
      match f
      case FirstName => this.(firstName := v)
      case LastName => this.(lastName := v)
      case Email => this.(email := v)
      case Password => this.(password := v)
      case PhoneNumber => this.(phoneNumber := v)
      case DateOfBirth => this.(dateOfBirth := v)
      case Specialty => this.(specialty := v)
      case Gender => this.(gender := v)
      case CustomGender => this.(customGender := v)
    }
  }

  const EmptyForm := FormData("", "", "", "", "", "", "", "", "")

  /** The eight inputs that may never be left empty. */
  const RequiredFields: set<FormField> :=
    {FirstName, LastName, Email, Password, PhoneNumber, DateOfBirth, Specialty, Gender}

  /** The select's values after its placeholder "". */
  const GenderOptions: seq<string> := ["Masculino", "Femenino", "Otro"]
  const OtherOption := "Otro"

  function RequiredMessage(f: FormField): string
  {
    match f
    case FirstName => "El nombre es obligatorio"
    case LastName => "El apellido es obligatorio"
    case Email => "El correo es obligatorio"
    case Password => "La contraseña es obligatoria"
    case PhoneNumber => "El número de teléfono es obligatorio"
    case DateOfBirth => "La fecha de nacimiento es obligatoria"
    case Specialty => "La especialidad es obligatoria"
    case Gender => "El género es obligatorio"
    case CustomGender => "Por favor, especifica tu género"
  }

  /** Adds the field when the condition holds. */
  function Flag(errors: set<FormField>, f: FormField, missing: bool): set<FormField>
  {
    if missing then errors + {f} else errors
  }

  /** `validateForm`, one check after the other. The errors object is
      represented by its keys: each key's message is `RequiredMessage`. */
  function Validate(d: FormData): (errors: set<FormField>)
  {
    var e := {};
    var e := Flag(e, FirstName, |d.firstName| == 0);
    var e := Flag(e, LastName, |d.lastName| == 0);
    var e := Flag(e, Email, |d.email| == 0);
    var e := Flag(e, Password, |d.password| == 0);
    var e := Flag(e, PhoneNumber, |d.phoneNumber| == 0);
    var e := Flag(e, DateOfBirth, |d.dateOfBirth| == 0);
    var e := Flag(e, Specialty, |d.specialty| == 0);
    var e := Flag(e, Gender, |d.gender| == 0);
    Flag(e, CustomGender, d.gender == OtherOption && |d.customGender| == 0)
  }

  /** One input's entry in the errors: a required input is flagged exactly
      when empty, `customGender` exactly when 'Otro' is selected and it is
      empty. */
  lemma {:induction false} ValidateFlags(d: FormData, f: FormField)
    ensures f in Validate(d) <==>
            if f == CustomGender then d.gender == OtherOption && |d.customGender| == 0 else |d.Get(f)| == 0
  {
    var e := Validate(d);
    match f
    case FirstName => assert FirstName in e <==> |d.firstName| == 0;
    case LastName => assert LastName in e <==> |d.lastName| == 0;
    case Email => assert Email in e <==> |d.email| == 0;
    case Password => assert Password in e <==> |d.password| == 0;
    case PhoneNumber => assert PhoneNumber in e <==> |d.phoneNumber| == 0;
    case DateOfBirth => assert DateOfBirth in e <==> |d.dateOfBirth| == 0;
    case Specialty => assert Specialty in e <==> |d.specialty| == 0;
    case Gender => assert Gender in e <==> |d.gender| == 0;
    case CustomGender =>
  }

  /** The errors name exactly the empty required inputs, plus
      `customGender` when 'Otro' is selected and it is empty. */
  lemma {:induction false} ValidateReportsEmptyFields(d: FormData)
    ensures forall f :: f in RequiredFields ==> (f in Validate(d) <==> |d.Get(f)| == 0)
    ensures CustomGender in Validate(d) <==> d.gender == OtherOption && |d.customGender| == 0
  {
    forall f | f in RequiredFields
      ensures f in Validate(d) <==> |d.Get(f)| == 0
    {
      ValidateFlags(d, f);
    }
    ValidateFlags(d, CustomGender);
  }

  /** `customGender` is required exactly when the selection is 'Otro'. */
  lemma {:induction false} CustomGenderRequiredIffOther(d: FormData)
    requires d.customGender == ""
    ensures CustomGender in Validate(d) <==> d.gender == OtherOption
  {
  }

  // ---------------------------------------------------------------- the payload

  /** `String.prototype.toLowerCase` on ASCII letters. */
  function LowerChar(c: char): char
  {
    if 'A' <= c <= 'Z' then (c as int + 32) as char else c
  }

  function ToLower(s: string): (r: string)
    ensures |r| == |s|
    ensures forall i :: 0 <= i < |s| ==> r[i] == LowerChar(s[i])
  {
    if s == [] then [] else [LowerChar(s[0])] + ToLower(s[1..])
  }

  /** `{ ...formData, role, gender, genderIdentity }`. */
  datatype ProfessionalPayload = ProfessionalPayload(
    data: FormData,             // the spread, with `gender` overridden below
    role: string,
    gender: string,
    genderIdentity: Option<string>
  )

  function PayloadGender(selection: string): string
  {
    if selection == OtherOption then "other" else ToLower(selection)
  }

  function BuildPayload(d: FormData): (p: ProfessionalPayload)
    ensures p.role == Database.RoleProfessional
    ensures p.data == d
    ensures p.genderIdentity.Some? <==> d.gender == OtherOption
  {
    ProfessionalPayload(d, Database.RoleProfessional, PayloadGender(d.gender),
                        if d.gender == OtherOption then Some(d.customGender) else None)
  }

  /** The body the route receives. The schema strips `role` and
      `genderIdentity`; the keys the form does not have are absent. */
  function ServerBody(p: ProfessionalPayload): ProfessionalRegistration.ProfessionalBody
  {
    ProfessionalRegistration.ProfessionalBody(
      Some(p.data.firstName), Some(p.data.lastName), Some(p.data.email), Some(p.data.password),
      Some(p.data.phoneNumber), Some(p.data.dateOfBirth), Some(p.gender), Some(p.data.customGender),
      Some(p.data.specialty), None, None, None, None)
  }

  /** The English value the server stores for each option. */
  function StoredGender(selection: string): string
  {
    if selection == "Masculino" then "male" else if selection == "Femenino" then "female" else "other"
  }

  /** Every option of the select becomes, after the server's rewrite, the
      matching member of the schema's enum. */
  lemma {:induction false} OptionsReachServerEnum(selection: string)
    requires selection in GenderOptions
    ensures Schema.TransformGender(PayloadGender(selection)) == StoredGender(selection)
    ensures Schema.TransformGender(PayloadGender(selection)) in Schema.GenderValues
  {
    if selection == "Masculino" {
      LowerOf("Masculino", "masculino");
    } else if selection == "Femenino" {
      LowerOf("Femenino", "femenino");
    }
  }

  /** `lower` is the lower-case form of `s` when they agree letter by letter. */
  lemma {:induction false} LowerOf(s: string, lower: string)
    requires |s| == |lower|
    requires forall i :: 0 <= i < |s| ==> LowerChar(s[i]) == lower[i]
    ensures ToLower(s) == lower
  {
  }

  /** Client and server agree: when the server accepts a form with one of
      the options selected, the stored gender is its English value and the
      stored GenderIdentity is the payload's `genderIdentity`. */
  lemma {:induction false} ServerStoresFormGender(val: Externals.Validators, hasher: Externals.Hasher, d: FormData)
    requires d.gender in GenderOptions
    requires ProfessionalRegistration.ProfessionalAccepted(val,
               ProfessionalRegistration.Rewritten(ServerBody(BuildPayload(d))))
    ensures var row := ProfessionalRegistration.ProfessionalUser(val, hasher,
                          ProfessionalRegistration.Rewritten(ServerBody(BuildPayload(d))));
            && row.gender == Some(StoredGender(d.gender))
            && row.genderIdentity == BuildPayload(d).genderIdentity
            && row.role == BuildPayload(d).role
  {
    OptionsReachServerEnum(d.gender);
  }

  // ---------------------------------------------------------------- the component

  const LoginPath := "/login?isProfessional=true"

  class ProfessionalRegisterForm {
    var formData: FormData
    var errors: set<FormField>
    var message: Option<string>
    var messageType: Option<MessageKind>
    /** The route pushed when the post-success timer fires. */
    var redirect: Option<string>

    constructor ()
      ensures formData == EmptyForm && errors == {}
      ensures message.None? && messageType.None? && redirect.None?
    {
      formData := EmptyForm;
      errors := {};
      message := None;
      messageType := None;
      redirect := None;
    }

    /** `handleChange`: only the field named by the input's id changes. */
    method HandleChange(id: FormField, value: string)
      modifies this
      ensures formData == old(formData).With(id, value)
      ensures errors == old(errors) && message == old(message) && messageType == old(messageType)
      ensures redirect == old(redirect)
    {
      formData := formData.With(id, value);
    }

    /** `handleSubmit`: `outcome` is how the request went. */
    method HandleSubmit(outcome: FetchOutcome<()>) returns (sent: Option<ProfessionalPayload>)
      modifies this
      ensures var e := RegisterSubmit(Validate(old(formData)), BuildPayload(old(formData)), outcome, LoginPath);
              && sent == e.sent
              && errors == (if e.errors.Some? then e.errors.value else old(errors))
              && message == Some(e.message) && messageType == Some(e.kind)
              && redirect == (if e.redirect.Some? then e.redirect else old(redirect))
      ensures formData == old(formData)
    {
      var validationErrors := Validate(formData);
      ghost var e := RegisterSubmit(validationErrors, BuildPayload(formData), outcome, LoginPath);
      if |validationErrors| > 0 {
        errors := validationErrors;
        message := Some(IncompleteMessage);
        messageType := Some(Error);
        return None;
      }
      var payload := BuildPayload(formData);
      sent := Some(payload);
      match outcome {
        case Ok(_) =>
          message := Some(RegisteredMessage);
          messageType := Some(Success);
          redirect := Some(LoginPath);
        case NotOk(m) =>
          message := Some(MessageOr(m, RegisterFailedMessage));
          messageType := Some(Error);
        case Threw(isError) =>
          message := Some(CaughtMessage(isError));
          messageType := Some(Error);
      }
    }
  }

  /** Nothing is sent from a form with an empty required field, and what
      is sent always carries the professional role. */
  lemma {:induction false} SubmitGate(d: FormData, outcome: FetchOutcome<()>)
    ensures var e := RegisterSubmit(Validate(d), BuildPayload(d), outcome, LoginPath);
            && (e.sent.None? <==> (exists f :: f in RequiredFields && d.Get(f) == "")
                                  || (d.gender == OtherOption && d.customGender == ""))
            && (e.sent.Some? ==> e.sent.value.role == Database.RoleProfessional)
  {
    var errs := Validate(d);
    if exists f :: f in RequiredFields && d.Get(f) == "" {
      var f :| f in RequiredFields && d.Get(f) == "";
      ValidateFlags(d, f);
    } else if d.gender == OtherOption && d.customGender == "" {
      ValidateFlags(d, CustomGender);
    } else {
      forall f | f in errs ensures false {
        ValidateFlags(d, f);
      }
      assert errs == {};
    }
  }
}

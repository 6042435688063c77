/** POST /api/auth/login: bound-check the input, look the user up by email,
    compare the password with the stored hash, and on a match sign a one-hour
    token carrying {userID, email, role} and return a profile without the
    hash. The store is only read. */
module Login {
  import opened Common
  import opened Externals
  import opened Schema
  import opened Database

  datatype LoginBody = LoginBody(email: Option<string>, password: Option<string>)

  /** The profile returned on success: it has no field for the hash. */
  datatype PublicUser = PublicUser(userID: nat, email: string, firstName: string, lastName: string, role: string)

  datatype LoginResponse =
    | LoggedIn(user: PublicUser, token: string)
    | InvalidInput(error: Issue)        // the first issue of the ZodError
    | InvalidCredentials
    | ServerError(detail: string)
  {
    function Status(): int
    {
      match this
      case LoggedIn(_, _) => 200
      case InvalidInput(_) => 400
      case InvalidCredentials => 401
      case ServerError(_) => 500
    }
  }

  const MaxEmailLength := 100
  const MinPasswordLength := 8
  const MaxPasswordLength := 72
  /** `expiresIn: '1h'`, in seconds. */
  const TokenLifetime: nat := 3600
  const MissingSecretMessage := "JWT_SECRET no está definido en las variables de entorno"
  const UnknownErrorDetail := "Error desconocido"

  /** `LoginSchema.parse`: email then password, each check in order. */
  function LoginIssues(val: Validators, b: LoginBody): (issues: seq<Issue>)
    ensures issues == [] <==> LoginAccepted(val, b)
  {
    (match b.email
     case None => [Issue(Email, Required)]
     case Some(e) =>
       (if val.isEmail(e) then [] else [Issue(Email, InvalidEmail)])
       + (if JsLength(e) > MaxEmailLength then [Issue(Email, TooLong)] else []))
    + (match b.password
       case None => [Issue(Password, Required)]
       case Some(p) =>
         (if JsLength(p) < MinPasswordLength then [Issue(Password, TooShort)] else [])
         + (if JsLength(p) > MaxPasswordLength then [Issue(Password, TooLong)] else []))
  }

  predicate LoginAccepted(val: Validators, b: LoginBody)
  {
    && b.email.Some? && val.isEmail(b.email.value) && JsLength(b.email.value) <= MaxEmailLength
    && b.password.Some? && MinPasswordLength <= JsLength(b.password.value) <= MaxPasswordLength
  }

  /** The message zod gives each of the schema's issues. */
  function IssueMessage(i: Issue): string
  {
    match i
    case Issue(Email, InvalidEmail) => "Formato de correo electrónico inválido"
    case Issue(Email, TooLong) => "El correo no puede exceder 100 caracteres"
    case Issue(Password, TooShort) => "La contraseña debe tener al menos 8 caracteres"
    case Issue(Password, TooLong) => "La contraseña no puede exceder 72 caracteres"
    case _ => "Required"
  }

  /** The token claims, copied from the stored row. */
  function Claims(row: UserRow): (c: TokenUser)
    ensures c.userID == row.userId && c.email == row.email && c.role == row.role
  {
    TokenUser(row.userId, row.email, row.role)
  }

  /** `userResponse`: the row's public columns. */
  function Profile(row: UserRow): (u: PublicUser)
    ensures u.userID == row.userId && u.email == row.email && u.role == row.role
    ensures u.firstName == row.firstName && u.lastName == row.lastName
  {
    PublicUser(row.userId, row.email, row.firstName, row.lastName, row.role)
  }

  /** The catch-all: an Error's message, or 'Error desconocido'. */
  function FailureResponse(f: Failure): (r: LoginResponse)
    ensures r.Status() == 500
  {
    var d := Detail(f);
    ServerError(if d.Some? then d.value else UnknownErrorDetail)
  }

  /** The handler: `secret` is `process.env.JWT_SECRET`. */
  function Login(s: Store, val: Validators, hasher: Hasher, sign: Signer, secret: Option<string>,
                 request: Json<LoginBody>, fault: Fault): LoginResponse
  {
    match request
    case Malformed(m) => FailureResponse(ErrorThrown(m))
    case Body(b) =>
      var issues := LoginIssues(val, b);
      if issues != [] then InvalidInput(issues[0])
      else
        var found := Exec(UserLookupStep, fault, Ok(FirstUserByEmail(s.users, b.email.value)));
        if found.Err? then FailureResponse(found.error)
        else if found.value.None? then InvalidCredentials
        else
          var row := found.value.value;
          if !hasher.compare(b.password.value, row.passwordHash) then InvalidCredentials
          else if !Truthy(secret) then FailureResponse(ErrorThrown(MissingSecretMessage))
          else LoggedIn(Profile(row), sign(Claims(row), secret.value, TokenLifetime))
  }

  // ---------------------------------------------------------------- properties

  /** 400 exactly when the input is out of bounds, answered with the first
      issue and decided before the store, the fault or the secret play any
      part. */
  lemma {:induction false} BadRequestBeforeLookup(s: Store, s': Store, val: Validators, hasher: Hasher,
                                                  sign: Signer, secret: Option<string>, secret': Option<string>,
                                                  b: LoginBody, fault: Fault, fault': Fault)
    requires !LoginAccepted(val, b)
    ensures Login(s, val, hasher, sign, secret, Body(b), fault) == InvalidInput(LoginIssues(val, b)[0])
    ensures Login(s, val, hasher, sign, secret, Body(b), fault) ==
            Login(s', val, hasher, sign, secret', Body(b), fault')
  {
  }

  /** When the email is at fault the reported issue is about the email. */
  lemma {:induction false} EmailIssueReportedFirst(val: Validators, b: LoginBody)
    requires b.email.None? || !val.isEmail(b.email.value) || JsLength(b.email.value) > MaxEmailLength
    ensures LoginIssues(val, b) != [] && LoginIssues(val, b)[0].field == Email
  {
  }

  /** No enumeration: an unknown email and a wrong password give the same
      401, and neither reaches the secret. */
  lemma {:induction false} SameAnswerForUnknownEmailAndWrongPassword(
    s1: Store, s2: Store, val: Validators, hasher: Hasher, sign: Signer,
    secret1: Option<string>, secret2: Option<string>, b: LoginBody)
    requires LoginAccepted(val, b)
    requires !EmailInUse(s1.users, b.email.value)
    requires EmailInUse(s2.users, b.email.value)
    requires !hasher.compare(b.password.value, FirstUserByEmail(s2.users, b.email.value).value.passwordHash)
    ensures Login(s1, val, hasher, sign, secret1, Body(b), NoFault) ==
            Login(s2, val, hasher, sign, secret2, Body(b), NoFault)
    ensures Login(s1, val, hasher, sign, secret1, Body(b), NoFault).Status() == 401
  {
  }

  /** A 200 answers exactly for the first row with that email whose hash
      matches; its profile and the signed claims {userID, email, role} are
      copied from that row, with a one-hour lifetime. */
  lemma {:induction false} LoggedInFromStoredRow(s: Store, val: Validators, hasher: Hasher, sign: Signer,
                                                 secret: Option<string>, b: LoginBody, fault: Fault)
    requires Login(s, val, hasher, sign, secret, Body(b), fault).LoggedIn?
    ensures var r := Login(s, val, hasher, sign, secret, Body(b), fault);
            var row := FirstUserByEmail(s.users, b.email.value);
            && LoginAccepted(val, b)
            && row.Some? && row.value.email == b.email.value
            && hasher.compare(b.password.value, row.value.passwordHash)
            && Truthy(secret)
            && r.user == Profile(row.value)
            && r.user.role == row.value.role
            && r.token == sign(TokenUser(row.value.userId, row.value.email, row.value.role), secret.value, TokenLifetime)
  {
  }

  /** With credentials that match, the secret decides between 200 and 500. */
  lemma {:induction false} SecretCheckedAfterCredentials(s: Store, val: Validators, hasher: Hasher, sign: Signer,
                                                         secret: Option<string>, b: LoginBody)
    requires LoginAccepted(val, b)
    requires EmailInUse(s.users, b.email.value)
    requires hasher.compare(b.password.value, FirstUserByEmail(s.users, b.email.value).value.passwordHash)
    ensures var r := Login(s, val, hasher, sign, secret, Body(b), NoFault);
            (r.Status() == 200 <==> Truthy(secret))
            && (!Truthy(secret) ==> r == ServerError(MissingSecretMessage))
  {
  }
}

/** The login page: on mount it sends a visitor who already holds a token
    to the dashboard of the stored role; on submit it posts the credentials
    to /api/auth/login, stores the token and the user on success, and keeps
    them only when the user's role matches the selected mode (`isProfessional`,
    from the shared store, is a parameter here). Browser storage is a map
    from key to item. */
module LoginPage {
  import opened Common
  import opened Client
  import Database
  import Login

  const TokenKey := "token"
  const UserKey := "user"
  const ProfessionalDashboard := "/professional/dashboard"
  const PatientDashboard := "/user/dashboard"

  const SuccessMessage := "Inicio de sesión exitoso."
  const RoleMismatchMessage := "Acceso denegado: El rol no coincide con la selección actual."
  const LoginFailedMessage := "Error en el inicio de sesión"

  /** A value in `localStorage`: the token, or the user object as JSON. */
  datatype Item = TokenItem(token: string) | UserItem(user: Login.PublicUser)

  /** The body of a 200 from the login route. */
  datatype LoginResult = LoginResult(token: string, user: Login.PublicUser)

  /** `localStorage.getItem('token')` is truthy. */
  predicate HasToken(storage: map<string, Item>)
  {
    TokenKey in storage && storage[TokenKey].TokenItem? && storage[TokenKey].token != ""
  }

  /** `JSON.parse(localStorage.getItem('user') || '{}').role`. */
  function StoredRole(storage: map<string, Item>): Option<string>
  {
    if UserKey in storage && storage[UserKey].UserItem? then Some(storage[UserKey].user.role) else None
  }

  /** The `useEffect` on mount: the four branches of the source in order. */
  function MountRedirect(storage: map<string, Item>, isProfessional: bool): Option<string>
  {
    if !HasToken(storage) then None
    else
      var role := StoredRole(storage);
      if role == Some(Database.RoleProfessional) && !isProfessional then Some(ProfessionalDashboard)
      else if role == Some(Database.RolePatient) && isProfessional then Some(PatientDashboard)
      else if role == Some(Database.RoleProfessional) && isProfessional then Some(ProfessionalDashboard)
      else if role == Some(Database.RolePatient) && !isProfessional then Some(PatientDashboard)
      else None
  }

  /** The redirect on mount depends on the stored role only, never on the
      toggle: a professional goes to the professional dashboard, a patient
      to the patient one, and nobody else (nor anybody without a token)
      is redirected. */
  lemma {:induction false} MountRedirectByStoredRole(storage: map<string, Item>, isProfessional: bool)
    ensures MountRedirect(storage, isProfessional) == MountRedirect(storage, !isProfessional)
    ensures MountRedirect(storage, isProfessional) == Some(ProfessionalDashboard) <==>
            HasToken(storage) && StoredRole(storage) == Some(Database.RoleProfessional)
    ensures MountRedirect(storage, isProfessional) == Some(PatientDashboard) <==>
            HasToken(storage) && StoredRole(storage) == Some(Database.RolePatient)
    ensures MountRedirect(storage, isProfessional).None? <==>
            !HasToken(storage) || StoredRole(storage) !in {Some(Database.RoleProfessional), Some(Database.RolePatient)}
  {
  }

  /** The role/mode gate of `handleSubmit`. */
  predicate ModeMatches(isProfessional: bool, role: string)
  {
    (isProfessional && role == Database.RoleProfessional) || (!isProfessional && role == Database.RolePatient)
  }

  function Dashboard(role: string): string
  {
    if role == Database.RoleProfessional then ProfessionalDashboard else PatientDashboard
  }

  /** What a finished submission leaves behind. */
  datatype Settled = Settled(storage: map<string, Item>, message: string, kind: MessageKind, route: Option<string>)

  /** `handleSubmit` after the request: `outcome` is how it went. */
  function AfterLogin(storage: map<string, Item>, isProfessional: bool, outcome: FetchOutcome<LoginResult>): Settled
  {
    match outcome
    case Ok(res) =>
      var stored := storage[TokenKey := TokenItem(res.token)][UserKey := UserItem(res.user)];
      if ModeMatches(isProfessional, res.user.role) then Settled(stored, SuccessMessage, Success, Some(Dashboard(res.user.role)))
      else Settled(stored - {TokenKey} - {UserKey}, RoleMismatchMessage, Error, None)
    case NotOk(m) => Settled(storage, MessageOr(m, LoginFailedMessage), Error, None)
    case Threw(isError) => Settled(storage, CaughtMessage(isError), Error, None)
  }

  /** The gate: navigation happens exactly for an ok answer whose role
      matches the mode, and goes to that role's dashboard with the token and
      user stored; a mismatch leaves neither key behind and every other key
      as it was; a refused or failed request leaves storage untouched. */
  lemma {:induction false} SubmitGate(storage: map<string, Item>, isProfessional: bool, outcome: FetchOutcome<LoginResult>)
    ensures var r := AfterLogin(storage, isProfessional, outcome);
            && (r.route.Some? <==> outcome.Ok? && ModeMatches(isProfessional, outcome.result.user.role))
            && (r.route.Some? ==>
                  && r.route.value == (if isProfessional then ProfessionalDashboard else PatientDashboard)
                  && r.storage[TokenKey] == TokenItem(outcome.result.token)
                  && r.storage[UserKey] == UserItem(outcome.result.user)
                  && r.kind == Success)
            && (outcome.Ok? && !ModeMatches(isProfessional, outcome.result.user.role) ==>
                  && TokenKey !in r.storage && UserKey !in r.storage
                  && (forall k :: k in storage && k != TokenKey && k != UserKey ==> k in r.storage && r.storage[k] == storage[k])
                  && r.message == RoleMismatchMessage && r.kind == Error)
            && (!outcome.Ok? ==> r.storage == storage && r.kind == Error)
  {
  }

  /** A login that navigated leaves storage from which the next mount goes
      to the same dashboard, whatever the toggle says then (a non-empty
      token). */
  lemma {:induction false} NextMountAgrees(storage: map<string, Item>, isProfessional: bool, later: bool,
                                           outcome: FetchOutcome<LoginResult>)
    requires AfterLogin(storage, isProfessional, outcome).route.Some?
    requires outcome.result.token != ""
    ensures var r := AfterLogin(storage, isProfessional, outcome);
            MountRedirect(r.storage, later) == r.route
  {
  }

  // ---------------------------------------------------------------- the component

  /** The `id` of the two inputs. */
  datatype LoginInput = EmailInput | PasswordInput

  class LoginComponent {
    var email: string
    var password: string
    var message: Option<string>
    var messageType: Option<MessageKind>
    var storage: map<string, Item>
    /** The route pushed by the router, if any. */
    var route: Option<string>

    constructor (storage: map<string, Item>)
      ensures email == "" && password == "" && this.storage == storage
      ensures message.None? && messageType.None? && route.None?
    {
      email := "";
      password := "";
      message := None;
      messageType := None;
      this.storage := storage;
      route := None;
    }

    /** `handleChange`: only the input named by the id changes. */
    method HandleChange(id: LoginInput, value: string)
      modifies this
      ensures email == (if id == EmailInput then value else old(email))
      ensures password == (if id == PasswordInput then value else old(password))
      ensures storage == old(storage) && route == old(route)
      ensures message == old(message) && messageType == old(messageType)
    {
      match id {
        case EmailInput => email := value;
        case PasswordInput => password := value;
      }
    }

    /** The effect on mount (and whenever the mode changes). */
    method OnMount(isProfessional: bool)
      modifies this
      ensures route == (if MountRedirect(storage, isProfessional).Some? then MountRedirect(storage, isProfessional) else old(route))
      ensures storage == old(storage) && email == old(email) && password == old(password)
      ensures message == old(message) && messageType == old(messageType)
    {
      var token := if TokenKey in storage && storage[TokenKey].TokenItem? then storage[TokenKey].token else "";
      if token != "" {
        var role := StoredRole(storage);
        if role == Some(Database.RoleProfessional) && !isProfessional {
          route := Some(ProfessionalDashboard);
        } else if role == Some(Database.RolePatient) && isProfessional {
          route := Some(PatientDashboard);
        } else if role == Some(Database.RoleProfessional) && isProfessional {
          route := Some(ProfessionalDashboard);
        } else if role == Some(Database.RolePatient) && !isProfessional {
          route := Some(PatientDashboard);
        }
      }
    }

    /** The first half of `handleSubmit`: clear the previous message and
      build the request body. */
    method StartSubmit() returns (body: Login.LoginBody)
      modifies this
      ensures body == Login.LoginBody(Some(email), Some(password))
      ensures message.None? && messageType.None?
      ensures storage == old(storage) && route == old(route) && email == old(email) && password == old(password)
    {
      message := None;
      messageType := None;
      body := Login.LoginBody(Some(email), Some(password));
    }

    /** The second half, once the request settled with `outcome`. */
    method FinishSubmit(isProfessional: bool, outcome: FetchOutcome<LoginResult>)
      modifies this
      ensures var r := AfterLogin(old(storage), isProfessional, outcome);
              && storage == r.storage && message == Some(r.message) && messageType == Some(r.kind)
              && route == (if r.route.Some? then r.route else old(route))
      ensures email == old(email) && password == old(password)
    {
      match outcome {
        case Ok(res) =>
          message := Some(SuccessMessage);
          messageType := Some(Success);
          storage := storage[TokenKey := TokenItem(res.token)];
          storage := storage[UserKey := UserItem(res.user)];
          if ModeMatches(isProfessional, res.user.role) {
            route := Some(if res.user.role == Database.RoleProfessional then ProfessionalDashboard else PatientDashboard);
          } else {
            message := Some(RoleMismatchMessage);
            messageType := Some(Error);
            storage := storage - {TokenKey};
            storage := storage - {UserKey};
          }
        case NotOk(m) =>
          message := Some(MessageOr(m, LoginFailedMessage));
          messageType := Some(Error);
        case Threw(isError) =>
          message := Some(CaughtMessage(isError));
          messageType := Some(Error);
      }
    }
  }
}

/** GET /api/user: a ladder of early returns over the Authorization header
    and the token it carries (401, then 403), then two read-only queries
    selected by the token's userID (404 when the user is gone, 500 when a
    query fails), and a 200 with the profile and the user's appointments.
    Every answer but the 200 tells the client to drop its token. */
module UserProfile {
  import opened Common
  import opened Externals
  import opened Database
  import opened Bearer

  /** One row of the appointments query: the specialty name comes from two
      LEFT JOINs and is null when there is no professional or specialty. */
  datatype AppointmentView = AppointmentView(date: string, status: string, specialtyName: Option<string>)

  datatype Profile = Profile(
    userID: nat,
    firstName: string,
    lastName: string,
    email: string,
    phoneNumber: Option<string>,
    dateOfBirth: Option<string>,
    role: string,
    appointments: seq<AppointmentView>
  )

  datatype ProfileResponse =
    | Found(user: Profile)
    | NoHeader                      // 401 'Token no proporcionado.'
    | TokenRefused(message: string) // 403
    | UserNotFound                  // 404
    | ServerError(detail: string)   // 500
  {
    function Status(): int
    {
      match this
      case Found(_) => 200
      case NoHeader => 401
      case TokenRefused(_) => 403
      case UserNotFound => 404
      case ServerError(_) => 500
    }

    /** `removeToken: true` accompanies every answer that is not a 200. */
    predicate RemoveToken()
    {
      !Found?
    }
  }

  const MissingTokenMessage := "Token no válido."
  const ExpiredTokenMessage := "Token no válido o expirado."
  const UnknownErrorDetail := "Error desconocido"

  // ---------------------------------------------------------------- the appointments query

  /** `LEFT JOIN HealthcareProfessionals hp ON a.ProfessionalID = hp.ProfessionalID`. */
  function ProfessionalById(professionals: seq<ProfessionalRow>, id: nat): (r: Option<ProfessionalRow>)
    ensures r.None? <==> forall i :: 0 <= i < |professionals| ==> professionals[i].professionalId != id
    ensures r.Some? ==> r.value in professionals && r.value.professionalId == id
  {
    if professionals == [] then None
    else if professionals[0].professionalId == id then Some(professionals[0])
    else ProfessionalById(professionals[1..], id)
  }

  /** `LEFT JOIN Specialties s ON hp.SpecialtyID = s.SpecialtyID`, the name. */
  function SpecialtyName(specialties: seq<SpecialtyRow>, id: nat): (r: Option<string>)
    ensures r.None? <==> forall i :: 0 <= i < |specialties| ==> specialties[i].specialtyId != id
    ensures r.Some? ==> SpecialtyRow(id, r.value) in specialties
  {
    if specialties == [] then None
    else if specialties[0].specialtyId == id then Some(specialties[0].name)
    else SpecialtyName(specialties[1..], id)
  }

  /** One appointment as the query returns it. */
  function View(s: Store, a: AppointmentRow): AppointmentView
  {
    var hp := if a.professionalId.Some? then ProfessionalById(s.professionals, a.professionalId.value) else None;
    AppointmentView(a.date, a.status, if hp.Some? then SpecialtyName(s.specialties, hp.value.specialtyId) else None)
  }

  /** `... FROM Appointments a ... WHERE a.UserID = ?`, in table order. */
  function AppointmentsOf(s: Store, appointments: seq<AppointmentRow>, userId: int): (r: seq<AppointmentView>)
    ensures |r| <= |appointments|
  {
    if appointments == [] then []
    else
      var rest := AppointmentsOf(s, appointments[1..], userId);
      if appointments[0].userId == userId then [View(s, appointments[0])] + rest else rest
  }

  /** Exactly the user's appointments: every returned row is the view of an
      appointment of that user, every appointment of that user is returned,
      and a user without appointments gets an empty list. */
  lemma {:induction false} AppointmentsOfSelectsUser(s: Store, appointments: seq<AppointmentRow>, userId: int)
    ensures var r := AppointmentsOf(s, appointments, userId);
            && (forall v :: v in r ==> exists a :: a in appointments && a.userId == userId && v == View(s, a))
            && (forall a :: a in appointments && a.userId == userId ==> View(s, a) in r)
            && ((forall a :: a in appointments ==> a.userId != userId) ==> r == [])
  {
    if appointments != [] {
      AppointmentsOfSelectsUser(s, appointments[1..], userId);
      assert forall a :: a in appointments[1..] ==> a in appointments;
      assert forall a :: a in appointments ==> a == appointments[0] || a in appointments[1..];
    }
  }

  /** The query distributes over the table: the rows of a longer table are
      the rows of its parts, in order. */
  lemma {:induction false} AppointmentsOfAppend(s: Store, a: seq<AppointmentRow>, b: seq<AppointmentRow>, userId: int)
    ensures AppointmentsOf(s, a + b, userId) == AppointmentsOf(s, a, userId) + AppointmentsOf(s, b, userId)
  {
    if a == [] {
      assert a + b == b;
    } else {
      assert (a + b)[0] == a[0];
      assert (a + b)[1..] == a[1..] + b;
      AppointmentsOfAppend(s, a[1..], b, userId);
    }
  }

  // ---------------------------------------------------------------- the handler

  /** The token's user id, when `decodedToken?.user?.userID` is truthy. */
  function TokenUserId(p: Payload): (id: Option<int>)
    ensures id.Some? <==> p.user.Some? && p.user.value.userID.Some? && p.user.value.userID.value != 0
    ensures id.Some? ==> id == p.user.value.userID
  {
    if p.user.Some? && p.user.value.userID.Some? && p.user.value.userID.value != 0
    then p.user.value.userID else None
  }

  function FailureResponse(f: Failure): (r: ProfileResponse)
    ensures r.Status() == 500
    ensures r.detail == (if f.NonErrorThrown? then UnknownErrorDetail else Detail(f).value)
  {
    var d := Detail(f);
    ServerError(if d.Some? then d.value else UnknownErrorDetail)
  }

  /** `GET`: `verify` stands for `jwt.verify(token, process.env.JWT_SECRET)`. */
  function GetUser(s: Store, verify: Verifier, header: Option<string>, fault: Fault): ProfileResponse
  {
    if !Truthy(header) then NoHeader
    else
      var token := TokenOf(header.value);
      if !Truthy(token) then TokenRefused(MissingTokenMessage)
      else
        var decoded := verify(token.value);
        if decoded.None? then TokenRefused(ExpiredTokenMessage)
        else
          var userId := TokenUserId(decoded.value);
          if userId.None? then TokenRefused(MissingTokenMessage)
          else ProfileOf(s, userId.value, fault)
  }

  /** The part of `GET` after the token: the two queries for one user id. */
  function ProfileOf(s: Store, userId: int, fault: Fault): (r: ProfileResponse)
    ensures r.Status() in {200, 404, 500}
  {
    var found := Exec(UserLookupStep, fault, Ok(FirstUserById(s.users, userId)));
    if found.Err? then FailureResponse(found.error)
    else if found.value.None? then UserNotFound
    else
      var u := found.value.value;
      var appointments := Exec(AppointmentLookupStep, fault, Ok(AppointmentsOf(s, s.appointments, userId)));
      if appointments.Err? then FailureResponse(appointments.error)
      else Found(Profile(u.userId, u.firstName, u.lastName, u.email, u.phoneNumber, u.dateOfBirth, u.role,
                         appointments.value))
  }

  // ---------------------------------------------------------------- properties

  /** The ladder: 401 without a header, 403 for every problem with the token,
      and only a verified token naming a user id reaches the store. */
  lemma {:induction false} Ladder(s: Store, verify: Verifier, header: Option<string>, fault: Fault)
    ensures var r := GetUser(s, verify, header, fault);
            && (r.Status() == 401 <==> !Truthy(header))
            && (r.Status() == 403 <==>
                  Truthy(header) && (!Truthy(TokenOf(header.value))
                                     || verify(TokenOf(header.value).value).None?
                                     || TokenUserId(verify(TokenOf(header.value).value).value).None?))
            && (r.Status() in {200, 404, 500} ==>
                  r == ProfileOf(s, TokenUserId(verify(TokenOf(header.value).value).value).value, fault))
  {
  }

  /** A header without a second space-separated field is refused with 403. */
  lemma {:induction false} NoSecondFieldIs403(s: Store, verify: Verifier, header: string, fault: Fault)
    requires header != "" && ' ' !in header
    ensures GetUser(s, verify, Some(header), fault) == TokenRefused(MissingTokenMessage)
  {
  }

  /** Two tokens carrying the same user id get the same answer: the id alone
      selects the user row and the appointments. */
  lemma {:induction false} UserIdAloneDecides(s: Store, verify: Verifier, h1: string, h2: string, fault: Fault)
    requires GetUser(s, verify, Some(h1), fault).Status() in {200, 404, 500}
    requires GetUser(s, verify, Some(h2), fault).Status() in {200, 404, 500}
    requires TokenUserId(verify(TokenOf(h1).value).value) == TokenUserId(verify(TokenOf(h2).value).value)
    ensures GetUser(s, verify, Some(h1), fault) == GetUser(s, verify, Some(h2), fault)
  {
    Ladder(s, verify, Some(h1), fault);
    Ladder(s, verify, Some(h2), fault);
  }

  /** Without a fault: 404 exactly when no row has that id, otherwise 200
      with every column of a row holding that id and exactly that user's
      appointments (an empty list when there are none); no other answer. */
  lemma {:induction false} FoundIffUserExists(s: Store, userId: int)
    ensures var r := ProfileOf(s, userId, NoFault);
            && (r.Found? || r == UserNotFound)
            && (r == UserNotFound <==> forall i :: 0 <= i < |s.users| ==> s.users[i].userId != userId)
            && (r.Found? ==>
                  exists i :: 0 <= i < |s.users| && s.users[i].userId == userId
                              && r.user == Profile(s.users[i].userId, s.users[i].firstName, s.users[i].lastName,
                                                   s.users[i].email, s.users[i].phoneNumber, s.users[i].dateOfBirth,
                                                   s.users[i].role, AppointmentsOf(s, s.appointments, userId)))
  {
    var r := ProfileOf(s, userId, NoFault);
    if r.Found? {
      var u := FirstUserById(s.users, userId).value;
      var i :| 0 <= i < |s.users| && s.users[i] == u;
    }
  }

  /** On a store that keeps its primary key, the row the query returns does
      not depend on the order rows come back in: the 200 carries the columns
      of the one row holding that id. */
  lemma {:induction false} ProfileOfTheRow(s: Store, userId: int, i: int)
    requires Valid(s) && 0 <= i < |s.users| && s.users[i].userId == userId
    ensures ProfileOf(s, userId, NoFault) ==
              Found(Profile(s.users[i].userId, s.users[i].firstName, s.users[i].lastName, s.users[i].email,
                            s.users[i].phoneNumber, s.users[i].dateOfBirth, s.users[i].role,
                            AppointmentsOf(s, s.appointments, userId)))
  {
    FoundIffUserExists(s, userId);
    var r := ProfileOf(s, userId, NoFault);
    var j :| 0 <= j < |s.users| && s.users[j].userId == userId
             && r.user == Profile(s.users[j].userId, s.users[j].firstName, s.users[j].lastName,
                                  s.users[j].email, s.users[j].phoneNumber, s.users[j].dateOfBirth,
                                  s.users[j].role, AppointmentsOf(s, s.appointments, userId));
    assert i == j;
  }

  /** `removeToken` is set on exactly the answers that are not 200. */
  lemma {:induction false} RemoveTokenUnlessOk(s: Store, verify: Verifier, header: Option<string>, fault: Fault)
    ensures var r := GetUser(s, verify, header, fault);
            r.RemoveToken() <==> r.Status() != 200
  {
  }
}

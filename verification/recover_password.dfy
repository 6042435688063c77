/** POST /api/auth/recover-password: check that an email was sent, then
    whether some Users row has it. The store is only read. */
module RecoverPassword {
  import opened Common
  import opened Database

  datatype RecoverResponse =
    | EmailMissing     // 400, before any query
    | NoSuchUser       // 404
    | EmailVerified    // 200
    | ServerError      // 500, a fixed message
  {
    function Status(): int
    {
      match this
      case EmailMissing => 400
      case NoSuchUser => 404
      case EmailVerified => 200
      case ServerError => 500
    }
  }

  /** `POST`; `email` is the body's `email` field. */
  function Recover(s: Store, email: Option<string>, fault: Fault): RecoverResponse
  {
    if !Truthy(email) then EmailMissing
    else
      var rows := Exec(UserLookupStep, fault, Ok(FirstUserByEmail(s.users, email.value)));
      if rows.Err? then ServerError
      else if rows.value.None? then NoSuchUser
      else EmailVerified
  }

  /** The four outcomes: 400 exactly for a missing or empty email, whatever
      the store and the database do; otherwise 500 when the query fails, and
      then 200 or 404 by whether the email is registered. */
  lemma {:induction false} Outcomes(s: Store, email: Option<string>, fault: Fault)
    ensures var r := Recover(s, email, fault);
            && (r.Status() == 400 <==> !Truthy(email))
            && (Truthy(email) ==>
                  && (r.Status() == 500 <==> fault.FailAt? && fault.step == UserLookupStep)
                  && (r.Status() == 200 <==> !(fault.FailAt? && fault.step == UserLookupStep)
                                             && EmailInUse(s.users, email.value))
                  && (r.Status() == 404 <==> !(fault.FailAt? && fault.step == UserLookupStep)
                                             && !EmailInUse(s.users, email.value)))
  {
  }

  /** Without a fault the answer is 200 right after that email was
      registered: a registered user can always start recovery. */
  lemma {:induction false} RegisteredEmailVerified(s: Store, row: UserRow)
    requires row.email != ""
    requires InsertUserRow(s, row).Ok?
    ensures Recover(InsertUserRow(s, row).value.0, Some(row.email), NoFault) == EmailVerified
  {
    var s1 := InsertUserRow(s, row).value.0;
    assert s1.users[|s1.users| - 1].email == row.email;
  }
}

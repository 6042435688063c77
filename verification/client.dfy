/** What the client components share: the result of a `fetch`, the kinds
    of message they display, and the submit gate of the two registration
    forms (validate, then send, then report). */
module Client {
  import opened Common

  datatype MessageKind = Success | Error

  /** What `fetch` followed by `response.json()` produced. */
  datatype FetchOutcome<+T> =
    | Ok(result: T)                         // `response.ok`, with the parsed body
    | NotOk(serverMessage: Option<string>)  // any other status; `result.message`
    | Threw(isError: bool)                  // the request or the parse threw

  const IncompleteMessage := "Por favor, completa todos los campos obligatorios."
  const RegisteredMessage := "Registro exitoso. Ahora puedes iniciar sesión."
  const RegisterFailedMessage := "Error en el registro"
  const RequestErrorMessage := "Hubo un error al procesar la solicitud. Intenta de nuevo más tarde."
  const UnknownErrorMessage := "Error desconocido. Por favor, intenta más tarde."

  /** `result.message || fallback`. */
  function MessageOr(serverMessage: Option<string>, fallback: string): string
  {
    if Truthy(serverMessage) then serverMessage.value else fallback
  }

  /** The message of the `catch` block. */
  function CaughtMessage(isError: bool): string
  {
    if isError then RequestErrorMessage else UnknownErrorMessage
  }

  /** What one submission of a registration form does: the request it
      sends, the errors it records, the message it shows and where it
      navigates after the success delay. */
  datatype SubmitEffect<+P, F> = SubmitEffect(
    sent: Option<P>,
    errors: Option<set<F>>,  // None: `errors` is left as it was
    message: string,
    kind: MessageKind,
    redirect: Option<string>
  )

  /** `handleSubmit` of both registration forms, given the validation
      errors, the payload the form would send and how the request went. */
  function RegisterSubmit<P, F>(errors: set<F>, payload: P, outcome: FetchOutcome<()>,
                                loginPath: string): (e: SubmitEffect<P, F>)
    ensures e.sent.None? <==> |errors| > 0
    ensures e.sent.None? ==> e.errors == Some(errors) && e.message == IncompleteMessage && e.kind == Error
    ensures e.sent.Some? ==> e.sent.value == payload && e.errors.None?
    ensures e.redirect.Some? <==> e.sent.Some? && outcome.Ok?
    ensures e.redirect.Some? ==> e.redirect.value == loginPath && e.message == RegisteredMessage
    ensures e.kind == Success <==> e.redirect.Some?
  {
    if |errors| > 0 then SubmitEffect(None, Some(errors), IncompleteMessage, Error, None)
    else
      match outcome
      case Ok(_) => SubmitEffect(Some(payload), None, RegisteredMessage, Success, Some(loginPath))
      case NotOk(m) => SubmitEffect(Some(payload), None, MessageOr(m, RegisterFailedMessage), Error, None)
      case Threw(isError) => SubmitEffect(Some(payload), None, CaughtMessage(isError), Error, None)
  }
}

/**
 * The registration form (components/auth/signup-form.tsx).  Its checks run
 * in order before any request; the signup request's reply and the following
 * sign-in are parameters, and the outcome is the toast and the navigation.
 */
module SignupForm {

  import opened Wrappers

  datatype FormData = FormData(
    fullName: string,
    cedula: string,
    phone: string,
    email: string,
    password: string,
    confirmPassword: string)

  /** The JSON body posted to the signup route. */
  datatype SignupRequest = SignupRequest(name: string, email: string, password: string)

  /** How the signup request ended: an ok reply, a non-ok reply with its `error`, or an exception. */
  datatype SignupReply = ReplyOk | ReplyNotOk(error: Option<string>) | ReplyThrew(message: Option<string>)

  datatype Outcome =
    | Refused(reason: string)        // a local check failed, nothing was sent
    | SignupFailed(reason: string)   // the request was sent and failed
    | CreatedGoToLogin               // account created, sign-in failed
    | CreatedGoToDashboard           // account created and signed in

  const MismatchMessage := "Las contraseñas no coinciden"
  const TooShortMessage := "La contraseña debe tener al menos 6 caracteres"
  const MinPasswordLength := 6

  /** The local checks: the two passwords must agree, then the password must be at least 6 characters. */
  function Validate(f: FormData): (r: Option<string>)
    ensures f.password != f.confirmPassword ==> r == Some(MismatchMessage)
    ensures f.password == f.confirmPassword && |f.password| < MinPasswordLength ==> r == Some(TooShortMessage)
    ensures r.None? <==> f.password == f.confirmPassword && |f.password| >= MinPasswordLength
  {
    if f.password != f.confirmPassword then Some(MismatchMessage)
    else if |f.password| < 6 then Some(TooShortMessage)
    else None
  }

  function Request(f: FormData): SignupRequest {
    SignupRequest(f.fullName, f.email, f.password)
  }

  /** `handleSubmit`. */
  function Submit(f: FormData, reply: SignupReply, signInFailed: bool): (r: Outcome)
    ensures Validate(f).Some? <==> r.Refused?
    ensures r.Refused? ==> r.reason == Validate(f).value
    ensures Validate(f).None? && reply.ReplyNotOk? ==> r == SignupFailed(OrElse(reply.error, "Error al crear la cuenta"))
    ensures Validate(f).None? && reply.ReplyThrew? ==> r == SignupFailed(OrElse(reply.message, "No se pudo crear la cuenta"))
    ensures r == CreatedGoToLogin <==> Validate(f).None? && reply == ReplyOk && signInFailed
    ensures r == CreatedGoToDashboard <==> Validate(f).None? && reply == ReplyOk && !signInFailed
  {
    match Validate(f)
    case Some(reason) => Refused(reason)
    case None =>
      match reply
      case ReplyNotOk(error) => SignupFailed(OrElse(error, "Error al crear la cuenta"))
      case ReplyThrew(message) => SignupFailed(OrElse(message, "No se pudo crear la cuenta"))
      case ReplyOk => if signInFailed then CreatedGoToLogin else CreatedGoToDashboard
  }

  /** A mismatch is reported even when the password is also too short. */
  lemma MismatchReportedFirst(f: FormData)
    requires f.password != f.confirmPassword && |f.password| < MinPasswordLength
    ensures Validate(f) == Some(MismatchMessage)
  {
  }

  /** Six characters are enough; five are not. */
  lemma LengthBoundary(f: FormData)
    requires f.password == f.confirmPassword
    ensures |f.password| == 6 ==> Validate(f).None?
    ensures |f.password| == 5 ==> Validate(f) == Some(TooShortMessage)
  {
  }

  /** Cédula and phone never reach the request. */
  lemma RequestIgnoresCedulaAndPhone(f: FormData, cedula: string, phone: string)
    ensures Request(f.(cedula := cedula, phone := phone)) == Request(f)
  {
  }

  /** A failed signup reply never leads to a sign-in or a navigation, and its reason is never blank. */
  lemma FailureStaysOnPage(f: FormData, reply: SignupReply, signInFailed: bool)
    requires !reply.ReplyOk?
    ensures !Submit(f, reply, signInFailed).CreatedGoToLogin? && !Submit(f, reply, signInFailed).CreatedGoToDashboard?
    ensures Submit(f, reply, signInFailed).reason != ""
  {
  }
}

/**
 * The login form (components/auth/login-form.tsx).  `signIn` and
 * `getSession` are parameters: how the sign-in call ended, and the role the
 * fresh session carries.  The page navigation is the returned URL.
 */
module LoginForm {

  import opened Wrappers
  import opened Types
  import AuthHeader

  /** How `signIn` ended: a result with `error`, one with `ok`, one with neither, or an exception. */
  datatype SignInReply = ReplyError | ReplyOk | ReplyNeither | ReplyThrew

  const WrongCredentials := "Correo o contraseña incorrectos"
  const Unexpected := "Error inesperado al iniciar sesión"
  const SignInFailed := "Error al iniciar sesión"

  /** The `redirectUrl` chain. */
  function RedirectFor(role: Option<UserRole>): (url: string)
    ensures role == Some(AdminUser) ==> url == "/admin"
    ensures role == Some(DoctorUser) ==> url == "/doctor/dashboard"
    ensures role == Some(AllyUser) ==> url == "/aliado/validar"
    ensures role != Some(AdminUser) && role != Some(DoctorUser) && role != Some(AllyUser) ==> url == "/dashboard"
  {
    var url := "/dashboard";
    if role == Some(AdminUser) then "/admin"
    else if role == Some(DoctorUser) then "/doctor/dashboard"
    else if role == Some(AllyUser) then "/aliado/validar"
    else url
  }

  /** After login a user lands where the header's dashboard link points, for every role. */
  lemma RedirectAgreesWithHeader(role: Option<UserRole>)
    ensures RedirectFor(role) == AuthHeader.DashboardLink(role)
  {
  }

  class LoginPage {
    var error: string
    var isLoading: bool

    constructor ()
      ensures error == "" && !isLoading
    {
      error := "";
      isLoading := false;
    }

    /**
     * `handleSubmit`.  Only an ok result navigates; it leaves the loading
     * flag set, since the page is being replaced.  Every other ending shows
     * its message and clears the flag.
     */
    method HandleSubmit(reply: SignInReply, sessionRole: Option<UserRole>) returns (redirect: Option<string>)
      modifies this
      ensures redirect.Some? <==> reply == ReplyOk
      ensures reply == ReplyOk ==> redirect == Some(RedirectFor(sessionRole)) && error == "" && isLoading
      ensures reply == ReplyError ==> error == WrongCredentials && !isLoading
      ensures reply == ReplyNeither ==> error == Unexpected && !isLoading
      ensures reply == ReplyThrew ==> error == SignInFailed && !isLoading
    {
      isLoading := true;
      error := "";
      redirect := None;
      match reply {
        case ReplyError =>
          error := WrongCredentials;
          isLoading := false;
        case ReplyOk =>
          redirect := Some(RedirectFor(sessionRole));
        case ReplyNeither =>
          error := Unexpected;
          isLoading := false;
        case ReplyThrew =>
          error := SignInFailed;
          isLoading := false;
      }
    }
  }
}

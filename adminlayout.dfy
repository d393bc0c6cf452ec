/**
 * The admin area guard (app/admin/layout.tsx): the effect's navigation and
 * what the layout draws, over the path, the session status and the user.
 */
module AdminLayout {

  import opened Wrappers
  import opened Types
  import opened AuthConfig

  datatype View = Spinner | Blank | Panel

  const LoginPath := "/admin/login"

  /** `session?.user?.role === 'admin'`. */
  predicate IsAdmin(user: Option<SessionUser>) {
    user.Some? && user.value.role == Some(AdminUser)
  }

  /** The effect: `router.replace` target, if any. */
  function Redirect(path: string, status: SessionStatus, user: Option<SessionUser>): (r: Option<string>)
    ensures path == LoginPath ==> r.None?
    ensures path != LoginPath && status == Unauthenticated ==> r == Some("/login")
    ensures path != LoginPath && status == Authenticated ==> (r == Some("/dashboard") <==> !IsAdmin(user))
    ensures status == Loading ==> r.None?
  {
    if path == LoginPath then None
    else if status == Unauthenticated then Some("/login")
    else if status == Authenticated && !IsAdmin(user) then Some("/dashboard")
    else None
  }

  /** What the layout renders. */
  function ViewFor(path: string, status: SessionStatus, user: Option<SessionUser>): (v: View)
    ensures path == LoginPath ==> v == Panel
    ensures path != LoginPath ==> (v == Spinner <==> status == Loading)
    ensures path != LoginPath ==> (v == Panel <==> status.Authenticated? && IsAdmin(user))
  {
    if path != LoginPath && status == Loading then Spinner
    else if path != LoginPath && (status == Unauthenticated || !IsAdmin(user)) then Blank
    else Panel
  }

  /** Whenever the panel is drawn away from the login page, the effect stays put. */
  lemma PanelMeansNoRedirect(path: string, status: SessionStatus, user: Option<SessionUser>)
    requires ViewFor(path, status, user) == Panel
    ensures Redirect(path, status, user).None?
  {
  }

  /** A signed-out visitor away from the login page is sent to /login and sees nothing meanwhile. */
  lemma SignedOutSeesNothing(path: string, user: Option<SessionUser>)
    requires path != LoginPath
    ensures Redirect(path, Unauthenticated, user) == Some("/login")
    ensures ViewFor(path, Unauthenticated, user) == Blank
  {
  }
}

/**
 * The doctor area guard (app/doctor/layout.tsx): the effect's navigation and
 * what the layout draws, over the session status and the user.
 */
module DoctorLayout {

  import opened Wrappers
  import opened Types
  import opened AuthConfig
  import DoctorDashboard

  datatype View = Spinner | Blank | Portal

  /** `session?.user?.role === 'doctor'`. */
  predicate IsDoctor(user: Option<SessionUser>) {
    user.Some? && user.value.role == Some(DoctorUser)
  }

  function Redirect(status: SessionStatus, user: Option<SessionUser>): (r: Option<string>)
    ensures status == Unauthenticated ==> r == Some("/login")
    ensures status == Authenticated ==> (r == Some("/dashboard") <==> !IsDoctor(user))
    ensures r.Some? ==> status != Loading
  {
    if status == Unauthenticated then Some("/login")
    else if status == Authenticated && !IsDoctor(user) then Some("/dashboard")
    else None
  }

  function ViewFor(status: SessionStatus, user: Option<SessionUser>): (v: View)
    ensures v == Spinner <==> status == Loading
    ensures v == Portal <==> status.Authenticated? && IsDoctor(user)
  {
    if status == Loading then Spinner
    else if status == Unauthenticated || !IsDoctor(user) then Blank
    else Portal
  }

  /** The layout and the doctor dashboard page apply the same navigation rule. */
  lemma AgreesWithDashboardPage(status: SessionStatus, user: Option<SessionUser>)
    ensures Redirect(status, user) == DoctorDashboard.Redirect(status, user)
  {
  }

  /** When the layout draws the portal, the dashboard page inside it draws its agenda. */
  lemma PortalShowsAgenda(status: SessionStatus, user: Option<SessionUser>)
    requires ViewFor(status, user) == Portal
    ensures DoctorDashboard.ShowsAgenda(status, user) && Redirect(status, user).None?
  {
  }
}

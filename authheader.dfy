/**
 * The signed-in header (components/layout/auth-header.tsx): the avatar
 * initials, the dashboard link and the role-dependent menu entries.
 */
module AuthHeader {

  import opened Wrappers
  import opened Text
  import opened Types
  import UserDashboard

  /** `getInitials`: "U" for a missing or empty name, otherwise at most two upper-cased word initials. */
  function Initials(name: Option<string>): (r: string)
    ensures !Present(name) ==> r == "U"
    ensures Present(name) ==> r == WordInitials(name.value)
    ensures |r| <= 2
  {
    if !Present(name) then "U" else WordInitials(name.value)
  }

  /** The header and the patient dashboard draw the same initials for every name. */
  lemma InitialsAgreeWithDashboard(name: Option<string>)
    ensures Initials(name) == UserDashboard.Initials(name)
  {
  }

  /** `getDashboardLink` on `session.user.role`. */
  function DashboardLink(role: Option<UserRole>): (r: string)
    ensures role == Some(PatientUser) ==> r == "/dashboard"
    ensures role == Some(DoctorUser) ==> r == "/doctor/dashboard"
    ensures role == Some(AdminUser) ==> r == "/admin"
    ensures role == Some(AllyUser) ==> r == "/aliado/validar"
    ensures role.None? || role == Some(PublicUser) ==> r == "/dashboard"
  {
    match role
    case Some(DoctorUser) => "/doctor/dashboard"
    case Some(AdminUser) => "/admin"
    case Some(AllyUser) => "/aliado/validar"
    case _ => "/dashboard"
  }

  /** The "Miembro" badge. */
  predicate ShowsMemberBadge(role: Option<UserRole>, membershipActive: Option<bool>) {
    role == Some(PatientUser) && membershipActive == Some(true)
  }

  /** The "Mis Citas" entry. */
  predicate ShowsMyAppointments(role: Option<UserRole>) {
    role == Some(PatientUser)
  }

  /** The "Obtener Membresía" entry. */
  predicate ShowsGetMembership(role: Option<UserRole>, membershipActive: Option<bool>) {
    role == Some(PatientUser) && membershipActive != Some(true)
  }

  /** A patient sees exactly one of the badge and the membership offer; other roles see neither. */
  lemma BadgeXorOffer(role: Option<UserRole>, membershipActive: Option<bool>)
    ensures role == Some(PatientUser) ==> (ShowsMemberBadge(role, membershipActive) <==> !ShowsGetMembership(role, membershipActive))
    ensures role != Some(PatientUser) ==> !ShowsMemberBadge(role, membershipActive) && !ShowsGetMembership(role, membershipActive)
    ensures ShowsGetMembership(role, membershipActive) ==> ShowsMyAppointments(role)
  {
  }
}

/**
 * The doctor's agenda (components/pages/doctor-dashboard.tsx): the signed-in
 * doctor's appointments, a status filter, a date-and-time ordering, the
 * three counters and the redirect rule.  `instant` stands for
 * `new Date(text).getTime()`.
 */
module DoctorDashboard {

  import opened Wrappers
  import opened Lists
  import opened Types
  import opened AuthConfig

  datatype ListFilter = PaidOnly | PendingOnly | All

  const InitialFilter := PaidOnly

  /** The appointments whose doctor is the signed-in user's doctor; none when the session has no doctor id. */
  function DoctorAppointments(appointments: seq<Appointment>, doctorId: Option<string>): (r: seq<Appointment>)
    ensures forall a :: a in r <==> a in appointments && doctorId == Some(a.doctorId)
    ensures IsSubsequence(r, appointments)
    ensures forall a :: multiset(r)[a] == if doctorId == Some(a.doctorId) then multiset(appointments)[a] else 0
    ensures doctorId.None? ==> r == []
  {
    if doctorId.None? then
      FilterNone(appointments, (a: Appointment) => doctorId == Some(a.doctorId));
      Filter(appointments, (a: Appointment) => doctorId == Some(a.doctorId))
    else Filter(appointments, (a: Appointment) => doctorId == Some(a.doctorId))
  }

  /** "paid" keeps paid, "pending" keeps pending and awaiting verification, "all" keeps everything. */
  predicate Passes(f: ListFilter, a: Appointment) {
    match f
    case PaidOnly => a.status == Paid
    case PendingOnly => a.status == Pending || a.status == PendingVerification
    case All => true
  }

  function Filtered(own: seq<Appointment>, f: ListFilter): (r: seq<Appointment>)
    ensures forall a :: a in r <==> a in own && Passes(f, a)
    ensures IsSubsequence(r, own)
    ensures forall a :: multiset(r)[a] == if Passes(f, a) then multiset(own)[a] else 0
    ensures f == All ==> r == own
  {
    if f == All then
      FilterAll(own, (a: Appointment) => Passes(f, a));
      Filter(own, (a: Appointment) => Passes(f, a))
    else Filter(own, (a: Appointment) => Passes(f, a))
  }

  /** The moment an appointment starts, as the sort compares it. */
  function StartKey(instant: string -> int): Appointment -> int {
    (a: Appointment) => instant(a.date + "T" + a.time)
  }

  /** The list on display: the filtered appointments, earliest first. */
  function Displayed(own: seq<Appointment>, f: ListFilter, instant: string -> int): (r: seq<Appointment>)
    ensures SortedBy(r, StartKey(instant))
    ensures multiset(r) == multiset(Filtered(own, f))
    ensures forall a :: a in r <==> a in own && Passes(f, a)
  {
    var r := SortBy(Filtered(own, f), StartKey(instant));
    assert forall a :: a in r <==> a in multiset(r);
    assert forall a :: a in Filtered(own, f) <==> a in multiset(Filtered(own, f));
    r
  }

  function PaidCount(own: seq<Appointment>): nat {
    Count(own, (a: Appointment) => a.status == Paid)
  }

  function CompletedCount(own: seq<Appointment>): nat {
    Count(own, (a: Appointment) => a.status == Completed)
  }

  /** Paid or completed appointments dated `today` (the `YYYY-MM-DD` of now). */
  function TodayCount(own: seq<Appointment>, today: string): nat {
    Count(own, (a: Appointment) => a.date == today && (a.status == Paid || a.status == Completed))
  }

  /** Every counter is bounded by the doctor's total, and today's by the paid plus the completed. */
  lemma StatsBounded(own: seq<Appointment>, today: string)
    ensures PaidCount(own) <= |own| && CompletedCount(own) <= |own| && TodayCount(own, today) <= |own|
    ensures TodayCount(own, today) <= PaidCount(own) + CompletedCount(own)
    ensures PaidCount(own) + CompletedCount(own) <= |own|
  {
    CountCovered(own, (a: Appointment) => a.date == today && (a.status == Paid || a.status == Completed),
                 (a: Appointment) => a.status == Paid, (a: Appointment) => a.status == Completed);
    DisjointCounts(own);
  }

  lemma {:induction false} DisjointCounts(own: seq<Appointment>)
    ensures PaidCount(own) + CompletedCount(own) <= |own|
    decreases |own|
  {
    if own != [] {
      DisjointCounts(own[1..]);
    }
  }

  /** "Atender" is offered for paid appointments only. */
  predicate AttendOffered(a: Appointment) {
    a.status == Paid
  }

  /** The paid filter lists exactly the appointments that can be attended. */
  lemma PaidFilterIsAttendable(own: seq<Appointment>)
    ensures forall a :: a in Filtered(own, PaidOnly) <==> a in own && AttendOffered(a)
  {
  }

  /** The effect's navigation: to /login when signed out, to /dashboard when signed in as anyone but a doctor. */
  function Redirect(status: SessionStatus, user: Option<SessionUser>): (r: Option<string>)
    ensures status == Unauthenticated <==> r == Some("/login")
    ensures r == Some("/dashboard") <==>
      status == Authenticated && !(user.Some? && user.value.role == Some(DoctorUser))
    ensures status == Loading ==> r.None?
  {
    if status == Unauthenticated then Some("/login")
    else if status == Authenticated && !(user.Some? && user.value.role == Some(DoctorUser)) then Some("/dashboard")
    else None
  }

  /** The agenda is drawn only for a signed-in doctor, never while loading. */
  predicate ShowsAgenda(status: SessionStatus, user: Option<SessionUser>) {
    status != Loading && user.Some? && user.value.role == Some(DoctorUser)
  }

  /** When the agenda is drawn with an authenticated session, nothing redirects away from it. */
  lemma AgendaImpliesNoRedirect(status: SessionStatus, user: Option<SessionUser>)
    requires ShowsAgenda(status, user) && status == Authenticated
    ensures Redirect(status, user).None?
  {
  }
}

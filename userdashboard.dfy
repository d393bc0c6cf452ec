/**
 * The patient dashboard (components/pages/user-dashboard.tsx): the user's
 * own appointments by date, the upcoming ones, the three shown, the avatar
 * initials and the redirect when signed out.  `instant` stands for
 * `new Date(text).getTime()` and `now` for the current time in the same unit.
 */
module UserDashboard {

  import opened Wrappers
  import opened Text
  import opened Lists
  import opened Types
  import opened AuthConfig

  function DateKey(instant: string -> int): Appointment -> int {
    (a: Appointment) => instant(a.date)
  }

  /** The appointments whose patient is the signed-in user, earliest date first; none without a user id. */
  function UserAppointments(appointments: seq<Appointment>, userId: Option<string>, instant: string -> int)
    : (r: seq<Appointment>)
    ensures SortedBy(r, DateKey(instant))
    ensures forall a :: a in r <==> a in appointments && userId == Some(a.patientId)
    ensures multiset(r) == multiset(Filter(appointments, (a: Appointment) => userId == Some(a.patientId)))
  {
    var own := Filter(appointments, (a: Appointment) => userId == Some(a.patientId));
    var r := SortBy(own, DateKey(instant));
    assert forall a :: a in r <==> a in multiset(r);
    assert forall a :: a in own <==> a in multiset(own);
    r
  }

  /** Not cancelled and dated at or after now. */
  predicate IsUpcoming(a: Appointment, now: int, instant: string -> int) {
    instant(a.date) >= now && a.status != Cancelled
  }

  function Upcoming(mine: seq<Appointment>, now: int, instant: string -> int): (r: seq<Appointment>)
    ensures forall a :: a in r <==> a in mine && IsUpcoming(a, now, instant)
    ensures IsSubsequence(r, mine)
    ensures forall a :: multiset(r)[a] == if IsUpcoming(a, now, instant) then multiset(mine)[a] else 0
  {
    Filter(mine, (a: Appointment) => IsUpcoming(a, now, instant))
  }

  /** The list on the dashboard: the first three upcoming appointments. */
  function Shown(mine: seq<Appointment>, now: int, instant: string -> int): (r: seq<Appointment>)
    ensures |r| <= 3 && |r| <= |Upcoming(mine, now, instant)|
    ensures r == Upcoming(mine, now, instant)[..|r|]
    ensures |Upcoming(mine, now, instant)| >= 3 ==> |r| == 3
    ensures forall a :: a in r ==> a in mine && IsUpcoming(a, now, instant)
  {
    Take(Upcoming(mine, now, instant), 3)
  }

  /** The upcoming list stays in date order. */
  lemma UpcomingSorted(mine: seq<Appointment>, now: int, instant: string -> int)
    requires SortedBy(mine, DateKey(instant))
    ensures SortedBy(Upcoming(mine, now, instant), DateKey(instant))
  {
    SubsequenceSorted(Upcoming(mine, now, instant), mine, DateKey(instant));
  }

  /** The avatar: initials of the name, or of "Usuario" when there is none. */
  function Initials(name: Option<string>): (r: string)
    ensures |r| <= 2
    ensures !Present(name) ==> r == "U"
    ensures Present(name) ==> r == WordInitials(name.value)
  {
    InitialsOfOneWord("Usuario");
    WordInitials(OrElse(name, "Usuario"))
  }

  /** "ana maria" gives "AM". */
  lemma InitialsOfFullName()
    ensures Initials(Some("ana maria")) == "AM"
  {
    InitialsOfTwoWords("ana", "maria", "");
    assert "ana" + " " + "maria" + "" == "ana maria";
  }

  /** A signed-out session is sent to /login. */
  function Redirect(status: SessionStatus): (r: Option<string>)
    ensures r.Some? <==> status == Unauthenticated
    ensures r.Some? ==> r.value == "/login"
  {
    if status == Unauthenticated then Some("/login") else None
  }
}

/**
 * The patient's calendar (components/pages/appointments-calendar.tsx): a
 * month grid of the proleptic Gregorian calendar, month navigation, the
 * highlighting of days that hold one of the user's appointments, and the
 * sector and modality labels.  Months are numbered 0 (January) to 11, as
 * `Date.getMonth()` numbers them, and weekdays 0 (Sunday) to 6.
 */
module Calendar {

  import opened Wrappers
  import opened Text
  import opened Lists
  import opened Types
  import opened AuthConfig
  import Booking

  predicate IsLeap(y: int) {
    y % 4 == 0 && (y % 100 != 0 || y % 400 == 0)
  }

  predicate ValidMonth(m: int) {
    0 <= m < 12
  }

  /** The number of days of month m of year y (`new Date(y, m + 1, 0).getDate()`). */
  function DaysInMonth(y: int, m: int): (n: int)
    requires ValidMonth(m)
    ensures 28 <= n <= 31
  {
    if m == 1 then (if IsLeap(y) then 29 else 28)
    else if m == 3 || m == 5 || m == 8 || m == 10 then 30
    else 31
  }

  /** Days from 1 January of year 1 to 1 January of year y. */
  function DaysBeforeYear(y: int): int {
    365 * (y - 1) + (y - 1) / 4 - (y - 1) / 100 + (y - 1) / 400
  }

  /** Days from 1 January of year y to the first of month m (m = 12 gives the whole year). */
  function DaysBeforeMonth(y: int, m: int): (n: int)
    requires 0 <= m <= 12
    ensures n >= 0
  {
    [0, 31, 59, 90, 120, 151, 181, 212, 243, 273, 304, 334, 365][m] + (if m >= 2 && IsLeap(y) then 1 else 0)
  }

  /** Days from 1 January of year 1 to day d of month m of year y. */
  function DayNumber(y: int, m: int, d: int): int
    requires ValidMonth(m)
  {
    DaysBeforeYear(y) + DaysBeforeMonth(y, m) + (d - 1)
  }

  /** `getDay()`: 1 January of year 1 was a Monday. */
  function Weekday(y: int, m: int, d: int): (w: int)
    requires ValidMonth(m)
    ensures 0 <= w < 7
  {
    (DayNumber(y, m, d) + 1) % 7
  }

  /** `getFirstDayOfMonth`: the number of blank cells before day 1. */
  function FirstDayOfMonth(y: int, m: int): (w: int)
    requires ValidMonth(m)
    ensures 0 <= w < 7
  {
    Weekday(y, m, 1)
  }

  /** The day cells `1 .. daysInMonth`. */
  function Days(y: int, m: int): (r: seq<int>)
    requires ValidMonth(m)
    ensures |r| == DaysInMonth(y, m)
    ensures forall i :: 0 <= i < |r| ==> r[i] == i + 1
  {
    seq(DaysInMonth(y, m), i => i + 1)
  }

  // ---- the Gregorian rules the month table has to agree with ---------------

  /** The cumulative table agrees with the month lengths, month by month. */
  lemma MonthStep(y: int, m: int)
    requires ValidMonth(m)
    ensures DaysBeforeMonth(y, m + 1) == DaysBeforeMonth(y, m) + DaysInMonth(y, m)
  {
  }

  /** The twelve month lengths add up to 365, or 366 in a leap year. */
  lemma YearLength(y: int)
    ensures DaysBeforeMonth(y, 12) == if IsLeap(y) then 366 else 365
  {
  }

  /** Going from y - 1 to y, the count of multiples of k grows by one exactly when k divides y. */
  lemma MultiplesStep(y: int, k: int)
    requires k == 4 || k == 100 || k == 400
    ensures y / k - (y - 1) / k == if y % k == 0 then 1 else 0
  {
  }

  /** The Gregorian leap rule as a count of multiples of 4, 100 and 400. */
  lemma LeapOfMultiples(y: int)
    ensures (if y % 4 == 0 then 1 else 0) - (if y % 100 == 0 then 1 else 0) + (if y % 400 == 0 then 1 else 0)
            == if IsLeap(y) then 1 else 0
  {
    if y % 400 == 0 {
      CenturyOfQuadCentury(y);
      QuadOfCentury(y);
    } else if y % 100 == 0 {
      QuadOfCentury(y);
    }
  }

  lemma {:induction false} CenturyOfQuadCentury(y: int)
    requires y % 400 == 0
    ensures y % 100 == 0
  {
    var q := y / 400;
    assert y == 100 * (4 * q);
  }

  lemma {:induction false} QuadOfCentury(y: int)
    requires y % 100 == 0
    ensures y % 4 == 0
  {
    var q := y / 100;
    assert y == 4 * (25 * q);
  }

  /** The closed-form year count steps by the year's length. */
  lemma DaysBeforeYearStep(y: int)
    ensures DaysBeforeYear(y + 1) == DaysBeforeYear(y) + DaysBeforeMonth(y, 12)
  {
    YearLength(y);
    MultiplesStep(y, 4);
    MultiplesStep(y, 100);
    MultiplesStep(y, 400);
    LeapOfMultiples(y);
  }

  /** February has 29 days exactly in leap years, and a year has 366 days exactly then. */
  lemma LeapFebruary(y: int)
    ensures DaysInMonth(y, 1) == 29 <==> IsLeap(y)
    ensures DaysBeforeMonth(y, 12) == 366 <==> IsLeap(y)
  {
    YearLength(y);
  }

  function NextMonth(y: int, m: int): (r: (int, int))
    requires ValidMonth(m)
    ensures ValidMonth(r.1)
    ensures 12 * r.0 + r.1 == 12 * y + m + 1
  {
    if m == 11 then (y + 1, 0) else (y, m + 1)
  }

  function PreviousMonth(y: int, m: int): (r: (int, int))
    requires ValidMonth(m)
    ensures ValidMonth(r.1)
    ensures 12 * r.0 + r.1 == 12 * y + m - 1
  {
    if m == 0 then (y - 1, 11) else (y, m - 1)
  }

  /** Going forward a month and back again returns to the same month. */
  lemma NextThenPrevious(y: int, m: int)
    requires ValidMonth(m)
    ensures var n := NextMonth(y, m); PreviousMonth(n.0, n.1) == (y, m)
    ensures var p := PreviousMonth(y, m); NextMonth(p.0, p.1) == (y, m)
  {
  }

  /** The first of the next month falls `daysInMonth` days later, so its weekday follows on. */
  lemma FirstDayOfNextMonth(y: int, m: int)
    requires ValidMonth(m)
    ensures var n := NextMonth(y, m);
      DayNumber(n.0, n.1, 1) == DayNumber(y, m, 1) + DaysInMonth(y, m)
      && FirstDayOfMonth(n.0, n.1) == (FirstDayOfMonth(y, m) + DaysInMonth(y, m)) % 7
  {
    var n := NextMonth(y, m);
    if m == 11 {
      DaysBeforeYearStep(y);
    } else {
      MonthStep(y, m);
    }
    assert DayNumber(n.0, n.1, 1) == DayNumber(y, m, 1) + DaysInMonth(y, m);
    ModShift(DayNumber(y, m, 1) + 1, DaysInMonth(y, m));
  }

  lemma ModShift(a: int, k: int)
    ensures (a + k) % 7 == (a % 7 + k) % 7
  {
    var q := a / 7;
    assert a == 7 * q + a % 7;
    assert a + k == 7 * q + (a % 7 + k);
  }

  /** 1 January 2025 was a Wednesday, and February 2024 had 29 days. */
  lemma Anchors()
    ensures FirstDayOfMonth(2025, 0) == 3
    ensures DaysInMonth(2024, 1) == 29 && DaysInMonth(2025, 1) == 28 && DaysInMonth(1900, 1) == 28
    ensures DaysInMonth(2000, 1) == 29
  {
  }

  // ---- highlighting ---------------------------------------------------------

  /** The `YYYY-MM-DD` key of a cell: the year as `String` shows it, then the padded month and day. */
  function DateKey(y: int, m: int, day: nat): string
    requires ValidMonth(m)
  {
    IntString(y) + "-" + Pad2(m + 1) + "-" + Pad2(day)
  }

  /** Two cells of one month never share a key, so an appointment lights up at most one day. */
  lemma DateKeyInjective(y: int, m: int, d1: nat, d2: nat)
    requires ValidMonth(m) && d1 < 100 && d2 < 100
    requires DateKey(y, m, d1) == DateKey(y, m, d2)
    ensures d1 == d2
  {
    var p := IntString(y) + "-" + Pad2(m + 1) + "-";
    assert DateKey(y, m, d1) == p + Pad2(d1);
    assert DateKey(y, m, d2) == p + Pad2(d2);
    assert Pad2(d1) == DateKey(y, m, d1)[|p|..];
    assert Pad2(d2) == DateKey(y, m, d2)[|p|..];
    Pad2Digits(d1);
    Pad2Digits(d2);
    assert d1 / 10 == d2 / 10 && d1 % 10 == d2 % 10;
  }

  /** `hasAppointmentOnDate`. */
  function HasAppointmentOn(mine: seq<Appointment>, y: int, m: int, day: nat): (b: bool)
    requires ValidMonth(m)
    ensures b <==> exists a :: a in mine && a.date == DateKey(y, m, day)
  {
    FindFirst(mine, (a: Appointment) => a.date == DateKey(y, m, day)).Some?
  }

  /** No appointment lights up two different days of the shown month. */
  lemma HighlightUnique(a: Appointment, y: int, m: int, d1: nat, d2: nat)
    requires ValidMonth(m) && d1 < 100 && d2 < 100
    requires a.date == DateKey(y, m, d1) && a.date == DateKey(y, m, d2)
    ensures d1 == d2
  {
    DateKeyInjective(y, m, d1, d2);
  }

  // ---- labels and actions -------------------------------------------------

  /** `getModalityLabel`: a known modality gets its display name, anything else is shown as is. */
  function ModalityLabel(s: string): (r: string)
    ensures s == "presencial" ==> r == "Presencial"
    ensures s == "telemedicina" ==> r == "Telemedicina"
    ensures s == "domicilio" ==> r == "A Domicilio"
    ensures s != "presencial" && s != "telemedicina" && s != "domicilio" ==> r == s
  {
    if s == "presencial" then "Presencial"
    else if s == "telemedicina" then "Telemedicina"
    else if s == "domicilio" then "A Domicilio"
    else s
  }

  function ModalityName(m: Modality): string {
    match m
    case Presencial => "presencial"
    case Telemedicina => "telemedicina"
    case Domicilio => "domicilio"
  }

  /** Different modalities get different labels. */
  lemma ModalityLabelsDistinct(a: Modality, b: Modality)
    ensures ModalityLabel(ModalityName(a)) == ModalityLabel(ModalityName(b)) <==> a == b
  {
  }

  /** The calendar's sector labels are the booking page's: `getSectorLabel` is one rule in both places. */
  lemma SectorLabelsDistinct(a: Sector, b: Sector)
    ensures Booking.SectorLabel(Booking.SectorName(a)) == Booking.SectorLabel(Booking.SectorName(b)) <==> a == b
  {
  }

  /** A signed-out session is sent to /login; the page draws nothing without a session user. */
  function Redirect(status: SessionStatus): (r: Option<string>)
    ensures r.Some? <==> status == Unauthenticated
    ensures r.Some? ==> r.value == "/login"
  {
    if status == Unauthenticated then Some("/login") else None
  }

  /** The month on display (`currentDate`). */
  class CalendarView {
    var year: int
    var month: int
    var day: int

    predicate Valid()
      reads this
    {
      ValidMonth(month) && 1 <= day <= DaysInMonth(year, month)
    }

    /** `useState(new Date())`: today's date. */
    constructor (y: int, m: int, d: int)
      requires ValidMonth(m) && 1 <= d <= DaysInMonth(y, m)
      ensures Valid() && year == y && month == m && day == d
    {
      year, month, day := y, m, d;
    }

    /** `handlePrevMonth`: the first of the previous month. */
    method HandlePrevMonth()
      requires Valid()
      modifies this
      ensures Valid()
      ensures (year, month) == PreviousMonth(old(year), old(month)) && day == 1
      ensures 12 * year + month == 12 * old(year) + old(month) - 1
    {
      var p := PreviousMonth(year, month);
      year, month, day := p.0, p.1, 1;
    }

    /** `handleNextMonth`: the first of the next month. */
    method HandleNextMonth()
      requires Valid()
      modifies this
      ensures Valid()
      ensures (year, month) == NextMonth(old(year), old(month)) && day == 1
      ensures 12 * year + month == 12 * old(year) + old(month) + 1
    {
      var n := NextMonth(year, month);
      year, month, day := n.0, n.1, 1;
    }

    /** The grid for the month on display: blank cells, then the day numbers. */
    function Grid(): (r: (int, seq<int>))
      requires Valid()
      reads this
      ensures r.0 == FirstDayOfMonth(year, month) && r.1 == Days(year, month)
    {
      (FirstDayOfMonth(year, month), Days(year, month))
    }
  }
}

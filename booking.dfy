/**
 * The appointment booking wizard (components/pages/booking-page.tsx): three
 * steps (slot choice, patient details, payment), the slot lookup in the
 * doctor's weekly schedule, the membership upsell arithmetic and the
 * confirmation that writes the appointment into the store.
 *
 * The signed-in user is a parameter; the weekday of a "YYYY-MM-DD" date is
 * the parameter `weekdayOf`; the clock is `now` (milliseconds) and the ISO
 * rendering of an instant is the parameter `isoOf`.
 */
module Booking {

  import opened Wrappers
  import opened Text
  import opened Lists
  import opened Types
  import opened Store

  /** The monthly membership fee added to the first booking that opts in. */
  const MembershipPrice := 15

  /** Thirty days in milliseconds: how far the activated membership runs. */
  const MembershipDurationMs := 30 * 24 * 60 * 60 * 1000

  datatype PaymentMethod = Card | Transfer

  datatype PatientInfo = PatientInfo(fullName: string, cedula: string, email: string, phone: string, symptoms: string)

  /** The details form is prefilled from the user, with "" for what is missing. */
  function InitialPatientInfo(u: User): (p: PatientInfo)
    ensures p.fullName == u.name && p.email == u.email && p.symptoms == ""
    ensures p.cedula == (if Present(u.cedula) then u.cedula.value else "")
    ensures p.phone == (if Present(u.phone) then u.phone.value else "")
  {
    PatientInfo(u.name, OrElse(u.cedula, ""), u.email, OrElse(u.phone, ""), "")
  }

  // ---- slots ------------------------------------------------------------

  /**
   * The slots offered for the chosen date and sector: those of the first
   * schedule entry for that weekday and sector.
   */
  function AvailableSlots(schedule: seq<DoctorSchedule>, date: string, sector: Option<Sector>,
                          weekdayOf: string -> int): (r: seq<string>)
    ensures date == "" || sector.None? ==> r == []
    ensures date != "" && sector.Some? && (forall e :: e in schedule ==> !(e.day == weekdayOf(date) && e.sector == sector.value))
            ==> r == []
    ensures date != "" && sector.Some? && (exists e :: e in schedule && e.day == weekdayOf(date) && e.sector == sector.value)
            ==> exists k :: 0 <= k < |schedule| && schedule[k].day == weekdayOf(date) && schedule[k].sector == sector.value
                        && r == schedule[k].slots
                        && forall j :: 0 <= j < k ==> !(schedule[j].day == weekdayOf(date) && schedule[j].sector == sector.value)
  {
    if date == "" || sector.None? then []
    else
      var day := weekdayOf(date);
      var found := FindFirst(schedule, (e: DoctorSchedule) => e.day == day && e.sector == sector.value);
      if found.Some? then found.value.slots else []
  }

  /** With a well-formed schedule every offered slot is an "HH:MM" time. */
  lemma AvailableSlotsAreTimes(schedule: seq<DoctorSchedule>, date: string, sector: Option<Sector>, weekdayOf: string -> int)
    requires forall e :: e in schedule ==> ValidSchedule(e)
    ensures forall t :: t in AvailableSlots(schedule, date, sector, weekdayOf) ==> IsSlotTime(t)
  {
    var r := AvailableSlots(schedule, date, sector, weekdayOf);
    if date != "" && sector.Some? && exists e :: e in schedule && e.day == weekdayOf(date) && e.sector == sector.value {
      var k :| 0 <= k < |schedule| && r == schedule[k].slots;
      assert schedule[k] in schedule;
    }
  }

  // ---- pricing ----------------------------------------------------------

  /** `currentUser.membershipActive || false`. */
  predicate IsMember(u: User) {
    u.membershipActive == Some(true)
  }

  /** The member price applies to members and to users who opt in now. */
  function ConsultationPrice(d: Doctor, isMember: bool, wantsMembership: bool): (p: int)
    ensures isMember || wantsMembership ==> p == d.priceMember
    ensures !isMember && !wantsMembership ==> p == d.priceNormal
  {
    if isMember || wantsMembership then d.priceMember else d.priceNormal
  }

  /** The amount charged: the consultation, plus the fee for a new membership. */
  function TotalPrice(d: Doctor, isMember: bool, wantsMembership: bool): (t: int)
    ensures wantsMembership && !isMember ==> t == ConsultationPrice(d, isMember, wantsMembership) + MembershipPrice
    ensures !(wantsMembership && !isMember) ==> t == ConsultationPrice(d, isMember, wantsMembership)
  {
    var c := ConsultationPrice(d, isMember, wantsMembership);
    if wantsMembership && !isMember then c + MembershipPrice else c
  }

  /** What a member saves on one consultation. */
  function Savings(d: Doctor): int {
    d.priceNormal - d.priceMember
  }

  /** Opting in pays off exactly when the saving exceeds the fee. */
  lemma UpsellPaysOff(d: Doctor)
    ensures TotalPrice(d, false, true) < TotalPrice(d, false, false) <==> Savings(d) > MembershipPrice
    ensures TotalPrice(d, true, true) == TotalPrice(d, true, false) == d.priceMember
  {
  }

  /** Transfers wait for the receipt to be checked; card payments are settled at once. */
  function StatusFor(m: PaymentMethod): (s: AppointmentStatus)
    ensures s == PendingVerification <==> m.Transfer?
    ensures s == Paid <==> m.Card?
  {
    if m.Transfer? then PendingVerification else Paid
  }

  /** `getSectorLabel`: a known sector gets its display name, anything else is shown as is. */
  function SectorLabel(s: string): (r: string)
    ensures s == "norte" ==> r == "Sector Norte"
    ensures s == "centro" ==> r == "Sector Centro"
    ensures s == "sur" ==> r == "Sector Sur"
    ensures s != "norte" && s != "centro" && s != "sur" ==> r == s
  {
    if s == "norte" then "Sector Norte"
    else if s == "centro" then "Sector Centro"
    else if s == "sur" then "Sector Sur"
    else s
  }

  /** The string a sector has in the data. */
  function SectorName(s: Sector): string {
    match s
    case Norte => "norte"
    case Centro => "centro"
    case Sur => "sur"
  }

  /** A sector's label is "Sector " followed by a capitalised name, and never the bare name. */
  lemma SectorLabelOfSector(s: Sector)
    ensures StartsWith(SectorLabel(SectorName(s)), "Sector ")
    ensures SectorLabel(SectorName(s)) != SectorName(s)
  {
  }

  // ---- steps ------------------------------------------------------------

  predicate SelectionComplete(date: string, time: string, sector: Option<Sector>, modality: Option<Modality>) {
    date != "" && time != "" && sector.Some? && modality.Some?
  }

  predicate DetailsComplete(p: PatientInfo) {
    p.fullName != "" && p.cedula != "" && p.email != "" && p.phone != ""
  }

  /** `canProceed`: the step's required fields are all filled. */
  predicate CanProceed(step: int, date: string, time: string, sector: Option<Sector>, modality: Option<Modality>, p: PatientInfo) {
    (step == 1 && SelectionComplete(date, time, sector, modality)) || (step == 2 && DetailsComplete(p))
  }

  /**
   * `handleNext`: both tests read the step the handler started with, so a
   * click moves at most one step, and it moves exactly when `canProceed` holds.
   */
  function NextStep(step: int, date: string, time: string, sector: Option<Sector>, modality: Option<Modality>, p: PatientInfo): (r: int)
    ensures r == step || r == step + 1
    ensures r != step <==> CanProceed(step, date, time, sector, modality, p)
    ensures r == 2 && step == 1 ==> SelectionComplete(date, time, sector, modality)
    ensures r == 3 ==> step == 3 || (step == 2 && DetailsComplete(p))
    ensures 1 <= step <= 3 ==> 1 <= r <= 3
  {
    var afterFirst := if step == 1 && SelectionComplete(date, time, sector, modality) then 2 else step;
    if step == 2 && DetailsComplete(p) then 3 else afterFirst
  }

  /** `handlePrevious`. */
  function PreviousStep(step: int): (r: int)
    ensures step > 1 ==> r == step - 1
    ensures step <= 1 ==> r == step
    ensures 1 <= step <= 3 ==> 1 <= r <= 3
  {
    if step > 1 then step - 1 else step
  }

  /** Going forward then back returns to the step the user was on. */
  lemma NextThenPrevious(step: int, date: string, time: string, sector: Option<Sector>, modality: Option<Modality>, p: PatientInfo)
    requires CanProceed(step, date, time, sector, modality, p)
    ensures PreviousStep(NextStep(step, date, time, sector, modality, p)) == step
  {
  }

  /** The wizard's state. */
  class BookingWizard {
    var step: int
    var selectedDate: string
    var selectedTime: string
    var selectedSector: Option<Sector>
    var selectedModality: Option<Modality>
    var wantsMembership: bool
    var paymentMethod: PaymentMethod
    var transferProof: Option<string>
    var patientInfo: PatientInfo

    predicate Valid()
      reads this
    {
      1 <= step <= 3
    }

    constructor (user: User)
      ensures Valid() && step == 1
      ensures selectedDate == "" && selectedTime == "" && selectedSector.None? && selectedModality.None?
      ensures !wantsMembership && paymentMethod == Card && transferProof.None?
      ensures patientInfo == InitialPatientInfo(user)
    {
      step := 1;
      selectedDate := "";
      selectedTime := "";
      selectedSector := None;
      selectedModality := None;
      wantsMembership := false;
      paymentMethod := Card;
      transferProof := None;
      patientInfo := InitialPatientInfo(user);
    }

    method HandleNext()
      requires Valid()
      modifies this
      ensures Valid()
      ensures step == NextStep(old(step), selectedDate, selectedTime, selectedSector, selectedModality, patientInfo)
      ensures step != old(step) <==> old(CanProceed(step, selectedDate, selectedTime, selectedSector, selectedModality, patientInfo))
      ensures selectedDate == old(selectedDate) && selectedTime == old(selectedTime) && selectedSector == old(selectedSector)
      ensures selectedModality == old(selectedModality) && wantsMembership == old(wantsMembership)
      ensures paymentMethod == old(paymentMethod) && transferProof == old(transferProof) && patientInfo == old(patientInfo)
    {
      step := NextStep(step, selectedDate, selectedTime, selectedSector, selectedModality, patientInfo);
    }

    method HandlePrevious()
      requires Valid()
      modifies this
      ensures Valid()
      ensures step == PreviousStep(old(step))
      ensures selectedDate == old(selectedDate) && selectedTime == old(selectedTime) && selectedSector == old(selectedSector)
      ensures selectedModality == old(selectedModality) && wantsMembership == old(wantsMembership)
      ensures paymentMethod == old(paymentMethod) && transferProof == old(transferProof) && patientInfo == old(patientInfo)
    {
      step := PreviousStep(step);
    }

    /** Choosing a sector discards the chosen time. */
    method SelectSector(s: Sector)
      modifies this
      ensures selectedSector == Some(s) && selectedTime == ""
      ensures step == old(step) && selectedDate == old(selectedDate) && selectedModality == old(selectedModality)
      ensures wantsMembership == old(wantsMembership) && paymentMethod == old(paymentMethod)
      ensures transferProof == old(transferProof) && patientInfo == old(patientInfo)
    {
      selectedSector := Some(s);
      selectedTime := "";
    }

    /** Changing the date discards the chosen time. */
    method SelectDate(d: string)
      modifies this
      ensures selectedDate == d && selectedTime == ""
      ensures step == old(step) && selectedSector == old(selectedSector) && selectedModality == old(selectedModality)
      ensures wantsMembership == old(wantsMembership) && paymentMethod == old(paymentMethod)
      ensures transferProof == old(transferProof) && patientInfo == old(patientInfo)
    {
      selectedDate := d;
      selectedTime := "";
    }

    method SelectTime(t: string)
      modifies this
      ensures selectedTime == t
      ensures step == old(step) && selectedDate == old(selectedDate) && selectedSector == old(selectedSector)
      ensures selectedModality == old(selectedModality) && wantsMembership == old(wantsMembership)
      ensures paymentMethod == old(paymentMethod) && transferProof == old(transferProof) && patientInfo == old(patientInfo)
    {
      selectedTime := t;
    }

    method SelectModality(m: Modality)
      modifies this
      ensures selectedModality == Some(m)
      ensures step == old(step) && selectedDate == old(selectedDate) && selectedTime == old(selectedTime)
      ensures selectedSector == old(selectedSector) && wantsMembership == old(wantsMembership)
      ensures paymentMethod == old(paymentMethod) && transferProof == old(transferProof) && patientInfo == old(patientInfo)
    {
      selectedModality := Some(m);
    }

    method SetWantsMembership(b: bool)
      modifies this
      ensures wantsMembership == b
      ensures step == old(step) && selectedDate == old(selectedDate) && selectedTime == old(selectedTime)
      ensures selectedSector == old(selectedSector) && selectedModality == old(selectedModality)
      ensures paymentMethod == old(paymentMethod) && transferProof == old(transferProof) && patientInfo == old(patientInfo)
    {
      wantsMembership := b;
    }

    method SetPaymentMethod(m: PaymentMethod)
      modifies this
      ensures paymentMethod == m
      ensures step == old(step) && selectedDate == old(selectedDate) && selectedTime == old(selectedTime)
      ensures selectedSector == old(selectedSector) && selectedModality == old(selectedModality)
      ensures wantsMembership == old(wantsMembership) && transferProof == old(transferProof) && patientInfo == old(patientInfo)
    {
      paymentMethod := m;
    }

    /** The simulated receipt upload names a file after the clock. */
    method AttachTransferProof(now: nat)
      modifies this
      ensures transferProof == Some("comprobante-" + DecimalString(now) + ".pdf")
      ensures step == old(step) && selectedDate == old(selectedDate) && selectedTime == old(selectedTime)
      ensures selectedSector == old(selectedSector) && selectedModality == old(selectedModality)
      ensures wantsMembership == old(wantsMembership) && paymentMethod == old(paymentMethod) && patientInfo == old(patientInfo)
    {
      transferProof := Some("comprobante-" + DecimalString(now) + ".pdf");
    }

    /** The details inputs each replace one field of the form. */
    method EditPatientInfo(p: PatientInfo)
      modifies this
      ensures patientInfo == p
      ensures step == old(step) && selectedDate == old(selectedDate) && selectedTime == old(selectedTime)
      ensures selectedSector == old(selectedSector) && selectedModality == old(selectedModality)
      ensures wantsMembership == old(wantsMembership) && paymentMethod == old(paymentMethod) && transferProof == old(transferProof)
    {
      patientInfo := p;
    }

    /**
     * `handleConfirm`: without a sector or modality nothing happens.  Otherwise
     * a new membership is requested when the user opts in and is not a member,
     * and one appointment is appended whose price is the consultation price
     * (never the membership fee) and whose status follows the payment method.
     * The date and time are not checked here; the wizard only reaches step 3
     * after they were filled.
     */
    method HandleConfirm(store: AppStore, user: User, doctor: Doctor, now: nat, nowIso: string, isoOf: int -> string)
      returns (created: Option<Appointment>, membershipRequest: Option<UserPatch>, navigateTo: Option<string>)
      modifies store
      ensures selectedSector.None? || selectedModality.None? ==>
        created.None? && membershipRequest.None? && navigateTo.None? && store.State() == old(store.State())
      ensures selectedSector.Some? && selectedModality.Some? ==>
        && created.Some?
        && navigateTo == Some("/citas")
        && store.appointments == old(store.appointments) + [created.value]
        && store.State() == old(store.State()).(appointments := store.appointments)
        && created.value.id == "apt-" + DecimalString(now)
        && created.value.createdAt == nowIso
        && created.value.patientId == user.id
        && created.value.patientName == patientInfo.fullName
        && created.value.patientCedula == patientInfo.cedula
        && created.value.doctorId == doctor.id
        && created.value.doctorName == doctor.name
        && created.value.specialty == doctor.specialty
        && created.value.date == selectedDate
        && created.value.time == selectedTime
        && created.value.sector == selectedSector.value
        && created.value.modality == selectedModality.value
        && created.value.reason == patientInfo.symptoms
        && created.value.status == StatusFor(paymentMethod)
        && created.value.price == ConsultationPrice(doctor, IsMember(user), wantsMembership)
        && created.value.isMember == (IsMember(user) || wantsMembership)
        && (membershipRequest.Some? <==> wantsMembership && !IsMember(user))
        && (membershipRequest.Some? ==>
              membershipRequest.value.membershipActive == Some(Some(true))
              && membershipRequest.value.membershipExpiry == Some(Some(isoOf(now + MembershipDurationMs))))
    {
      if selectedSector.None? || selectedModality.None? {
        return None, None, None;
      }
      var member := IsMember(user);
      membershipRequest := None;
      if wantsMembership && !member {
        var patch := UserPatch(None, None, None, None, None, None, None, None,
                               Some(Some(isoOf(now + MembershipDurationMs))), Some(Some(true)), None, None);
        store.UpdateUser(user.id, patch);
        membershipRequest := Some(patch);
      }
      var draft := AppointmentDraft(
        user.id, patientInfo.fullName, patientInfo.cedula, doctor.id, doctor.name, doctor.specialty,
        selectedDate, selectedTime, selectedSector.value, selectedModality.value, patientInfo.symptoms,
        StatusFor(paymentMethod), ConsultationPrice(doctor, member, wantsMembership), member || wantsMembership);
      var a := store.CreateAppointment(draft, now, nowIso);
      created := Some(a);
      navigateTo := Some("/citas");
    }
  }

  /** The stored price is what was charged minus the membership fee, if one was charged. */
  lemma StoredPriceExcludesFee(d: Doctor, isMember: bool, wantsMembership: bool)
    ensures TotalPrice(d, isMember, wantsMembership) - ConsultationPrice(d, isMember, wantsMembership)
            == (if wantsMembership && !isMember then MembershipPrice else 0)
  {
  }
}

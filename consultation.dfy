/**
 * The doctor's consultation form (components/pages/medical-consultation-page.tsx):
 * a CIE-10 search, a diagnosis list kept unique by code, a prescription list
 * fed by a draft, the laboratory and imaging order checkboxes, and the save
 * that writes the medical record, the redeemable codes and the completed
 * appointment into the store.
 *
 * The CIE-10 catalogue, the signed-in doctor, the clock (`now` in
 * milliseconds, `nowIso` its ISO form) and the random id suffixes are
 * parameters.
 */
module Consultation {

  import opened Wrappers
  import opened Text
  import opened Lists
  import opened Types
  import opened Store

  /** Whether a catalogue entry matches the query, by code or description, ignoring case. */
  predicate CIEMatches(c: CIE10Code, query: string) {
    ContainsIgnoringCase(c.code, query) || ContainsIgnoringCase(c.description, query)
  }

  /** `filteredCIE`: the first ten codes for an empty query, otherwise every code that matches. */
  function FilteredCIE(catalogue: seq<CIE10Code>, query: string): (r: seq<CIE10Code>)
    ensures query == "" ==> r == catalogue[..if |catalogue| < 10 then |catalogue| else 10]
    ensures query != "" ==> forall c :: c in r <==> c in catalogue && CIEMatches(c, query)
    ensures query != "" ==> IsSubsequence(r, catalogue)
    ensures query != "" ==> forall c :: multiset(r)[c] == if CIEMatches(c, query) then multiset(catalogue)[c] else 0
    ensures |r| <= |catalogue|
  {
    if query == "" then Take(catalogue, 10)
    else Filter(catalogue, (c: CIE10Code) => CIEMatches(c, query))
  }

  /** `generateCode`: the prefix, a dash, and the last six digits of the clock. */
  function GenerateCode(prefix: string, now: nat): (r: string)
    ensures StartsWith(r, prefix + "-")
    ensures |prefix| + 2 <= |r| <= |prefix| + 7
    ensures now >= 100000 ==> |r| == |prefix| + 7
    ensures forall i :: |prefix| + 1 <= i < |r| ==> IsDigit(r[i])
  {
    var tail := LastN(DecimalString(now), 6);
    ClockSuffixShape(now);
    DashedLayout(prefix, tail);
    prefix + "-" + tail
  }

  /** A prefix, a dash and a run of digits: the prefix and dash come first, digits fill the rest. */
  lemma {:induction false} DashedLayout(prefix: string, tail: string)
    requires forall c :: c in tail ==> IsDigit(c)
    ensures var r := prefix + "-" + tail;
      && StartsWith(r, prefix + "-")
      && |r| == |prefix| + 1 + |tail|
      && forall i :: |prefix| + 1 <= i < |r| ==> IsDigit(r[i])
  {
    var r := prefix + "-" + tail;
    assert r[..|prefix| + 1] == prefix + "-";
    forall i | |prefix| + 1 <= i < |r|
      ensures IsDigit(r[i])
    {
      assert r[i] == tail[i - |prefix| - 1];
      assert tail[i - |prefix| - 1] in tail;
    }
  }

  /** The clock's last six digits: one to six digits, exactly six from 100000 on. */
  lemma {:induction false} ClockSuffixShape(now: nat)
    ensures var tail := LastN(DecimalString(now), 6);
      && 1 <= |tail| <= 6
      && (now >= 100000 ==> |tail| == 6)
      && (forall c :: c in tail ==> IsDigit(c))
  {
    var digits := DecimalString(now);
    if now >= 100000 {
      DecimalLength(now);
    }
    var tail := LastN(digits, 6);
    forall c | c in tail
      ensures IsDigit(c)
    {
      var k :| 0 <= k < |tail| && tail[k] == c;
      assert digits[|digits| - |tail| + k] in digits;
    }
  }

  /** The clock's last six digits are worth `now % 1000000`. */
  lemma {:induction false} ClockSuffix(now: nat)
    ensures var tail := LastN(DecimalString(now), 6);
      && 1 <= |tail| <= 6
      && (now >= 100000 ==> |tail| == 6)
      && (forall c :: c in tail ==> IsDigit(c))
      && RunValue(tail, 10) == now % 1000000
  {
    ClockSuffixShape(now);
    LastDigitsValue(now, 6);
    assert Pow10(6) == 1000000;
  }

  /** The digits after the dash read back under `parseInt` as the clock modulo one million. */
  lemma {:induction false} CodeReadsBackClock(prefix: string, now: nat)
    ensures ParseInt(GenerateCode(prefix, now)[|prefix| + 1..]) == Some(now % 1000000)
  {
    assert GenerateCode(prefix, now)[|prefix| + 1..] == LastN(DecimalString(now), 6);
    ClockReadsBack(now);
  }

  lemma {:induction false} ClockReadsBack(now: nat)
    ensures ParseInt(LastN(DecimalString(now), 6)) == Some(now % 1000000)
  {
    ClockSuffix(now);
    ParseIntOfDigits(LastN(DecimalString(now), 6));
  }

  /**
   * Two clock readings a million milliseconds apart (about 16.7 minutes) give
   * the same code; nothing in the save path checks for an existing code.
   */
  lemma {:induction false} CodesRepeatEveryMillion(prefix: string, now: nat)
    requires now >= 100000
    ensures GenerateCode(prefix, now) == GenerateCode(prefix, now + 1000000)
  {
    SuffixRepeats(now);
  }

  lemma {:induction false} SuffixRepeats(now: nat)
    requires now >= 100000
    ensures LastN(DecimalString(now), 6) == LastN(DecimalString(now + 1000000), 6)
  {
    var a := LastN(DecimalString(now), 6);
    var b := LastN(DecimalString(now + 1000000), 6);
    assert |a| == 6 && (forall c :: c in a ==> IsDigit(c)) && RunValue(a, 10) == now % 1000000 by {
      ClockSuffix(now);
    }
    assert |b| == 6 && (forall c :: c in b ==> IsDigit(c)) && RunValue(b, 10) == now % 1000000 by {
      ClockSuffix(now + 1000000);
      ModShift(now, 1000000);
    }
    RunValueInjective(a, b);
  }

  /** A number of at least six digits prints with at least six characters. */
  lemma {:induction false} DecimalLength(n: nat)
    requires n >= 100000
    ensures |DecimalString(n)| >= 6
  {
    assert |DecimalString(n)| == |DecimalString(n / 10)| + 1;
    if n / 10 >= 100000 {
      DecimalLength(n / 10);
    } else {
      FiveDigits(n / 10);
    }
  }

  lemma FiveDigits(m: nat)
    requires 10000 <= m < 100000
    ensures |DecimalString(m)| == 5
  {
    var a := m / 10;
    var b := a / 10;
    var c := b / 10;
    var d := c / 10;
    assert 1000 <= a < 10000 && 100 <= b < 1000 && 10 <= c < 100 && 1 <= d < 10;
    assert |DecimalString(d)| == 1;
    assert |DecimalString(c)| == |DecimalString(d)| + 1;
    assert |DecimalString(b)| == |DecimalString(c)| + 1;
    assert |DecimalString(a)| == |DecimalString(b)| + 1;
    assert |DecimalString(m)| == |DecimalString(a)| + 1;
  }

  // ---- orders -----------------------------------------------------------

  /** One of the two order checkboxes and its description. */
  datatype OrderEntry = OrderEntry(orderType: OrderType, description: string, checked: bool)

  const InitialOrders := [OrderEntry(Laboratory, "", false), OrderEntry(Imaging, "", false)]

  /** "LAB" for laboratory orders and "IMG" for the rest. */
  function OrderPrefix(t: OrderType): string {
    if t == Laboratory then "LAB" else "IMG"
  }

  /** An order is saved when it is ticked and described. */
  predicate Saved(o: OrderEntry) {
    o.checked && o.description != ""
  }

  /**
   * `medicalOrders`: the saved entries, in order, each with a fresh id, a
   * prefixed code and `used = false`.  `suffix(i)` stands for the random suffix
   * of the i-th saved order's id.
   */
  function MedicalOrders(orders: seq<OrderEntry>, now: nat, suffix: nat -> string): (r: seq<MedicalOrder>)
    ensures |r| == |Filter(orders, Saved)|
    ensures forall i :: 0 <= i < |r| ==>
      var o := Filter(orders, Saved)[i];
      && r[i].orderType == o.orderType && r[i].description == o.description
      && r[i].code == GenerateCode(OrderPrefix(o.orderType), now)
      && r[i].id == "order-" + DecimalString(now) + "-" + suffix(i)
      && !r[i].used && r[i].usedAt.None?
  {
    var saved := Filter(orders, Saved);
    seq(|saved|, i requires 0 <= i < |saved| =>
      MedicalOrder("order-" + DecimalString(now) + "-" + suffix(i), saved[i].orderType, saved[i].description,
                   GenerateCode(OrderPrefix(saved[i].orderType), now), false, None))
  }

  /** Every saved order was ticked with a description and nothing else is saved. */
  lemma SavedOrdersAreCheckedAndDescribed(orders: seq<OrderEntry>, now: nat, suffix: nat -> string)
    ensures forall m :: m in MedicalOrders(orders, now, suffix) ==>
      exists o :: o in orders && o.checked && o.description != "" && o.orderType == m.orderType && o.description == m.description
    ensures (forall o :: o in orders ==> !Saved(o)) ==> MedicalOrders(orders, now, suffix) == []
  {
    SavedOrdersHaveSource(orders, now, suffix);
    if forall o :: o in orders ==> !Saved(o) {
      FilterNone(orders, Saved);
    }
  }

  lemma {:induction false} SavedOrdersHaveSource(orders: seq<OrderEntry>, now: nat, suffix: nat -> string)
    ensures forall m :: m in MedicalOrders(orders, now, suffix) ==>
      exists o :: o in orders && o.checked && o.description != "" && o.orderType == m.orderType && o.description == m.description
  {
    var r := MedicalOrders(orders, now, suffix);
    var saved := Filter(orders, Saved);
    forall m | m in r
      ensures exists o :: o in orders && o.checked && o.description != "" && o.orderType == m.orderType && o.description == m.description
    {
      var i :| 0 <= i < |r| && r[i] == m;
      assert saved[i] in saved;
    }
  }

  /** The code entry the store receives for a saved order. */
  function OrderCodeFor(m: MedicalOrder, a: Appointment, doctor: User, nowIso: string): OrderCode {
    OrderCode(m.code, m.orderType, a.patientId, a.patientName, a.patientCedula, OrElse(doctor.doctorId, ""),
              doctor.name, m.description, nowIso, false, None)
  }

  function OrderCodesFor(ms: seq<MedicalOrder>, a: Appointment, doctor: User, nowIso: string): (r: seq<OrderCode>)
    ensures |r| == |ms|
    ensures forall i :: 0 <= i < |ms| ==> r[i] == OrderCodeFor(ms[i], a, doctor, nowIso)
  {
    seq(|ms|, i requires 0 <= i < |ms| => OrderCodeFor(ms[i], a, doctor, nowIso))
  }

  /** Each order code repeats its order's code and starts unused. */
  lemma OrderCodesMatchOrders(ms: seq<MedicalOrder>, a: Appointment, doctor: User, nowIso: string)
    ensures forall i :: 0 <= i < |ms| ==>
      OrderCodesFor(ms, a, doctor, nowIso)[i].code == ms[i].code
      && OrderCodesFor(ms, a, doctor, nowIso)[i].orderType == ms[i].orderType
      && !OrderCodesFor(ms, a, doctor, nowIso)[i].used
  {
  }

  // ---- the form ---------------------------------------------------------

  datatype PrescriptionDraft = PrescriptionDraft(medication: string, dose: string, frequency: string, duration: string, instructions: string)

  const EmptyDraft := PrescriptionDraft("", "", "", "", "")

  /** No two diagnosis entries share a code. */
  predicate UniqueCodes(ds: seq<DiagnosisItem>) {
    forall i, j :: 0 <= i < j < |ds| ==> ds[i].code != ds[j].code
  }

  predicate HasCode(ds: seq<DiagnosisItem>, code: string) {
    exists i :: 0 <= i < |ds| && ds[i].code == code
  }

  class ConsultationForm {
    var searchCIE: string
    var showCIEDropdown: bool
    var diagnosis: seq<DiagnosisItem>
    var indications: string
    var prescriptions: seq<Prescription>
    var orders: seq<OrderEntry>
    var newPrescription: PrescriptionDraft

    /** The diagnosis codes are unique and the two order slots keep their kinds. */
    predicate Valid()
      reads this
    {
      && UniqueCodes(diagnosis)
      && |orders| == 2 && orders[0].orderType == Laboratory && orders[1].orderType == Imaging
    }

    constructor ()
      ensures Valid()
      ensures searchCIE == "" && !showCIEDropdown && diagnosis == [] && indications == ""
      ensures prescriptions == [] && orders == InitialOrders && newPrescription == EmptyDraft
    {
      searchCIE := "";
      showCIEDropdown := false;
      diagnosis := [];
      indications := "";
      prescriptions := [];
      orders := InitialOrders;
      newPrescription := EmptyDraft;
    }

    /** Typing in the search box opens the dropdown. */
    method SetSearch(q: string)
      modifies this
      ensures searchCIE == q && showCIEDropdown
      ensures diagnosis == old(diagnosis) && indications == old(indications) && prescriptions == old(prescriptions)
      ensures orders == old(orders) && newPrescription == old(newPrescription)
    {
      searchCIE := q;
      showCIEDropdown := true;
    }

    /** Adds the entry unless its code is already listed; the search is cleared either way. */
    method AddDiagnosis(item: DiagnosisItem)
      requires Valid()
      modifies this
      ensures Valid()
      ensures HasCode(old(diagnosis), item.code) ==> diagnosis == old(diagnosis)
      ensures !HasCode(old(diagnosis), item.code) ==> diagnosis == old(diagnosis) + [item]
      ensures HasCode(diagnosis, item.code)
      ensures searchCIE == "" && !showCIEDropdown
      ensures indications == old(indications) && prescriptions == old(prescriptions)
      ensures orders == old(orders) && newPrescription == old(newPrescription)
    {
      var found := FindFirst(diagnosis, (d: DiagnosisItem) => d.code == item.code);
      if found.None? {
        assert !HasCode(diagnosis, item.code) by {
          forall i | 0 <= i < |diagnosis|
            ensures diagnosis[i].code != item.code
          {
            assert diagnosis[i] in diagnosis;
          }
        }
        diagnosis := diagnosis + [item];
        assert diagnosis[|diagnosis| - 1] == item;
      } else {
        assert found.value in diagnosis;
      }
      searchCIE := "";
      showCIEDropdown := false;
    }

    method RemoveDiagnosis(code: string)
      requires Valid()
      modifies this
      ensures Valid()
      ensures diagnosis == Filter(old(diagnosis), (d: DiagnosisItem) => d.code != code)
      ensures !HasCode(diagnosis, code)
      ensures IsSubsequence(diagnosis, old(diagnosis))
      ensures searchCIE == old(searchCIE) && showCIEDropdown == old(showCIEDropdown)
      ensures indications == old(indications) && prescriptions == old(prescriptions)
      ensures orders == old(orders) && newPrescription == old(newPrescription)
    {
      var kept := Filter(diagnosis, (d: DiagnosisItem) => d.code != code);
      SubsequenceUnique(kept, diagnosis);
      assert !HasCode(kept, code) by {
        forall i | 0 <= i < |kept|
          ensures kept[i].code != code
        {
          assert kept[i] in kept;
        }
      }
      diagnosis := kept;
    }

    /** Only a draft with a medication and a dose is added; the draft is then reset. */
    method AddPrescription(now: nat)
      modifies this
      ensures old(newPrescription.medication) != "" && old(newPrescription.dose) != "" ==>
        && prescriptions == old(prescriptions) + [Prescription("med-" + DecimalString(now), old(newPrescription.medication),
             old(newPrescription.dose), old(newPrescription.frequency), old(newPrescription.duration), old(newPrescription.instructions))]
        && newPrescription == EmptyDraft
      ensures old(newPrescription.medication) == "" || old(newPrescription.dose) == "" ==>
        prescriptions == old(prescriptions) && newPrescription == old(newPrescription)
      ensures searchCIE == old(searchCIE) && showCIEDropdown == old(showCIEDropdown) && diagnosis == old(diagnosis)
      ensures indications == old(indications) && orders == old(orders)
    {
      if newPrescription.medication != "" && newPrescription.dose != "" {
        var p := newPrescription;
        prescriptions := prescriptions + [Prescription("med-" + DecimalString(now), p.medication, p.dose, p.frequency, p.duration, p.instructions)];
        newPrescription := EmptyDraft;
      }
    }

    method RemovePrescription(id: string)
      modifies this
      ensures prescriptions == Filter(old(prescriptions), (p: Prescription) => p.id != id)
      ensures forall p :: p in prescriptions <==> p in old(prescriptions) && p.id != id
      ensures searchCIE == old(searchCIE) && showCIEDropdown == old(showCIEDropdown) && diagnosis == old(diagnosis)
      ensures indications == old(indications) && orders == old(orders) && newPrescription == old(newPrescription)
    {
      prescriptions := Filter(prescriptions, (p: Prescription) => p.id != id);
    }

    method EditDraft(d: PrescriptionDraft)
      modifies this
      ensures newPrescription == d
      ensures searchCIE == old(searchCIE) && showCIEDropdown == old(showCIEDropdown) && diagnosis == old(diagnosis)
      ensures indications == old(indications) && prescriptions == old(prescriptions) && orders == old(orders)
    {
      newPrescription := d;
    }

    method SetIndications(text: string)
      modifies this
      ensures indications == text
      ensures searchCIE == old(searchCIE) && showCIEDropdown == old(showCIEDropdown) && diagnosis == old(diagnosis)
      ensures prescriptions == old(prescriptions) && orders == old(orders) && newPrescription == old(newPrescription)
    {
      indications := text;
    }

    /** Ticking or unticking order slot i (0 = laboratory, 1 = imaging). */
    method SetOrderChecked(i: nat, checked: bool)
      requires Valid() && i < 2
      modifies this
      ensures Valid()
      ensures orders == old(orders)[i := old(orders)[i].(checked := checked)]
      ensures searchCIE == old(searchCIE) && showCIEDropdown == old(showCIEDropdown) && diagnosis == old(diagnosis)
      ensures indications == old(indications) && prescriptions == old(prescriptions) && newPrescription == old(newPrescription)
    {
      orders := orders[i := orders[i].(checked := checked)];
    }

    method SetOrderDescription(i: nat, description: string)
      requires Valid() && i < 2
      modifies this
      ensures Valid()
      ensures orders == old(orders)[i := old(orders)[i].(description := description)]
      ensures searchCIE == old(searchCIE) && showCIEDropdown == old(showCIEDropdown) && diagnosis == old(diagnosis)
      ensures indications == old(indications) && prescriptions == old(prescriptions) && newPrescription == old(newPrescription)
    {
      orders := orders[i := orders[i].(description := description)];
    }

    /**
     * `handleSave`.  Without a diagnosis it reports an error and changes
     * nothing.  Otherwise it appends the medical record, a prescription code
     * when there are prescriptions, one order code per saved order, marks the
     * appointment completed, and goes back to the doctor's dashboard.
     */
    method HandleSave(store: AppStore, doctor: User, appointment: Appointment, now: nat, nowIso: string, suffix: nat -> string)
      returns (error: bool, navigateTo: Option<string>)
      modifies store
      ensures diagnosis == [] ==> error && navigateTo.None? && store.State() == old(store.State())
      ensures diagnosis != [] ==>
        var saved := MedicalOrders(orders, now, suffix);
        && !error && navigateTo == Some("/doctor/dashboard")
        && store.medicalRecords == old(store.medicalRecords) + [RecordFor(appointment, doctor, diagnosis, indications, prescriptions, saved, nowIso).WithId("record-" + DecimalString(now))]
        && store.prescriptionCodes == old(store.prescriptionCodes)
             + (if prescriptions != [] then [PrescriptionCodeFor(appointment, doctor, prescriptions, now, nowIso)] else [])
        && store.orderCodes == old(store.orderCodes) + OrderCodesFor(saved, appointment, doctor, nowIso)
        && |store.appointments| == |old(store.appointments)|
        && (forall i :: 0 <= i < |store.appointments| ==>
              store.appointments[i] == if old(store.appointments)[i].id == appointment.id
                                       then old(store.appointments)[i].(status := Completed) else old(store.appointments)[i])
        && store.State() == old(store.State()).(medicalRecords := store.medicalRecords,
             prescriptionCodes := store.prescriptionCodes, orderCodes := store.orderCodes, appointments := store.appointments)
    {
      if diagnosis == [] {
        return true, None;
      }
      var saved := MedicalOrders(orders, now, suffix);
      SaveToStore(store, RecordFor(appointment, doctor, diagnosis, indications, prescriptions, saved, nowIso), now,
                  if prescriptions != [] then Some(PrescriptionCodeFor(appointment, doctor, prescriptions, now, nowIso)) else None,
                  OrderCodesFor(saved, appointment, doctor, nowIso), appointment.id);
      return false, Some("/doctor/dashboard");
    }
  }

  /**
   * The store updates of a save, in the order the page makes them: the record,
   * the prescription code if any, the order codes one by one, then the
   * appointment's status.
   */
  method SaveToStore(store: AppStore, record: MedicalRecordDraft, now: nat, code: Option<PrescriptionCode>,
                     codes: seq<OrderCode>, appointmentId: string)
    modifies store
    ensures store.medicalRecords == old(store.medicalRecords) + [record.WithId("record-" + DecimalString(now))]
    ensures store.prescriptionCodes == old(store.prescriptionCodes) + (if code.Some? then [code.value] else [])
    ensures store.orderCodes == old(store.orderCodes) + codes
    ensures |store.appointments| == |old(store.appointments)|
    ensures forall i :: 0 <= i < |store.appointments| ==>
      store.appointments[i] == if old(store.appointments)[i].id == appointmentId
                               then old(store.appointments)[i].(status := Completed) else old(store.appointments)[i]
    ensures store.State() == old(store.State()).(medicalRecords := store.medicalRecords,
      prescriptionCodes := store.prescriptionCodes, orderCodes := store.orderCodes, appointments := store.appointments)
  {
    var _ := store.CreateMedicalRecord(record, now);
    if code.Some? {
      store.CreatePrescriptionCode(code.value);
    }
    CreateOrderCodes(store, codes);
    CompleteAppointment(store, appointmentId);
  }

  /** `updateAppointment(id, { status: "completed" })`. */
  method CompleteAppointment(store: AppStore, id: string)
    modifies store
    ensures |store.appointments| == |old(store.appointments)|
    ensures forall i :: 0 <= i < |store.appointments| ==>
      store.appointments[i] == if old(store.appointments)[i].id == id
                               then old(store.appointments)[i].(status := Completed) else old(store.appointments)[i]
    ensures store.State() == old(store.State()).(appointments := store.appointments)
  {
    store.UpdateAppointment(id, StatusPatch(Completed));
  }

  /** `medicalOrders.forEach(order => createOrderCode(...))`. */
  method CreateOrderCodes(store: AppStore, codes: seq<OrderCode>)
    modifies store
    ensures store.orderCodes == old(store.orderCodes) + codes
    ensures store.State() == old(store.State()).(orderCodes := store.orderCodes)
  {
    var i := 0;
    while i < |codes|
      invariant 0 <= i <= |codes|
      invariant store.orderCodes == old(store.orderCodes) + codes[..i]
      invariant store.State() == old(store.State()).(orderCodes := store.orderCodes)
    {
      store.CreateOrderCode(codes[i]);
      assert codes[..i + 1] == codes[..i] + [codes[i]];
      i := i + 1;
    }
    assert codes[..i] == codes;
  }

  /** A subsequence of a list with unique codes has unique codes. */
  lemma {:induction false} SubsequenceUnique(r: seq<DiagnosisItem>, s: seq<DiagnosisItem>)
    requires IsSubsequence(r, s) && UniqueCodes(s)
    ensures UniqueCodes(r)
    ensures forall x :: x in r ==> x in s
    decreases |s|
  {
    if r != [] && s != [] {
      assert UniqueCodes(s[1..]) by {
        forall i, j | 0 <= i < j < |s[1..]|
          ensures s[1..][i].code != s[1..][j].code
        {
          assert s[1..][i] == s[i + 1] && s[1..][j] == s[j + 1];
        }
      }
      if r[0] == s[0] && IsSubsequence(r[1..], s[1..]) {
        SubsequenceUnique(r[1..], s[1..]);
        forall j | 0 < j < |r|
          ensures r[0].code != r[j].code
        {
          assert r[1..][j - 1] == r[j];
          assert r[j] in s[1..];
          var k :| 0 <= k < |s[1..]| && s[1..][k] == r[j];
          assert s[k + 1] == r[j];
        }
        forall x | x in r
          ensures x in s
        {
          if x != r[0] {
            assert x in r[1..];
          }
        }
      } else {
        SubsequenceUnique(r, s[1..]);
      }
    }
  }

  /** The record draft `handleSave` passes to `createMedicalRecord`. */
  function RecordFor(a: Appointment, doctor: User, diagnosis: seq<DiagnosisItem>, indications: string,
                     prescriptions: seq<Prescription>, orders: seq<MedicalOrder>, nowIso: string): MedicalRecordDraft {
    MedicalRecordDraft(a.patientId, a.patientName, a.patientCedula, OrElse(doctor.doctorId, ""), doctor.name, a.id,
                       nowIso, a.reason, "", "", diagnosis, "", indications, prescriptions, orders)
  }

  /** The prescription code for the whole prescription list, prefixed "RX". */
  function PrescriptionCodeFor(a: Appointment, doctor: User, prescriptions: seq<Prescription>, now: nat, nowIso: string): PrescriptionCode {
    PrescriptionCode(GenerateCode("RX", now), a.patientId, a.patientName, a.patientCedula, OrElse(doctor.doctorId, ""),
                     doctor.name, prescriptions, nowIso, false, None)
  }

  /** The record carries the form's lists and the plan is the indications text. */
  lemma RecordCarriesForm(a: Appointment, doctor: User, diagnosis: seq<DiagnosisItem>, indications: string,
                          prescriptions: seq<Prescription>, orders: seq<MedicalOrder>, nowIso: string)
    ensures var r := RecordFor(a, doctor, diagnosis, indications, prescriptions, orders, nowIso);
      r.diagnosis == diagnosis && r.prescription == prescriptions && r.orders == orders && r.plan == indications
      && r.appointmentId == a.id && r.patientId == a.patientId
  {
  }
}

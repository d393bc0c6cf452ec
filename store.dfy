/**
 * The persisted application store (lib/store.ts): ten tables held as
 * sequences plus the payment settings, and the actions that replace them.
 *
 * `Partial<T>` becomes a patch datatype with one `Option` per field and the
 * object spread `{ ...x, ...updates }` becomes `ApplyTo`.  `Date.now()` and
 * `new Date().toISOString()` are passed in as `now` and `nowIso`.
 */
module Store {

  import opened Wrappers
  import opened Text
  import opened Lists
  import opened Types

  // ---- Partial<T> and the shallow merge --------------------------------

  datatype UserPatch = UserPatch(
    id: Option<string>,
    email: Option<string>,
    password: Option<string>,
    role: Option<UserRole>,
    name: Option<string>,
    cedula: Option<Option<string>>,
    phone: Option<Option<string>>,
    membershipId: Option<Option<string>>,
    membershipExpiry: Option<Option<string>>,
    membershipActive: Option<Option<bool>>,
    doctorId: Option<Option<string>>,
    allyId: Option<Option<string>>)

  datatype AppointmentPatch = AppointmentPatch(
    id: Option<string>,
    patientId: Option<string>,
    patientName: Option<string>,
    patientCedula: Option<string>,
    doctorId: Option<string>,
    doctorName: Option<string>,
    specialty: Option<string>,
    date: Option<string>,
    time: Option<string>,
    sector: Option<Sector>,
    modality: Option<Modality>,
    reason: Option<string>,
    status: Option<AppointmentStatus>,
    price: Option<int>,
    isMember: Option<bool>,
    createdAt: Option<string>)
  {
    function ApplyTo(a: Appointment): Appointment {
      Appointment(
        id.GetOr(a.id), patientId.GetOr(a.patientId), patientName.GetOr(a.patientName),
        patientCedula.GetOr(a.patientCedula), doctorId.GetOr(a.doctorId), doctorName.GetOr(a.doctorName),
        specialty.GetOr(a.specialty), date.GetOr(a.date), time.GetOr(a.time), sector.GetOr(a.sector),
        modality.GetOr(a.modality), reason.GetOr(a.reason), status.GetOr(a.status), price.GetOr(a.price),
        isMember.GetOr(a.isMember), createdAt.GetOr(a.createdAt))
    }
  }

  const NoAppointmentChange := AppointmentPatch(None, None, None, None, None, None, None, None, None, None, None, None, None, None, None, None)

  /** `{ status }`: the only update the pages send. */
  function StatusPatch(s: AppointmentStatus): (p: AppointmentPatch)
    ensures p == NoAppointmentChange.(status := Some(s))
    ensures forall a :: p.ApplyTo(a) == a.(status := s)
  {
    NoAppointmentChange.(status := Some(s))
  }

  lemma AppointmentPatchLaws(p: AppointmentPatch, a: Appointment, s: AppointmentStatus)
    ensures NoAppointmentChange.ApplyTo(a) == a
    ensures p.ApplyTo(p.ApplyTo(a)) == p.ApplyTo(a)
    ensures p.id.None? ==> p.ApplyTo(a).id == a.id
    ensures StatusPatch(s).ApplyTo(a) == a.(status := s)
  {
  }

  datatype MedicalRecordPatch = MedicalRecordPatch(
    id: Option<string>,
    patientId: Option<string>,
    patientName: Option<string>,
    patientCedula: Option<string>,
    doctorId: Option<string>,
    doctorName: Option<string>,
    appointmentId: Option<string>,
    date: Option<string>,
    reason: Option<string>,
    antecedents: Option<string>,
    physicalExam: Option<string>,
    diagnosis: Option<seq<DiagnosisItem>>,
    evolution: Option<string>,
    plan: Option<string>,
    prescription: Option<seq<Prescription>>,
    orders: Option<seq<MedicalOrder>>)
  {
    function ApplyTo(r: MedicalRecord): MedicalRecord {
      MedicalRecord(
        id.GetOr(r.id), patientId.GetOr(r.patientId), patientName.GetOr(r.patientName),
        patientCedula.GetOr(r.patientCedula), doctorId.GetOr(r.doctorId), doctorName.GetOr(r.doctorName),
        appointmentId.GetOr(r.appointmentId), date.GetOr(r.date), reason.GetOr(r.reason),
        antecedents.GetOr(r.antecedents), physicalExam.GetOr(r.physicalExam), diagnosis.GetOr(r.diagnosis),
        evolution.GetOr(r.evolution), plan.GetOr(r.plan), prescription.GetOr(r.prescription),
        orders.GetOr(r.orders))
    }
  }

  datatype DoctorPatch = DoctorPatch(
    id: Option<string>,
    name: Option<string>,
    specialty: Option<string>,
    sectors: Option<seq<Sector>>,
    photo: Option<string>,
    priceNormal: Option<int>,
    priceMember: Option<int>,
    schedule: Option<seq<DoctorSchedule>>,
    modalities: Option<seq<Modality>>,
    email: Option<string>,
    phone: Option<string>,
    addresses: Option<Option<map<Sector, string>>>)
  {
    function ApplyTo(d: Doctor): Doctor {
      Doctor(
        id.GetOr(d.id), name.GetOr(d.name), specialty.GetOr(d.specialty), sectors.GetOr(d.sectors),
        photo.GetOr(d.photo), priceNormal.GetOr(d.priceNormal), priceMember.GetOr(d.priceMember),
        schedule.GetOr(d.schedule), modalities.GetOr(d.modalities), email.GetOr(d.email),
        phone.GetOr(d.phone), addresses.GetOr(d.addresses))
    }
  }

  datatype AllyPatch = AllyPatch(
    id: Option<string>,
    name: Option<string>,
    serviceType: Option<ServiceType>,
    sector: Option<Sector>,
    address: Option<string>,
    phone: Option<string>,
    discount: Option<int>,
    photo: Option<string>)
  {
    function ApplyTo(a: Ally): Ally {
      Ally(
        id.GetOr(a.id), name.GetOr(a.name), serviceType.GetOr(a.serviceType), sector.GetOr(a.sector),
        address.GetOr(a.address), phone.GetOr(a.phone), discount.GetOr(a.discount), photo.GetOr(a.photo))
    }
  }

  datatype MembershipPatch = MembershipPatch(
    id: Option<string>,
    name: Option<string>,
    price: Option<int>,
    duration: Option<string>,
    benefits: Option<seq<string>>,
    discount: Option<int>)
  {
    function ApplyTo(m: Membership): Membership {
      Membership(
        id.GetOr(m.id), name.GetOr(m.name), price.GetOr(m.price), duration.GetOr(m.duration),
        benefits.GetOr(m.benefits), discount.GetOr(m.discount))
    }
  }

  datatype PromotionPatch = PromotionPatch(
    id: Option<string>,
    title: Option<string>,
    description: Option<string>,
    price: Option<int>,
    includes: Option<seq<string>>,
    validUntil: Option<string>,
    image: Option<string>)
  {
    function ApplyTo(p: Promotion): Promotion {
      Promotion(
        id.GetOr(p.id), title.GetOr(p.title), description.GetOr(p.description), price.GetOr(p.price),
        includes.GetOr(p.includes), validUntil.GetOr(p.validUntil), image.GetOr(p.image))
    }
  }

  /** `Partial<PaymentSettings>`: each top-level key replaces the whole nested record. */
  datatype PaymentSettingsPatch = PaymentSettingsPatch(
    retentionPercentage: Option<int>,
    paymentMethods: Option<PaymentMethods>,
    bankInfo: Option<BankInfo>)
  {
    function ApplyTo(s: PaymentSettings): (r: PaymentSettings)
      ensures retentionPercentage.Some? ==> r.retentionPercentage == retentionPercentage.value
      ensures retentionPercentage.None? ==> r.retentionPercentage == s.retentionPercentage
      ensures paymentMethods.Some? ==> r.paymentMethods == paymentMethods.value
      ensures paymentMethods.None? ==> r.paymentMethods == s.paymentMethods
      ensures bankInfo.Some? ==> r.bankInfo == bankInfo.value
      ensures bankInfo.None? ==> r.bankInfo == s.bankInfo
    {
      PaymentSettings(
        retentionPercentage.GetOr(s.retentionPercentage), paymentMethods.GetOr(s.paymentMethods),
        bankInfo.GetOr(s.bankInfo))
    }
  }

  /** Merging is idempotent and the empty patch changes nothing, for every table's patch type. */
  lemma PatchLaws(rp: MedicalRecordPatch, r: MedicalRecord, dp: DoctorPatch, d: Doctor,
                  ap: AllyPatch, a: Ally, mp: MembershipPatch, m: Membership,
                  pp: PromotionPatch, p: Promotion, sp: PaymentSettingsPatch, s: PaymentSettings)
    ensures rp.ApplyTo(rp.ApplyTo(r)) == rp.ApplyTo(r)
    ensures dp.ApplyTo(dp.ApplyTo(d)) == dp.ApplyTo(d)
    ensures ap.ApplyTo(ap.ApplyTo(a)) == ap.ApplyTo(a)
    ensures mp.ApplyTo(mp.ApplyTo(m)) == mp.ApplyTo(m)
    ensures pp.ApplyTo(pp.ApplyTo(p)) == pp.ApplyTo(p)
    ensures sp.ApplyTo(sp.ApplyTo(s)) == sp.ApplyTo(s)
    ensures PaymentSettingsPatch(None, None, None).ApplyTo(s) == s
    ensures dp.id.None? ==> dp.ApplyTo(d).id == d.id
    ensures ap.id.None? ==> ap.ApplyTo(a).id == a.id
  {
  }

  // ---- Omit<T, ...>: what the create actions receive --------------------

  /** `Omit<Appointment, "id" | "createdAt">`. */
  datatype AppointmentDraft = AppointmentDraft(
    patientId: string,
    patientName: string,
    patientCedula: string,
    doctorId: string,
    doctorName: string,
    specialty: string,
    date: string,
    time: string,
    sector: Sector,
    modality: Modality,
    reason: string,
    status: AppointmentStatus,
    price: int,
    isMember: bool)
  {
    function WithIds(id: string, createdAt: string): Appointment {
      Appointment(id, patientId, patientName, patientCedula, doctorId, doctorName, specialty, date, time,
                  sector, modality, reason, status, price, isMember, createdAt)
    }
  }

  /** The draft an appointment was made from: everything but its id and creation time. */
  function DraftOf(a: Appointment): AppointmentDraft {
    AppointmentDraft(a.patientId, a.patientName, a.patientCedula, a.doctorId, a.doctorName, a.specialty,
                     a.date, a.time, a.sector, a.modality, a.reason, a.status, a.price, a.isMember)
  }

  lemma DraftRoundTrip(d: AppointmentDraft, id: string, createdAt: string, a: Appointment)
    ensures DraftOf(d.WithIds(id, createdAt)) == d
    ensures d.WithIds(id, createdAt).id == id && d.WithIds(id, createdAt).createdAt == createdAt
    ensures DraftOf(a).WithIds(a.id, a.createdAt) == a
  {
  }

  /** `Omit<MedicalRecord, "id">`. */
  datatype MedicalRecordDraft = MedicalRecordDraft(
    patientId: string,
    patientName: string,
    patientCedula: string,
    doctorId: string,
    doctorName: string,
    appointmentId: string,
    date: string,
    reason: string,
    antecedents: string,
    physicalExam: string,
    diagnosis: seq<DiagnosisItem>,
    evolution: string,
    plan: string,
    prescription: seq<Prescription>,
    orders: seq<MedicalOrder>)
  {
    function WithId(id: string): MedicalRecord {
      MedicalRecord(id, patientId, patientName, patientCedula, doctorId, doctorName, appointmentId, date, reason,
                    antecedents, physicalExam, diagnosis, evolution, plan, prescription, orders)
    }
  }

  function RecordDraftOf(r: MedicalRecord): MedicalRecordDraft {
    MedicalRecordDraft(r.patientId, r.patientName, r.patientCedula, r.doctorId, r.doctorName, r.appointmentId,
                       r.date, r.reason, r.antecedents, r.physicalExam, r.diagnosis, r.evolution, r.plan,
                       r.prescription, r.orders)
  }

  lemma RecordDraftRoundTrip(d: MedicalRecordDraft, id: string)
    ensures RecordDraftOf(d.WithId(id)) == d && d.WithId(id).id == id
  {
  }

  // ---- Code redemption ---------------------------------------------------

  /** `{ ...c, used: true, usedAt: now }`. */
  function RedeemPrescription(c: PrescriptionCode, nowIso: string): (r: PrescriptionCode)
    ensures r.used && r.usedAt == Some(nowIso)
    ensures r.(used := c.used, usedAt := c.usedAt) == c
  {
    c.(used := true, usedAt := Some(nowIso))
  }

  function RedeemOrder(c: OrderCode, nowIso: string): (r: OrderCode)
    ensures r.used && r.usedAt == Some(nowIso)
    ensures r.(used := c.used, usedAt := c.usedAt) == c
  {
    c.(used := true, usedAt := Some(nowIso))
  }

  /** Redeeming again keeps the code used but moves its usage time to the later call. */
  lemma RedeemAgain(p: PrescriptionCode, o: OrderCode, t1: string, t2: string)
    ensures RedeemPrescription(RedeemPrescription(p, t1), t2) == RedeemPrescription(p, t2)
    ensures RedeemOrder(RedeemOrder(o, t1), t2) == RedeemOrder(o, t2)
  {
  }

  // ---- The store ---------------------------------------------------------

  /** Every table of the store at one moment. */
  datatype StoreState = StoreState(
    doctors: seq<Doctor>,
    allies: seq<Ally>,
    memberships: seq<Membership>,
    promotions: seq<Promotion>,
    appointments: seq<Appointment>,
    medicalRecords: seq<MedicalRecord>,
    prescriptionCodes: seq<PrescriptionCode>,
    orderCodes: seq<OrderCode>,
    paymentSettings: PaymentSettings,
    labResults: seq<LabResult>)

  class AppStore {
    var doctors: seq<Doctor>
    var allies: seq<Ally>
    var memberships: seq<Membership>
    var promotions: seq<Promotion>
    var appointments: seq<Appointment>
    var medicalRecords: seq<MedicalRecord>
    var prescriptionCodes: seq<PrescriptionCode>
    var orderCodes: seq<OrderCode>
    var paymentSettings: PaymentSettings
    var labResults: seq<LabResult>

    function State(): StoreState
      reads this
    {
      StoreState(doctors, allies, memberships, promotions, appointments, medicalRecords,
                 prescriptionCodes, orderCodes, paymentSettings, labResults)
    }

    /** The initial state: the catalogue tables are seeded, the transactional ones empty. */
    constructor (seedDoctors: seq<Doctor>, seedAllies: seq<Ally>, seedMemberships: seq<Membership>,
                 seedPromotions: seq<Promotion>, seedSettings: PaymentSettings)
      ensures State() == StoreState(seedDoctors, seedAllies, seedMemberships, seedPromotions,
                                    [], [], [], [], seedSettings, [])
    {
      doctors := seedDoctors;
      allies := seedAllies;
      memberships := seedMemberships;
      promotions := seedPromotions;
      appointments := [];
      medicalRecords := [];
      prescriptionCodes := [];
      orderCodes := [];
      paymentSettings := seedSettings;
      labResults := [];
    }

    /** A placeholder for a profile-update call: no table changes. */
    method UpdateUser(userId: string, updates: UserPatch)
      modifies this
      ensures State() == old(State())
    {
    }

    // -- appointments

    method CreateAppointment(draft: AppointmentDraft, now: nat, nowIso: string) returns (a: Appointment)
      modifies this
      ensures a == draft.WithIds("apt-" + DecimalString(now), nowIso)
      ensures DraftOf(a) == draft
      ensures appointments == old(appointments) + [a]
      ensures State() == old(State()).(appointments := appointments)
    {
      a := draft.WithIds("apt-" + DecimalString(now), nowIso);
      appointments := appointments + [a];
    }

    method UpdateAppointment(id: string, updates: AppointmentPatch)
      modifies this
      ensures |appointments| == |old(appointments)|
      ensures forall i :: 0 <= i < |appointments| ==>
        appointments[i] == if old(appointments)[i].id == id then updates.ApplyTo(old(appointments)[i]) else old(appointments)[i]
      ensures (forall a :: a in old(appointments) ==> a.id != id) ==> appointments == old(appointments)
      ensures State() == old(State()).(appointments := appointments)
    {
      MapWhereNoMatch(appointments, (a: Appointment) => a.id == id, (a: Appointment) => updates.ApplyTo(a));
      appointments := MapWhere(appointments, (a: Appointment) => a.id == id, (a: Appointment) => updates.ApplyTo(a));
    }

    method DeleteAppointment(id: string)
      modifies this
      ensures forall a :: a in appointments <==> a in old(appointments) && a.id != id
      ensures IsSubsequence(appointments, old(appointments))
      ensures appointments == Filter(old(appointments), (a: Appointment) => a.id != id)
      ensures State() == old(State()).(appointments := appointments)
    {
      appointments := Filter(appointments, (a: Appointment) => a.id != id);
    }

    // -- medical records

    method CreateMedicalRecord(draft: MedicalRecordDraft, now: nat) returns (r: MedicalRecord)
      modifies this
      ensures r == draft.WithId("record-" + DecimalString(now))
      ensures RecordDraftOf(r) == draft
      ensures medicalRecords == old(medicalRecords) + [r]
      ensures State() == old(State()).(medicalRecords := medicalRecords)
    {
      r := draft.WithId("record-" + DecimalString(now));
      medicalRecords := medicalRecords + [r];
    }

    method UpdateMedicalRecord(id: string, updates: MedicalRecordPatch)
      modifies this
      ensures |medicalRecords| == |old(medicalRecords)|
      ensures forall i :: 0 <= i < |medicalRecords| ==>
        medicalRecords[i] == if old(medicalRecords)[i].id == id then updates.ApplyTo(old(medicalRecords)[i]) else old(medicalRecords)[i]
      ensures (forall r :: r in old(medicalRecords) ==> r.id != id) ==> medicalRecords == old(medicalRecords)
      ensures State() == old(State()).(medicalRecords := medicalRecords)
    {
      MapWhereNoMatch(medicalRecords, (r: MedicalRecord) => r.id == id, (r: MedicalRecord) => updates.ApplyTo(r));
      medicalRecords := MapWhere(medicalRecords, (r: MedicalRecord) => r.id == id, (r: MedicalRecord) => updates.ApplyTo(r));
    }

    // -- codes

    /** Appends without looking for an existing entry with the same code. */
    method CreatePrescriptionCode(code: PrescriptionCode)
      modifies this
      ensures prescriptionCodes == old(prescriptionCodes) + [code]
      ensures State() == old(State()).(prescriptionCodes := prescriptionCodes)
    {
      prescriptionCodes := prescriptionCodes + [code];
    }

    method CreateOrderCode(code: OrderCode)
      modifies this
      ensures orderCodes == old(orderCodes) + [code]
      ensures State() == old(State()).(orderCodes := orderCodes)
    {
      orderCodes := orderCodes + [code];
    }

    method UsePrescriptionCode(code: string, nowIso: string)
      modifies this
      ensures |prescriptionCodes| == |old(prescriptionCodes)|
      ensures forall i :: 0 <= i < |prescriptionCodes| ==>
        prescriptionCodes[i] == if old(prescriptionCodes)[i].code == code then RedeemPrescription(old(prescriptionCodes)[i], nowIso) else old(prescriptionCodes)[i]
      ensures forall c :: c in prescriptionCodes && c.code == code ==> c.used && c.usedAt == Some(nowIso)
      ensures State() == old(State()).(prescriptionCodes := prescriptionCodes)
    {
      prescriptionCodes := MapWhere(prescriptionCodes, (c: PrescriptionCode) => c.code == code, (c: PrescriptionCode) => RedeemPrescription(c, nowIso));
    }

    method UseOrderCode(code: string, nowIso: string)
      modifies this
      ensures |orderCodes| == |old(orderCodes)|
      ensures forall i :: 0 <= i < |orderCodes| ==>
        orderCodes[i] == if old(orderCodes)[i].code == code then RedeemOrder(old(orderCodes)[i], nowIso) else old(orderCodes)[i]
      ensures forall c :: c in orderCodes && c.code == code ==> c.used && c.usedAt == Some(nowIso)
      ensures State() == old(State()).(orderCodes := orderCodes)
    {
      orderCodes := MapWhere(orderCodes, (c: OrderCode) => c.code == code, (c: OrderCode) => RedeemOrder(c, nowIso));
    }

    // -- payment settings and lab results

    method UpdatePaymentSettings(settings: PaymentSettingsPatch)
      modifies this
      ensures paymentSettings == settings.ApplyTo(old(paymentSettings))
      ensures State() == old(State()).(paymentSettings := paymentSettings)
    {
      paymentSettings := settings.ApplyTo(paymentSettings);
    }

    method AddLabResult(result: LabResult)
      modifies this
      ensures labResults == old(labResults) + [result]
      ensures State() == old(State()).(labResults := labResults)
    {
      labResults := labResults + [result];
    }

    // -- admin catalogue

    method AddDoctor(doctor: Doctor)
      modifies this
      ensures doctors == old(doctors) + [doctor]
      ensures State() == old(State()).(doctors := doctors)
    {
      doctors := doctors + [doctor];
    }

    method UpdateDoctor(id: string, updates: DoctorPatch)
      modifies this
      ensures |doctors| == |old(doctors)|
      ensures forall i :: 0 <= i < |doctors| ==>
        doctors[i] == if old(doctors)[i].id == id then updates.ApplyTo(old(doctors)[i]) else old(doctors)[i]
      ensures (forall d :: d in old(doctors) ==> d.id != id) ==> doctors == old(doctors)
      ensures State() == old(State()).(doctors := doctors)
    {
      MapWhereNoMatch(doctors, (d: Doctor) => d.id == id, (d: Doctor) => updates.ApplyTo(d));
      doctors := MapWhere(doctors, (d: Doctor) => d.id == id, (d: Doctor) => updates.ApplyTo(d));
    }

    method DeleteDoctor(id: string)
      modifies this
      ensures forall d :: d in doctors <==> d in old(doctors) && d.id != id
      ensures IsSubsequence(doctors, old(doctors))
      ensures forall d :: multiset(doctors)[d] == if d.id != id then multiset(old(doctors))[d] else 0
      ensures State() == old(State()).(doctors := doctors)
    {
      doctors := Filter(doctors, (d: Doctor) => d.id != id);
    }

    method AddAlly(ally: Ally)
      modifies this
      ensures allies == old(allies) + [ally]
      ensures State() == old(State()).(allies := allies)
    {
      allies := allies + [ally];
    }

    method UpdateAlly(id: string, updates: AllyPatch)
      modifies this
      ensures |allies| == |old(allies)|
      ensures forall i :: 0 <= i < |allies| ==>
        allies[i] == if old(allies)[i].id == id then updates.ApplyTo(old(allies)[i]) else old(allies)[i]
      ensures (forall a :: a in old(allies) ==> a.id != id) ==> allies == old(allies)
      ensures State() == old(State()).(allies := allies)
    {
      MapWhereNoMatch(allies, (a: Ally) => a.id == id, (a: Ally) => updates.ApplyTo(a));
      allies := MapWhere(allies, (a: Ally) => a.id == id, (a: Ally) => updates.ApplyTo(a));
    }

    method DeleteAlly(id: string)
      modifies this
      ensures forall a :: a in allies <==> a in old(allies) && a.id != id
      ensures IsSubsequence(allies, old(allies))
      ensures forall a :: multiset(allies)[a] == if a.id != id then multiset(old(allies))[a] else 0
      ensures State() == old(State()).(allies := allies)
    {
      allies := Filter(allies, (a: Ally) => a.id != id);
    }

    method AddMembership(membership: Membership)
      modifies this
      ensures memberships == old(memberships) + [membership]
      ensures State() == old(State()).(memberships := memberships)
    {
      memberships := memberships + [membership];
    }

    method UpdateMembership(id: string, updates: MembershipPatch)
      modifies this
      ensures |memberships| == |old(memberships)|
      ensures forall i :: 0 <= i < |memberships| ==>
        memberships[i] == if old(memberships)[i].id == id then updates.ApplyTo(old(memberships)[i]) else old(memberships)[i]
      ensures (forall m :: m in old(memberships) ==> m.id != id) ==> memberships == old(memberships)
      ensures State() == old(State()).(memberships := memberships)
    {
      MapWhereNoMatch(memberships, (m: Membership) => m.id == id, (m: Membership) => updates.ApplyTo(m));
      memberships := MapWhere(memberships, (m: Membership) => m.id == id, (m: Membership) => updates.ApplyTo(m));
    }

    method DeleteMembership(id: string)
      modifies this
      ensures forall m :: m in memberships <==> m in old(memberships) && m.id != id
      ensures IsSubsequence(memberships, old(memberships))
      ensures forall m :: multiset(memberships)[m] == if m.id != id then multiset(old(memberships))[m] else 0
      ensures State() == old(State()).(memberships := memberships)
    {
      memberships := Filter(memberships, (m: Membership) => m.id != id);
    }

    method AddPromotion(promotion: Promotion)
      modifies this
      ensures promotions == old(promotions) + [promotion]
      ensures State() == old(State()).(promotions := promotions)
    {
      promotions := promotions + [promotion];
    }

    method UpdatePromotion(id: string, updates: PromotionPatch)
      modifies this
      ensures |promotions| == |old(promotions)|
      ensures forall i :: 0 <= i < |promotions| ==>
        promotions[i] == if old(promotions)[i].id == id then updates.ApplyTo(old(promotions)[i]) else old(promotions)[i]
      ensures (forall p :: p in old(promotions) ==> p.id != id) ==> promotions == old(promotions)
      ensures State() == old(State()).(promotions := promotions)
    {
      MapWhereNoMatch(promotions, (p: Promotion) => p.id == id, (p: Promotion) => updates.ApplyTo(p));
      promotions := MapWhere(promotions, (p: Promotion) => p.id == id, (p: Promotion) => updates.ApplyTo(p));
    }

    method DeletePromotion(id: string)
      modifies this
      ensures forall p :: p in promotions <==> p in old(promotions) && p.id != id
      ensures IsSubsequence(promotions, old(promotions))
      ensures forall p :: multiset(promotions)[p] == if p.id != id then multiset(old(promotions))[p] else 0
      ensures State() == old(State()).(promotions := promotions)
    {
      promotions := Filter(promotions, (p: Promotion) => p.id != id);
    }
  }
}

/**
 * The platform's enumerations and records (lib/types.ts).  A string union
 * becomes a datatype with one constructor per literal, an optional field
 * (`x?: T`) becomes an `Option<T>`, and a `number` becomes an `int`: every
 * price, discount, percentage and count the platform handles is whole.
 */
module Types {

  import opened Wrappers

  datatype UserRole = PublicUser | PatientUser | DoctorUser | AdminUser | AllyUser

  datatype Sector = Norte | Centro | Sur

  datatype AppointmentStatus = Pending | Paid | Completed | Cancelled | PendingVerification

  datatype ServiceType = MedicalService | LaboratoryService | ImagingService | PharmacyService | DentalService

  datatype Modality = Presencial | Telemedicina | Domicilio

  /** The kinds a medical order or an order code can have. */
  datatype OrderType = Laboratory | Imaging | Physiotherapy

  /** The kinds a lab result can have: physiotherapy produces no result file. */
  datatype ResultType = LaboratoryResult | ImagingResult

  /** A result kind as an order kind. */
  function ResultOrderType(t: ResultType): (o: OrderType)
    ensures o != Physiotherapy
  {
    match t
    case LaboratoryResult => Laboratory
    case ImagingResult => Imaging
  }

  /** The result kind of an order kind, if it has one (the `as "laboratory" | "imaging"` cast). */
  function OrderResultType(o: OrderType): (r: Option<ResultType>)
    ensures r.None? <==> o == Physiotherapy
    ensures r.Some? ==> ResultOrderType(r.value) == o
  {
    match o
    case Laboratory => Some(LaboratoryResult)
    case Imaging => Some(ImagingResult)
    case Physiotherapy => None
  }

  lemma ResultTypeRoundTrip(t: ResultType)
    ensures OrderResultType(ResultOrderType(t)) == Some(t)
  {
  }

  datatype User = User(
    id: string,
    email: string,
    password: string,
    role: UserRole,
    name: string,
    cedula: Option<string>,
    phone: Option<string>,
    membershipId: Option<string>,
    membershipExpiry: Option<string>,
    membershipActive: Option<bool>,
    doctorId: Option<string>,
    allyId: Option<string>)

  datatype Membership = Membership(
    id: string,
    name: string,
    price: int,
    duration: string,
    benefits: seq<string>,
    discount: int)

  datatype DoctorSchedule = DoctorSchedule(day: int, slots: seq<string>, sector: Sector)

  datatype Doctor = Doctor(
    id: string,
    name: string,
    specialty: string,
    sectors: seq<Sector>,
    photo: string,
    priceNormal: int,
    priceMember: int,
    schedule: seq<DoctorSchedule>,
    modalities: seq<Modality>,
    email: string,
    phone: string,
    addresses: Option<map<Sector, string>>)

  predicate IsDigitChar(c: char) {
    '0' <= c <= '9'
  }

  /** An "HH:MM" slot label. */
  predicate IsSlotTime(t: string) {
    |t| == 5 && IsDigitChar(t[0]) && IsDigitChar(t[1]) && t[2] == ':' && IsDigitChar(t[3]) && IsDigitChar(t[4])
  }

  /** A schedule entry names a weekday 0 (Sunday) to 6 and lists "HH:MM" slots. */
  predicate ValidSchedule(s: DoctorSchedule) {
    0 <= s.day <= 6 && forall i :: 0 <= i < |s.slots| ==> IsSlotTime(s.slots[i])
  }

  datatype Appointment = Appointment(
    id: string,
    patientId: string,
    patientName: string,
    patientCedula: string,
    doctorId: string,
    doctorName: string,
    specialty: string,
    date: string,
    time: string,
    sector: Sector,
    modality: Modality,
    reason: string,
    status: AppointmentStatus,
    price: int,
    isMember: bool,
    createdAt: string)

  datatype Ally = Ally(
    id: string,
    name: string,
    serviceType: ServiceType,
    sector: Sector,
    address: string,
    phone: string,
    discount: int,
    photo: string)

  datatype Promotion = Promotion(
    id: string,
    title: string,
    description: string,
    price: int,
    includes: seq<string>,
    validUntil: string,
    image: string)

  datatype DiagnosisItem = DiagnosisItem(code: string, description: string)

  datatype Prescription = Prescription(
    id: string,
    medication: string,
    dose: string,
    frequency: string,
    duration: string,
    instructions: string)

  datatype MedicalOrder = MedicalOrder(
    id: string,
    orderType: OrderType,
    description: string,
    code: string,
    used: bool,
    usedAt: Option<string>)

  datatype MedicalRecord = MedicalRecord(
    id: string,
    patientId: string,
    patientName: string,
    patientCedula: string,
    doctorId: string,
    doctorName: string,
    appointmentId: string,
    date: string,
    reason: string,
    antecedents: string,
    physicalExam: string,
    diagnosis: seq<DiagnosisItem>,
    evolution: string,
    plan: string,
    prescription: seq<Prescription>,
    orders: seq<MedicalOrder>)

  datatype PrescriptionCode = PrescriptionCode(
    code: string,
    patientId: string,
    patientName: string,
    patientCedula: string,
    doctorId: string,
    doctorName: string,
    items: seq<Prescription>,
    createdAt: string,
    used: bool,
    usedAt: Option<string>)

  datatype OrderCode = OrderCode(
    code: string,
    orderType: OrderType,
    patientId: string,
    patientName: string,
    patientCedula: string,
    doctorId: string,
    doctorName: string,
    description: string,
    createdAt: string,
    used: bool,
    usedAt: Option<string>)

  datatype PaymentMethods = PaymentMethods(transfer: bool, card: bool)

  datatype BankInfo = BankInfo(
    bankName: string,
    accountNumber: string,
    accountType: string,
    ownerName: string,
    ownerId: string)

  datatype PaymentSettings = PaymentSettings(
    retentionPercentage: int,
    paymentMethods: PaymentMethods,
    bankInfo: BankInfo)

  datatype LabResult = LabResult(
    id: string,
    orderId: string,
    patientId: string,
    allyId: string,
    allyName: string,
    resultType: ResultType,
    fileName: string,
    uploadedAt: string,
    description: string)

  datatype CIE10Code = CIE10Code(code: string, description: string)

  // ---- Backend API types ------------------------------------------------

  datatype DoctorStatus = DoctorActivo | DoctorInactivo | DoctorDeVacaciones

  datatype UserStatus = UserActivo | UserInactivo | UserSuspendido

  datatype ApiSpecialty = ApiSpecialty(
    id: string,
    name: string,
    description: string,
    imageUrl: Option<string>,
    createdAt: Option<string>,
    updatedAt: Option<string>,
    doctorCount: Option<int>)

  datatype SpecialtyRef = SpecialtyRef(id: string, name: string, description: Option<string>)

  datatype UserRef = UserRef(id: string, name: string, email: string)

  datatype ApiDoctor = ApiDoctor(
    id: string,
    name: string,
    email: string,
    phone: Option<string>,
    experienceYears: int,
    rating: int,
    status: DoctorStatus,
    specialty: SpecialtyRef,
    user: Option<UserRef>)

  datatype CreateSpecialtyDto = CreateSpecialtyDto(name: string, description: string, imageUrl: Option<string>)

  datatype CreateDoctorDto = CreateDoctorDto(
    name: string,
    email: string,
    phone: Option<string>,
    experienceYears: int,
    specialtyId: string,
    userId: Option<string>,
    status: Option<DoctorStatus>)

  datatype AdminRef = AdminRef(id: string, name: Option<string>)

  datatype DoctorRef = DoctorRef(id: string, name: string, specialtyName: Option<string>)

  datatype ApiUser = ApiUser(
    id: string,
    name: Option<string>,
    email: string,
    status: UserStatus,
    image: Option<string>,
    createdAt: Option<string>,
    updatedAt: Option<string>,
    admin: Option<AdminRef>,
    doctor: Option<DoctorRef>)

  datatype CreateUserDto = CreateUserDto(
    name: Option<string>,
    email: string,
    password: Option<string>,
    status: Option<UserStatus>)
}

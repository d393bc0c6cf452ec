/**
 * The admin doctor form (components/admin/forms/doctor-form.tsx): the field
 * record, its change handlers and the data `handleSubmit` hands on, which
 * carries the picked image beside the DTO.
 */
module DoctorForm {

  import opened Wrappers
  import opened Text
  import opened Types
  import ImageUpload

  datatype FormData = FormData(
    name: string,
    email: string,
    phone: string,
    experienceYears: string,
    specialtyId: string,
    status: DoctorStatus,
    image: Option<ImageUpload.FileRef>)

  datatype TextField = NameField | EmailField | PhoneField | ExperienceField | SpecialtyField

  datatype Submission = MissingFields | Submitted(dto: CreateDoctorDto, image: Option<ImageUpload.FileRef>)

  function Get(d: FormData, f: TextField): string {
    match f
    case NameField => d.name
    case EmailField => d.email
    case PhoneField => d.phone
    case ExperienceField => d.experienceYears
    case SpecialtyField => d.specialtyId
  }

  /** Prefilled from the doctor (years as their decimal text), status Activo and no image when creating. */
  function Initial(doctor: Option<ApiDoctor>): (d: FormData)
    ensures d.image.None?
    ensures doctor.None? ==> d == FormData("", "", "", "", "", DoctorActivo, None)
    ensures doctor.Some? ==>
      && d.name == doctor.value.name && d.email == doctor.value.email
      && d.phone == OrElse(doctor.value.phone, "")
      && d.experienceYears == IntString(doctor.value.experienceYears)
      && d.specialtyId == doctor.value.specialty.id && d.status == doctor.value.status
  {
    match doctor
    case None => FormData("", "", "", "", "", DoctorActivo, None)
    case Some(doc) =>
      FormData(doc.name, doc.email, OrElse(doc.phone, ""), IntString(doc.experienceYears),
               doc.specialty.id, doc.status, None)
  }

  /** `handleChange`: the named input gets the value, the rest is as it was. */
  function SetField(d: FormData, f: TextField, v: string): (r: FormData)
    ensures Get(r, f) == v
    ensures forall g :: g != f ==> Get(r, g) == Get(d, g)
    ensures r.status == d.status && r.image == d.image
  {
    match f
    case NameField => d.(name := v)
    case EmailField => d.(email := v)
    case PhoneField => d.(phone := v)
    case ExperienceField => d.(experienceYears := v)
    case SpecialtyField => d.(specialtyId := v)
  }

  /**
   * `handleSubmit`: name, specialty and email are required; an empty phone is
   * left out and the years are `parseInt(text) || 0`.
   */
  function Submit(d: FormData): (r: Submission)
    ensures r.MissingFields? <==> d.name == "" || d.specialtyId == "" || d.email == ""
    ensures r.Submitted? ==>
      && r.dto.name == d.name && r.dto.email == d.email && r.dto.specialtyId == d.specialtyId
      && r.dto.phone == NonEmpty(d.phone) && r.dto.status == Some(d.status)
      && r.dto.experienceYears == ParseIntOrZero(d.experienceYears)
      && r.dto.userId.None? && r.image == d.image
  {
    if d.name == "" || d.specialtyId == "" || d.email == "" then MissingFields
    else Submitted(CreateDoctorDto(d.name, d.email, NonEmpty(d.phone), ParseIntOrZero(d.experienceYears),
                                   d.specialtyId, None, Some(d.status)), d.image)
  }

  /** Years that are not a number, or blank, are sent as 0. */
  lemma YearsDefaultToZero(d: FormData)
    requires d.name != "" && d.specialtyId != "" && d.email != ""
    ensures d.experienceYears == "" ==> Submit(d).dto.experienceYears == 0
    ensures d.experienceYears == "diez" ==> Submit(d).dto.experienceYears == 0
  {
    if d.experienceYears == "" {
      ParseIntNaN("");
    }
    if d.experienceYears == "diez" {
      ParseIntNaN("diez");
    }
  }

  /** `parseInt` reads the leading number only: "12 años" is 12. */
  lemma YearsLeadingNumber(d: FormData)
    requires d.name != "" && d.specialtyId != "" && d.email != ""
    requires d.experienceYears == "12 años"
    ensures Submit(d).dto.experienceYears == 12
  {
    var t := "12 años";
    assert !IsWhitespace(t[0]);
    assert TrimStart(t) == t;
    assert DigitValue(t[2], 10).None?;
    assert DigitRun(t[2..], 10) == [];
    assert DigitRun(t[1..], 10) == "2";
    assert DigitRun(t, 10) == "12";
    assert RunValue("1", 10) == 1;
    assert RunValue("12", 10) == 12;
  }

  /** Saving an untouched edit form sends the doctor's own fields back, years included. */
  lemma UntouchedEdit(doc: ApiDoctor)
    requires doc.name != "" && doc.specialty.id != "" && doc.email != ""
    ensures var r := Submit(Initial(Some(doc)));
      && r.Submitted? && r.dto.name == doc.name && r.dto.email == doc.email
      && r.dto.experienceYears == doc.experienceYears
      && r.dto.specialtyId == doc.specialty.id && r.dto.status == Some(doc.status)
      && (Present(doc.phone) ==> r.dto.phone == doc.phone)
  {
    ParseIntString(doc.experienceYears);
  }
}

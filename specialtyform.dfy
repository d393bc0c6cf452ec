/**
 * The admin specialty form (components/admin/forms/specialty-form.tsx): the
 * field record, its change handler and the DTO `handleSubmit` hands on.
 */
module SpecialtyForm {

  import opened Wrappers
  import opened Types

  datatype FormData = FormData(name: string, description: string, imageUrl: string)

  datatype Field = NameField | DescriptionField | ImageUrlField

  datatype Submission = MissingFields | Submitted(dto: CreateSpecialtyDto)

  function Get(d: FormData, f: Field): string {
    match f
    case NameField => d.name
    case DescriptionField => d.description
    case ImageUrlField => d.imageUrl
  }

  /** Prefilled from the specialty, or empty when creating. */
  function Initial(specialty: Option<ApiSpecialty>): (d: FormData)
    ensures specialty.None? ==> d == FormData("", "", "")
    ensures specialty.Some? ==> d.name == specialty.value.name && d.description == specialty.value.description
                                && d.imageUrl == OrElse(specialty.value.imageUrl, "")
  {
    match specialty
    case None => FormData("", "", "")
    case Some(s) => FormData(s.name, s.description, OrElse(s.imageUrl, ""))
  }

  /** `handleChange`: only the named field changes. */
  function SetField(d: FormData, f: Field, v: string): (r: FormData)
    ensures Get(r, f) == v
    ensures forall g :: g != f ==> Get(r, g) == Get(d, g)
  {
    match f
    case NameField => d.(name := v)
    case DescriptionField => d.(description := v)
    case ImageUrlField => d.(imageUrl := v)
  }

  /** `handleSubmit`: name and description are required, an empty image URL is left out. */
  function Submit(d: FormData): (r: Submission)
    ensures r.MissingFields? <==> d.name == "" || d.description == ""
    ensures r.Submitted? ==> r.dto.name == d.name && r.dto.description == d.description
                             && r.dto.imageUrl == NonEmpty(d.imageUrl)
  {
    if d.name == "" || d.description == "" then MissingFields
    else Submitted(CreateSpecialtyDto(d.name, d.description, NonEmpty(d.imageUrl)))
  }

  /** Saving an untouched edit form sends the specialty back as it was; a blank image URL stays absent. */
  lemma UntouchedEdit(s: ApiSpecialty)
    requires s.name != "" && s.description != ""
    ensures Submit(Initial(Some(s))) == Submitted(CreateSpecialtyDto(s.name, s.description, NonEmpty(OrElse(s.imageUrl, ""))))
    ensures Present(s.imageUrl) ==> Submit(Initial(Some(s))).dto.imageUrl == s.imageUrl
  {
  }

  /** An untouched create form is refused. */
  lemma EmptyCreateRefused()
    ensures Submit(Initial(None)) == MissingFields
  {
  }
}

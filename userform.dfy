/**
 * The admin user form (components/admin/forms/user-form.tsx): the field
 * record, its change handlers, and the DTO `handleSubmit` passes to
 * `onSubmit`.  Create and edit DTOs have the same shape.
 */
module UserForm {

  import opened Wrappers
  import opened Types

  datatype FormData = FormData(name: string, email: string, password: string, status: UserStatus)

  datatype TextField = NameField | EmailField | PasswordField

  /** What a submit does: the required-fields alert, or the DTO handed on. */
  datatype Submission = MissingFields | Submitted(dto: CreateUserDto)

  const MissingFieldsMessage := "Por favor completa todos los campos requeridos"

  function Get(d: FormData, f: TextField): string {
    match f
    case NameField => d.name
    case EmailField => d.email
    case PasswordField => d.password
  }

  /** The form starts from the edited user, status Activo when creating, and always with an empty password. */
  function Initial(user: Option<ApiUser>): (d: FormData)
    ensures d.password == ""
    ensures user.None? ==> d == FormData("", "", "", UserActivo)
    ensures user.Some? ==> d.name == OrElse(user.value.name, "") && d.email == user.value.email
                           && d.status == user.value.status
  {
    match user
    case None => FormData("", "", "", UserActivo)
    case Some(u) => FormData(OrElse(u.name, ""), u.email, "", u.status)
  }

  /** `handleChange`: the named input gets the value, the rest is as it was. */
  function SetField(d: FormData, f: TextField, v: string): (r: FormData)
    ensures Get(r, f) == v
    ensures forall g :: g != f ==> Get(r, g) == Get(d, g)
    ensures r.status == d.status
  {
    match f
    case NameField => d.(name := v)
    case EmailField => d.(email := v)
    case PasswordField => d.(password := v)
  }

  /** `handleSelectChange("status", …)`. */
  function SetStatus(d: FormData, s: UserStatus): (r: FormData)
    ensures r.status == s && forall g :: Get(r, g) == Get(d, g)
  {
    d.(status := s)
  }

  /**
   * `handleSubmit`; `editing` says whether a user was passed in.  The email
   * is always required, the password only when creating; a password goes
   * into the DTO exactly when one was typed.
   */
  function Submit(d: FormData, editing: bool): (r: Submission)
    ensures r.MissingFields? <==> d.email == "" || (!editing && d.password == "")
    ensures r.Submitted? ==> r.dto.email == d.email && r.dto.status == Some(d.status)
    ensures r.Submitted? ==> r.dto.name == NonEmpty(d.name)
    ensures r.Submitted? ==> (r.dto.password.Some? <==> d.password != "")
    ensures r.Submitted? && r.dto.password.Some? ==> r.dto.password.value == d.password
  {
    if d.email == "" || (!editing && d.password == "") then MissingFields
    else Submitted(CreateUserDto(NonEmpty(d.name), d.email, NonEmpty(d.password), Some(d.status)))
  }

  /** Saving an untouched edit form sends the user's own fields back and no password. */
  lemma UntouchedEdit(u: ApiUser)
    requires u.email != ""
    ensures Submit(Initial(Some(u)), true) == Submitted(CreateUserDto(NonEmpty(OrElse(u.name, "")), u.email, None, Some(u.status)))
    ensures u.name.Some? ==> Submit(Initial(Some(u)), true).dto.name == NonEmpty(u.name.value)
  {
  }

  /** An untouched create form is refused: it has neither email nor password. */
  lemma EmptyCreateRefused()
    ensures Submit(Initial(None), false) == MissingFields
  {
  }

  /** Editing never needs a password: the email alone decides. */
  lemma EditNeedsOnlyEmail(d: FormData)
    ensures Submit(d, true).Submitted? <==> d.email != ""
  {
  }
}

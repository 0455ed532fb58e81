/**
 * The profile form (client/src/pages/profile.tsx): `profileSchema`, the
 * form's initial values and what submitting them sends. The avatar and the
 * type badge use Display.Initials, Display.UserTypeLabel and
 * Display.UserTypeColor. zod's e-mail check is the parameter `isEmail`.
 */
module ProfilePage {
  import opened Wrappers
  import opened ApiTypes

  datatype ProfileInput = ProfileInput(
    name: Option<string>, email: Option<string>, company: Option<string>,
    phone: Option<string>, description: Option<string>)

  datatype ProfileData = ProfileData(
    name: string, email: string, company: Option<string>,
    phone: Option<string>, description: Option<string>)

  /**
   * `profileSchema.safeParse`: accepted exactly when the name is a non-empty
   * string and the e-mail passes the check; company, phone and description
   * may be missing and pass through as they are.
   */
  function ParseProfile(input: ProfileInput, isEmail: string -> bool): (r: Option<ProfileData>)
    ensures r.Some? <==> input.name.Some? && |input.name.value| >= 1 && input.email.Some? && isEmail(input.email.value)
    ensures r.Some? ==> r.value.name == input.name.value && r.value.email == input.email.value
    ensures r.Some? ==> r.value.company == input.company && r.value.phone == input.phone &&
                        r.value.description == input.description
  {
    if input.name.Some? && |input.name.value| >= 1 && input.email.Some? && isEmail(input.email.value) then
      Some(ProfileData(input.name.value, input.email.value, input.company, input.phone, input.description))
    else None
  }

  /** The form's fields, which are always strings. */
  datatype ProfileForm = ProfileForm(name: string, email: string, company: string, phone: string, description: string)

  /** `user?.field || ""`. */
  function OrEmpty(field: Option<string>): (r: string)
    ensures field.None? ==> r == ""
    ensures field.Some? ==> r == field.value
  {
    field.GetOr("")
  }

  /** `defaultValues`: the user's fields, "" where a field (or the user) is missing. */
  function FormDefaults(user: Option<ApiUser>): (r: ProfileForm)
    ensures user.None? ==> r == ProfileForm("", "", "", "", "")
    ensures user.Some? ==> r.email == user.value.email && r.name == OrEmpty(user.value.name)
    ensures user.Some? ==> r.company == OrEmpty(user.value.company) && r.phone == OrEmpty(user.value.phone) &&
                           r.description == OrEmpty(user.value.description)
  {
    match user
    case None => ProfileForm("", "", "", "", "")
    case Some(u) => ProfileForm(OrEmpty(u.name), u.email, OrEmpty(u.company), OrEmpty(u.phone), OrEmpty(u.description))
  }

  /** What the form hands to the resolver: every field present. */
  function Submitted(f: ProfileForm): ProfileInput {
    ProfileInput(Some(f.name), Some(f.email), Some(f.company), Some(f.phone), Some(f.description))
  }

  /**
   * Submitting the untouched form of a signed-in user with a name and a
   * well-formed e-mail is accepted, and sends "" for each missing optional
   * field; without a signed-in user it is rejected for the empty name.
   */
  lemma UntouchedFormOutcome(user: Option<ApiUser>, isEmail: string -> bool)
    ensures user.None? ==> ParseProfile(Submitted(FormDefaults(user)), isEmail).None?
    ensures user.Some? && user.value.name.Some? && user.value.name.value != "" && isEmail(user.value.email) ==>
              ParseProfile(Submitted(FormDefaults(user)), isEmail) ==
              Some(ProfileData(user.value.name.value, user.value.email, Some(OrEmpty(user.value.company)),
                               Some(OrEmpty(user.value.phone)), Some(OrEmpty(user.value.description))))
  {
  }
}

/** The profile form (app/edit-profile.tsx:7-47): the form starts from the
    signed-in user, requires a name and an email, and sends the four fields. */
module EditProfile {
  import opened Common
  import opened Entities

  const NameEmailRequired := "Nama lengkap dan email harus diisi"
  const UpdateFailed := "Terjadi kesalahan saat memperbarui profil"

  /** The four editable fields, which are also exactly the fields sent. */
  datatype ProfileForm = ProfileForm(fullName: string, email: string, phone: string, address: string)

  /** The form's starting values: each field of the user, or "" when there is no
      user or the field is missing. */
  function InitialForm(user: Option<User>): (f: ProfileForm)
    ensures user.None? ==> f == ProfileForm("", "", "", "")
    ensures user.Some? ==> f.fullName == user.value.fullName && f.email == user.value.email
    ensures user.Some? && user.value.phone.Some? ==> f.phone == user.value.phone.value
    ensures user.Some? && user.value.address.Some? ==> f.address == user.value.address.value
    ensures user.Some? && user.value.phone.None? ==> f.phone == ""
    ensures user.Some? && user.value.address.None? ==> f.address == ""
  {
    match user
    case None => ProfileForm("", "", "", "")
    case Some(u) => ProfileForm(u.fullName, u.email, u.phone.GetOr(""), u.address.GetOr(""))
  }

  /** The message that stops a save, if any: name and email are required, phone
      and address may be empty. */
  function ProfileError(form: ProfileForm): (r: Option<string>)
    ensures r == None <==> form.fullName != "" && form.email != ""
    ensures r != None ==> r == Some(NameEmailRequired)
  {
    if form.fullName == "" || form.email == "" then Some(NameEmailRequired) else None
  }

  /** Saving the form untouched sends back the user's own name, email, phone and
      address (missing ones as ""), and is accepted whenever the user has a
      name and an email. */
  lemma UntouchedFormSavesUser(u: User)
    ensures ProfileError(InitialForm(Some(u))) == None <==> u.fullName != "" && u.email != ""
    ensures InitialForm(Some(u)) == ProfileForm(u.fullName, u.email, u.phone.GetOr(""), u.address.GetOr(""))
  {
  }

  class EditProfileScreen {
    var fullName: string
    var email: string
    var phone: string
    var address: string
    var error: string
    var isLoading: bool

    function Form(): ProfileForm
      reads this
    {
      ProfileForm(fullName, email, phone, address)
    }

    constructor (user: Option<User>)
      ensures Form() == InitialForm(user)
      ensures error == "" && !isLoading
    {
      var f := InitialForm(user);
      fullName, email, phone, address := f.fullName, f.email, f.phone, f.address;
      error, isLoading := "", false;
    }

    /** `handleSave()`. A refused form calls nothing. Otherwise the four fields
        are sent as they stand; the error is not cleared first, so after a
        success it still holds whatever it held before. */
    method HandleSave(attempt: Outcome<()>) returns (sent: Option<ProfileForm>, navigated: bool)
      modifies this`error, this`isLoading
      ensures ProfileError(Form()).Some? ==>
        && sent == None && !navigated
        && error == NameEmailRequired
        && isLoading == old(isLoading)
      ensures ProfileError(Form()).None? ==>
        && sent == Some(Form())
        && !isLoading
        && navigated == attempt.Resolved?
        && error == if attempt.Resolved? then old(error) else DisplayMessage(attempt.thrown, UpdateFailed)
    {
      if ProfileError(Form()).Some? {
        error := NameEmailRequired;
        return None, false;
      }
      isLoading := true;
      sent := Some(Form());
      match attempt {
        case Resolved(_) =>
          navigated := true;
        case Rejected(t) =>
          error := DisplayMessage(t, UpdateFailed);
          navigated := false;
      }
      isLoading := false;
    }
  }
}

/** The "Edit Profile" dialog: its form starts from the signed-in user's
    profile, and saving writes the edited user to `mockUser`. The in-memory
    user is not touched; the page reload that follows picks the saved user
    up. */
module ProfileModal {
  import opened Common
  import opened Entities
  import opened Storage
  import opened AuthContext

  const ProfileSaved: string := "Profile updated successfully!"

  /** The form's fields, one per editable profile field. */
  datatype ProfileForm = ProfileForm(
    fullName: string,
    avatar: string,
    bio: string,
    title: string,
    company: string,
    location: string,
    phone: string,
    website: string,
    timezone: string,
    department: string,
    role: string)

  /** `value || fallback` on an optional string. */
  function OrElse(value: Option<string>, fallback: string): (r: string)
    ensures Truthy(value) ==> r == value.value
    ensures !Truthy(value) ==> r == fallback
  {
    if Truthy(value) then value.value else fallback
  }

  /** The form's first values: each field of the user, an empty field for
      anything unset or empty, except time zone `UTC` and role `Member`. */
  function InitialForm(user: Option<User>): (f: ProfileForm)
    ensures f.timezone != [] && f.role != []
    ensures user.None? ==> f == ProfileForm("", "", "", "", "", "", "", "", "UTC", "", "Member")
    ensures user.Some? ==>
              && f.fullName == user.value.fullName
              && f.avatar == OrElse(user.value.avatar, "") && f.bio == OrElse(user.value.bio, "")
              && f.title == OrElse(user.value.title, "") && f.company == OrElse(user.value.company, "")
              && f.location == OrElse(user.value.location, "") && f.phone == OrElse(user.value.phone, "")
              && f.website == OrElse(user.value.website, "")
              && f.timezone == OrElse(user.value.timezone, "UTC")
              && f.department == OrElse(user.value.department, "")
              && f.role == OrElse(user.value.role, "Member")
  {
    if user.None? then ProfileForm("", "", "", "", "", "", "", "", "UTC", "", "Member")
    else
      var u := user.value;
      ProfileForm(u.fullName, OrElse(u.avatar, ""), OrElse(u.bio, ""), OrElse(u.title, ""),
                  OrElse(u.company, ""), OrElse(u.location, ""), OrElse(u.phone, ""),
                  OrElse(u.website, ""), OrElse(u.timezone, "UTC"), OrElse(u.department, ""),
                  OrElse(u.role, "Member"))
  }

  /** `{ ...user, fullName: fullName.trim(), avatar, bio, ... }`: the
      account fields are kept, the name is trimmed and every other form field
      is stored as typed. */
  function UpdatedUser(u: User, f: ProfileForm): (v: User)
    ensures v.id == u.id && v.email == u.email && v.joinDate == u.joinDate
    ensures v.fullName == Trim(f.fullName)
    ensures v.avatar == Some(f.avatar) && v.bio == Some(f.bio) && v.title == Some(f.title)
    ensures v.company == Some(f.company) && v.location == Some(f.location)
    ensures v.phone == Some(f.phone) && v.website == Some(f.website)
    ensures v.timezone == Some(f.timezone) && v.department == Some(f.department)
    ensures v.role == Some(f.role)
  {
    u.(fullName := Trim(f.fullName), avatar := Some(f.avatar), bio := Some(f.bio),
       title := Some(f.title), company := Some(f.company), location := Some(f.location),
       phone := Some(f.phone), website := Some(f.website), timezone := Some(f.timezone),
       department := Some(f.department), role := Some(f.role))
  }

  /** Reopening the dialog on the saved user shows the submitted form again,
      with the name trimmed, as long as time zone and role were chosen. */
  lemma SavedProfileReopens(u: User, f: ProfileForm)
    requires f.timezone != [] && f.role != []
    ensures InitialForm(Some(UpdatedUser(u, f))) == f.(fullName := Trim(f.fullName))
  {
  }

  /** `disabled={loading || !fullName.trim()}` */
  predicate CanSubmit(f: ProfileForm, loading: bool) {
    !loading && !IsBlank(f.fullName)
  }

  /** A profile saved through the enabled button has a full name, so the
      dashboard no longer asks for one. */
  lemma SavedProfileHasName(u: User, f: ProfileForm, loading: bool)
    requires CanSubmit(f, loading)
    ensures !IsBlank(UpdatedUser(u, f).fullName)
  {
    var n := UpdatedUser(u, f).fullName;
    assert !IsWhitespace(n[0]);
  }

  class Modal {
    const session: Session
    var form: ProfileForm
    var loading: bool
    var error: string
    var success: string

    constructor (session: Session)
      ensures this.session == session
      ensures form == InitialForm(session.user)
      ensures !loading && error == "" && success == ""
    {
      this.session := session;
      form := InitialForm(session.user);
      loading := false;
      error := "";
      success := "";
    }

    /** Typing in a field, choosing from a list or loading an avatar image. */
    method SetForm(f: ProfileForm)
      modifies this`form
      ensures form == f
    {
      form := f;
    }

    /** `handleSubmit`: messages are cleared; with nobody signed in nothing is
        saved; otherwise the updated user is written to `mockUser` and the
        success message shows. Loading always ends. */
    method HandleSubmit()
      requires session.Valid()
      modifies this`loading, this`error, this`success, session.store
      ensures session.Valid() && !loading && error == ""
      ensures session.user.None? ==> success == "" && session.store.entries == old(session.store.entries)
      ensures session.user.Some? ==>
                && session.store.entries
                   == old(session.store.entries)[MockUserKey := UserEntry(UpdatedUser(session.user.value, form))]
                && SavedUser(session.store.entries) == Some(UpdatedUser(session.user.value, form))
                && success == ProfileSaved
    {
      error := "";
      success := "";
      loading := true;
      if session.user.None? {
        loading := false;
        return;
      }
      var updated := UpdatedUser(session.user.value, form);
      session.store.SetItem(MockUserKey, UserEntry(updated));
      success := ProfileSaved;
      loading := false;
    }
  }
}

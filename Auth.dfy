/** The sign-in / sign-up form: it checks the full name in sign-up mode and
    hands the fields to the session. */
module Auth {
  import opened Common
  import opened Storage
  import opened AuthContext

  const FullNameRequired: string := "Please enter your full name"

  class AuthForm {
    const session: Session
    var isSignUp: bool
    var email: string
    var password: string
    var fullName: string
    var loading: bool
    var error: string

    constructor (session: Session)
      ensures this.session == session
      ensures !isSignUp && email == "" && password == "" && fullName == ""
      ensures !loading && error == ""
    {
      this.session := session;
      isSignUp := false;
      email := "";
      password := "";
      fullName := "";
      loading := false;
      error := "";
    }

    method SetFields(email: string, password: string, fullName: string)
      modifies this`email, this`password, this`fullName
      ensures this.email == email && this.password == password && this.fullName == fullName
    {
      this.email := email;
      this.password := password;
      this.fullName := fullName;
    }

    /** `handleSubmit`: in sign-up mode a blank full name is refused with a
        message and the session is left alone; otherwise the session signs
        up (with the full name as typed) or signs in. Loading always ends. */
    method HandleSubmit(id: string, joinDate: string)
      requires session.Valid()
      modifies this`loading, this`error, session`user, session`deadline, session.store
      ensures session.Valid() && !loading
      ensures isSignUp && IsBlank(fullName) ==>
                error == FullNameRequired
                && session.View() == old(session.View())
                && session.store.entries == old(session.store.entries)
      ensures isSignUp && !IsBlank(fullName) ==>
                error == ""
                && session.View() == Step(old(session.View()), SignUpEvent(email, fullName, id))
                && session.store.entries
                   == old(session.store.entries)[MockUserKey := UserEntry(SignUpUser(email, fullName, id))]
      ensures !isSignUp ==>
                error == ""
                && session.View() == Step(old(session.View()), SignInEvent(email, id, joinDate))
                && session.store.entries
                   == old(session.store.entries)[MockUserKey := UserEntry(SignInUser(email, id, joinDate))]
    {
      error := "";
      loading := true;
      if isSignUp {
        if Trim(fullName) == "" {
          error := FullNameRequired;
          loading := false;
          return;
        }
        var _ := session.SignUp(email, password, fullName, id);
      } else {
        var _ := session.SignIn(email, password, id, joinDate);
      }
      loading := false;
    }

    /** The link under the form switches mode and clears the message. */
    method ToggleMode()
      modifies this`isSignUp, this`error
      ensures isSignUp == !old(isSignUp) && error == ""
    {
      isSignUp := !isSignUp;
      error := "";
    }
  }
}

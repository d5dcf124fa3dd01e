/**
 * The profile page: validation before `updateUserData`, the guard before
 * `imageUpdateUpload`, and the edit buffer.
 */
module ProfilePage {
  import opened Wrappers
  import opened Text
  import opened Email
  import opened RegisterPage
  import UserDataReducer

  /** The edit buffer `{ name, email }`. */
  datatype ProfileForm = ProfileForm(name: string, email: string)

  /** `validation`: the name rule, then the email rule; there is no password rule. */
  function Validation(f: ProfileForm): (r: Verdict)
    ensures r == NameRequired <==> AllSpace(f.name)
    ensures r == BadEmail <==> !AllSpace(f.name) && !ValidEmail(f.email)
    ensures r.Valid? <==> !AllSpace(f.name) && ValidEmail(f.email)
    ensures r.Valid? ==> r.message == "Validation successful"
  {
    TrimEmptyIffAllSpace(f.name);
    if !NameOk(f.name) then NameRequired
    else if !EmailOk(f.email) then BadEmail
    else Valid("Validation successful")
  }

  /** The page's rules are the registration page's, without the password: on any password
      that registration accepts, both pages give the same verdict. */
  lemma SameRulesAsRegistration(f: ProfileForm, password: string)
    requires |password| >= 6
    ensures Validation(f) == RegisterPage.Validation(RegisterForm(f.name, f.email, password))
  {
  }

  /** The `updateUserData` request of `handleSubmit`. */
  datatype UpdateCall = UpdateCall(data: ProfileForm, id: string, token: Option<string>)

  /** `handleSubmit`: nothing is dispatched for an invalid buffer. */
  function SubmitRequest(f: ProfileForm, id: string, token: Option<string>): (r: Option<UpdateCall>)
    ensures r.Some? <==> Validation(f).Valid?
    ensures r.Some? ==> r.value == UpdateCall(f, id, token)
  {
    if Validation(f).Valid? then Some(UpdateCall(f, id, token)) else None
  }

  /** `handleProfileSubmit`: without a selected image the page only shows a message. */
  datatype UploadOutcome = NoImage(message: string) | Upload(image: string, token: Option<string>)

  function UploadRequest(image: Option<string>, token: Option<string>): (r: UploadOutcome)
    ensures r.Upload? <==> image.Some?
    ensures r.Upload? ==> r.image == image.value && r.token == token
    ensures r.NoImage? ==> r.message == "Please select an image first!"
  {
    if image.None? then NoImage("Please select an image first!") else Upload(image.value, token)
  }

  /** The edit buffer and the editing flag. */
  datatype Editor = Editor(data: ProfileForm, isEditing: bool)

  /** The Cancel button and the failure branch of `handleSubmit`: the buffer goes back to
      the name and email held in the session, and editing stops. */
  function Reset(e: Editor, name: string, email: string): (r: Editor)
    ensures r.data == ProfileForm(name, email) && !r.isEditing
  {
    Editor(ProfileForm(name, email), false)
  }

  /** The success branch of `handleSubmit`: editing stops and the buffer is kept. */
  function Saved(e: Editor): (r: Editor)
    ensures r.data == e.data && !r.isEditing
  {
    e.(isEditing := false)
  }

  /** A rejected update leaves the session's name and email as they were, so the buffer
      reset after a failure holds the values from before the edit, as Cancel does. */
  lemma FailureRestoresPreviousProfile(s: UserDataReducer.UserState, payload: string, e: Editor)
    ensures var s' := UserDataReducer.Failed(UserDataReducer.Started(s), payload);
      Reset(e, s'.name, s'.email) == Reset(e, s.name, s.email)
  {
  }
}

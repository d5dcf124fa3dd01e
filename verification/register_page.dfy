/**
 * The registration page: the client-side validation run before `setUserData` is
 * dispatched, and the form's field update.
 */
module RegisterPage {
  import opened Wrappers
  import opened Text
  import opened Email
  import UserController
  import Users

  /** The inputs of the form; each starts as the empty string. */
  datatype RegisterForm = RegisterForm(name: string, email: string, password: string)

  /** The `type` of a failed validation: the input it is about. */
  datatype Field = Name | EmailField | Password

  /** `validation`'s result: `{ valid: true, message }` or `{ valid: false, message, type }`. */
  datatype Verdict = Valid(message: string) | Invalid(field: Field, message: string)

  /** The name rule: present and not blank after `trim()`. */
  predicate NameOk(name: string) {
    !(name == "" || Trim(name) == "")
  }

  /** The email rule: present and matching `^[^\s@]+@[^\s@]+\.[^\s@]+$`. */
  predicate EmailOk(email: string) {
    !(email == "" || !ValidEmail(email))
  }

  const NameRequired := Invalid(Name, "Name is required")
  const BadEmail := Invalid(EmailField, "Please enter a valid email address")
  const ShortPassword := Invalid(Password, "Password must be at least 6 characters long")

  /** `validation`: the rules run in the order name, email, password, and the first that
      fails is reported. */
  function Validation(f: RegisterForm): (r: Verdict)
    ensures r == NameRequired <==> AllSpace(f.name)
    ensures r == BadEmail <==> !AllSpace(f.name) && !ValidEmail(f.email)
    ensures r == ShortPassword <==> !AllSpace(f.name) && ValidEmail(f.email) && |f.password| < 6
    ensures r.Valid? <==> !AllSpace(f.name) && ValidEmail(f.email) && |f.password| >= 6
    ensures r.Valid? ==> r.message == "Validation successful"
  {
    TrimEmptyIffAllSpace(f.name);
    if !NameOk(f.name) then NameRequired
    else if !EmailOk(f.email) then BadEmail
    else if f.password == "" || |f.password| < 6 then ShortPassword
    else Valid("Validation successful")
  }

  /** What `handleSubmit` does with the form. */
  datatype SubmitOutcome =
    | Dispatched(body: RegisterForm)            // `setUserData(data)`
    | Refused(field: Field, message: string)    // `setError({ type, message })`, nothing dispatched

  /** `handleSubmit` */
  function Submit(f: RegisterForm): (r: SubmitOutcome)
    ensures r.Dispatched? <==> Validation(f).Valid?
    ensures r.Dispatched? ==> r.body == f
    ensures r.Refused? ==> Validation(f) == Invalid(r.field, r.message)
  {
    match Validation(f)
    case Valid(_) => Dispatched(f)
    case Invalid(field, message) => Refused(field, message)
  }

  /** `handleChange` for the input named `field`. */
  function Change(f: RegisterForm, field: Field, value: string): (r: RegisterForm)
    ensures field == Name ==> r == RegisterForm(value, f.email, f.password)
    ensures field == EmailField ==> r == RegisterForm(f.name, value, f.password)
    ensures field == Password ==> r == RegisterForm(f.name, f.email, value)
  {
    match field
    case Name => f.(name := value)
    case EmailField => f.(email := value)
    case Password => f.(password := value)
  }

  /** The body `setUserData` posts to `register`. */
  function RequestBody(f: RegisterForm): UserController.AccountForm {
    UserController.AccountForm(Some(f.name), Some(f.email), Some(f.password))
  }

  /** A form the page dispatches passes every format check of `register`: the server can
      only answer with success or "User already exists". */
  lemma DispatchedPassesServerFormat(f: RegisterForm, users: map<Users.Id, Users.User>)
    requires Submit(f).Dispatched?
    ensures UserController.AccountCheck(RequestBody(f), users) in {None, Some(UserController.EmailInUse)}
  {
  }

  /** A whitespace-only name is refused by the page, while `register` itself, which only
      tests that the name is non-empty, lets it through to the later checks. */
  lemma BlankNameRefusedOnlyByPage(email: string, password: string, users: map<Users.Id, Users.User>)
    requires ValidEmail(email) && |password| >= 6
    ensures Submit(RegisterForm(" ", email, password)) == Refused(Name, "Name is required")
    ensures UserController.AccountCheck(RequestBody(RegisterForm(" ", email, password)), users)
      in {None, Some(UserController.EmailInUse)}
  {
    var f := RegisterForm(" ", email, password);
    assert AllSpace(f.name);
    assert Validation(f) == NameRequired;
    var body := RequestBody(f);
    assert UserController.FieldsPresent(body) by {
      assert email != "" by { assert |email| >= 5; }
    }
  }
}

/** The sign-up page of client/src/components/Register.jsx: field edits and
    the validation ladder in front of `registerUser`. */
module RegisterForm {
  import opened Common
  import AuthClient

  datatype Form = Form(name: string, email: string, password: string, isLoading: bool, error: string, success: string)

  /** The three inputs, by their `name` attribute. */
  datatype Field = NameField | EmailField | PasswordField

  const Required := "All fields are required"
  const TooShort := "Password must be at least 6 characters"
  const Registered := "Registration successful! Redirecting to login..."
  const Fallback := "Registration failed. Please try again."

  /** The shortest password the page accepts, in UTF-16 code units. */
  const MinPassword: nat := 6

  /** `handleChange`: the named field takes the value and the error clears. */
  function HandleChange(f: Form, field: Field, value: string): (r: Form)
    ensures r.error == ""
    ensures field == NameField ==> r.name == value && r.email == f.email && r.password == f.password
    ensures field == EmailField ==> r.email == value && r.name == f.name && r.password == f.password
    ensures field == PasswordField ==> r.password == value && r.name == f.name && r.email == f.email
    ensures r.isLoading == f.isLoading && r.success == f.success
  {
    var g := match field
      case NameField => f.(name := value)
      case EmailField => f.(email := value)
      case PasswordField => f.(password := value);
    if g.error != "" then g.(error := "") else g
  }

  /** The submit handler's checks, in order: every field filled, then the
      password length. */
  function Check(f: Form): (r: Option<string>)
    ensures r == None <==> f.name != "" && f.email != "" && f.password != "" && Utf16Length(f.password) >= MinPassword
    ensures r.Some? ==> r.value in {Required, TooShort}
    ensures (f.name == "" || f.email == "" || f.password == "") ==> r == Some(Required)
  {
    if f.name == "" || f.email == "" || f.password == "" then Some(Required)
    else if Utf16Length(f.password) < MinPassword then Some(TooShort)
    else None
  }

  /** What a submit did: the form afterwards, whether `registerUser` was
      called, and whether the redirect to the login page was scheduled. */
  datatype Submit = Submit(form: Form, called: bool, redirect: bool)

  /** `handleSubmit`, given what `registerUser` resolved to or the message it threw. */
  function HandleSubmit(f: Form, outcome: Result<Val, string>): (r: Submit)
    ensures r.called <==> Check(f) == None
    ensures !r.called ==> r == Submit(f.(error := Check(f).value), false, false)
    ensures r.called ==> !r.form.isLoading
    ensures r.called ==> (r.redirect <==> outcome.Ok?)
    ensures r.called && outcome.Ok? ==> r.form.success == Registered && r.form.error == ""
    ensures r.called && outcome.Err? ==>
      r.form.error == (if outcome.error != "" then outcome.error else Fallback) && r.form.success == f.success
    ensures r.form.(error := f.error, success := f.success, isLoading := f.isLoading) == f
  {
    match Check(f)
    case Some(message) => Submit(f.(error := message), false, false)
    case None =>
      var f1 := f.(isLoading := true, error := "");
      match outcome
      case Ok(_) => Submit(f1.(success := Registered, isLoading := false), true, true)
      case Err(message) => Submit(f1.(error := if message != "" then message else Fallback, isLoading := false), true, false)
  }

  // ---------------------------------------------------------------------------
  // Properties

  /** A password of fewer than six code units is refused before any call,
      however many characters it has. */
  lemma ShortPasswordRefused(f: Form, outcome: Result<Val, string>)
    requires f.name != "" && f.email != "" && f.password != ""
    requires Utf16Length(f.password) < MinPassword
    ensures HandleSubmit(f, outcome) == Submit(f.(error := TooShort), false, false)
  {
  }

  /** A password of three astral characters (six code units) passes the length check. */
  lemma AstralPasswordAccepted(f: Form)
    requires f.name != "" && f.email != "" && f.password == "\U{1F600}\U{1F600}\U{1F600}"
    ensures Check(f) == None
  {
    assert Utf16Length(f.password) == 2 + Utf16Length(f.password[1..]);
    assert Utf16Length(f.password[1..]) == 2 + Utf16Length(f.password[2..]);
    assert Utf16Length(f.password[2..]) == 2 + Utf16Length(f.password[3..]);
  }

  /** A 409 from the server shows the duplicate-account message and does not redirect. */
  lemma ConflictShown(f: Form, resp: AuthClient.Response, num: real -> string)
    requires Check(f) == None
    requires resp.status == 409 && !resp.ok && !Nullish(AuthClient.BodyOf(resp))
    ensures var r := HandleSubmit(f, AuthClient.RegisterUser(AuthClient.Responded(resp), num));
      r.called && !r.redirect && r.form.error == AuthClient.DuplicateAccount && !r.form.isLoading
  {
    AuthClient.RegisterConflict(resp, num);
  }

  /** Editing any field after a refused submit clears the message. */
  lemma EditClearsRefusal(f: Form, outcome: Result<Val, string>, field: Field, value: string)
    ensures HandleChange(HandleSubmit(f, outcome).form, field, value).error == ""
  {
  }
}

/** The login page of client/src/components/Login.jsx: what a login attempt
    does with the result of `loginUser`, the Enter-key guard, and when the
    button is disabled. A successful attempt hands the user to the application
    context's `login` and navigates to the dashboard. */
module LoginForm {
  import opened Common
  import AppContext
  import AuthClient

  datatype Form = Form(email: string, password: string, isLoading: bool, error: string)

  const Fallback := "An error occurred. Please try again."


  /** The outcome of one attempt: the application context, the form, and
      whether the page navigated to the dashboard. */
  datatype Attempt = Attempt(app: AppContext.App, form: Form, navigated: bool)

  /** The `userData` the page builds from a reply with a token: name from the
      reply or the email's text before '@', the typed email, and the token. */
  function UserDataFor(res: Val, email: string): (r: Val)
    requires !Nullish(res)
    ensures r.Obj? && r.fields.Keys == {"name", "email", "token"}
    ensures Truthy(Get(res, "name").value) ==> r.fields["name"] == Get(res, "name").value
    ensures !Truthy(Get(res, "name").value) ==> r.fields["name"] == Str(BeforeFirst(email, '@'))
    ensures r.fields["email"] == Str(email) && r.fields["token"] == Get(res, "token").value
  {
    SplitFirst(email, '@');
    var name := Get(res, "name").value;
    Obj(map["name" := if Truthy(name) then name else Str(Split(email, '@')[0]),
            "email" := Str(email),
            "token" := Get(res, "token").value])
  }

  /** `handleLogin` given what `loginUser` resolved to (`Ok`) or the message it
      threw (`Err`), with `build` making the `userData` handed to `login`. */
  function AttemptWith(app: AppContext.App, f: Form, outcome: Result<Val, string>,
                       build: (Val, string) -> Val, num: real -> string, encode: Val -> string): (r: Attempt)
    ensures !r.form.isLoading && r.form.email == f.email && r.form.password == f.password
    ensures outcome.Err? ==> r == Attempt(app, f.(isLoading := false, error := if outcome.error != "" then outcome.error else Fallback), false)
    ensures r.navigated ==> r.form.error == ""
  {
    var f1 := f.(isLoading := true, error := "");
    match outcome
    case Err(message) => Attempt(app, f1.(isLoading := false, error := if message != "" then message else Fallback), false)
    case Ok(res) =>
      if Nullish(res) then Attempt(app, f1.(isLoading := false, error := NullRead), false)
      else if Truthy(Get(res, "token").value) then
        match AppContext.Login(app, build(res, f.email), num, encode)
        case Ok(app2) => Attempt(app2, f1.(isLoading := false), true)
        case Err(_) => Attempt(app, f1.(isLoading := false, error := NullRead), false)
      else
        var m := Get(res, "message").value;
        Attempt(app, f1.(isLoading := false, error := if Truthy(m) then StringOf(m, num) else AuthClient.LoginFailed), false)
  }

  /** The page's builder, which leaves out `_id`. */
  function Build(res: Val, email: string): Val {
    if Nullish(res) then Null else UserDataFor(res, email)
  }

  /** `handleLogin` as written. */
  function HandleLoginAsWritten(app: AppContext.App, f: Form, outcome: Result<Val, string>,
                                num: real -> string, encode: Val -> string): (r: Attempt)
    ensures !r.form.isLoading
    ensures outcome.Ok? && !Nullish(outcome.value) && Truthy(Get(outcome.value, "token").value) ==>
      r.navigated && r.form.error == "" && r.app.user == AppContext.UserToStore(UserDataFor(outcome.value, f.email)).value
    ensures outcome.Ok? && !Nullish(outcome.value) && !Truthy(Get(outcome.value, "token").value) ==>
      var m := Get(outcome.value, "message").value;
      !r.navigated && r.app == app && r.form.error == (if Truthy(m) then StringOf(m, num) else AuthClient.LoginFailed)
  {
    AttemptWith(app, f, outcome, Build, num, encode)
  }

  /** The record the page builds has no `_id`, so `login` never starts the
      socket service: the login page never connects it. */
  lemma LoginPageNeverConnects(app: AppContext.App, f: Form, outcome: Result<Val, string>,
                               num: real -> string, encode: Val -> string)
    ensures HandleLoginAsWritten(app, f, outcome, num, encode).app.ws == app.ws
  {
    if outcome.Ok? && !Nullish(outcome.value) && Truthy(Get(outcome.value, "token").value) {
      var u := UserDataFor(outcome.value, f.email);
      assert Get(u, "_id") == Ok(Undefined);
    }
  }

  /** The builder with `_id: res._id`, as the context's `login` expects. */
  function BuildWithId(res: Val, email: string): (r: Val)
    ensures !Nullish(res) ==> r.Obj? && r.fields == UserDataFor(res, email).fields["_id" := Get(res, "_id").value]
  {
    if Nullish(res) then Null
    else var u := UserDataFor(res, email); Obj(u.fields["_id" := Get(res, "_id").value])
  }

  /** `handleLogin` passing the user's id on to `login`. */
  function HandleLogin(app: AppContext.App, f: Form, outcome: Result<Val, string>,
                       num: real -> string, encode: Val -> string): (r: Attempt)
    ensures !r.form.isLoading
    ensures outcome.Err? ==> !r.navigated && r.app == app
  {
    AttemptWith(app, f, outcome, BuildWithId, num, encode)
  }

  /** With the id passed on, a reply carrying a non-empty string id and token
      opens a socket of the service. */
  lemma LoginConnects(app: AppContext.App, f: Form, id: string, token: string, res: map<string, Val>,
                      num: real -> string, encode: Val -> string)
    requires id != "" && token != ""
    requires "_id" in res && res["_id"] == Str(id) && "token" in res && res["token"] == Str(token)
    ensures var r := HandleLogin(app, f, Ok(Obj(res)), num, encode);
      r.navigated && r.app.ws.socket == Some(app.ws.nextSocket) && r.app.ws.userId == Some(id)
      && r.app.ws.token == Some(token)
  {
    var u := BuildWithId(Obj(res), f.email);
    var stored := AppContext.UserToStore(u).value;
    assert stored.fields["_id"] == Str(id);
    assert stored.fields["token"] == Str(token);
  }

  /** `handleKeyPress`: Enter logs in unless loading or a field is empty. */
  predicate EnterTriggers(f: Form, key: string) {
    key == "Enter" && !f.isLoading && f.email != "" && f.password != ""
  }

  /** The button's `disabled`. */
  predicate ButtonDisabled(f: Form) {
    f.isLoading || f.email == "" || f.password == ""
  }

  /** Enter logs in exactly when the button could be clicked. */
  lemma EnterIffEnabled(f: Form)
    ensures EnterTriggers(f, "Enter") <==> !ButtonDisabled(f)
    ensures forall key :: key != "Enter" ==> !EnterTriggers(f, key)
  {
  }

  /** After any attempt the button is enabled again when both fields are filled. */
  lemma AttemptReenables(app: AppContext.App, f: Form, outcome: Result<Val, string>,
                         num: real -> string, encode: Val -> string)
    requires f.email != "" && f.password != ""
    ensures !ButtonDisabled(HandleLogin(app, f, outcome, num, encode).form)
    ensures !ButtonDisabled(HandleLoginAsWritten(app, f, outcome, num, encode).form)
  {
  }
}

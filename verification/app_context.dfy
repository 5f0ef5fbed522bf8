/** The application context of client/src/context/appContext.jsx: the logged-in
    user, restored from storage on mount, set by `login` (which also connects the
    socket service) and cleared by `logout`.

    `parse` is JSON.parse (None when it throws), `encode` is JSON.stringify and
    `num` renders numbers as text. */
module AppContext {
  import opened Common
  import WebSocketService

  datatype App = App(user: Val, notes: seq<Val>, theme: string, storage: Storage, ws: WebSocketService.Service)

  /** The mount-time restore: the user comes back only when both `token` and
      `userData` are stored and `userData` parses; a parse failure wipes the
      three entries `login` writes. */
  function Restore(st: Storage, parse: string -> Option<Val>): (r: (Val, Storage))
    ensures Present(GetItem(st, "token")) && Present(GetItem(st, "userData")) && parse(st["userData"]).Some? ==>
      r == (parse(st["userData"]).value, st)
    ensures Present(GetItem(st, "token")) && Present(GetItem(st, "userData")) && parse(st["userData"]).None? ==>
      r == (Null, st - {"userData", "token", "userEmail"})
    ensures !(Present(GetItem(st, "token")) && Present(GetItem(st, "userData"))) ==> r == (Null, st)
  {
    var token := GetItem(st, "token");
    var userData := GetItem(st, "userData");
    if Present(token) && Present(userData) then
      match parse(userData.value)
      case Some(user) => (user, st)
      case None => (Null, st - {"userData", "token", "userEmail"})
    else (Null, st)
  }

  /** The provider's first render followed by the restore effect. */
  function Mount(st: Storage, ws: WebSocketService.Service, parse: string -> Option<Val>): App {
    var (user, st2) := Restore(st, parse);
    App(user, [], OrElse(GetItem(st, "theme"), "light"), st2, ws)
  }

  /** The record `login` stores: `_id` and `email` copied, `name` defaulting to
      the email's text before '@', `token` defaulting to "dummy-token". Reading
      a property of a null argument, or splitting an email that is not a string,
      raises. */
  function UserToStore(userData: Val): (r: Result<Val, TypeError>)
    ensures Nullish(userData) ==> r.Err?
    ensures r.Ok? ==> r.value.Obj? && r.value.fields.Keys == {"_id", "email", "name", "token"}
    ensures r.Ok? ==> Truthy(r.value.fields["token"])
    ensures r.Ok? && Truthy(Get(userData, "token").value) ==> r.value.fields["token"] == Get(userData, "token").value
    ensures r.Ok? && !Truthy(Get(userData, "token").value) ==> r.value.fields["token"] == Str("dummy-token")
    ensures r.Ok? ==> r.value.fields["_id"] == Get(userData, "_id").value && r.value.fields["email"] == Get(userData, "email").value
    ensures !Nullish(userData) && Truthy(Get(userData, "name").value) ==> r.Ok? && r.value.fields["name"] == Get(userData, "name").value
    ensures !Nullish(userData) && !Truthy(Get(userData, "name").value) ==>
      (r.Ok? <==> Get(userData, "email").value.Str?)
  {
    match (Get(userData, "_id"), Get(userData, "email"), Get(userData, "name"), Get(userData, "token"))
    case (Ok(id), Ok(email), Ok(name), Ok(token)) =>
      var tokenToStore := if Truthy(token) then token else Str("dummy-token");
      if Truthy(name) then
        Ok(Obj(map["_id" := id, "email" := email, "name" := name, "token" := tokenToStore]))
      else if email.Str? then
        Ok(Obj(map["_id" := id, "email" := email, "name" := Str(Split(email.s, '@')[0]), "token" := tokenToStore]))
      else Err(TypeError)
    case _ => Err(TypeError)
  }

  /** `login(userData)`: set the user, store `token`, `userEmail` and `userData`,
      and connect the socket service when `_id` and the token are truthy. */
  function Login(app: App, userData: Val, num: real -> string, encode: Val -> string): (r: Result<App, TypeError>)
    ensures r.Err? <==> UserToStore(userData).Err?
    ensures r.Ok? ==> r.value.user == UserToStore(userData).value && r.value.notes == app.notes
    ensures r.Ok? ==>
      var u := UserToStore(userData).value;
      var written := app.storage["token" := StringOf(u.fields["token"], num)]
                                ["userEmail" := StringOf(u.fields["email"], num)]
                                ["userData" := encode(u)];
      && (!Truthy(u.fields["_id"]) ==> r.value.storage == written && r.value.ws == app.ws)
      && (Truthy(u.fields["_id"]) ==>
            var c := WebSocketService.Connect(app.ws, written, Some(StringOf(u.fields["_id"], num)),
                                              Some(StringOf(u.fields["token"], num)));
            (c.Ok? ==> r.value.storage == c.value.1 && r.value.ws == c.value.0)
            && (c.Err? ==> r.value.storage == written && r.value.ws == app.ws))
  {
    match UserToStore(userData)
    case Err(e) => Err(e)
    case Ok(u) =>
      var id, email, token := u.fields["_id"], u.fields["email"], u.fields["token"];
      var st := app.storage["token" := StringOf(token, num)]["userEmail" := StringOf(email, num)]["userData" := encode(u)];
      var app2 := app.(user := u, storage := st);
      if Truthy(id) && Truthy(token) then
        match WebSocketService.Connect(app2.ws, st, Some(StringOf(id, num)), Some(StringOf(token, num)))
        case Ok((ws, st2)) => Ok(app2.(ws := ws, storage := st2))
        case Err(_) => Ok(app2)
      else Ok(app2)
  }

  /** `logout`: disconnect the socket service, clear the user and the notes, and
      remove exactly `token`, `userEmail` and `userData`. */
  function Logout(app: App): (r: App)
    ensures r.user == Null && r.notes == []
    ensures r.storage == app.storage - {"token", "userEmail", "userData"}
    ensures r.ws == WebSocketService.Disconnect(app.ws)
    ensures r.theme == app.theme
  {
    app.(ws := WebSocketService.Disconnect(app.ws), user := Null, notes := [],
         storage := app.storage - {"token", "userEmail", "userData"})
  }

  // ---------------------------------------------------------------------------
  // Properties

  /** The default name is the first '@'-separated piece of the email. */
  lemma DefaultNameIsEmailPrefix(userData: Val)
    requires UserToStore(userData).Ok? && !Truthy(Get(userData, "name").value)
    ensures var email := Get(userData, "email").value;
      email.Str? && UserToStore(userData).value.fields["name"] == Str(BeforeFirst(email.s, '@'))
  {
    SplitFirst(Get(userData, "email").value.s, '@');
  }

  /** What `login` stores comes back on the next mount, provided JSON round-trips
      it. The argument is an object of strings with an email, as the login page
      passes. */
  lemma LoginThenRestore(app: App, fields: map<string, Val>, num: real -> string, encode: Val -> string,
                         parse: string -> Option<Val>)
    requires "email" in fields && forall k :: k in fields ==> fields[k].Str?
    requires UserToStore(Obj(fields)).Ok?
    requires var u := UserToStore(Obj(fields)).value; encode(u) != "" && parse(encode(u)) == Some(u)
    ensures var r := Login(app, Obj(fields), num, encode).value;
      Mount(r.storage, r.ws, parse).user == r.user
  {
    var u := UserToStore(Obj(fields)).value;
    var r := Login(app, Obj(fields), num, encode).value;
    var token := u.fields["token"];
    assert token.Str? && token.s != "";
    assert GetItem(r.storage, "token") == Some(token.s);
    assert GetItem(r.storage, "userData") == Some(encode(u));
  }

  /** `login` starts a connection exactly when the stored record has a truthy
      `_id` (its token is never falsy) and the connect call accepts it. */
  lemma LoginConnectsIffId(app: App, userData: Val, num: real -> string, encode: Val -> string)
    requires Login(app, userData, num, encode).Ok?
    ensures var u := UserToStore(userData).value;
      !Truthy(u.fields["_id"]) ==> Login(app, userData, num, encode).value.ws == app.ws
    ensures var u := UserToStore(userData).value;
      Truthy(u.fields["_id"]) && StringOf(u.fields["_id"], num) != "" && StringOf(u.fields["token"], num) != "" ==>
        Login(app, userData, num, encode).value.ws.nextSocket == app.ws.nextSocket + 1
  {
  }

  /** `logout` leaves the `userId` and `user` entries `loginUser` and the socket
      service wrote, but with `token` gone a reconnect from storage fails. */
  lemma LogoutLeavesUserId(app: App)
    ensures "userId" in app.storage ==> Logout(app).storage["userId"] == app.storage["userId"]
    ensures "user" in app.storage ==> Logout(app).storage["user"] == app.storage["user"]
    ensures WebSocketService.Connect(Logout(app).ws, Logout(app).storage, None, None).Err?
  {
  }

  /** A stored record that does not parse is wiped, so the next mount finds nothing. */
  lemma CorruptRecordWiped(st: Storage, ws: WebSocketService.Service, parse: string -> Option<Val>)
    requires Present(GetItem(st, "token")) && Present(GetItem(st, "userData")) && parse(st["userData"]).None?
    ensures var m := Mount(st, ws, parse);
      m.user == Null && "token" !in m.storage && "userData" !in m.storage && Mount(m.storage, ws, parse).user == Null
  {
  }
}

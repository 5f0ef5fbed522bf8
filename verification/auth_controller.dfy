/** The Node server's auth controller, server/src/controllers/authController.js:
    `login` and `signup` as decision ladders over a store of users.

    The store is a sequence in insertion order, and `findOne({ email })` is the
    first user whose email equals the one given. bcrypt's `compare` and `hash`,
    `jwt.sign` and the id the database assigns are parameters. */
module AuthController {
  import opened Common

  /** A stored user; `password` holds the hash. */
  datatype User = User(id: string, name: Val, email: Val, password: string)

  /** The status and JSON body of a reply. */
  datatype Reply = Reply(status: int, body: Val)

  const AllRequired := "All fields are required"
  const NotFound := "User not found"
  const BadCredentials := "Invalid credentials"
  const Exists := "User already exists"

  function Refusal(message: string): Reply {
    Reply(400, Obj(map["message" := Str(message)]))
  }

  /** A field of the request body; a missing one is `undefined`. */
  function Field(body: map<string, Val>, key: string): Val {
    if key in body then body[key] else Undefined
  }

  /** `User.findOne({ email })`: the index of the first user with that email. */
  function FindOne(users: seq<User>, email: Val): (r: Option<nat>)
    ensures r.Some? ==> r.value < |users| && users[r.value].email == email
    ensures r.Some? ==> forall j :: 0 <= j < r.value ==> users[j].email != email
    ensures r.None? <==> forall j :: 0 <= j < |users| ==> users[j].email != email
  {
    if users == [] then None
    else if users[0].email == email then Some(0)
    else match FindOne(users[1..], email)
      case None => None
      case Some(i) => Some(i + 1)
  }

  /** The user as a reply shows it: id, name and email, never the password. */
  function Public(u: User): (r: Val)
    ensures r.Obj? && r.fields.Keys == {"_id", "name", "email"}
    ensures r.fields["_id"] == Str(u.id) && r.fields["name"] == u.name && r.fields["email"] == u.email
  {
    Obj(map["_id" := Str(u.id), "name" := u.name, "email" := u.email])
  }

  /** The success reply: the token, the public user, and the message. */
  function Welcome(u: User, sign: string -> string, message: string): Val {
    Obj(map["token" := Str(sign(u.id)), "user" := Public(u), "message" := Str(message)])
  }

  /** `login`: both fields are required, then the email must be known, then the
      password must match its hash; only then a token is signed. */
  function Login(users: seq<User>, body: map<string, Val>, compare: (Val, string) -> bool,
                 sign: string -> string): (r: Reply)
    ensures !Truthy(Field(body, "email")) || !Truthy(Field(body, "password")) ==> r == Refusal(AllRequired)
    ensures Truthy(Field(body, "email")) && Truthy(Field(body, "password")) ==>
      match FindOne(users, Field(body, "email"))
      case None => r == Refusal(NotFound)
      case Some(i) =>
        if compare(Field(body, "password"), users[i].password)
        then r == Reply(200, Welcome(users[i], sign, "Login successful"))
        else r == Refusal(BadCredentials)
    ensures r.status == 200 ==> r.body.fields["user"].fields.Keys == {"_id", "name", "email"}
  {
    var email, password := Field(body, "email"), Field(body, "password");
    if !Truthy(email) || !Truthy(password) then Refusal(AllRequired)
    else match FindOne(users, email)
      case None => Refusal(NotFound)
      case Some(i) =>
        if !compare(password, users[i].password) then Refusal(BadCredentials)
        else Reply(200, Welcome(users[i], sign, "Login successful"))
  }

  /** `signup`: all three fields are required and the email must be new; then
      exactly one user is added, holding the password's hash. */
  function Signup(users: seq<User>, body: map<string, Val>, hash: Val -> string, newId: string,
                  sign: string -> string): (r: (seq<User>, Reply))
    ensures r.1.status != 200 ==> r.0 == users
    ensures !Truthy(Field(body, "name")) || !Truthy(Field(body, "email")) || !Truthy(Field(body, "password")) ==>
      r == (users, Refusal(AllRequired))
    ensures Truthy(Field(body, "name")) && Truthy(Field(body, "email")) && Truthy(Field(body, "password")) ==>
      if FindOne(users, Field(body, "email")).Some? then r == (users, Refusal(Exists))
      else
        var u := User(newId, Field(body, "name"), Field(body, "email"), hash(Field(body, "password")));
        r == (users + [u], Reply(200, Welcome(u, sign, "Signup successful")))
  {
    var name, email, password := Field(body, "name"), Field(body, "email"), Field(body, "password");
    if !Truthy(name) || !Truthy(email) || !Truthy(password) then (users, Refusal(AllRequired))
    else if FindOne(users, email).Some? then (users, Refusal(Exists))
    else
      var u := User(newId, name, email, hash(password));
      (users + [u], Reply(200, Welcome(u, sign, "Signup successful")))
  }

  // ---------------------------------------------------------------------------
  // Properties

  /** `findOne` over a store with one user appended finds the same user as
      before, or the new one when none matched. */
  lemma {:induction false} FindOneAppend(users: seq<User>, u: User, email: Val)
    ensures FindOne(users + [u], email) ==
      if FindOne(users, email).Some? then FindOne(users, email)
      else if u.email == email then Some(|users|) else None
  {
    if users != [] {
      assert (users + [u])[1..] == users[1..] + [u];
      FindOneAppend(users[1..], u, email);
    }
  }

  /** Signing up and then logging in with the same email and password succeeds
      when bcrypt accepts the password against its own hash, and returns the
      account just created. */
  lemma SignupThenLogin(users: seq<User>, body: map<string, Val>, hash: Val -> string, newId: string,
                        sign: string -> string, compare: (Val, string) -> bool)
    requires Signup(users, body, hash, newId, sign).1.status == 200
    requires compare(Field(body, "password"), hash(Field(body, "password")))
    ensures var users2 := Signup(users, body, hash, newId, sign).0;
      Login(users2, body, compare, sign)
        == Reply(200, Welcome(User(newId, Field(body, "name"), Field(body, "email"), hash(Field(body, "password"))), sign, "Login successful"))
  {
    var u := User(newId, Field(body, "name"), Field(body, "email"), hash(Field(body, "password")));
    FindOneAppend(users, u, Field(body, "email"));
  }

  /** A second signup with the same email is refused and changes nothing. */
  lemma SignupTwiceRefused(users: seq<User>, body: map<string, Val>, hash: Val -> string, id1: string, id2: string,
                           sign: string -> string)
    requires Signup(users, body, hash, id1, sign).1.status == 200
    ensures var users2 := Signup(users, body, hash, id1, sign).0;
      Signup(users2, body, hash, id2, sign) == (users2, Refusal(Exists))
  {
    var u := User(id1, Field(body, "name"), Field(body, "email"), hash(Field(body, "password")));
    FindOneAppend(users, u, Field(body, "email"));
  }

  /** No reply of either controller carries a password: a refusal holds only a
      message, and a success only the token, the public user and a message. */
  lemma NoPasswordInReplies(users: seq<User>, body: map<string, Val>, compare: (Val, string) -> bool,
                            hash: Val -> string, newId: string, sign: string -> string)
    ensures var r := Login(users, body, compare, sign);
      r.body.Obj? && "password" !in r.body.fields && ("user" in r.body.fields ==> "password" !in r.body.fields["user"].fields)
    ensures var r := Signup(users, body, hash, newId, sign).1;
      r.body.Obj? && "password" !in r.body.fields && ("user" in r.body.fields ==> "password" !in r.body.fields["user"].fields)
  {
  }
}

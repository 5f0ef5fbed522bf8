/** The auth client of client/src/api/auth.js: how a server response becomes
    a result or an error, what `loginUser` stores, how errors are reworded for
    the user, session validation and logout.

    `fetch` is an oracle: a response (status, `ok`, and the body if it parses as
    JSON) or a rejection with a message. `num` renders numbers as text and
    `encode` is JSON.stringify. */
module AuthClient {
  import opened Common
  import WebSocketService

  /** An HTTP response; `body` is None when `response.json()` rejects. */
  datatype Response = Response(ok: bool, status: int, body: Option<Val>)

  /** What `await fetch(...)` gave: a response, or a rejection (a network failure). */
  datatype Fetched = Responded(response: Response) | Rejected(message: string)

  /** A thrown Error with the `status` and `data` properties `handleResponse` sets. */
  datatype Failure = Failure(message: string, status: Option<int>, data: Option<Val>)

  const RequestFailed := "Request failed"
  const InvalidResponse := "Invalid response from server"
  const Unreachable := "Unable to connect to the server. Please check your internet connection."
  const LoginFailed := "Login failed. Please try again."
  const RegistrationFailed := "Registration failed. Please try again."
  /** Chromium's message for a `fetch` that could not reach the server. */
  const FetchFailed := "Failed to fetch"
  const DuplicateAccount := "An account with this email already exists."

  /** The body `handleResponse` reads: `{}` when it is not JSON. */
  function BodyOf(resp: Response): Val {
    if resp.body.Some? then resp.body.value else Obj(map[])
  }

  /** `handleResponse`: the body when `ok`; otherwise an Error with message
      `data.message || 'Request failed'`, the status and the body. */
  function HandleResponse(resp: Response, num: real -> string): (r: Result<Val, Failure>)
    ensures resp.ok ==> r == Ok(BodyOf(resp))
    ensures !resp.ok && !Nullish(BodyOf(resp)) ==>
      var m := Get(BodyOf(resp), "message").value;
      r == Err(Failure(if Truthy(m) then StringOf(m, num) else RequestFailed, Some(resp.status), Some(BodyOf(resp))))
    ensures !resp.ok && Nullish(BodyOf(resp)) ==> r == Err(Failure(NullRead, None, None))
  {
    var data := BodyOf(resp);
    if resp.ok then Ok(data)
    else
      match Get(data, "message")
      case Err(_) => Err(Failure(NullRead, None, None))
      case Ok(m) => Err(Failure(if Truthy(m) then StringOf(m, num) else RequestFailed, Some(resp.status), Some(data)))
  }

  /** The part of `loginUser` and `registerUser` inside `try`: the server's body,
      checked to carry a truthy `user` and `token`. */
  function Authenticated(fetched: Fetched, num: real -> string): (r: Result<(Val, Val), Failure>)
    ensures r.Ok? <==>
      && fetched.Responded? && fetched.response.ok
      && Get(BodyOf(fetched.response), "user").Ok? && Truthy(Get(BodyOf(fetched.response), "user").value)
      && Truthy(Get(BodyOf(fetched.response), "token").value)
    ensures r.Ok? ==> r.value == (Get(BodyOf(fetched.response), "user").value, Get(BodyOf(fetched.response), "token").value)
    ensures fetched.Rejected? ==> r == Err(Failure(fetched.message, None, None))
  {
    match fetched
    case Rejected(message) => Err(Failure(message, None, None))
    case Responded(resp) =>
      match HandleResponse(resp, num)
      case Err(f) => Err(f)
      case Ok(data) =>
        match (Get(data, "user"), Get(data, "token"))
        case (Ok(user), Ok(token)) =>
          if !Truthy(user) || !Truthy(token) then Err(Failure(InvalidResponse, None, None))
          else Ok((user, token))
        case _ => Err(Failure(NullRead, None, None))
  }

  /** `error.data?.message || fallback`. */
  function DataMessage(f: Failure, fallback: string, num: real -> string): (r: string)
    ensures f.data.Some? && Get(f.data.value, "message").Ok? && Truthy(Get(f.data.value, "message").value)
            ==> r == StringOf(Get(f.data.value, "message").value, num)
    ensures f.data.None? || Get(f.data.value, "message").Err? || !Truthy(Get(f.data.value, "message").value)
            ==> r == fallback
  {
    if f.data.None? then fallback
    else match Get(f.data.value, "message")
      case Ok(m) => if Truthy(m) then StringOf(m, num) else fallback
      case Err(_) => fallback
  }

  /** The message `loginUser` rethrows. */
  function LoginError(f: Failure, num: real -> string): (r: string)
    ensures Includes(f.message, "NetworkError") ==> r == Unreachable
    ensures !Includes(f.message, "NetworkError") ==> r == DataMessage(f, LoginFailed, num)
  {
    if Includes(f.message, "NetworkError") then Unreachable else DataMessage(f, LoginFailed, num)
  }

  /** The message `registerUser` rethrows: a 409 is reported as a duplicate
      account before the network check. */
  function RegisterError(f: Failure, num: real -> string): (r: string)
    ensures f.status == Some(409) ==> r == DuplicateAccount
    ensures f.status != Some(409) && Includes(f.message, "NetworkError") ==> r == Unreachable
    ensures f.status != Some(409) && !Includes(f.message, "NetworkError") ==> r == DataMessage(f, RegistrationFailed, num)
  {
    if f.status == Some(409) then DuplicateAccount
    else if Includes(f.message, "NetworkError") then Unreachable
    else DataMessage(f, RegistrationFailed, num)
  }

  /** `{ ...data.user, token: data.token }`. */
  function WithToken(user: Val, token: Val): Val {
    Obj(OwnProps(user)["token" := token])
  }

  /** `loginUser`: on success the user with its token, after storing `userId`,
      `token` and `user`; on failure the reworded error and the storage as it was. */
  function LoginUser(fetched: Fetched, st: Storage, num: real -> string, encode: Val -> string)
    : (r: (Result<Val, string>, Storage))
    ensures r.0.Err? ==> r.1 == st
    ensures r.0.Ok? <==> Authenticated(fetched, num).Ok?
    ensures r.0.Ok? ==>
      var (user, token) := Authenticated(fetched, num).value;
      && r.0.value == WithToken(user, token)
      && r.1 == st["userId" := StringOf(Get(user, "_id").value, num)]["token" := StringOf(token, num)]["user" := encode(user)]
    ensures r.0.Err? ==> r.0.error == LoginError(Authenticated(fetched, num).error, num)
  {
    match Authenticated(fetched, num)
    case Err(f) => (Err(LoginError(f, num)), st)
    case Ok((user, token)) =>
      match Get(user, "_id")
      case Ok(id) =>
        (Ok(WithToken(user, token)),
         st["userId" := StringOf(id, num)]["token" := StringOf(token, num)]["user" := encode(user)])
      case Err(_) => (Err(LoginError(Failure(NullRead, None, None), num)), st)
  }

  /** `registerUser`: the user with its token, or the reworded error. It writes
      nothing to storage. */
  function RegisterUser(fetched: Fetched, num: real -> string): (r: Result<Val, string>)
    ensures r.Ok? <==> Authenticated(fetched, num).Ok?
    ensures r.Ok? ==> r.value == WithToken(Authenticated(fetched, num).value.0, Authenticated(fetched, num).value.1)
    ensures r.Err? ==> r.error == RegisterError(Authenticated(fetched, num).error, num)
  {
    match Authenticated(fetched, num)
    case Err(f) => Err(RegisterError(f, num))
    case Ok((user, token)) => Ok(WithToken(user, token))
  }

  /** `validateSession`: `data.user` when `data.valid` is truthy, and null on
      every failure. */
  function ValidateSession(fetched: Fetched, num: real -> string): (r: Val)
    ensures fetched.Rejected? ==> r == Null
    ensures fetched.Responded? && !fetched.response.ok ==> r == Null
    ensures r != Null ==>
      && fetched.Responded? && fetched.response.ok
      && Get(BodyOf(fetched.response), "valid").Ok? && Truthy(Get(BodyOf(fetched.response), "valid").value)
      && r == Get(BodyOf(fetched.response), "user").value
    ensures fetched.Responded? && fetched.response.ok && Nullish(BodyOf(fetched.response)) ==> r == Null
    ensures fetched.Responded? && fetched.response.ok && !Nullish(BodyOf(fetched.response)) ==>
      var data := BodyOf(fetched.response);
      r == (if Truthy(Get(data, "valid").value) then Get(data, "user").value else Null)
  {
    match fetched
    case Rejected(_) => Null
    case Responded(resp) =>
      match HandleResponse(resp, num)
      case Err(_) => Null
      case Ok(data) =>
        match (Get(data, "valid"), Get(data, "user"))
        case (Ok(valid), Ok(user)) => if Truthy(valid) then user else Null
        case _ => Null
  }

  /** `logoutUser`: the stored credentials go and the socket service disconnects. */
  function LogoutUser(st: Storage, ws: WebSocketService.Service): (r: (Storage, WebSocketService.Service))
    ensures r.1 == WebSocketService.Disconnect(ws)
    ensures r.1.isExplicitDisconnect && r.1.socket.None? && r.1.timers.Keys <= ws.timers.Keys
    ensures r.0 == st - {"token", "userId", "user"}
  {
    (st - {"token", "userId", "user"}, WebSocketService.Disconnect(ws))
  }

  // ---------------------------------------------------------------------------
  // Properties

  /** A network rejection whose message names a NetworkError is reported as a
      connectivity problem, and leaves storage alone. */
  lemma LoginNetworkError(st: Storage, message: string, num: real -> string, encode: Val -> string)
    requires Includes(message, "NetworkError")
    ensures LoginUser(Rejected(message), st, num, encode) == (Err(Unreachable), st)
  {
  }

  /** Chromium rejects a failed `fetch` with "Failed to fetch", which names no
      NetworkError: the login then reports the generic failure, not the
      connectivity message. */
  lemma LoginFetchFailed(st: Storage, num: real -> string, encode: Val -> string)
    ensures LoginUser(Rejected(FetchFailed), st, num, encode) == (Err(LoginFailed), st)
  {
    var m := FetchFailed;
    FetchFailedNoNetworkError();
    var f := Failure(m, None, None);
    assert Authenticated(Rejected(m), num) == Err(f);
    assert LoginError(f, num) == LoginFailed;
  }

  lemma FetchFailedNoNetworkError()
    ensures !Includes(FetchFailed, "NetworkError")
  {
    assert 'N' !in FetchFailed by {
      forall i | 0 <= i < |FetchFailed| ensures FetchFailed[i] != 'N' {
      }
    }
    NoNetworkErrorIn(FetchFailed);
  }

  /** A refused login shows the server's message or the default text, never the
      generic "Request failed" of `handleResponse` unless the server sent it. */
  lemma LoginRefusedMessage(st: Storage, resp: Response, num: real -> string, encode: Val -> string)
    requires !resp.ok && resp.body.Some? && resp.body.value.Obj?
    requires !Includes(StringOf(Get(resp.body.value, "message").value, num), "NetworkError")
    ensures var m := Get(resp.body.value, "message").value;
      LoginUser(Responded(resp), st, num, encode).0 == Err(if Truthy(m) then StringOf(m, num) else LoginFailed)
  {
    var m := Get(resp.body.value, "message").value;
    if !Truthy(m) {
      assert HandleResponse(resp, num).error.message == RequestFailed;
      assert !Includes(RequestFailed, "NetworkError") by {
        assert 'N' !in RequestFailed;
        NoNetworkErrorIn(RequestFailed);
      }
    }
  }

  /** A text without a capital N does not mention a NetworkError. */
  lemma NoNetworkErrorIn(s: string)
    requires 'N' !in s
    ensures !Includes(s, "NetworkError")
  {
    IncludesIffOccurs(s, "NetworkError");
    forall i | OccursAt("NetworkError", s, i) ensures false {
      OccursHead("NetworkError", s, i);
    }
  }

  lemma OccursHead(needle: string, hay: string, i: int)
    requires needle != [] && OccursAt(needle, hay, i)
    ensures needle[0] in hay
  {
    assert hay[i] == hay[i..i + |needle|][0];
  }

  /** A 409 is reported as a duplicate account whatever the body says. */
  lemma RegisterConflict(resp: Response, num: real -> string)
    requires resp.status == 409 && !resp.ok && !Nullish(BodyOf(resp))
    ensures RegisterUser(Responded(resp), num) == Err(DuplicateAccount)
  {
  }

  /** An ok reply `{ valid: true, user: u }` validates the session as `u`,
      and one whose `valid` is false does not, whatever its `user`. */
  lemma ValidSessionReturnsUser(status: int, u: Val, num: real -> string)
    ensures ValidateSession(Responded(Response(true, status, Some(Obj(map["valid" := Bool(true), "user" := u])))), num) == u
    ensures ValidateSession(Responded(Response(true, status, Some(Obj(map["valid" := Bool(false), "user" := u])))), num) == Null
  {
    var yes := Obj(map["valid" := Bool(true), "user" := u]);
    var no := Obj(map["valid" := Bool(false), "user" := u]);
    assert Get(yes, "valid") == Ok(Bool(true)) && Get(yes, "user") == Ok(u);
    assert Get(no, "valid") == Ok(Bool(false));
  }

  /** After `logoutUser`, connecting the socket from stored credentials fails. */
  lemma LogoutBlocksStoredReconnect(st: Storage, ws: WebSocketService.Service)
    ensures var (st2, ws2) := LogoutUser(st, ws);
      WebSocketService.Connect(ws2, st2, None, None).Err?
  {
  }
}

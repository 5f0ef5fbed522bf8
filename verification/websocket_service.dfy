/** The client's socket lifecycle: `WebSocketService` of client/src/api/websocket.js.

    The object's fields become one immutable record and every method or event
    handler one transition on it. The browser and the clock are the environment:
    they deliver `open`, `close` and failure events on a socket and let timers
    elapse, in any order. Every socket ever created stays in `sockets`, because
    the handlers `_connect` binds to it stay bound after `this.socket` moves on.
    Timers live in `timers` under fresh ids; the three handle fields hold the ids
    the object remembers, and `clearTimeout`/`clearInterval` remove an id. */
module WebSocketService {
  import opened Common

  // WS_CONFIG
  const MinDelay: int := 1000
  const MaxDelay: int := 30000
  const MaxAttempts: nat := 5
  const BackoffFactor: real := 1.5
  const HeartbeatInterval: int := 25000
  const HeartbeatTimeout: int := 10000

  /** One physical socket: its readyState, whether the promise `_connect` awaits
      on it has settled, and the credentials its handshake URL carried. */
  datatype Socket = Socket(ready: ReadyState, settled: bool, userId: Option<string>, token: Option<string>)

  datatype Timer =
    | ReconnectTimer(delay: real)   // setTimeout(() => this._connect(), delay)
    | PingInterval                  // setInterval of _startHeartbeat
    | PongTimeout                   // setTimeout that closes the socket

  /** What `socket.send` was given: a string verbatim, or a value JSON-encoded. */
  datatype Outgoing = Verbatim(text: string) | Encoded(value: Val)

  datatype Sent = Sent(socket: nat, frame: Outgoing)

  datatype Service = Service(
    sockets: map<nat, Socket>,
    socket: Option<nat>,            // this.socket
    nextSocket: nat,
    userId: Option<string>,
    token: Option<string>,
    isExplicitDisconnect: bool,
    handlers: seq<nat>,             // messageHandlers, a Set kept in insertion order
    reconnectAttempts: nat,
    reconnectDelay: int,
    timers: map<nat, Timer>,
    nextTimer: nat,
    reconnectTimeout: Option<nat>,
    heartbeatTimer: Option<nat>,
    heartbeatTimeout: Option<nat>,
    sent: seq<Sent>                 // every frame handed to a socket, in order
  )

  /** An argument of addMessageHandler: a function (by identity) or anything else. */
  datatype Handler = Fn(id: nat) | NotAFunction

  /** The function addMessageHandler returns. */
  datatype Remover = NoOp | RemoveHandler(id: nat)

  datatype ConnectError = MissingCredentials

  /** What the browser and the clock can do. */
  datatype Event =
    | OpenEvent(k: nat)                 // `open` on socket k
    | FailEvent(k: nat)                 // the connection fails: `error`, then `close`, on socket k
    | CloseEvent(k: nat)                // `close` on socket k
    | MessageEvent(k: nat, frame: Inbound)
    | TimerFired(t: nat)                // timer t elapses

  // ---------------------------------------------------------------------------
  // Invariant

  predicate Distinct(hs: seq<nat>) {
    forall i, j :: 0 <= i < j < |hs| ==> hs[i] != hs[j]
  }

  ghost predicate Valid(s: Service) {
    && s.reconnectAttempts <= MaxAttempts
    && s.reconnectDelay == MinDelay
    && (forall k :: k in s.sockets ==> k < s.nextSocket)
    && (s.socket.Some? ==> s.socket.value in s.sockets)
    && (forall t :: t in s.timers ==> t < s.nextTimer)
    && (forall t :: t in s.timers && s.timers[t].PingInterval? ==> s.heartbeatTimer == Some(t))
    && (s.heartbeatTimer.Some? ==>
          s.heartbeatTimer.value in s.timers && s.timers[s.heartbeatTimer.value] == PingInterval)
    && (s.heartbeatTimeout.Some? && s.heartbeatTimeout.value in s.timers ==>
          s.timers[s.heartbeatTimeout.value] == PongTimeout)
    && (s.reconnectTimeout.Some? ==> s.reconnectTimeout.value < s.nextTimer)
    && (s.heartbeatTimer.Some? ==> s.heartbeatTimer.value < s.nextTimer)
    && (s.heartbeatTimeout.Some? ==> s.heartbeatTimeout.value < s.nextTimer)
    && (forall t :: t in s.timers && s.timers[t].ReconnectTimer? ==>
          0.0 < s.timers[t].delay <= MaxDelay as real)
    && Distinct(s.handlers)
  }

  // ---------------------------------------------------------------------------
  // Reconnection policy

  function Pow(b: real, n: nat): (r: real)
    ensures b >= 1.0 ==> r >= 1.0
  {
    if n == 0 then 1.0 else b * Pow(b, n - 1)
  }

  function Min(a: real, b: real): real {
    if a <= b then a else b
  }

  lemma ScaleAtLeast(b: real, p: real)
    requires 0.0 <= b && 1.0 <= p
    ensures b <= b * p
  {
    assert b * p - b == b * (p - 1.0);
  }

  /** `reconnectDelay * backoffFactor ** (n - 1)`, before the cap. */
  function Scaled(base: int, n: nat): real
    requires n >= 1
  {
    base as real * Pow(BackoffFactor, n - 1)
  }

  /** Scaling never shrinks a non-negative base delay. */
  lemma ScaledAtLeastBase(base: int, n: nat)
    requires n >= 1
    ensures 0 <= base ==> base as real <= Scaled(base, n)
  {
    if 0 <= base {
      ScaleAtLeast(base as real, Pow(BackoffFactor, n - 1));
    }
  }

  /** The delay `_handleReconnect` schedules for attempt `n` (counted from 1). */
  function Backoff(base: int, n: nat): (r: real)
    requires n >= 1
    ensures r <= MaxDelay as real
    ensures 0 < base <= MaxDelay ==> base as real <= r
  {
    ScaledAtLeastBase(base, n);
    Min(Scaled(base, n), MaxDelay as real)
  }

  // ---------------------------------------------------------------------------
  // Construction and the handler set

  function Initial(userId: Option<string>, token: Option<string>): Service {
    Service(map[], None, 0, userId, token, false, [], 0, MinDelay, map[], 0, None, None, None, [])
  }

  /** The constructor: credentials come from storage, and it connects when both are there. */
  function Init(st: Storage): (r: (Service, Storage))
    ensures Present(GetItem(st, "userId")) && Present(GetItem(st, "token")) ==>
      r.0.socket.Some? && r.1 == st
    ensures !(Present(GetItem(st, "userId")) && Present(GetItem(st, "token"))) ==>
      r.0.socket.None? && r.0.timers == map[] && r.1 == st
  {
    var s := Initial(GetItem(st, "userId"), GetItem(st, "token"));
    if Present(s.userId) && Present(s.token) then
      match Connect(s, st, s.userId, s.token)
      case Ok(v) => v
      case Err(_) => (s, st)
    else (s, st)
  }

  function SetAdd(hs: seq<nat>, x: nat): seq<nat> {
    if x in hs then hs else hs + [x]
  }

  /** Set.prototype.delete on the insertion-ordered handler set. */
  function SetDelete(hs: seq<nat>, x: nat): (r: seq<nat>)
    ensures forall y :: y in r <==> y in hs && y != x
    ensures Distinct(hs) ==> Distinct(r)
  {
    if hs == [] then []
    else
      var rest := SetDelete(hs[1..], x);
      assert Distinct(hs) ==> hs[0] !in rest && Distinct(hs[1..]);
      if hs[0] == x then rest else [hs[0]] + rest
  }

  function AddMessageHandler(s: Service, h: Handler): (r: (Service, Remover))
    ensures h.NotAFunction? ==> r == (s, NoOp)
    ensures h.Fn? ==> r.1 == RemoveHandler(h.id)
    ensures h.Fn? ==> forall x :: x in r.0.handlers <==> x in s.handlers || x == h.id
    ensures r.0 == s.(handlers := r.0.handlers)
    ensures Distinct(s.handlers) ==> Distinct(r.0.handlers)
  {
    match h
    case NotAFunction => (s, NoOp)
    case Fn(id) => (s.(handlers := SetAdd(s.handlers, id)), RemoveHandler(id))
  }

  /** Calling the function addMessageHandler returned. */
  function Unregister(s: Service, rm: Remover): (r: Service)
    ensures rm.NoOp? ==> r == s
    ensures rm.RemoveHandler? ==> forall x :: x in r.handlers <==> x in s.handlers && x != rm.id
    ensures r == s.(handlers := r.handlers)
    ensures Distinct(s.handlers) ==> Distinct(r.handlers)
  {
    match rm
    case NoOp => s
    case RemoveHandler(id) => s.(handlers := SetDelete(s.handlers, id))
  }

  function RemoveMessageHandler(s: Service, h: Handler): (r: Service)
    ensures h.NotAFunction? ==> r == s
    ensures h.Fn? ==> r == Unregister(s, RemoveHandler(h.id))
  {
    match h
    case NotAFunction => s
    case Fn(id) => s.(handlers := SetDelete(s.handlers, id))
  }

  // ---------------------------------------------------------------------------
  // Connecting and disconnecting

  /** The live timers the object still holds a handle to. */
  function Handles(s: Service): set<nat> {
    (if s.reconnectTimeout.Some? then {s.reconnectTimeout.value} else {})
    + (if s.heartbeatTimer.Some? then {s.heartbeatTimer.value} else {})
    + (if s.heartbeatTimeout.Some? then {s.heartbeatTimeout.value} else {})
  }

  /** `socket.close()` on socket k. */
  function CloseSocket(m: map<nat, Socket>, k: nat): map<nat, Socket> {
    if k in m then m[k := m[k].(ready := AfterClose(m[k].ready))] else m
  }

  /** `_stopHeartbeat`: the ping interval and the pong timeout are cancelled
      and their handles dropped; no other timer or field changes. */
  function StopHeartbeat(s: Service): (r: Service)
    ensures r.heartbeatTimer.None? && r.heartbeatTimeout.None?
    ensures forall t :: t in r.timers <==> t in s.timers && Some(t) != s.heartbeatTimer && Some(t) != s.heartbeatTimeout
    ensures forall t :: t in r.timers ==> r.timers[t] == s.timers[t]
    ensures r == s.(timers := r.timers, heartbeatTimer := None, heartbeatTimeout := None)
  {
    var t1 := if s.heartbeatTimer.Some? then s.timers - {s.heartbeatTimer.value} else s.timers;
    var t2 := if s.heartbeatTimeout.Some? then t1 - {s.heartbeatTimeout.value} else t1;
    s.(timers := t2, heartbeatTimer := None, heartbeatTimeout := None)
  }

  /** `_startHeartbeat`: after stopping any heartbeat, one new ping interval is
      armed and its handle kept. */
  function StartHeartbeat(s: Service): (r: Service)
    ensures r.heartbeatTimer == Some(s.nextTimer) && r.heartbeatTimeout.None?
    ensures r.timers == StopHeartbeat(s).timers[s.nextTimer := PingInterval]
    ensures r == StopHeartbeat(s).(timers := r.timers, heartbeatTimer := r.heartbeatTimer, nextTimer := s.nextTimer + 1)
  {
    var s1 := StopHeartbeat(s);
    s1.(timers := s1.timers[s1.nextTimer := PingInterval],
        heartbeatTimer := Some(s1.nextTimer),
        nextTimer := s1.nextTimer + 1)
  }

  function Disconnect(s: Service): (r: Service)
    ensures r.isExplicitDisconnect && r.socket.None?
    ensures r.reconnectTimeout.None? && r.heartbeatTimer.None? && r.heartbeatTimeout.None?
    ensures r.timers == s.timers - Handles(s)
    ensures s.socket.Some? ==> r.sockets == CloseSocket(s.sockets, s.socket.value)
    ensures s.socket.None? ==> r.sockets == s.sockets
    ensures r == s.(isExplicitDisconnect := true, socket := None, sockets := r.sockets, timers := r.timers,
                    reconnectTimeout := None, heartbeatTimer := None, heartbeatTimeout := None)
  {
    var s1 := StopHeartbeat(s.(isExplicitDisconnect := true));
    var s2 := if s1.reconnectTimeout.Some? then
                s1.(timers := s1.timers - {s1.reconnectTimeout.value}, reconnectTimeout := None)
              else s1;
    if s2.socket.Some? then s2.(sockets := CloseSocket(s2.sockets, s2.socket.value), socket := None)
    else s2
  }

  /** `_connect` up to its `await`: tear down any socket, clear the explicit flag,
      open a new socket whose handshake carries the stored credentials. */
  function StartConnect(s: Service): (r: Service)
    ensures r.socket == Some(s.nextSocket) && r.nextSocket == s.nextSocket + 1
    ensures s.nextSocket in r.sockets
    ensures r.sockets[s.nextSocket] == Socket(Connecting, false, s.userId, s.token)
    ensures !r.isExplicitDisconnect
    ensures s.socket.Some? ==> r == Disconnect(s).(
      sockets := r.sockets, socket := r.socket, nextSocket := r.nextSocket, isExplicitDisconnect := false)
    ensures s.socket.None? ==> r == s.(
      sockets := r.sockets, socket := r.socket, nextSocket := r.nextSocket, isExplicitDisconnect := false)
    ensures s.socket.Some? ==> r.sockets == CloseSocket(s.sockets, s.socket.value)[s.nextSocket := r.sockets[s.nextSocket]]
    ensures s.socket.None? ==> r.sockets == s.sockets[s.nextSocket := r.sockets[s.nextSocket]]
  {
    var s1 := if s.socket.Some? then Disconnect(s) else s;
    var k := s1.nextSocket;
    s1.(isExplicitDisconnect := false,
        sockets := s1.sockets[k := Socket(Connecting, false, s1.userId, s1.token)],
        socket := Some(k),
        nextSocket := k + 1)
  }

  /** `connect(userId, token)`: explicit credentials overwrite and persist the stored
      ones; a missing argument falls back to storage, and with nothing stored the
      call rejects without opening a socket. */
  function Connect(s: Service, st: Storage, userId: Option<string>, token: Option<string>)
    : (r: Result<(Service, Storage), ConnectError>)
    ensures r.Err? <==>
      !(Present(userId) && Present(token)) && !(Present(GetItem(st, "userId")) && Present(GetItem(st, "token")))
    ensures Present(userId) && Present(token) ==>
      r.Ok? && r.value.1 == st["userId" := userId.value]["token" := token.value]
      && r.value.0.userId == userId && r.value.0.token == token
    ensures !(Present(userId) && Present(token)) && r.Ok? ==>
      r.value.1 == st && r.value.0.userId == GetItem(st, "userId") && r.value.0.token == GetItem(st, "token")
    ensures r.Ok? ==> r.value.0 == StartConnect(s.(userId := r.value.0.userId, token := r.value.0.token))
  {
    if !Present(userId) || !Present(token) then
      var storedUserId := GetItem(st, "userId");
      var storedToken := GetItem(st, "token");
      if !Present(storedUserId) || !Present(storedToken) then Err(MissingCredentials)
      else Ok((StartConnect(s.(userId := storedUserId, token := storedToken)), st))
    else
      Ok((StartConnect(s.(userId := userId, token := token)),
          st["userId" := userId.value]["token" := token.value]))
  }

  // ---------------------------------------------------------------------------
  // Sending

  predicate CurrentOpen(s: Service) {
    s.socket.Some? && s.socket.value in s.sockets && s.sockets[s.socket.value].ready == Open
  }

  /** A string goes out verbatim, anything else JSON-encoded. */
  function Wire(message: Val): Outgoing {
    if message.Str? then Verbatim(message.s) else Encoded(message)
  }

  function SendMessage(s: Service, message: Val): (r: (Service, bool))
    ensures r.1 <==> CurrentOpen(s)
    ensures r.1 ==> r.0 == s.(sent := s.sent + [Sent(s.socket.value, Wire(message))])
    ensures !r.1 ==> r.0 == s
  {
    if CurrentOpen(s) then (s.(sent := s.sent + [Sent(s.socket.value, Wire(message))]), true)
    else (s, false)
  }

  function PingFrame(): Val {
    Obj(map["type" := Str("ping")])
  }

  function OpenProbe(now: int): Val {
    Obj(map["type" := Str("ping"), "timestamp" := Num(now as real)])
  }

  // ---------------------------------------------------------------------------
  // Event handlers

  /** `_handleReconnect`. */
  function HandleReconnect(s: Service): (r: Service)
    ensures s.reconnectAttempts >= MaxAttempts ==> r == s
    ensures s.reconnectAttempts <= MaxAttempts ==> r.reconnectAttempts <= MaxAttempts
    ensures s.reconnectAttempts < MaxAttempts ==>
      && r.reconnectAttempts == s.reconnectAttempts + 1
      && r.timers == s.timers[s.nextTimer := ReconnectTimer(Backoff(s.reconnectDelay, r.reconnectAttempts))]
      && r == s.(reconnectAttempts := r.reconnectAttempts, timers := r.timers,
                 nextTimer := s.nextTimer + 1, reconnectTimeout := Some(s.nextTimer))
  {
    if s.reconnectAttempts >= MaxAttempts then s
    else
      var n := s.reconnectAttempts + 1;
      s.(reconnectAttempts := n,
         timers := s.timers[s.nextTimer := ReconnectTimer(Backoff(s.reconnectDelay, n))],
         reconnectTimeout := Some(s.nextTimer),
         nextTimer := s.nextTimer + 1)
  }

  /** `_onClose`: stop the heartbeat, then reconnect unless the close was explicit. */
  function OnClose(s: Service): (r: Service)
    ensures r.heartbeatTimer.None? && r.heartbeatTimeout.None?
    ensures s.isExplicitDisconnect ==> r == StopHeartbeat(s)
    ensures !s.isExplicitDisconnect ==> r == HandleReconnect(StopHeartbeat(s))
  {
    var s1 := StopHeartbeat(s);
    if !s1.isExplicitDisconnect then HandleReconnect(s1) else s1
  }

  /** `_onOpen`: reset the reconnect counter and delay, send a probe. */
  function OnOpen(s: Service, now: int): (r: Service)
    ensures r.reconnectAttempts == 0 && r.reconnectDelay == MinDelay
    ensures r.sent == s.sent + (if CurrentOpen(s) then [Sent(s.socket.value, Encoded(OpenProbe(now)))] else [])
    ensures r == s.(reconnectAttempts := 0, reconnectDelay := MinDelay, sent := r.sent)
  {
    SendMessage(s.(reconnectAttempts := 0, reconnectDelay := MinDelay), OpenProbe(now)).0
  }

  /** One heartbeat tick: while the socket is open, send a ping and arm a pong timeout.
      The new timeout's id overwrites the handle; an older timeout stays armed. */
  function PingTick(s: Service): (r: Service)
    ensures !CurrentOpen(s) ==> r == s
    ensures CurrentOpen(s) ==>
      && r.sent == s.sent + [Sent(s.socket.value, Encoded(PingFrame()))]
      && r.timers == s.timers[s.nextTimer := PongTimeout]
      && r.heartbeatTimeout == Some(s.nextTimer)
      && r == s.(sent := r.sent, timers := r.timers, heartbeatTimeout := r.heartbeatTimeout,
                 nextTimer := s.nextTimer + 1)
  {
    if CurrentOpen(s) then
      s.(sent := s.sent + [Sent(s.socket.value, Encoded(PingFrame()))],
         timers := s.timers[s.nextTimer := PongTimeout],
         heartbeatTimeout := Some(s.nextTimer),
         nextTimer := s.nextTimer + 1)
    else s
  }

  /** `this.socket?.close()`. */
  function CloseCurrent(s: Service): Service {
    if s.socket.Some? then s.(sockets := CloseSocket(s.sockets, s.socket.value)) else s
  }

  function OnTimer(s: Service, t: nat): Service
    requires t in s.timers
  {
    match s.timers[t]
    case ReconnectTimer(_) => StartConnect(s.(timers := s.timers - {t}))
    case PingInterval => PingTick(s)
    case PongTimeout => CloseCurrent(s.(timers := s.timers - {t}))
  }

  /** The socket became open: `_onOpen`, then the awaiting `_connect` resumes
      and starts the heartbeat. */
  function OnOpenEvent(s: Service, k: nat, now: int): Service
    requires k in s.sockets
  {
    var s1 := OnOpen(s.(sockets := s.sockets[k := s.sockets[k].(ready := Open)]), now);
    if s.sockets[k].settled then s1
    else StartHeartbeat(s1.(sockets := s1.sockets[k := s1.sockets[k].(settled := true)]))
  }

  /** The connection failed: the `error` handler rejects the awaited promise (if it
      is still pending), whose `catch` calls `_handleReconnect`; then `close` runs `_onClose`. */
  function OnFailEvent(s: Service, k: nat): Service
    requires k in s.sockets
  {
    var s1 := s.(sockets := s.sockets[k := s.sockets[k].(ready := Closed, settled := true)]);
    var s2 := if s.sockets[k].settled then s1 else HandleReconnect(s1);
    OnClose(s2)
  }

  function OnCloseEvent(s: Service, k: nat): Service
    requires k in s.sockets
  {
    OnClose(s.(sockets := s.sockets[k := s.sockets[k].(ready := Closed)]))
  }

  /** Whether the environment can deliver `e` in state `s`. */
  predicate Enabled(s: Service, e: Event) {
    match e
    case OpenEvent(k) => k in s.sockets && s.sockets[k].ready == Connecting
    case FailEvent(k) => k in s.sockets && s.sockets[k].ready != Closed
    case CloseEvent(k) => k in s.sockets && s.sockets[k].ready != Closed
    case MessageEvent(k, _) => k in s.sockets && s.sockets[k].ready == Open
    case TimerFired(t) => t in s.timers
  }

  /** One environment event, as the code handles it. An event that cannot happen
      in `s` changes nothing. Receiving a frame changes no field of the service. */
  function Step(s: Service, e: Event, now: int): Service {
    if !Enabled(s, e) then s
    else match e
      case OpenEvent(k) => OnOpenEvent(s, k, now)
      case FailEvent(k) => OnFailEvent(s, k)
      case CloseEvent(k) => OnCloseEvent(s, k)
      case MessageEvent(_, _) => s
      case TimerFired(t) => OnTimer(s, t)
  }

  /** `_onMessage`: every handler of the set is called once, in insertion order, with
      the parsed message; a handler that throws (those in `throws`) is logged and
      the rest still run. A frame that does not parse reaches no handler. */
  method OnMessage(s: Service, frame: Inbound, throws: set<nat>)
    returns (delivered: seq<nat>, faulted: seq<nat>)
    ensures frame.Malformed? ==> delivered == [] && faulted == []
    ensures frame.Parsed? ==> delivered == s.handlers
    ensures frame.Parsed? ==> faulted == Filter(s.handlers, h => h in throws)
  {
    delivered, faulted := [], [];
    if frame.Malformed? {
      return;
    }
    var i := 0;
    while i < |s.handlers|
      invariant 0 <= i <= |s.handlers|
      invariant delivered == s.handlers[..i]
      invariant faulted == Filter(s.handlers[..i], h => h in throws)
    {
      var h := s.handlers[i];
      delivered := delivered + [h];
      if h in throws {
        faulted := faulted + [h];
      }
      FilterAppend(s.handlers[..i], h, h => h in throws);
      assert s.handlers[..i + 1] == s.handlers[..i] + [h];
      i := i + 1;
    }
    assert s.handlers[..i] == s.handlers;
  }

  // ---------------------------------------------------------------------------
  // The invariant holds in every reachable state

  lemma InitialValid(userId: Option<string>, token: Option<string>)
    ensures Valid(Initial(userId, token))
  {
  }

  /** Sending keeps the invariant and touches nothing but the outbox. */
  lemma SendMessageValid(s: Service, message: Val)
    requires Valid(s)
    ensures Valid(SendMessage(s, message).0)
    ensures SendMessage(s, message).0.(sent := s.sent) == s
    ensures |SendMessage(s, message).0.sent| == |s.sent| + (if SendMessage(s, message).1 then 1 else 0)
  {
  }

  lemma StopHeartbeatValid(s: Service)
    requires Valid(s)
    ensures Valid(StopHeartbeat(s))
    ensures forall t :: t in StopHeartbeat(s).timers ==> !StopHeartbeat(s).timers[t].PingInterval?
  {
  }

  lemma DisconnectValid(s: Service)
    requires Valid(s)
    ensures Valid(Disconnect(s))
  {
    StopHeartbeatValid(s.(isExplicitDisconnect := true));
  }

  lemma StartConnectValid(s: Service)
    requires Valid(s)
    ensures Valid(StartConnect(s))
  {
    if s.socket.Some? {
      DisconnectValid(s);
    }
  }

  lemma ConnectValid(s: Service, st: Storage, userId: Option<string>, token: Option<string>)
    requires Valid(s)
    ensures Connect(s, st, userId, token).Ok? ==> Valid(Connect(s, st, userId, token).value.0)
  {
    var r := Connect(s, st, userId, token);
    if r.Ok? {
      StartConnectValid(s.(userId := r.value.0.userId, token := r.value.0.token));
    }
  }

  lemma InitValid(st: Storage)
    ensures Valid(Init(st).0)
  {
    var s := Initial(GetItem(st, "userId"), GetItem(st, "token"));
    ConnectValid(s, st, s.userId, s.token);
  }

  lemma HandleReconnectValid(s: Service)
    requires Valid(s)
    ensures Valid(HandleReconnect(s))
  {
    if s.reconnectAttempts < MaxAttempts {
      var d := Backoff(s.reconnectDelay, s.reconnectAttempts + 1);
      assert 0.0 < d;
    }
  }

  lemma OnCloseValid(s: Service)
    requires Valid(s)
    ensures Valid(OnClose(s))
  {
    StopHeartbeatValid(s);
    HandleReconnectValid(StopHeartbeat(s));
  }

  lemma StartHeartbeatValid(s: Service)
    requires Valid(s)
    ensures Valid(StartHeartbeat(s))
  {
    StopHeartbeatValid(s);
  }

  lemma OnOpenEventValid(s: Service, k: nat, now: int)
    requires Valid(s) && k in s.sockets
    ensures Valid(OnOpenEvent(s, k, now))
  {
    var s1 := OnOpen(s.(sockets := s.sockets[k := s.sockets[k].(ready := Open)]), now);
    assert Valid(s1);
    if !s.sockets[k].settled {
      StartHeartbeatValid(s1.(sockets := s1.sockets[k := s1.sockets[k].(settled := true)]));
    }
  }

  lemma OnFailEventValid(s: Service, k: nat)
    requires Valid(s) && k in s.sockets
    ensures Valid(OnFailEvent(s, k))
  {
    var s1 := s.(sockets := s.sockets[k := s.sockets[k].(ready := Closed, settled := true)]);
    assert Valid(s1);
    HandleReconnectValid(s1);
    var s2 := if s.sockets[k].settled then s1 else HandleReconnect(s1);
    OnCloseValid(s2);
  }

  lemma OnTimerValid(s: Service, t: nat)
    requires Valid(s) && t in s.timers
    ensures Valid(OnTimer(s, t))
  {
    match s.timers[t]
    case ReconnectTimer(_) =>
      StartConnectValid(s.(timers := s.timers - {t}));
    case PingInterval =>
    case PongTimeout =>
  }

  /** Every environment event keeps the invariant: in particular the attempt
      counter never passes 5, every scheduled reconnect delay lies in (0, 30000],
      and at most one heartbeat interval exists, the one the object holds. */
  lemma StepValid(s: Service, e: Event, now: int)
    requires Valid(s)
    ensures Valid(Step(s, e, now))
  {
    if Enabled(s, e) {
      match e
      case OpenEvent(k) => OnOpenEventValid(s, k, now);
      case FailEvent(k) => OnFailEventValid(s, k);
      case CloseEvent(k) =>
        OnCloseValid(s.(sockets := s.sockets[k := s.sockets[k].(ready := Closed)]));
      case MessageEvent(_, _) =>
      case TimerFired(t) => OnTimerValid(s, t);
    }
  }
}

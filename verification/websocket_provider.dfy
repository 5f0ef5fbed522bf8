/** The React socket provider of client/src/contexts/WebSocketContext.jsx: a
    second, simpler reconnect machine with a fixed 3 s delay, at most five
    attempts, a 25 s ping and a subscription API that filters out `pong` frames.

    The refs of the component (`ws`, `reconnectAttempts`, `pingInterval`) are
    fields of one record. As in `WebSocketService`, every socket ever created
    stays in `sockets` with the handlers `connect` bound to it, and the browser
    and the clock deliver events. Each socket carries the message listeners
    `subscribe` attached to it. */
module WebSocketProvider {
  import opened Common

  const MaxReconnectAttempts: nat := 5
  const ReconnectInterval: int := 3000
  const PingPeriod: int := 25000

  /** A `messageHandler` closure made by `subscribe`, and the callback it wraps. */
  datatype Listener = Listener(handler: nat, callback: nat)

  /** A socket, the listeners attached to it, whether its `open` event fired and
      whether its `error` event fired. */
  datatype PSocket = PSocket(ready: ReadyState, listeners: seq<Listener>, didOpen: bool, didError: bool)

  datatype PTimer =
    | ReconnectTimer(delay: int)    // setTimeout(connect, 3000)
    | PingTimer(period: int)        // setInterval of onopen

  datatype Sent = Sent(socket: nat, message: Val)   // socket.send(JSON.stringify(message))

  datatype Provider = Provider(
    sockets: map<nat, PSocket>,
    current: Option<nat>,           // ws.current
    nextSocket: nat,
    attempts: nat,                  // reconnectAttempts.current
    pingInterval: Option<nat>,      // pingInterval.current
    timers: map<nat, PTimer>,
    nextTimer: nat,
    nextHandler: nat,
    sent: seq<Sent>
  )

  /** What the function `subscribe` returns. */
  datatype Unsubscriber = NoOp | Unlisten(handler: nat)

  /** A callback invocation: which callback, with which parsed message. */
  datatype Call = Call(callback: nat, message: Val)

  datatype PEvent =
    | OpenEvent(k: nat)
    | CloseEvent(k: nat)
    | ErrorEvent(k: nat)
    | MessageEvent(k: nat, frame: Inbound)
    | TimerFired(t: nat)

  ghost predicate Valid(p: Provider) {
    && p.attempts <= MaxReconnectAttempts
    && (forall k :: k in p.sockets ==> k < p.nextSocket)
    && (p.current.Some? ==> p.current.value in p.sockets)
    && (forall t :: t in p.timers ==> t < p.nextTimer)
    && (p.pingInterval.Some? ==> p.pingInterval.value < p.nextTimer)
    && (forall t :: t in p.timers ==> p.timers[t] in {ReconnectTimer(ReconnectInterval), PingTimer(PingPeriod)})
    && (forall k, i :: k in p.sockets && 0 <= i < |p.sockets[k].listeners| ==>
          p.sockets[k].listeners[i].handler < p.nextHandler)
  }

  function Fresh(): Provider {
    Provider(map[], None, 0, 0, None, map[], 0, 0, [])
  }

  predicate CurrentOpen(p: Provider) {
    p.current.Some? && p.current.value in p.sockets && p.sockets[p.current.value].ready == Open
  }

  /** `ws.current.close()`. */
  function CloseCurrent(p: Provider): (r: Provider)
    ensures r == p.(sockets := r.sockets)
    ensures p.current.Some? && p.current.value in p.sockets ==>
      r.sockets == p.sockets[p.current.value := p.sockets[p.current.value].(ready := AfterClose(p.sockets[p.current.value].ready))]
    ensures !(p.current.Some? && p.current.value in p.sockets) ==> r == p
  {
    if p.current.Some? && p.current.value in p.sockets then
      var k := p.current.value;
      p.(sockets := p.sockets[k := p.sockets[k].(ready := AfterClose(p.sockets[k].ready))])
    else p
  }

  /** `connect`: nothing when the current socket is open; otherwise close it (if
      any) and open a new socket, which starts with no listeners and no events. */
  function Connect(p: Provider): (r: Provider)
    ensures CurrentOpen(p) ==> r == p
    ensures !CurrentOpen(p) ==>
      && r.current == Some(p.nextSocket) && r.nextSocket == p.nextSocket + 1
      && r.sockets == CloseCurrent(p).sockets[p.nextSocket := PSocket(Connecting, [], false, false)]
      && r == p.(sockets := r.sockets, current := r.current, nextSocket := r.nextSocket)
  {
    if CurrentOpen(p) then p
    else
      var q := CloseCurrent(p);
      q.(sockets := q.sockets[q.nextSocket := PSocket(Connecting, [], false, false)],
         current := Some(q.nextSocket),
         nextSocket := q.nextSocket + 1)
  }

  /** Mounting runs both effects in order: the first connects, and with a
      truthy token the second calls `connect` again. */
  function Mount(token: string): Provider {
    var p := Connect(Fresh());
    if token != "" then Connect(p) else p
  }

  /** The effect's cleanup: clear the interval, close the socket, drop it. */
  function Cleanup(p: Provider): (r: Provider)
    ensures r.current.None?
    ensures p.current.None? ==> r == p
    ensures p.current.Some? && p.pingInterval.Some? ==> r.timers == p.timers - {p.pingInterval.value}
    ensures p.current.Some? && p.pingInterval.None? ==> r.timers == p.timers
    ensures r.attempts == p.attempts
  {
    if p.current.Some? then
      var q := ClearInterval(p);
      CloseCurrent(q).(current := None)
    else p
  }

  /** `clearInterval(pingInterval.current)`: the ref keeps its value. */
  function ClearInterval(p: Provider): (r: Provider)
    ensures p.pingInterval.Some? ==> r.timers == p.timers - {p.pingInterval.value}
    ensures p.pingInterval.None? ==> r.timers == p.timers
    ensures r == p.(timers := r.timers)
  {
    if p.pingInterval.Some? then p.(timers := p.timers - {p.pingInterval.value}) else p
  }

  /** `onopen`: reset the attempts and start a ping interval. An interval an
      earlier `onopen` started is not cleared; only the ref moves on. */
  function OnOpen(p: Provider, k: nat): (r: Provider)
    requires k in p.sockets
    ensures r.attempts == 0
    ensures r.timers == p.timers[p.nextTimer := PingTimer(PingPeriod)] && r.pingInterval == Some(p.nextTimer)
    ensures r.sockets == p.sockets[k := p.sockets[k].(ready := Open, didOpen := true)]
  {
    p.(sockets := p.sockets[k := p.sockets[k].(ready := Open, didOpen := true)],
       attempts := 0,
       timers := p.timers[p.nextTimer := PingTimer(PingPeriod)],
       pingInterval := Some(p.nextTimer),
       nextTimer := p.nextTimer + 1)
  }

  /** `onclose`: clear the ping interval the ref holds, then schedule `connect`
      in 3 s while fewer than five attempts were made. */
  function OnClose(p: Provider, k: nat): (r: Provider)
    requires k in p.sockets
    ensures p.pingInterval.Some? ==> p.pingInterval.value !in r.timers || p.pingInterval.value == p.nextTimer
    ensures p.attempts < MaxReconnectAttempts ==>
      && r.attempts == p.attempts + 1
      && r.timers == ClearInterval(p).timers[p.nextTimer := ReconnectTimer(ReconnectInterval)]
      && r.nextTimer == p.nextTimer + 1
    ensures p.attempts >= MaxReconnectAttempts ==>
      r.attempts == p.attempts && r.timers == ClearInterval(p).timers && r.nextTimer == p.nextTimer
    ensures r.sockets == p.sockets[k := p.sockets[k].(ready := Closed)] && r.current == p.current
  {
    var q := ClearInterval(p.(sockets := p.sockets[k := p.sockets[k].(ready := Closed)]));
    if q.attempts < MaxReconnectAttempts then
      q.(attempts := q.attempts + 1,
         timers := q.timers[q.nextTimer := ReconnectTimer(ReconnectInterval)],
         nextTimer := q.nextTimer + 1)
    else q
  }

  /** One ping tick: send `{type: 'ping'}` when the current socket is open. */
  function PingTick(p: Provider): (r: Provider)
    ensures CurrentOpen(p) ==> r.sent == p.sent + [Sent(p.current.value, Obj(map["type" := Str("ping")]))]
    ensures !CurrentOpen(p) ==> r == p
    ensures r == p.(sent := r.sent)
  {
    if CurrentOpen(p) then p.(sent := p.sent + [Sent(p.current.value, Obj(map["type" := Str("ping")]))])
    else p
  }

  function OnTimer(p: Provider, t: nat): Provider
    requires t in p.timers
  {
    match p.timers[t]
    case ReconnectTimer(_) => Connect(p.(timers := p.timers - {t}))
    case PingTimer(_) => PingTick(p)
  }

  /** The events the browser and the clock can deliver. A socket that never
      opened (it failed, or `close()` was called while it was connecting) fires
      `error` before `close`, and a socket that fired `error` never opens; a
      socket fires `error` at most once. */
  predicate Enabled(p: Provider, e: PEvent) {
    match e
    case OpenEvent(k) => k in p.sockets && p.sockets[k].ready == Connecting && !p.sockets[k].didError
    case CloseEvent(k) => k in p.sockets && p.sockets[k].ready != Closed && (p.sockets[k].didOpen || p.sockets[k].didError)
    case ErrorEvent(k) => k in p.sockets && p.sockets[k].ready != Closed && !p.sockets[k].didError
    case MessageEvent(k, _) => k in p.sockets && p.sockets[k].ready == Open
    case TimerFired(t) => t in p.timers
  }

  /** One browser or timer event; one that cannot happen changes nothing, and a
      message changes no state (its effect is the callbacks `Dispatch` calls). */
  function Step(p: Provider, e: PEvent): Provider {
    if !Enabled(p, e) then p
    else match e
      case OpenEvent(k) => OnOpen(p, k)
      case CloseEvent(k) => OnClose(p, k)
      case ErrorEvent(k) =>   // onerror closes ws.current, whichever socket failed
        CloseCurrent(p.(sockets := p.sockets[k := p.sockets[k].(didError := true)]))
      case MessageEvent(_, _) => p
      case TimerFired(t) => OnTimer(p, t)
  }

  /** `sendMessage`: send the JSON encoding and report true iff the socket is open. */
  function SendMessage(p: Provider, message: Val): (r: (Provider, bool))
    ensures r.1 <==> CurrentOpen(p)
    ensures r.1 ==> r.0 == p.(sent := p.sent + [Sent(p.current.value, message)])
    ensures !r.1 ==> r.0 == p
  {
    if CurrentOpen(p) then (p.(sent := p.sent + [Sent(p.current.value, message)]), true)
    else (p, false)
  }

  /** `subscribe`: with no socket, a no-op unsubscriber; otherwise a fresh
      `messageHandler` wrapping `callback` is attached to the current socket. */
  function Subscribe(p: Provider, callback: nat): (r: (Provider, Unsubscriber))
    ensures p.current.None? ==> r == (p, NoOp)
    ensures p.current.Some? && p.current.value in p.sockets ==>
      && r.1 == Unlisten(p.nextHandler)
      && r.0.sockets == p.sockets[p.current.value :=
           p.sockets[p.current.value].(listeners := p.sockets[p.current.value].listeners + [Listener(p.nextHandler, callback)])]
      && r.0 == p.(sockets := r.0.sockets, nextHandler := p.nextHandler + 1)
  {
    match p.current
    case None => (p, NoOp)
    case Some(k) =>
      if k in p.sockets then
        var s := p.sockets[k];
        (p.(sockets := p.sockets[k := s.(listeners := s.listeners + [Listener(p.nextHandler, callback)])],
            nextHandler := p.nextHandler + 1),
         Unlisten(p.nextHandler))
      else (p, NoOp)
  }

  /** The listeners without the given handler (`removeEventListener`). */
  function Without(ls: seq<Listener>, handler: nat): (r: seq<Listener>)
    ensures forall l :: l in r <==> l in ls && l.handler != handler
  {
    Filter(ls, Other(handler))
  }

  function Other(handler: nat): Listener -> bool {
    (l: Listener) => l.handler != handler
  }

  /** Calling the unsubscriber: it removes the handler from whatever socket is
      current at that moment. */
  function Unsubscribe(p: Provider, u: Unsubscriber): (r: Provider)
    ensures u.NoOp? || p.current.None? || p.current.value !in p.sockets ==> r == p
    ensures u.Unlisten? && p.current.Some? && p.current.value in p.sockets ==>
      && r.sockets.Keys == p.sockets.Keys
      && (forall l :: l in r.sockets[p.current.value].listeners <==>
                      l in p.sockets[p.current.value].listeners && l.handler != u.handler)
      && (forall j :: j in p.sockets && j != p.current.value ==> r.sockets[j] == p.sockets[j])
  {
    match u
    case NoOp => p
    case Unlisten(h) =>
      if p.current.Some? && p.current.value in p.sockets then
        var k := p.current.value;
        p.(sockets := p.sockets[k := p.sockets[k].(listeners := Without(p.sockets[k].listeners, h))])
      else p
  }

  /** Whether `messageHandler` calls its callback: the frame parsed, reading
      `.type` did not throw (the message is not null), and the type is not "pong". */
  predicate Forwarded(frame: Inbound) {
    frame.Parsed? &&
    match Get(frame.message, "type")
    case Err(_) => false
    case Ok(t) => t != Str("pong")
  }

  /** A message event on socket k: each listener on that socket runs in the order
      attached, and calls its callback when the frame is forwarded. */
  method Dispatch(p: Provider, k: nat, frame: Inbound) returns (calls: seq<Call>)
    ensures !Forwarded(frame) || k !in p.sockets ==> calls == []
    ensures Forwarded(frame) && k in p.sockets ==>
      && |calls| == |p.sockets[k].listeners|
      && forall i :: 0 <= i < |calls| ==> calls[i] == Call(p.sockets[k].listeners[i].callback, frame.message)
    ensures forall c :: c in calls ==> !Nullish(c.message) && Get(c.message, "type") != Ok(Str("pong"))
  {
    calls := [];
    if k !in p.sockets || !Forwarded(frame) {
      return;
    }
    var ls := p.sockets[k].listeners;
    var i := 0;
    while i < |ls|
      invariant 0 <= i <= |ls|
      invariant |calls| == i
      invariant forall j :: 0 <= j < i ==> calls[j] == Call(ls[j].callback, frame.message)
    {
      calls := calls + [Call(ls[i].callback, frame.message)];
      i := i + 1;
    }
  }

  // ---------------------------------------------------------------------------
  // Invariant

  lemma FreshValid()
    ensures Valid(Fresh())
  {
  }

  /** Sending keeps the invariant and touches nothing but the outbox. */
  lemma SendMessageValid(p: Provider, message: Val)
    requires Valid(p)
    ensures Valid(SendMessage(p, message).0)
    ensures SendMessage(p, message).0.(sent := p.sent) == p
    ensures |SendMessage(p, message).0.sent| == |p.sent| + (if SendMessage(p, message).1 then 1 else 0)
  {
  }

  lemma ConnectValid(p: Provider)
    requires Valid(p)
    ensures Valid(Connect(p))
  {
  }

  lemma MountValid(token: string)
    ensures Valid(Mount(token))
  {
    ConnectValid(Fresh());
    ConnectValid(Connect(Fresh()));
  }

  lemma CleanupValid(p: Provider)
    requires Valid(p)
    ensures Valid(Cleanup(p))
  {
  }

  /** Every event keeps the invariant: in particular the attempt counter never passes 5. */
  lemma StepValid(p: Provider, e: PEvent)
    requires Valid(p)
    ensures Valid(Step(p, e))
  {
    if Enabled(p, e) {
      match e
      case TimerFired(t) =>
        if p.timers[t].ReconnectTimer? {
          ConnectValid(p.(timers := p.timers - {t}));
        }
      case _ =>
    }
  }

  lemma SubscribeValid(p: Provider, callback: nat)
    requires Valid(p)
    ensures Valid(Subscribe(p, callback).0)
  {
  }
}

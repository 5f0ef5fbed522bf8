/** Properties of `WebSocketService` (client/src/api/websocket.js) that relate
    several calls or events: the handler set's remover, the backoff schedule,
    idempotent disconnect, and traces that show how the code as written behaves
    when a handshake fails, when a ping goes out, and when an old socket's close
    arrives late. The last part defines the corrected event handling and proves
    the intended behaviour of it. */
module WebSocketServiceProps {
  import opened Common
  import opened WebSocketService

  // ---------------------------------------------------------------------------
  // Handler set

  lemma {:induction false} SetDeleteIdempotent(hs: seq<nat>, x: nat)
    ensures SetDelete(SetDelete(hs, x), x) == SetDelete(hs, x)
  {
    if hs != [] {
      SetDeleteIdempotent(hs[1..], x);
      if hs[0] != x {
        var r := [hs[0]] + SetDelete(hs[1..], x);
        assert r[1..] == SetDelete(hs[1..], x);
      }
    }
  }

  lemma {:induction false} SetDeleteAbsent(hs: seq<nat>, x: nat)
    requires x !in hs
    ensures SetDelete(hs, x) == hs
  {
    if hs != [] {
      SetDeleteAbsent(hs[1..], x);
      assert [hs[0]] + hs[1..] == hs;
    }
  }

  lemma {:induction false} SetDeleteAppended(hs: seq<nat>, x: nat)
    requires x !in hs
    ensures SetDelete(hs + [x], x) == hs
  {
    if hs == [] {
      assert [x][1..] == [];
    } else {
      assert (hs + [x])[1..] == hs[1..] + [x];
      SetDeleteAppended(hs[1..], x);
      assert [hs[0]] + hs[1..] == hs;
    }
  }

  /** Calling the remover a second time changes nothing more. */
  lemma RemoverIdempotent(s: Service, rm: Remover)
    ensures Unregister(Unregister(s, rm), rm) == Unregister(s, rm)
  {
    if rm.RemoveHandler? {
      SetDeleteIdempotent(s.handlers, rm.id);
    }
  }

  /** Adding a new handler and calling its remover gives back the same service,
      handler order included. */
  lemma AddThenRemoveRestores(s: Service, id: nat)
    requires id !in s.handlers
    ensures var (s1, rm) := AddMessageHandler(s, Fn(id)); Unregister(s1, rm) == s
  {
    SetDeleteAppended(s.handlers, id);
  }

  /** A remover leaves every other handler registered. */
  lemma RemoverRemovesOnlyItsHandler(s: Service, h: Handler, other: nat)
    requires h.Fn? && other != h.id && other in s.handlers
    ensures var (s1, rm) := AddMessageHandler(s, h); other in Unregister(s1, rm).handlers
  {
  }

  // ---------------------------------------------------------------------------
  // Backoff

  lemma {:induction false} PowMonotone(b: real, n: nat, m: nat)
    requires b >= 1.0 && n <= m
    ensures Pow(b, n) <= Pow(b, m)
    decreases m - n
  {
    if n < m {
      PowMonotone(b, n, m - 1);
      var p := Pow(b, m - 1);
      assert Pow(b, m) == b * p;
      assert b * p - p == (b - 1.0) * p;
    }
  }

  /** Later attempts never wait less than earlier ones. */
  lemma ScaleMonotone(b: real, p: real, q: real)
    requires 0.0 <= b && p <= q
    ensures b * p <= b * q
  {
    assert b * q - b * p == b * (q - p);
  }

  lemma BackoffMonotone(base: int, n: nat, m: nat)
    requires 0 <= base && 1 <= n <= m
    ensures Backoff(base, n) <= Backoff(base, m)
  {
    PowMonotone(BackoffFactor, n - 1, m - 1);
    ScaleMonotone(base as real, Pow(BackoffFactor, n - 1), Pow(BackoffFactor, m - 1));
    MinMonotone(Scaled(base, n), Scaled(base, m), MaxDelay as real);
  }

  lemma MinMonotone(x: real, y: real, c: real)
    requires x <= y
    ensures Min(x, c) <= Min(y, c)
  {
  }

  /** With the configured base delay the five attempts wait 1000, 1500, 2250,
      3375 and 5062.5 ms. */
  lemma BackoffSchedule()
    ensures Backoff(MinDelay, 1) == 1000.0
    ensures Backoff(MinDelay, 2) == 1500.0
    ensures Backoff(MinDelay, 3) == 2250.0
    ensures Backoff(MinDelay, 4) == 3375.0
    ensures Backoff(MinDelay, 5) == 5062.5
  {
    assert Pow(1.5, 0) == 1.0;
    assert Pow(1.5, 1) == 1.5;
    assert Pow(1.5, 2) == 2.25;
    assert Pow(1.5, 3) == 3.375;
    assert Pow(1.5, 4) == 5.0625;
  }

  /** In every valid state the reconnect `_handleReconnect` schedules waits at
      most 5062.5 ms: the 30000 ms cap of the configuration never takes effect. */
  lemma CapNeverReached(s: Service)
    requires Valid(s)
    ensures var r := HandleReconnect(s);
      r.reconnectTimeout.Some? && r.reconnectTimeout.value in r.timers && r != s ==>
        r.timers[r.reconnectTimeout.value].delay <= 5062.5
  {
    if s.reconnectAttempts < MaxAttempts {
      BackoffSchedule();
      BackoffMonotone(MinDelay, s.reconnectAttempts + 1, 5);
    }
  }

  // ---------------------------------------------------------------------------
  // Disconnect

  /** A second disconnect changes nothing further. */
  lemma DisconnectIdempotent(s: Service)
    ensures Disconnect(Disconnect(s)) == Disconnect(s)
  {
  }

  /** After disconnect no reconnect timer the object holds can fire, and a clean
      close of any socket schedules nothing. */
  lemma DisconnectSuppressesCloseReconnect(s: Service, k: nat)
    requires Valid(s)
    ensures var d := Disconnect(s); Step(d, CloseEvent(k), 0).timers.Keys <= d.timers.Keys
  {
  }

  // ---------------------------------------------------------------------------
  // Traces of the code as written

  /** Events applied in order. */
  function Run(s: Service, es: seq<Event>, now: int): Service
    decreases |es|
  {
    if es == [] then s else Run(Step(s, es[0], now), es[1..], now)
  }

  predicate AllMessages(es: seq<Event>) {
    forall i :: 0 <= i < |es| ==> es[i].MessageEvent?
  }

  /** Inbound frames, however many, leave the service exactly as it was. */
  lemma {:induction false} MessagesChangeNothing(s: Service, es: seq<Event>, now: int)
    requires AllMessages(es)
    ensures Run(s, es, now) == s
    decreases |es|
  {
    if es != [] {
      assert Step(s, es[0], now) == s;
      assert AllMessages(es[1..]) by {
        forall i | 0 <= i < |es[1..]| ensures es[1..][i].MessageEvent? {
          assert es[1..][i] == es[i + 1];
        }
      }
      MessagesChangeNothing(s, es[1..], now);
    }
  }

  /** A failed handshake reaches `_handleReconnect` twice, once from the `catch`
      of `_connect` and once from `_onClose`: it uses up two attempts and arms two
      reconnect timers, the first of which the object no longer holds a handle to. */
  lemma FailedHandshakeCountsTwice(s: Service, k: nat)
    requires Valid(s)
    requires s.socket == Some(k) && s.sockets[k].ready == Connecting && !s.sockets[k].settled
    requires !s.isExplicitDisconnect && s.reconnectAttempts + 2 <= MaxAttempts
    ensures var r := Step(s, FailEvent(k), 0);
      && r.reconnectAttempts == s.reconnectAttempts + 2
      && s.nextTimer in r.timers && r.timers[s.nextTimer].ReconnectTimer?
      && s.nextTimer + 1 in r.timers && r.timers[s.nextTimer + 1].ReconnectTimer?
      && r.reconnectTimeout == Some(s.nextTimer + 1)
  {
    var s1 := s.(sockets := s.sockets[k := s.sockets[k].(ready := Closed, settled := true)]);
    var s2 := HandleReconnect(s1);
    assert s.nextTimer in s2.timers;
    assert s.nextTimer !in Handles(s);
    assert s.nextTimer in StopHeartbeat(s2).timers;
  }

  /** The shape of the state while a handshake is pending and nothing else is armed. */
  predicate Handshaking(s: Service, k: nat) {
    && s.socket == Some(k) && k in s.sockets
    && s.sockets[k].ready == Connecting && !s.sockets[k].settled
    && !s.isExplicitDisconnect && s.timers == map[]
    && s.heartbeatTimer.None? && s.heartbeatTimeout.None?
  }

  /** One round of a failing handshake followed by the first of its two reconnect
      timers: two attempts are gone, and the second timer is cleared by the new
      `_connect`. */
  lemma FailedRound(s: Service, k: nat, r: Service)
    requires Valid(s) && Handshaking(s, k) && s.reconnectAttempts + 2 <= MaxAttempts
    requires r == Step(Step(s, FailEvent(k), 0), TimerFired(s.nextTimer), 0)
    ensures Valid(r) && Handshaking(r, s.nextSocket)
    ensures r.reconnectAttempts == s.reconnectAttempts + 2
    ensures r.nextSocket == s.nextSocket + 1
  {
    FailedHandshakeCountsTwice(s, k);
    StepValid(s, FailEvent(k), 0);
    var f := Step(s, FailEvent(k), 0);
    assert f.timers.Keys == {s.nextTimer, s.nextTimer + 1};
    StepValid(f, TimerFired(s.nextTimer), 0);
  }

  /** The last round: the failure on the fourth attempt uses up the fifth, so the
      handshake that follows is the last one and its failure schedules nothing.
      With `FailedRound` twice from zero attempts, a service whose handshakes all
      fail opens three sockets after its first, not five. */
  lemma LastRound(s: Service, k: nat, c: Service, x: Service)
    requires Valid(s) && Handshaking(s, k) && s.reconnectAttempts == MaxAttempts - 1
    requires c == Step(Step(s, FailEvent(k), 0), TimerFired(s.nextTimer), 0)
    requires x == Step(c, FailEvent(s.nextSocket), 0)
    ensures c.nextSocket == s.nextSocket + 1 && c.socket == Some(s.nextSocket)
    ensures x.timers == map[] && x.reconnectAttempts == MaxAttempts
  {
    var a := s.(sockets := s.sockets[k := s.sockets[k].(ready := Closed, settled := true)]);
    var b := HandleReconnect(a);
    var f := Step(s, FailEvent(k), 0);
    assert f == StopHeartbeat(b);
    assert f.reconnectAttempts == MaxAttempts && f.timers.Keys == {s.nextTimer};
    StepValid(s, FailEvent(k), 0);
    assert c.timers == map[];
    StepValid(f, TimerFired(s.nextTimer), 0);
  }

  /** `disconnect()` while the handshake is still pending does not stop a
      reconnect: the close fails the connection, and the `catch` of `_connect`
      calls `_handleReconnect` without looking at the explicit flag. When that
      timer fires a new socket opens with the old credentials. */
  lemma DisconnectDuringHandshakeReconnects(s: Service, k: nat)
    requires Valid(s)
    requires s.socket == Some(k) && s.sockets[k].ready == Connecting && !s.sockets[k].settled
    requires s.reconnectAttempts < MaxAttempts
    ensures var d := Disconnect(s);
      var r := Step(d, FailEvent(k), 0);
      && r.isExplicitDisconnect
      && r.reconnectTimeout == Some(d.nextTimer) && d.nextTimer in r.timers
      && var c := Step(r, TimerFired(d.nextTimer), 0);
         c.socket == Some(d.nextSocket)
         && c.sockets[d.nextSocket] == Socket(Connecting, false, s.userId, s.token)
  {
    var d := Disconnect(s);
    assert d.sockets[k].ready == Closing;
    var s1 := d.(sockets := d.sockets[k := d.sockets[k].(ready := Closed, settled := true)]);
    var s2 := HandleReconnect(s1);
    assert d.nextTimer in s2.timers;
    assert StopHeartbeat(s2) == s2;
  }

  /** No inbound frame cancels the pong timeout a heartbeat tick arms: after a
      ping, whatever frames arrive (a pong included), the timeout still fires and
      closes the open socket. */
  lemma PongTimeoutSurvivesReplies(s: Service, replies: seq<Event>)
    requires Valid(s) && CurrentOpen(s) && s.heartbeatTimer.Some?
    requires AllMessages(replies)
    ensures var t := Step(s, TimerFired(s.heartbeatTimer.value), 0);
      var u := Run(t, replies, 0);
      && u.heartbeatTimeout == Some(s.nextTimer) && s.nextTimer in u.timers
      && var c := Step(u, TimerFired(s.nextTimer), 0);
         s.socket.value in c.sockets && c.sockets[s.socket.value].ready == Closing
  {
    var t := Step(s, TimerFired(s.heartbeatTimer.value), 0);
    assert t == PingTick(s);
    MessagesChangeNothing(t, replies, 0);
  }

  /** The old socket's `onclose` stays bound after `_connect` clears the explicit
      flag. When its close arrives after the new socket has opened, it stops the
      new socket's heartbeat and schedules a reconnect; when that timer fires, the
      healthy new socket is torn down. */
  lemma StaleCloseDisruptsNewSocket(s: Service, k: nat)
    requires Valid(s)
    requires s.socket == Some(k) && s.sockets[k].ready == Open
    ensures var j := s.nextSocket;
      var o := Step(StartConnect(s), OpenEvent(j), 0);
      var x := Step(o, CloseEvent(k), 0);
      && CurrentOpen(o) && o.heartbeatTimer.Some?
      && CurrentOpen(x) && x.heartbeatTimer.None?
      && x.reconnectAttempts == 1 && x.reconnectTimeout.Some? && x.reconnectTimeout.value in x.timers
      && Step(x, TimerFired(x.reconnectTimeout.value), 0).sockets[j].ready == Closing
  {
    var c := StartConnect(s);
    DisconnectValid(s);
    StartConnectValid(s);
    var j := s.nextSocket;
    assert c.sockets[k].ready == Closing;
    var o := Step(c, OpenEvent(j), 0);
    assert o.reconnectAttempts == 0;
    StepValid(c, OpenEvent(j), 0);
    var x := Step(o, CloseEvent(k), 0);
    assert x.sockets[j] == o.sockets[j];
  }

  // ---------------------------------------------------------------------------
  // Corrected event handling

  /** Cancel the pending pong timeout. */
  function ClearPongTimeout(s: Service): (r: Service)
    ensures r.heartbeatTimeout.None?
  {
    if s.heartbeatTimeout.Some? then
      s.(timers := s.timers - {s.heartbeatTimeout.value}, heartbeatTimeout := None)
    else s
  }

  /** The intended behaviour: only the current socket's close runs `_onClose`
      (a stale socket's close is ignored), the `catch` of `_connect` leaves
      reconnecting to `_onClose`, and any inbound frame cancels the pong timeout. */
  function StepFixed(s: Service, e: Event, now: int): (r: Service)
    ensures (e.CloseEvent? || e.FailEvent?) && s.socket != Some(e.k) ==> r == s.(sockets := r.sockets)
    ensures e.MessageEvent? && Enabled(s, e) ==> r.heartbeatTimeout.None? && r.sockets == s.sockets
    ensures e.FailEvent? ==> r.reconnectAttempts <= s.reconnectAttempts + 1
  {
    if !Enabled(s, e) then s
    else match e
      case FailEvent(k) =>
        var s1 := s.(sockets := s.sockets[k := s.sockets[k].(ready := Closed, settled := true)]);
        if s.socket == Some(k) then OnClose(s1) else s1
      case CloseEvent(k) =>
        var s1 := s.(sockets := s.sockets[k := s.sockets[k].(ready := Closed)]);
        if s.socket == Some(k) then OnClose(s1) else s1
      case MessageEvent(_, _) => ClearPongTimeout(s)
      case _ => Step(s, e, now)
  }

  lemma StepFixedValid(s: Service, e: Event, now: int)
    requires Valid(s)
    ensures Valid(StepFixed(s, e, now))
  {
    if Enabled(s, e) {
      match e
      case FailEvent(k) =>
        OnCloseValid(s.(sockets := s.sockets[k := s.sockets[k].(ready := Closed, settled := true)]));
      case CloseEvent(k) =>
        OnCloseValid(s.(sockets := s.sockets[k := s.sockets[k].(ready := Closed)]));
      case MessageEvent(_, _) =>
      case _ =>
        assert StepFixed(s, e, now) == Step(s, e, now);
        StepValid(s, e, now);
    }
  }

  /** Corrected: a failed handshake uses up exactly one attempt and arms one timer. */
  lemma FixedFailedHandshakeCountsOnce(s: Service, k: nat)
    requires Valid(s)
    requires s.socket == Some(k) && s.sockets[k].ready == Connecting && !s.sockets[k].settled
    requires !s.isExplicitDisconnect && s.reconnectAttempts < MaxAttempts
    ensures var r := StepFixed(s, FailEvent(k), 0);
      && r.reconnectAttempts == s.reconnectAttempts + 1
      && r.reconnectTimeout == Some(s.nextTimer)
      && r.timers.Keys == StopHeartbeat(s).timers.Keys + {s.nextTimer}
  {
  }

  /** Corrected: after `disconnect()` no failure or close of any socket schedules a reconnect. */
  lemma FixedDisconnectSuppressesReconnect(s: Service, e: Event)
    requires Valid(s) && (e.FailEvent? || e.CloseEvent?)
    ensures var d := Disconnect(s);
      StepFixed(d, e, 0).timers == d.timers && StepFixed(d, e, 0).reconnectAttempts == d.reconnectAttempts
  {
  }

  /** Corrected: a reply cancels the pong timeout, so the socket is no longer
      closed after every ping. */
  lemma FixedReplyCancelsPongTimeout(s: Service, frame: Inbound)
    requires Valid(s) && CurrentOpen(s) && s.heartbeatTimer.Some?
    ensures var t := Step(s, TimerFired(s.heartbeatTimer.value), 0);
      var u := StepFixed(t, MessageEvent(s.socket.value, frame), 0);
      && u.heartbeatTimeout.None? && s.nextTimer !in u.timers
      && u.sockets == t.sockets && u.heartbeatTimer == t.heartbeatTimer
  {
    var t := Step(s, TimerFired(s.heartbeatTimer.value), 0);
    assert t == PingTick(s);
  }

  /** Corrected: a late close of the replaced socket leaves the new socket's
      heartbeat and the reconnect state alone. */
  lemma FixedStaleCloseIgnored(s: Service, k: nat)
    requires Valid(s)
    requires s.socket == Some(k) && s.sockets[k].ready == Open
    ensures var j := s.nextSocket;
      var o := StepFixed(StartConnect(s), OpenEvent(j), 0);
      var x := StepFixed(o, CloseEvent(k), 0);
      && CurrentOpen(x) && x.heartbeatTimer == o.heartbeatTimer && x.heartbeatTimer.Some?
      && x.timers == o.timers && x.reconnectAttempts == 0
  {
    var c := StartConnect(s);
    assert c.sockets[k].ready == Closing;
  }
}

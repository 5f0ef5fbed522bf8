/** Properties of `WebSocketProvider` (client/src/contexts/WebSocketContext.jsx)
    that relate several calls or events: the unsubscriber, the error handler,
    and traces that show how the provider as written loses subscriptions, keeps
    reconnecting after unmount and, mounted with a token, closes both sockets it
    opened and then reconnects twice. */
module WebSocketProviderProps {
  import opened Common
  import opened WebSocketProvider

  /** `onerror` closes the current socket and leaves every other socket, the
      failing one included when it is not current, as it was, except that the
      failing socket has now fired its error. */
  lemma ErrorClosesCurrent(p: Provider, k: nat)
    requires Valid(p) && Enabled(p, ErrorEvent(k)) && p.current.Some?
    ensures var r := Step(p, ErrorEvent(k)); var c := p.current.value;
      && r.sockets.Keys == p.sockets.Keys
      && r.sockets[c].ready == AfterClose(p.sockets[c].ready)
      && r.sockets[k].didError && r.sockets[k].listeners == p.sockets[k].listeners
      && (k != c ==> r.sockets[k].ready == p.sockets[k].ready)
      && (forall j :: j in p.sockets && j != c && j != k ==> r.sockets[j] == p.sockets[j])
      && r.attempts == p.attempts && r.timers == p.timers
  {
  }

  /** Subscribing and then calling the returned unsubscriber, with the same
      socket still current, gives back the sockets as they were. */
  lemma SubscribeThenUnsubscribeRestores(p: Provider, callback: nat)
    requires Valid(p) && p.current.Some?
    ensures var (q, u) := Subscribe(p, callback); Unsubscribe(q, u).sockets == p.sockets
  {
    var k := p.current.value;
    var ls := p.sockets[k].listeners;
    var l := Listener(p.nextHandler, callback);
    FilterAppend(ls, l, Other(p.nextHandler));
    FilterAll(ls, Other(p.nextHandler));
    assert Without(ls + [l], p.nextHandler) == ls;
    var (q, u) := Subscribe(p, callback);
    assert q.sockets[k].listeners == ls + [l];
    assert Unsubscribe(q, u).sockets == q.sockets[k := p.sockets[k]];
  }

  /** Calling an unsubscriber twice changes nothing more. */
  lemma UnsubscribeIdempotent(p: Provider, u: Unsubscriber)
    ensures Unsubscribe(Unsubscribe(p, u), u) == Unsubscribe(p, u)
  {
    if u.Unlisten? && p.current.Some? && p.current.value in p.sockets {
      FilterIdempotent(p.sockets[p.current.value].listeners, Other(u.handler));
    }
  }

  /** Subscriptions stay on the socket they were made on. After a reconnect the
      current socket has no listeners, so a callback subscribed before it hears
      nothing the new socket receives. */
  lemma ReconnectDropsSubscriptions(p: Provider, callback: nat, t: nat)
    requires Valid(p) && p.current.Some?
    requires var q := Subscribe(p, callback).0; t in q.timers && q.timers[t].ReconnectTimer? && !CurrentOpen(q)
    ensures var q := Step(Subscribe(p, callback).0, TimerFired(t));
      q.current.Some? && q.current.value in q.sockets && q.sockets[q.current.value].listeners == []
  {
  }

  /** Unmounting does not stop reconnecting: the cleanup closes the socket, its
      close handler still runs and schedules `connect`, and when that timer fires
      a new socket is opened although the provider is gone. A socket that had
      not opened fires `error` first, which finds no current socket to close. */
  lemma ReconnectAfterUnmount(p: Provider)
    requires Valid(p) && p.current.Some? && p.attempts < MaxReconnectAttempts
    requires p.sockets[p.current.value].ready != Closed
    ensures var k := p.current.value;
      var u := Cleanup(p);
      var v := if u.sockets[k].didOpen || u.sockets[k].didError then u else Step(u, ErrorEvent(k));
      var c := Step(v, CloseEvent(k));
      && u.current.None? && v.current.None? && v.timers == u.timers
      && c.nextTimer - 1 in c.timers && c.timers[c.nextTimer - 1] == ReconnectTimer(ReconnectInterval)
      && Step(c, TimerFired(c.nextTimer - 1)).current == Some(p.nextSocket)
  {
    var k := p.current.value;
    var u := Cleanup(p);
    assert u.sockets[k].ready == Closing;
  }

  /** With a token, mounting runs `connect` twice: the first socket is closed
      before it opened, and the second becomes current. */
  lemma MountOpensTwoSockets(token: string)
    requires token != ""
    ensures var p := Mount(token);
      && p.nextSocket == 2 && p.current == Some(1)
      && p.sockets[0].ready == Closing && p.sockets[1].ready == Connecting
  {
  }

  /** Mounted with a token, the provider closes the first socket while it is
      connecting, so the browser fires `error` on it; `onerror` closes
      `ws.current`, which is the second socket, whether or not that one has
      opened yet. Neither socket is left open. */
  lemma MountErrorClosesSecond(token: string, openFirst: bool)
    requires token != ""
    ensures var m := Mount(token);
      var o := if openFirst then Step(m, OpenEvent(1)) else m;
      var e := Step(o, ErrorEvent(0));
      && Enabled(o, ErrorEvent(0))
      && e.current == Some(1) && e.sockets[0].ready == Closing && e.sockets[1].ready == Closing
      && !CurrentOpen(e) && e.attempts == 0
  {
    var m := Mount(token);
    assert m.sockets[0] == PSocket(Closing, [], false, false);
    assert m.sockets[1] == PSocket(Connecting, [], false, false);
  }

  /** The state both closes leave after a mount with a token. */
  function MountThenClosed(token: string, openFirst: bool): Provider {
    var m := Mount(token);
    var o := if openFirst then Step(m, OpenEvent(1)) else m;
    var x := Step(Step(o, ErrorEvent(0)), CloseEvent(0));
    Step(if openFirst then x else Step(x, ErrorEvent(1)), CloseEvent(1))
  }

  /** Both closes then arrive, each running `onclose`: two reconnect attempts
      are used up, no ping interval is left, and two `connect` timers are pending. */
  lemma MountClosesBoth(token: string, openFirst: bool)
    requires token != ""
    ensures var y := MountThenClosed(token, openFirst);
      && y.attempts == 2 && y.sockets[0].ready == Closed && y.sockets[1].ready == Closed
      && y.nextSocket == 2 && y.nextTimer >= 2 && !CurrentOpen(y)
      && y.timers == map[y.nextTimer - 2 := ReconnectTimer(ReconnectInterval), y.nextTimer - 1 := ReconnectTimer(ReconnectInterval)]
  {
    MountErrorClosesSecond(token, openFirst);
    var m := Mount(token);
    var o := if openFirst then Step(m, OpenEvent(1)) else m;
    var e := Step(o, ErrorEvent(0));
    assert e.sockets[0].didError;
    assert o.timers == (if openFirst then map[0 := PingTimer(PingPeriod)] else map[]);
    var x := Step(e, CloseEvent(0));
    assert x.timers == map[o.nextTimer := ReconnectTimer(ReconnectInterval)];
    var w := if openFirst then x else Step(x, ErrorEvent(1));
    assert w.timers == x.timers && w.sockets[1].ready == Closing;
    assert w.sockets[1].didOpen || w.sockets[1].didError;
  }

  /** Two pending `connect` timers with no open socket: the socket the first
      opens is still connecting when the second fires, so the second closes it
      and opens another. */
  lemma ReconnectTimersRace(y: Provider)
    requires y.nextTimer >= 2 && !CurrentOpen(y)
    requires y.timers == map[y.nextTimer - 2 := ReconnectTimer(ReconnectInterval), y.nextTimer - 1 := ReconnectTimer(ReconnectInterval)]
    ensures var f := Step(y, TimerFired(y.nextTimer - 2));
      var g := Step(f, TimerFired(y.nextTimer - 1));
      && f.current == Some(y.nextSocket) && f.sockets[y.nextSocket].ready == Connecting
      && g.current == Some(y.nextSocket + 1) && g.sockets[y.nextSocket].ready == Closing
      && g.attempts == y.attempts && g.timers == map[]
  {
    var f := Step(y, TimerFired(y.nextTimer - 2));
    assert f.timers == map[y.nextTimer - 1 := ReconnectTimer(ReconnectInterval)];
    assert !CurrentOpen(f);
  }
}

/** The server's connection registry, `ConnectionManager` of
    pyserver/utils/websocket_manager.py: user id -> connection id -> socket.

    Sockets are numbered. What the network does is an oracle: the starlette
    states of a socket (`Conn`) decide whether `_safe_close` calls `close`, and
    the set of connection ids whose `send_json` raises decides which sends fail.
    The coroutines run one after another; no other coroutine runs between their
    awaits. */
module ConnectionManager {
  import opened Common

  /** starlette's WebSocketState. */
  datatype WsState = Connecting | Connected | Disconnected | Response

  /** A socket's client and application states. */
  datatype Conn = Conn(client: WsState, app: WsState)

  datatype Manager = Manager(byUser: map<string, map<string, nat>>)

  /** What `disconnect` did besides updating the registry: the connection ids
      it handed to `_safe_close`. */
  datatype Removal = Removal(manager: Manager, safeClosed: set<string>)

  /** No user is registered with no connections. */
  predicate NoEmpty(m: Manager) {
    forall u :: u in m.byUser ==> m.byUser[u] != map[]
  }

  /** A user's entry: the connection map, or None when the user is not a key. */
  function Entry(m: Manager, u: string): Option<map<string, nat>> {
    if u in m.byUser then Some(m.byUser[u]) else None
  }

  function Inner(m: Manager, u: string): map<string, nat> {
    if u in m.byUser then m.byUser[u] else map[]
  }

  function Init(): Manager {
    Manager(map[])
  }

  /** `connect`: store the socket under the new connection id `cid` (the uuid). */
  function Connect(m: Manager, ws: nat, user: string, cid: string): (r: Manager)
    ensures Entry(r, user) == Some(Inner(m, user)[cid := ws])
    ensures forall u :: u != user ==> Entry(r, u) == Entry(m, u)
  {
    Manager(m.byUser[user := Inner(m, user)[cid := ws]])
  }

  /** Whether `_safe_close` calls `close`: only when neither state is DISCONNECTED.
      An exception from `close` is logged and never propagates. */
  predicate SafeCloseCalls(c: Conn) {
    c.client != Disconnected && c.app != Disconnected
  }

  /** `disconnect(user, connection_id, close=...)`. */
  function Disconnect(m: Manager, user: string, cid: Option<string>, close: bool): (r: Removal)
    ensures user !in m.byUser ==> r == Removal(m, {})
    ensures forall u :: u != user ==> Entry(r.manager, u) == Entry(m, u)
    ensures user in m.byUser && cid.None? ==>
      && user !in r.manager.byUser
      && r.safeClosed == (if close then m.byUser[user].Keys else {})
    ensures user in m.byUser && cid.Some? ==>
      && (user in r.manager.byUser <==> m.byUser[user] - {cid.value} != map[])
      && (user in r.manager.byUser ==> r.manager.byUser[user] == m.byUser[user] - {cid.value})
      && r.safeClosed == (if close && cid.value in m.byUser[user] then {cid.value} else {})
  {
    if user !in m.byUser then Removal(m, {})
    else match cid
      case None =>
        Removal(Manager(m.byUser - {user}), if close then m.byUser[user].Keys else {})
      case Some(c) =>
        var rest := m.byUser[user] - {c};
        var m1 := if rest == map[] then Manager(m.byUser - {user}) else Manager(m.byUser[user := rest]);
        Removal(m1, if c in m.byUser[user] && close then {c} else {})
  }

  /** The sockets whose `close` a `disconnect` of `user` on `m` actually calls,
      given their states: `_safe_close` is handed the removed sockets, and it
      calls `close` only on those with neither state DISCONNECTED. */
  function Closes(m: Manager, user: string, d: Removal, states: nat -> Conn): (r: set<nat>)
    ensures forall ws :: ws in r ==> ws in Inner(m, user).Values && SafeCloseCalls(states(ws))
  {
    set c | c in d.safeClosed && c in Inner(m, user) && SafeCloseCalls(states(Inner(m, user)[c])) :: Inner(m, user)[c]
  }

  /** `has_user`: a key with a non-empty connection map. */
  predicate HasUser(m: Manager, u: string) {
    u in m.byUser && m.byUser[u] != map[]
  }

  /** The registry after the connections `dead` of `user` are removed one by one
      with `disconnect(user, cid, close=False)`. */
  function Prune(m: Manager, user: string, dead: set<string>): (r: Manager)
    ensures forall u :: u != user ==> Entry(r, u) == Entry(m, u)
    ensures dead == {} || user !in m.byUser ==> r == m
    ensures user in m.byUser && dead != {} ==>
      && (user in r.byUser <==> m.byUser[user] - dead != map[])
      && (user in r.byUser ==> r.byUser[user] == m.byUser[user] - dead)
  {
    if dead == {} || user !in m.byUser then m
    else
      var rest := m.byUser[user] - dead;
      if rest == map[] then Manager(m.byUser - {user}) else Manager(m.byUser[user := rest])
  }

  /** Removing one more dead connection extends the pruning by that id. */
  lemma PruneStep(m: Manager, user: string, dead: set<string>, c: string)
    ensures Disconnect(Prune(m, user, dead), user, Some(c), false).manager == Prune(m, user, dead + {c})
  {
    if user in m.byUser {
      var rest := m.byUser[user] - dead;
      var rest' := m.byUser[user] - (dead + {c});
      assert rest - {c} == rest';
      if dead == {} {
        assert dead + {c} == {c};
      } else if rest == map[] {
        assert rest' == map[] by {
          assert forall k :: k in rest' ==> k in rest;
        }
      }
    }
  }

  /** `send_to_user`: send to every connection of `user` except `exclude`; the
      ones whose send raised (`fails`) are then pruned with `close=False`. */
  method SendToUser(m: Manager, user: string, exclude: Option<string>, fails: set<string>)
    returns (r: Manager, attempted: set<string>, dead: set<string>)
    ensures attempted == Inner(m, user).Keys - (if exclude.Some? then {exclude.value} else {})
    ensures dead == attempted * fails
    ensures r == Prune(m, user, dead)
  {
    attempted, dead := SendAll(Inner(m, user).Keys, if exclude.Some? then {exclude.value} else {}, fails);
    r := RemoveDead(m, user, dead);
  }

  /** The sending loop of `send_to_user` over a snapshot of the connection ids. */
  method SendAll(cids: set<string>, skip: set<string>, fails: set<string>)
    returns (attempted: set<string>, dead: set<string>)
    ensures attempted == cids - skip
    ensures dead == attempted * fails
  {
    var todo := cids;
    attempted, dead := {}, {};
    while todo != {}
      invariant todo <= cids
      invariant attempted == (cids - todo) - skip
      invariant dead == attempted * fails
      decreases |todo|
    {
      var c :| c in todo;
      todo := todo - {c};
      if c !in skip {
        attempted := attempted + {c};
        if c in fails {
          dead := dead + {c};
        }
      }
    }
  }

  /** The clean-up loop of `send_to_user`: `disconnect(user, cid, close=False)`
      for each dead connection. */
  method RemoveDead(m: Manager, user: string, dead: set<string>) returns (r: Manager)
    ensures r == Prune(m, user, dead)
  {
    r := m;
    var left := dead;
    while left != {}
      invariant left <= dead
      invariant r == Prune(m, user, dead - left)
      decreases |left|
    {
      var c :| c in left;
      PruneStep(m, user, dead - left, c);
      r := Disconnect(r, user, Some(c), false).manager;
      assert dead - (left - {c}) == (dead - left) + {c};
      left := left - {c};
    }
    assert dead - left == dead;
  }

  /** The failed connections of `u` among all of its connections. */
  function DeadOf(m: Manager, u: string, fails: set<string>): set<string> {
    Inner(m, u).Keys * fails
  }

  /** A user's entry once the connections `dead` are removed from it. */
  function Swept(m: Manager, u: string, dead: set<string>): Option<map<string, nat>> {
    if dead == {} || u !in m.byUser then Entry(m, u)
    else if m.byUser[u] - dead == map[] then None
    else Some(m.byUser[u] - dead)
  }

  /** What pruning does to a user's entry depends only on that entry. */
  lemma PruneEntry(a: Manager, b: Manager, u: string, dead: set<string>)
    requires Entry(a, u) == Entry(b, u)
    ensures Entry(Prune(a, u, dead), u) == Swept(b, u, dead)
  {
  }

  /** The connection ids of `u` whose send raises. */
  function FailsOf(fails: map<string, set<string>>, u: string): set<string> {
    if u in fails then fails[u] else {}
  }

  /** The registry after `send_to_user` ran for exactly the users in `done`:
      their failed connections are gone, and so is a user left with none. */
  function SweptAll(m: Manager, done: set<string>, fails: map<string, set<string>>): Manager {
    Manager(map u | u in m.byUser && (u !in done || Swept(m, u, DeadOf(m, u, FailsOf(fails, u))).Some?) ::
              if u in done then Swept(m, u, DeadOf(m, u, FailsOf(fails, u))).value else m.byUser[u])
  }

  /** After the sweep, a user it covered has lost exactly its failed connections
      (and is gone if none is left); every other user is as before. */
  lemma SweptAllEntries(m: Manager, done: set<string>, fails: map<string, set<string>>, u: string)
    ensures u in done ==> Entry(SweptAll(m, done, fails), u) == Swept(m, u, DeadOf(m, u, FailsOf(fails, u)))
    ensures u !in done ==> Entry(SweptAll(m, done, fails), u) == Entry(m, u)
  {
  }

  lemma SweptAllEmpty(m: Manager, fails: map<string, set<string>>)
    ensures SweptAll(m, {}, fails) == m
  {
    var r := SweptAll(m, {}, fails);
    assert forall u :: u in r.byUser <==> u in m.byUser;
  }

  /** Sending to one more user extends the sweep by that user. */
  lemma SweptAllStep(m: Manager, done: set<string>, u: string, fails: map<string, set<string>>)
    requires u !in done
    ensures var r := SweptAll(m, done, fails);
      Prune(r, u, Inner(r, u).Keys * FailsOf(fails, u)) == SweptAll(m, done + {u}, fails)
  {
    var r := SweptAll(m, done, fails);
    var dead := Inner(r, u).Keys * FailsOf(fails, u);
    var a, b := Prune(r, u, dead), SweptAll(m, done + {u}, fails);
    assert Entry(r, u) == Entry(m, u);
    assert Inner(r, u) == Inner(m, u);
    PruneEntry(r, m, u, dead);
    forall v ensures Entry(a, v) == Entry(b, v) {
      SweptAllEntries(m, done, fails, v);
      SweptAllEntries(m, done + {u}, fails, v);
    }
    assert forall v :: v in a.byUser <==> v in b.byUser;
    assert a.byUser == b.byUser;
  }

  /** `broadcast_all`: `send_to_user` for every user of a snapshot of the keys
      except `excludeUser`; `fails` maps a user to the connection ids whose send raises. */
  method BroadcastAll(m: Manager, excludeUser: Option<string>, fails: map<string, set<string>>)
    returns (r: Manager, targets: set<string>)
    ensures targets == m.byUser.Keys - (if excludeUser.Some? then {excludeUser.value} else {})
    ensures r == SweptAll(m, targets, fails)
  {
    targets := m.byUser.Keys - (if excludeUser.Some? then {excludeUser.value} else {});
    r := SendToEach(m, targets, fails);
  }

  /** The loop of `broadcast_all` over its snapshot of users. */
  method SendToEach(m: Manager, targets: set<string>, fails: map<string, set<string>>) returns (r: Manager)
    ensures r == SweptAll(m, targets, fails)
  {
    var todo := targets;
    r := m;
    SweptAllEmpty(m, fails);
    assert targets - todo == {};
    while todo != {}
      invariant todo <= targets
      invariant r == SweptAll(m, targets - todo, fails)
      decreases |todo|
    {
      var u :| u in todo;
      SweptAllStep(m, targets - todo, u, fails);
      var sent, dead, next;
      next, sent, dead := SendToUser(r, u, None, FailsOf(fails, u));
      assert sent == Inner(r, u).Keys;
      r := next;
      assert targets - (todo - {u}) == (targets - todo) + {u};
      todo := todo - {u};
    }
    assert targets - todo == targets;
  }

  // ---------------------------------------------------------------------------
  // The registry never keeps a user with no connections

  lemma InitNoEmpty()
    ensures NoEmpty(Init())
  {
  }

  lemma ConnectNoEmpty(m: Manager, ws: nat, user: string, cid: string)
    requires NoEmpty(m)
    ensures NoEmpty(Connect(m, ws, user, cid))
  {
    var r := Connect(m, ws, user, cid);
    forall u | u in r.byUser ensures r.byUser[u] != map[] {
      if u == user {
        assert cid in r.byUser[u];
      } else {
        assert Entry(r, u) == Entry(m, u);
      }
    }
  }

  lemma DisconnectNoEmpty(m: Manager, user: string, cid: Option<string>, close: bool)
    requires NoEmpty(m)
    ensures NoEmpty(Disconnect(m, user, cid, close).manager)
  {
    var r := Disconnect(m, user, cid, close).manager;
    forall u | u in r.byUser ensures r.byUser[u] != map[] {
      if u != user {
        assert Entry(r, u) == Entry(m, u);
      }
    }
  }

  lemma PruneNoEmpty(m: Manager, user: string, dead: set<string>)
    requires NoEmpty(m)
    ensures NoEmpty(Prune(m, user, dead))
  {
    var r := Prune(m, user, dead);
    forall u | u in r.byUser ensures r.byUser[u] != map[] {
      if u != user {
        assert Entry(r, u) == Entry(m, u);
      }
    }
  }

  /** A broadcast keeps the invariant, and after it a covered user keeps
      exactly the connections whose send did not raise. */
  lemma SweptAllNoEmpty(m: Manager, done: set<string>, fails: map<string, set<string>>)
    requires NoEmpty(m)
    ensures NoEmpty(SweptAll(m, done, fails))
    ensures forall u :: u in done && u in m.byUser ==>
      (u in SweptAll(m, done, fails).byUser <==> m.byUser[u].Keys - FailsOf(fails, u) != {})
  {
    var r := SweptAll(m, done, fails);
    forall u | u in r.byUser ensures r.byUser[u] != map[] {
      SweptAllEntries(m, done, fails, u);
    }
    forall u | u in done && u in m.byUser
      ensures u in r.byUser <==> m.byUser[u].Keys - FailsOf(fails, u) != {}
    {
      SweptAllEntries(m, done, fails, u);
      var dead := DeadOf(m, u, FailsOf(fails, u));
      assert (m.byUser[u] - dead).Keys == m.byUser[u].Keys - FailsOf(fails, u);
    }
  }

  /** Under the invariant, `has_user` holds exactly for the keys of the registry. */
  lemma HasUserIffKey(m: Manager, u: string)
    requires NoEmpty(m)
    ensures HasUser(m, u) <==> u in m.byUser
  {
  }

  /** A fan-out keeps the invariant. */
  lemma SendToUserNoEmpty(m: Manager, user: string, exclude: Option<string>, fails: set<string>)
    requires NoEmpty(m)
    ensures NoEmpty(Prune(m, user, (Inner(m, user).Keys - (if exclude.Some? then {exclude.value} else {})) * fails))
  {
    PruneNoEmpty(m, user, (Inner(m, user).Keys - (if exclude.Some? then {exclude.value} else {})) * fails);
  }

  /** Every connection `send_to_user` reached and did not fail stays registered,
      and every failed one is gone. */
  lemma SendToUserKeepsLiveConnections(m: Manager, user: string, exclude: Option<string>, fails: set<string>, c: string)
    requires NoEmpty(m) && user in m.byUser && c in m.byUser[user]
    ensures var dead := (Inner(m, user).Keys - (if exclude.Some? then {exclude.value} else {})) * fails;
      var r := Prune(m, user, dead);
      && (c in dead ==> user !in r.byUser || c !in r.byUser[user])
      && (c !in dead ==> user in r.byUser && c in r.byUser[user] && r.byUser[user][c] == m.byUser[user][c])
  {
    var dead := (Inner(m, user).Keys - (if exclude.Some? then {exclude.value} else {})) * fails;
    if c !in dead {
      assert c in m.byUser[user] - dead;
    }
  }

  /** Registering a connection under a new id and disconnecting that id gives
      back the registry, and `_safe_close` is handed exactly that id. */
  lemma ConnectThenDisconnect(m: Manager, ws: nat, user: string, cid: string)
    requires NoEmpty(m) && cid !in Inner(m, user)
    ensures var d := Disconnect(Connect(m, ws, user, cid), user, Some(cid), true);
      d.manager == m && d.safeClosed == {cid}
  {
    var c := Connect(m, ws, user, cid);
    var d := Disconnect(c, user, Some(cid), true);
    assert Inner(m, user)[cid := ws] - {cid} == Inner(m, user);
    forall u ensures Entry(d.manager, u) == Entry(m, u) {
    }
    assert d.manager.byUser == m.byUser;
  }

  /** Disconnecting one connection with `close=True` closes its socket exactly
      when the connection was registered and neither of the socket's states is
      DISCONNECTED; with `close=False` nothing is closed. */
  lemma DisconnectOneCloses(m: Manager, user: string, cid: string, close: bool, states: nat -> Conn)
    ensures var d := Disconnect(m, user, Some(cid), close);
      Closes(m, user, d, states)
        == (if close && cid in Inner(m, user) && SafeCloseCalls(states(Inner(m, user)[cid]))
            then {Inner(m, user)[cid]} else {})
  {
    var d := Disconnect(m, user, Some(cid), close);
    assert d.safeClosed == (if close && cid in Inner(m, user) then {cid} else {});
  }

  /** Disconnecting a whole user with `close=True` closes exactly that user's
      sockets whose states are both other than DISCONNECTED. */
  lemma DisconnectAllCloses(m: Manager, user: string, states: nat -> Conn)
    ensures Closes(m, user, Disconnect(m, user, None, true), states)
      == set c | c in Inner(m, user) && SafeCloseCalls(states(Inner(m, user)[c])) :: Inner(m, user)[c]
  {
  }

  /** A connection registered and then disconnected with `close=True` has its
      socket closed exactly when neither of its states is DISCONNECTED. */
  lemma ConnectThenDisconnectCloses(m: Manager, ws: nat, user: string, cid: string, states: nat -> Conn)
    ensures var c := Connect(m, ws, user, cid);
      Closes(c, user, Disconnect(c, user, Some(cid), true), states)
        == (if SafeCloseCalls(states(ws)) then {ws} else {})
  {
    var c := Connect(m, ws, user, cid);
    assert Inner(c, user) == Inner(m, user)[cid := ws];
    DisconnectOneCloses(c, user, cid, true, states);
  }
}

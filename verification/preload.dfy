/** The bridge client/preload.js exposes to the renderer as `electronAPI`:
    whitelisted sends, whitelisted listener registration with a remover, and
    clearing a channel.

    `ipcRenderer` is modelled as the messages sent to the main process and the
    listeners registered, in registration order. Callbacks are numbered; a
    delivery is the callback together with the arguments it receives. */
module Preload {
  import opened Common

  /** The request channels `send` forwards. */
  const SendChannels: set<string> := {"notes:fetch", "notes:add", "notes:update", "notes:delete"}

  /** The reply channels `receive` subscribes to. */
  const ReceiveChannels: set<string> := {"notes:fetched", "notes:added", "notes:updated", "notes:deleted", "notes:error"}

  /** A message sent to the main process. */
  datatype Message = Message(channel: string, data: Val)

  /** The wrapper `receive` registers around `callback`, under a fresh id. */
  datatype Listener = Listener(channel: string, id: nat, callback: nat)

  datatype Ipc = Ipc(sent: seq<Message>, listeners: seq<Listener>, nextListener: nat)

  /** The remover `receive` returns, or `undefined` (`NoRemover`). */
  datatype Receipt = Remover(channel: string, id: nat) | NoRemover

  /** A callback invocation. */
  datatype Delivery = Delivery(callback: nat, args: seq<Val>)

  /** Every listener id was handed out before. */
  predicate Valid(p: Ipc) {
    forall i :: 0 <= i < |p.listeners| ==> p.listeners[i].id < p.nextListener
  }

  /** The listeners registered on one channel, in order. */
  function OnChannel(p: Ipc, channel: string): seq<Listener> {
    Filter(p.listeners, InChannel(channel))
  }

  function InChannel(channel: string): Listener -> bool {
    (l: Listener) => l.channel == channel
  }

  function NotInChannel(channel: string): Listener -> bool {
    (l: Listener) => l.channel != channel
  }

  /** `resizeWindow(mode)`: sent without a whitelist. */
  function ResizeWindow(p: Ipc, mode: Val): (r: Ipc)
    ensures r.sent == p.sent + [Message("resize-window", mode)] && r.listeners == p.listeners
  {
    p.(sent := p.sent + [Message("resize-window", mode)])
  }

  /** `send(channel, data)`: forwarded iff the channel is a request channel. */
  function Send(p: Ipc, channel: string, data: Val): (r: Ipc)
    ensures channel in SendChannels ==> r.sent == p.sent + [Message(channel, data)]
    ensures channel !in SendChannels ==> r == p
    ensures r.listeners == p.listeners && r.nextListener == p.nextListener
  {
    if channel in SendChannels then p.(sent := p.sent + [Message(channel, data)]) else p
  }

  /** `receive(channel, callback)`: on a reply channel, one new listener and its
      remover; otherwise nothing registered and `undefined`. */
  function Receive(p: Ipc, channel: string, callback: nat): (r: (Ipc, Receipt))
    ensures channel in ReceiveChannels ==>
      && r.0.listeners == p.listeners + [Listener(channel, p.nextListener, callback)]
      && r.1 == Remover(channel, p.nextListener)
    ensures channel !in ReceiveChannels ==> r == (p, NoRemover)
    ensures r.0.sent == p.sent
  {
    if channel in ReceiveChannels then
      (p.(listeners := p.listeners + [Listener(channel, p.nextListener, callback)],
          nextListener := p.nextListener + 1),
       Remover(channel, p.nextListener))
    else (p, NoRemover)
  }

  /** Calling a remover: `ipcRenderer.removeListener(channel, listener)` drops
      that one wrapper. */
  function Remove(p: Ipc, receipt: Receipt): (r: Ipc)
    requires receipt.Remover?
    ensures forall l :: l in r.listeners <==> l in p.listeners && !(l.channel == receipt.channel && l.id == receipt.id)
    ensures r.sent == p.sent
  {
    p.(listeners := Filter(p.listeners, NotListener(receipt.channel, receipt.id)))
  }

  function NotListener(channel: string, id: nat): Listener -> bool {
    (l: Listener) => !(l.channel == channel && l.id == id)
  }

  /** `removeAllListeners(channel)`: every listener on that channel goes, whatever
      the channel. */
  function RemoveAllListeners(p: Ipc, channel: string): (r: Ipc)
    ensures forall l :: l in r.listeners <==> l in p.listeners && l.channel != channel
    ensures r.sent == p.sent && r.nextListener == p.nextListener
  {
    p.(listeners := Filter(p.listeners, NotInChannel(channel)))
  }

  /** The main process emits on `channel` with the IPC event and `args`: every
      listener on the channel calls its callback with `args` alone. */
  function Emit(p: Ipc, channel: string, event: Val, args: seq<Val>): (r: seq<Delivery>)
    ensures |r| == |OnChannel(p, channel)|
    ensures forall i :: 0 <= i < |r| ==> r[i] == Delivery(OnChannel(p, channel)[i].callback, args)
  {
    Deliver(OnChannel(p, channel), args)
  }

  function Deliver(ls: seq<Listener>, args: seq<Val>): (r: seq<Delivery>)
    ensures |r| == |ls|
    ensures forall i :: 0 <= i < |r| ==> r[i] == Delivery(ls[i].callback, args)
  {
    if ls == [] then [] else [Delivery(ls[0].callback, args)] + Deliver(ls[1..], args)
  }

  // ---------------------------------------------------------------------------
  // Properties

  /** Sending, on any channel and with any data, keeps the invariant and
      changes what no emit delivers; outside the whitelist nothing goes out. */
  lemma SendKeepsListeners(p: Ipc, channel: string, data: Val, other: string, event: Val, args: seq<Val>)
    ensures Valid(p) ==> Valid(Send(p, channel, data))
    ensures Emit(Send(p, channel, data), other, event, args) == Emit(p, other, event, args)
    ensures channel !in SendChannels ==> Send(p, channel, data).sent == p.sent
    ensures |Send(p, channel, data).sent| <= |p.sent| + 1
  {
  }

  /** Resizing, with any mode, keeps the invariant and changes what no emit
      delivers; the request is always the last message out. */
  lemma ResizeKeepsListeners(p: Ipc, mode: Val, other: string, event: Val, args: seq<Val>)
    ensures Valid(p) ==> Valid(ResizeWindow(p, mode))
    ensures Emit(ResizeWindow(p, mode), other, event, args) == Emit(p, other, event, args)
    ensures ResizeWindow(p, mode).sent[|p.sent|] == Message("resize-window", mode)
  {
  }

  lemma ReceiveValid(p: Ipc, channel: string, callback: nat)
    requires Valid(p)
    ensures Valid(Receive(p, channel, callback).0)
  {
  }

  /** Subscribing and calling the remover gives back the listeners as they were. */
  lemma ReceiveThenRemoveRestores(p: Ipc, channel: string, callback: nat)
    requires Valid(p) && channel in ReceiveChannels
    ensures var (q, receipt) := Receive(p, channel, callback);
      Remove(q, receipt).listeners == p.listeners
  {
    var l := Listener(channel, p.nextListener, callback);
    FilterAppend(p.listeners, l, NotListener(channel, p.nextListener));
    FilterAll(p.listeners, NotListener(channel, p.nextListener));
  }

  /** A remover touches no other channel: its channel's other listeners and
      every listener elsewhere stay, in order. */
  lemma {:induction false} RemoveKeepsOtherChannels(ls: seq<Listener>, channel: string, id: nat, other: string)
    requires other != channel
    ensures Filter(Filter(ls, NotListener(channel, id)), InChannel(other)) == Filter(ls, InChannel(other))
  {
    if ls != [] {
      RemoveKeepsOtherChannels(ls[1..], channel, id, other);
      var p := NotListener(channel, id);
      if p(ls[0]) {
        var f := [ls[0]] + Filter(ls[1..], p);
        assert Filter(ls, p) == f && f[1..] == Filter(ls[1..], p);
      } else {
        assert Filter(ls, p) == Filter(ls[1..], p);
      }
    }
  }

  /** Calling a remover twice removes nothing more. */
  lemma RemoveIdempotent(p: Ipc, receipt: Receipt)
    requires receipt.Remover?
    ensures Remove(Remove(p, receipt), receipt) == Remove(p, receipt)
  {
    FilterIdempotent(p.listeners, NotListener(receipt.channel, receipt.id));
  }

  /** A subscribed callback receives every later emission on its channel, with
      the event argument dropped. */
  lemma ReceiveThenEmit(p: Ipc, channel: string, callback: nat, event: Val, args: seq<Val>)
    requires channel in ReceiveChannels
    ensures var q := Receive(p, channel, callback).0;
      Emit(q, channel, event, args) == Emit(p, channel, event, args) + [Delivery(callback, args)]
  {
    var l := Listener(channel, p.nextListener, callback);
    FilterAppend(p.listeners, l, InChannel(channel));
  }

  /** After `removeAllListeners` an emission on that channel reaches nobody. */
  lemma RemoveAllSilences(p: Ipc, channel: string, event: Val, args: seq<Val>)
    ensures Emit(RemoveAllListeners(p, channel), channel, event, args) == []
  {
    var r := RemoveAllListeners(p, channel);
    assert forall i :: 0 <= i < |r.listeners| ==> r.listeners[i] in r.listeners;
    FilterNone(r.listeners, InChannel(channel));
  }
}

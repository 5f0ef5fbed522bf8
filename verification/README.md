# Note app: real-time client, socket registry and auth API, modelled in Dafny

The app is a notes application made of three programs:
- an Electron/React client;
- a FastAPI notes server that pushes note events over WebSockets;
- a Node auth server that issues JWTs.

This project models the parts of those programs that make decisions:
- the client's WebSocket service: the handler set, connect and reconnect with exponential backoff, the heartbeat, explicit disconnect and the browser's socket events;
- the React WebSocket provider: connect on mount, the ping interval, reconnect on close, subscribe and unsubscribe, and the pong filter;
- the server's connection manager: the per-user registry of connections, disconnect, fan-out, and pruning of failed sockets;
- the client pages: the live notes feed, the dashboard (paging, delete, add, search, preview, selection), the login and sign-up pages, and the application context (session restore, login, logout);
- the client's auth API wrappers and the Electron preload bridge;
- the notes API's JWT check, note creation and paging;
- the Node auth controller (login, signup) and its bearer-token middleware.

## How it is modelled

Every handler is a pure transition on an immutable record. The exceptions are three loops, which are methods with loop invariants:
- the socket service's dispatch to its handlers;
- the provider's dispatch to its listeners;
- the connection manager's send loops.

Browser socket events and timer expiries are environment events. A `Step` function applies one event; an event that cannot happen in the current state changes nothing. Each timer is a numbered entry in a map, and `clearTimeout` deletes the entry.

JavaScript values are `Common.Val`. A property read on `null` or `undefined` is an error result, the TypeError the code would raise. Anything the code only calls is a parameter:
- `JSON.parse` and `JSON.stringify`;
- number formatting and `toLowerCase`;
- the results of `fetch`;
- `jwt` decode, verify and sign;
- bcrypt `compare` and `hash`;
- database ids, `findById` and `Date.now`;
- `window.confirm`.

The backoff factor is 1.5 (client/src/api/websocket.js:16). Running out of attempts only logs (client/src/api/websocket.js:177-180).

## Model

| member | source | states |
|---|---|---|
| WebSocketService.Backoff | client/src/api/websocket.js:183-186 | The reconnect delay is never above the 30000 ms cap, and is at least the base delay when the base is positive and within the cap |
| WebSocketService.ScaledAtLeastBase | client/src/api/websocket.js:183-186 | Growing a non-negative base delay by the backoff factor never makes it smaller |
| WebSocketService.Init | client/src/api/websocket.js:26-43 | The constructor connects exactly when both `userId` and `token` are in storage, and leaves storage unchanged |
| WebSocketService.SetDelete | client/src/api/websocket.js:59 | Deleting from the handler set keeps exactly the other handlers and keeps the set free of duplicates |
| WebSocketService.AddMessageHandler | client/src/api/websocket.js:46-64 | A non-function is refused with a no-op remover; a function joins the set, and the remover returned removes that handler; nothing else changes |
| WebSocketService.Unregister | client/src/api/websocket.js:58-63 | Calling a remover deletes exactly its handler, and the no-op remover does nothing |
| WebSocketService.RemoveMessageHandler | client/src/api/websocket.js:67-76 | A non-function changes nothing; a function is removed just as its remover would remove it |
| WebSocketService.StopHeartbeat | client/src/api/websocket.js:211-220 | The ping interval and the pong timeout are cancelled and their handles cleared; every other timer and field is kept |
| WebSocketService.StartHeartbeat | client/src/api/websocket.js:195-209 | After stopping any heartbeat, exactly one new ping interval is armed and its handle kept; no pong timeout is pending |
| WebSocketService.Disconnect | client/src/api/websocket.js:222-235 | Marks the disconnect explicit, clears the three timers it holds, closes the current socket and drops it; no other field changes |
| WebSocketService.StartConnect | client/src/api/websocket.js:101-110 | A new socket with the current credentials is opened in the connecting state, after a disconnect of the previous socket when there was one; the explicit flag is reset |
| WebSocketService.Connect | client/src/api/websocket.js:78-99 | Fails exactly when neither the arguments nor storage hold both credentials; given credentials are stored, stored ones are reused, and then `_connect` runs |
| WebSocketService.SendMessage | client/src/api/websocket.js:237-245 | Sends on the current socket and returns true exactly when it is open; a string goes out verbatim, any other value JSON-encoded |
| WebSocketService.SendMessageValid | client/src/api/websocket.js:237-245 | Sending keeps the service invariant, changes nothing but the outbox, and adds one frame exactly when it reports success |
| WebSocketService.HandleReconnect | client/src/api/websocket.js:176-193 | At the attempt limit nothing happens; below it the count goes up by one and a reconnect timer with the backoff delay for that attempt is armed |
| WebSocketService.OnClose | client/src/api/websocket.js:167-174 | The heartbeat always stops; a reconnect is scheduled only when the disconnect was not explicit |
| WebSocketService.OnOpen | client/src/api/websocket.js:134-142 | Resets the attempt count and the base delay, and sends the timestamped probe when the socket is open |
| WebSocketService.PingTick | client/src/api/websocket.js:198-207 | With the socket open, a ping is sent and a pong timeout armed; otherwise the tick does nothing |
| WebSocketService.OnTimer | client/src/api/websocket.js:190-206 | No contract of its own: the reconnect timer reconnects, the interval ticks and the pong timeout closes the socket. `OnTimerValid`, `PongTimeoutSurvivesReplies` and `FailedRound` state its effects |
| WebSocketService.OnOpenEvent | client/src/api/websocket.js:112-125 | No contract of its own: `onopen` runs `_onOpen`, and the awaiting `_connect` then starts the heartbeat. `OnOpenEventValid` and `StaleCloseDisruptsNewSocket` state its effects |
| WebSocketService.OnFailEvent | client/src/api/websocket.js:117-130 | No contract of its own: a pending handshake's rejection reconnects in the catch block, then the close event runs `_onClose`. `OnFailEventValid`, `FailedHandshakeCountsTwice`, `FailedRound` and `DisconnectDuringHandshakeReconnects` state its effects |
| WebSocketService.OnCloseEvent | client/src/api/websocket.js:121 | No contract of its own: the bound `_onClose` runs for whichever socket closed. `StaleCloseDisruptsNewSocket` and `DisconnectSuppressesCloseReconnect` state its effects |
| WebSocketService.Step | client/src/api/websocket.js:112-130 | No contract of its own: one browser event or timer expiry, and nothing for an event that cannot happen. `StepValid` and `MessagesChangeNothing` state its effects |
| WebSocketService.OnMessage | client/src/api/websocket.js:144-161 | A parsed frame reaches every handler once, in insertion order, and a throwing handler does not stop the others; a malformed frame reaches none |
| WebSocketService.InitialValid | client/src/api/websocket.js:26-37 | The freshly constructed service satisfies the service invariant |
| WebSocketService.InitValid | client/src/api/websocket.js:26-43 | The constructor, connecting or not, yields a valid service |
| WebSocketService.StopHeartbeatValid | client/src/api/websocket.js:211-220 | Stopping the heartbeat keeps the invariant and leaves no ping interval armed |
| WebSocketService.StartHeartbeatValid | client/src/api/websocket.js:195-209 | Starting the heartbeat keeps the invariant |
| WebSocketService.DisconnectValid | client/src/api/websocket.js:222-235 | Disconnecting keeps the invariant |
| WebSocketService.StartConnectValid | client/src/api/websocket.js:101-110 | Opening a new socket keeps the invariant |
| WebSocketService.ConnectValid | client/src/api/websocket.js:78-99 | A successful `connect` keeps the invariant |
| WebSocketService.HandleReconnectValid | client/src/api/websocket.js:176-193 | Scheduling a reconnect keeps the invariant, including the attempt bound and the delay bound |
| WebSocketService.OnCloseValid | client/src/api/websocket.js:167-174 | The close handler keeps the invariant |
| WebSocketService.OnOpenEventValid | client/src/api/websocket.js:113-116 | An open event, which runs `_onOpen` and then starts the heartbeat, keeps the invariant |
| WebSocketService.OnFailEventValid | client/src/api/websocket.js:117-130 | A failed handshake, which runs the catch and then the close handler, keeps the invariant |
| WebSocketService.OnTimerValid | client/src/api/websocket.js:190-206 | Any timer firing (reconnect, ping interval or pong timeout) keeps the invariant |
| WebSocketService.StepValid | client/src/api/websocket.js:101-235 | Every environment event keeps the invariant |
| WebSocketServiceProps.SetDeleteIdempotent | client/src/api/websocket.js:59 | Deleting the same handler twice is the same as deleting it once |
| WebSocketServiceProps.SetDeleteAbsent | client/src/api/websocket.js:59 | Deleting a handler that is not in the set changes nothing |
| WebSocketServiceProps.SetDeleteAppended | client/src/api/websocket.js:52-59 | Deleting a handler just added restores the set it was added to |
| WebSocketServiceProps.RemoverIdempotent | client/src/api/websocket.js:58-63 | Calling a remover twice is the same as calling it once |
| WebSocketServiceProps.AddThenRemoveRestores | client/src/api/websocket.js:52-63 | Adding a new handler and calling its remover gives back the service as it was |
| WebSocketServiceProps.RemoverRemovesOnlyItsHandler | client/src/api/websocket.js:58-63 | A remover never removes any other handler |
| WebSocketServiceProps.PowMonotone | client/src/api/websocket.js:184 | Powers of a factor of at least 1 grow with the exponent |
| WebSocketServiceProps.BackoffMonotone | client/src/api/websocket.js:183-186 | The reconnect delay does not decrease from one attempt to the next |
| WebSocketServiceProps.BackoffSchedule | client/src/api/websocket.js:183-186 | The five delays are 1000, 1500, 2250, 3375 and 5062.5 ms |
| WebSocketServiceProps.CapNeverReached | client/src/api/websocket.js:176-193 | In a valid service a scheduled reconnect waits at most 5062.5 ms, so the 30000 ms cap never applies |
| WebSocketServiceProps.DisconnectIdempotent | client/src/api/websocket.js:222-235 | Disconnecting twice is the same as disconnecting once |
| WebSocketServiceProps.DisconnectSuppressesCloseReconnect | client/src/api/websocket.js:167-174 | After an explicit disconnect, a close event arms no new timer |
| WebSocketServiceProps.MessagesChangeNothing | client/src/api/websocket.js:144-161 | Any number of inbound frames leave the service's state exactly as it was |
| WebSocketServiceProps.FailedHandshakeCountsTwice | client/src/api/websocket.js:117-130 | As written, one failed handshake uses two reconnect attempts and arms two reconnect timers |
| WebSocketServiceProps.FailedRound | client/src/api/websocket.js:117-130 | As written, a failing handshake and its first reconnect timer leave the service valid and handshaking on a new socket, two attempts down |
| WebSocketServiceProps.LastRound | client/src/api/websocket.js:176-180 | As written, the round that starts with one attempt left opens one more socket, and its failure arms no timer and leaves the count at the limit |
| WebSocketServiceProps.DisconnectDuringHandshakeReconnects | client/src/api/websocket.js:127-130 | As written, a handshake that fails after an explicit disconnect still schedules a reconnect, and that timer opens a new socket |
| WebSocketServiceProps.PongTimeoutSurvivesReplies | client/src/api/websocket.js:198-206 | As written, no reply cancels the pong timeout, which then closes the open socket |
| WebSocketServiceProps.StaleCloseDisruptsNewSocket | client/src/api/websocket.js:102-121 | As written, the close of a replaced socket stops the new socket's heartbeat and schedules a reconnect that closes the new socket |
| WebSocketServiceProps.ClearPongTimeout | client/src/api/websocket.js:216-219 | Clearing the pending pong timeout leaves no timeout handle |
| WebSocketServiceProps.StepFixed | client/src/api/websocket.js:101-235 | Corrected event handling: the failure or close of a socket that is not current changes nothing but that socket; any inbound frame on the open socket cancels the pong timeout; a failed handshake uses at most one attempt |
| WebSocketServiceProps.StepFixedValid | client/src/api/websocket.js:101-235 | The corrected event handling keeps the service invariant |
| WebSocketServiceProps.FixedFailedHandshakeCountsOnce | client/src/api/websocket.js:117-130 | Corrected, a failed handshake uses one attempt and arms exactly one reconnect timer |
| WebSocketServiceProps.FixedDisconnectSuppressesReconnect | client/src/api/websocket.js:127-130 | Corrected, neither a failure nor a close after an explicit disconnect arms a timer or uses an attempt |
| WebSocketServiceProps.FixedReplyCancelsPongTimeout | client/src/api/websocket.js:203-206 | Corrected, any inbound frame cancels the pending pong timeout and leaves the sockets and the ping interval alone |
| WebSocketServiceProps.FixedStaleCloseIgnored | client/src/api/websocket.js:121 | Corrected, the close of a replaced socket leaves the new socket's timers and attempt count alone |
| WebSocketProvider.CloseCurrent | client/src/contexts/WebSocketContext.jsx:19-21 | Closes the current socket when there is one, and changes nothing else |
| WebSocketProvider.Connect | client/src/contexts/WebSocketContext.jsx:13-24 | Does nothing when the current socket is open; otherwise closes it and makes a new connecting socket the current one |
| WebSocketProvider.Cleanup | client/src/contexts/WebSocketContext.jsx:62-68 | With a current socket, clears the ping interval, closes the socket and drops it; the attempt count is kept |
| WebSocketProvider.ClearInterval | client/src/contexts/WebSocketContext.jsx:40 | Removes exactly the ping interval's timer |
| WebSocketProvider.OnOpen | client/src/contexts/WebSocketContext.jsx:26-36 | Resets the attempt count and arms a 25-second ping interval |
| WebSocketProvider.OnClose | client/src/contexts/WebSocketContext.jsx:38-50 | Clears the ping interval; below 5 attempts it counts one more and arms a 3-second reconnect; at the limit it arms nothing |
| WebSocketProvider.PingTick | client/src/contexts/WebSocketContext.jsx:31-35 | Sends a ping exactly when the current socket is open |
| WebSocketProvider.Mount | client/src/contexts/WebSocketContext.jsx:58-76 | No contract of its own: the mount effect connects, and the token effect connects again when a token is set. `MountValid` and `MountOpensTwoSockets` state its effects |
| WebSocketProvider.OnTimer | client/src/contexts/WebSocketContext.jsx:31-46 | No contract of its own: the ping interval ticks and the reconnect timeout reconnects. `StepValid` and `ReconnectAfterUnmount` state its effects |
| WebSocketProvider.Step | client/src/contexts/WebSocketContext.jsx:26-55 | No contract of its own: one browser event or timer expiry, with `onerror` closing the current socket. A socket that never opened fires `error` before `close`, and a socket that fired `error` never opens. `StepValid`, `ErrorClosesCurrent`, `MountErrorClosesSecond` and `MountClosesBoth` state its effects |
| WebSocketProvider.SendMessage | client/src/contexts/WebSocketContext.jsx:79-86 | Sends the message and returns true exactly when the current socket is open |
| WebSocketProvider.SendMessageValid | client/src/contexts/WebSocketContext.jsx:79-86 | Sending keeps the provider invariant, changes nothing but the outbox, and adds one frame exactly when it reports success |
| WebSocketProvider.Subscribe | client/src/contexts/WebSocketContext.jsx:89-103 | Without a socket, returns a no-op; otherwise attaches one listener to the current socket and returns its unsubscriber |
| WebSocketProvider.Without | client/src/contexts/WebSocketContext.jsx:106 | Removing a listener keeps exactly the others |
| WebSocketProvider.Unsubscribe | client/src/contexts/WebSocketContext.jsx:104-108 | Removes the listener from whatever socket is current at that moment, and leaves every other socket alone |
| WebSocketProvider.Dispatch | client/src/contexts/WebSocketContext.jsx:92-101 | Every listener of the socket runs in order, and each one's callback gets the parsed message unless it is a pong or malformed |
| WebSocketProvider.FreshValid | client/src/contexts/WebSocketContext.jsx:7-11 | The provider's initial refs satisfy its invariant |
| WebSocketProvider.ConnectValid | client/src/contexts/WebSocketContext.jsx:13-24 | `connect` keeps the invariant |
| WebSocketProvider.MountValid | client/src/contexts/WebSocketContext.jsx:59-76 | The two mount effects leave a valid provider |
| WebSocketProvider.CleanupValid | client/src/contexts/WebSocketContext.jsx:62-68 | The unmount cleanup keeps the invariant |
| WebSocketProvider.StepValid | client/src/contexts/WebSocketContext.jsx:26-55 | Every socket event and timer keeps the invariant |
| WebSocketProvider.SubscribeValid | client/src/contexts/WebSocketContext.jsx:89-103 | Subscribing keeps the invariant |
| WebSocketProviderProps.ErrorClosesCurrent | client/src/contexts/WebSocketContext.jsx:52-55 | An error on any socket closes the current socket; apart from marking the failed socket as errored, nothing else changes |
| WebSocketProviderProps.SubscribeThenUnsubscribeRestores | client/src/contexts/WebSocketContext.jsx:89-108 | Subscribing and then unsubscribing gives back the sockets as they were |
| WebSocketProviderProps.UnsubscribeIdempotent | client/src/contexts/WebSocketContext.jsx:104-108 | Calling an unsubscriber twice is the same as calling it once |
| WebSocketProviderProps.ReconnectDropsSubscriptions | client/src/contexts/WebSocketContext.jsx:24 | A reconnect makes a new socket with no listeners, so earlier subscriptions are lost |
| WebSocketProviderProps.ReconnectAfterUnmount | client/src/contexts/WebSocketContext.jsx:38-68 | After unmount the old socket's close still schedules a reconnect, which opens a new socket. A socket closed before it opened fires its error first, which closes nothing |
| WebSocketProviderProps.MountOpensTwoSockets | client/src/contexts/WebSocketContext.jsx:59-76 | Mounting with a token runs `connect` twice: the first socket is closed and a second is opened |
| WebSocketProviderProps.MountErrorClosesSecond | client/src/contexts/WebSocketContext.jsx:13-24 | Mounting with a token closes the first socket while it connects. Its error runs `onerror`, which closes the second socket, whether or not that one has opened. Neither socket stays open |
| WebSocketProviderProps.MountClosesBoth | client/src/contexts/WebSocketContext.jsx:38-55 | Both sockets then close, the unopened one after its own error. That uses up two reconnect attempts, leaves no ping interval, and arms two 3-second reconnects |
| WebSocketProviderProps.ReconnectTimersRace | client/src/contexts/WebSocketContext.jsx:13-24 | Of two pending reconnects, the second finds the first one's socket still connecting, closes it and opens another |
| ConnectionManager.Connect | pyserver/utils/websocket_manager.py:34-39 | The socket is stored under the user with the new connection id; other users are untouched |
| ConnectionManager.Disconnect | pyserver/utils/websocket_manager.py:51-75 | An unknown user is a no-op; without an id every connection of the user goes; with an id that one goes, and so does the user once empty; the closes requested are stated |
| ConnectionManager.Prune | pyserver/utils/websocket_manager.py:96-97 | Removing the dead connections leaves the user's other connections, and drops the user when none is left |
| ConnectionManager.PruneStep | pyserver/utils/websocket_manager.py:96-97 | One more `disconnect(close=False)` extends the pruned set by one connection |
| ConnectionManager.SendToUser | pyserver/utils/websocket_manager.py:80-97 | Every connection of the user except the excluded one is tried, the failed ones are exactly the dead ones, and only those are pruned |
| ConnectionManager.SendAll | pyserver/utils/websocket_manager.py:87-94 | The send loop tries exactly the non-excluded connections and records exactly the failures |
| ConnectionManager.RemoveDead | pyserver/utils/websocket_manager.py:96-97 | The cleanup loop leaves the registry with exactly the dead connections pruned |
| ConnectionManager.PruneEntry | pyserver/utils/websocket_manager.py:96-97 | What pruning does to a user's entry depends only on that entry |
| ConnectionManager.SweptAllEntries | pyserver/utils/websocket_manager.py:99-106 | After a broadcast, a covered user has lost exactly its failed connections; other users are as before |
| ConnectionManager.SweptAllEmpty | pyserver/utils/websocket_manager.py:103 | A broadcast that covers no user changes nothing |
| ConnectionManager.SweptAllStep | pyserver/utils/websocket_manager.py:103-106 | Sending to one more user extends the broadcast's effect by that user's pruning |
| ConnectionManager.BroadcastAll | pyserver/utils/websocket_manager.py:99-106 | Every user except the excluded one is sent to, and each loses exactly its failed connections |
| ConnectionManager.SendToEach | pyserver/utils/websocket_manager.py:103-106 | The broadcast loop leaves the registry swept for exactly the targeted users |
| ConnectionManager.InitNoEmpty | pyserver/utils/websocket_manager.py:30-32 | The empty registry holds no user with an empty connection map |
| ConnectionManager.ConnectNoEmpty | pyserver/utils/websocket_manager.py:34-39 | `connect` keeps every stored user non-empty |
| ConnectionManager.DisconnectNoEmpty | pyserver/utils/websocket_manager.py:68-70 | `disconnect` keeps every stored user non-empty |
| ConnectionManager.PruneNoEmpty | pyserver/utils/websocket_manager.py:96-97 | Pruning keeps every stored user non-empty |
| ConnectionManager.SweptAllNoEmpty | pyserver/utils/websocket_manager.py:99-106 | A broadcast keeps every stored user non-empty, and a covered user stays exactly when it has a live connection |
| ConnectionManager.HasUserIffKey | pyserver/utils/websocket_manager.py:77-78 | Under the invariant, `has_user` is exactly "the user is a key" |
| ConnectionManager.HasUser | pyserver/utils/websocket_manager.py:77-78 | No contract of its own: a key with a non-empty map. `HasUserIffKey` states that under the invariant this is key membership |
| ConnectionManager.SendToUserNoEmpty | pyserver/utils/websocket_manager.py:80-97 | `send_to_user` keeps every stored user non-empty |
| ConnectionManager.SendToUserKeepsLiveConnections | pyserver/utils/websocket_manager.py:80-97 | A connection that did not fail stays registered with the same socket; a failed one is gone |
| ConnectionManager.ConnectThenDisconnect | pyserver/utils/websocket_manager.py:34-73 | Connecting and then disconnecting the same id restores the registry and closes just that connection |
| ConnectionManager.Closes | pyserver/utils/websocket_manager.py:41-75 | Only sockets of that user whose two states are both other than DISCONNECTED are closed |
| ConnectionManager.DisconnectOneCloses | pyserver/utils/websocket_manager.py:41-75 | Disconnecting one id with `close=True` closes its socket exactly when it was registered and neither state is DISCONNECTED; with `close=False` nothing is closed |
| ConnectionManager.DisconnectAllCloses | pyserver/utils/websocket_manager.py:41-66 | Disconnecting a whole user closes exactly those of its sockets with neither state DISCONNECTED |
| ConnectionManager.ConnectThenDisconnectCloses | pyserver/utils/websocket_manager.py:34-75 | A connection registered and then disconnected has its socket closed exactly when neither of its states is DISCONNECTED |
| NotesFeed.Merge | client/src/components/NotesFeed.jsx:18 | The spread merge has the keys of both objects, and the update's values win |
| NotesFeed.UpdateNotes | client/src/components/NotesFeed.jsx:15-21 | Raises exactly when some note is null, or the update is null with notes present. Otherwise each note whose id is `===` the update's id is merged and the rest are kept, position by position |
| NotesFeed.DeleteNotes | client/src/components/NotesFeed.jsx:22-26 | Raises exactly when some note is null. Otherwise keeps the notes whose id is not `===` the given id |
| NotesFeed.ObjectIdsNeverMatch | client/src/components/NotesFeed.jsx:15-26 | `===` compares object and array ids by reference, and every message is a separate parse. So an update or delete whose id is an object or array changes no note, even one whose id looks the same |
| NotesFeed.HandleMessage | client/src/components/NotesFeed.jsx:10-29 | A created note goes first, an update and a delete are applied as above, any other event keeps the list, and a null message raises |
| NotesFeed.CreateNote | client/src/components/NotesFeed.jsx:46-52 | The outgoing frame has exactly the type `create_note`, the content and the timestamp |
| NotesFeed.CreateFrameKeepsList | client/src/components/NotesFeed.jsx:10-52 | The frame `createNote` sends has no `event`, so the reducer would leave the list unchanged if it came back |
| NotesFeed.MergeAgain | client/src/components/NotesFeed.jsx:18 | Merging the same update again changes nothing, and the id is kept |
| NotesFeed.UpdateIdempotent | client/src/components/NotesFeed.jsx:15-21 | Applying the same update twice is the same as once |
| NotesFeed.UpdateLeavesOthers | client/src/components/NotesFeed.jsx:16-20 | A note with another id is left as it was |
| NotesFeed.DeleteIdempotent | client/src/components/NotesFeed.jsx:22-26 | Deleting the same id twice is the same as once |
| NotesFeed.DeleteRemovesExactly | client/src/components/NotesFeed.jsx:23-25 | After a delete, the list holds exactly the notes with another id, in their order |
| NotesFeed.CreateThenDelete | client/src/components/NotesFeed.jsx:12-26 | A created note with a fresh primitive id, deleted again, gives back the list as it was |
| NotesFeed.DeleteCreated | client/src/components/NotesFeed.jsx:22-26 | Deleting the id of a note put in front of a list without it gives back the list |
| NotesFeed.UnknownEventKeepsList | client/src/components/NotesFeed.jsx:27-28 | An event of any other name leaves the list unchanged |
| Dashboard.Init | client/src/components/Dashboard.jsx:5-16 | No contract of its own: the empty list, skip 0, grid view and `hasMore` true. `NotesPaging.Mount` states what the first loads make of it |
| Dashboard.LoadStarted | client/src/components/Dashboard.jsx:24 | The first update of a load turns the spinner on and changes nothing else |
| Dashboard.RequestSkip | client/src/components/Dashboard.jsx:25 | A reset load asks from 0, any other from the current skip |
| Dashboard.LoadSucceeded | client/src/components/Dashboard.jsx:26-35 | The page replaces or extends the list, the skip equals the list length, and "more" is offered exactly when the page was full |
| Dashboard.LoadFailed | client/src/components/Dashboard.jsx:36-42 | A failed load keeps the list, turns the spinner off and shows the message |
| Dashboard.LoadMoreAppends | client/src/components/Dashboard.jsx:22-35 | A reset load followed by "load more" holds both pages in order, and the second request skips exactly the first page |
| Dashboard.SkipTracksList | client/src/components/Dashboard.jsx:29-35 | Over any number of loads the skip equals the list length, and the list is all pages in order |
| Dashboard.HandleDelete | client/src/components/Dashboard.jsx:46-61 | Unless confirmed and deleted nothing changes; otherwise exactly the notes with that id go, order kept, and the selection goes only if it had that id |
| Dashboard.DeleteTwice | client/src/components/Dashboard.jsx:54-55 | Deleting the same id twice is the same as once |
| Dashboard.AddNoteCall | client/src/api/notes.js:31-36 | A null or undefined argument throws a TypeError before the token is read; otherwise, without a token `addNote` throws the login message; it posts exactly when the token and a truthy title and content are there |
| Dashboard.AddNoteWith | client/src/components/Dashboard.jsx:84-102 | A blank trimmed field changes nothing; otherwise the POST goes out exactly when `addNote` accepts its argument, and a stored note clears the form, resets skip and starts a reload; every other case only turns the spinner off |
| Dashboard.HandleAddNoteAsWritten | client/src/components/Dashboard.jsx:84-102 | As written, a blank title or content does nothing |
| Dashboard.AddNoteAsWrittenNeverPosts | client/src/components/Dashboard.jsx:89 | As written, adding a note never posts and never reloads, whatever the fields |
| Dashboard.HandleAddNote | client/src/components/Dashboard.jsx:84-102 | With the note passed as an object, a filled form and a token post the note, and a stored note clears the form and reloads from the start |
| Dashboard.FilledNonEmpty | client/src/components/Dashboard.jsx:85 | Fields that pass the blank check are non-empty |
| Dashboard.AddBlockedIffBlank | client/src/components/Dashboard.jsx:85 | Adding is blocked exactly when the title or the content is whitespace only |
| Dashboard.FilteredNotes | client/src/components/Dashboard.jsx:114-120 | The search keeps, in order, exactly the notes whose lower-cased title or content contains the lower-cased term |
| Dashboard.EmptySearchShowsAll | client/src/components/Dashboard.jsx:114-120 | An empty search shows every note |
| Dashboard.ShownIffOccurs | client/src/components/Dashboard.jsx:115-118 | A note is shown exactly when the term occurs at some position of its title or content |
| Dashboard.Truncate | client/src/components/Dashboard.jsx:132-136 | A text within the limit is kept; a longer one becomes its first characters up to the limit, then "..." |
| Dashboard.TruncateIdempotent | client/src/components/Dashboard.jsx:132-136 | Truncating a preview again with the same limit changes nothing |
| Dashboard.Toggle | client/src/components/Dashboard.jsx:146-151 | Selecting the selected note clears the selection, and selecting another note selects it |
| Dashboard.ToggleTwiceClears | client/src/components/Dashboard.jsx:146-151 | Toggling a new note twice selects it and then clears the selection |
| NotesPaging.Reply | client/src/api/notes.js:16-24 | The client returns the server's notes on success, and throws with the status otherwise |
| NotesPaging.FetchNotesAsWritten | client/src/api/notes.js:4-14 | As written, without a token the fetch throws; with one it always gets the server's default page |
| NotesPaging.FetchNotes | client/src/api/notes.js:4-14 | With the query sent, the fetch gets the page for the requested skip and limit |
| NotesPaging.Load | client/src/components/Dashboard.jsx:22-43 | A settled fetch either extends or replaces the list, or leaves it and shows the error |
| NotesPaging.Fetch | client/src/api/notes.js:4-14 | No contract of its own: picks the client as written or the one sending the query. `MountShowsFirstPage` and `StuckAtMount` state what it returns in use |
| NotesPaging.LoadNotes | client/src/components/Dashboard.jsx:22-44 | No contract of its own: `loadNotes(reset)` against a client. `ResetLoadSettles` and `LoadMoreRepeatsFirstPage` state its effects |
| NotesPaging.CanLoadMore | client/src/components/Dashboard.jsx:316-324 | No contract of its own: no search term, `hasMore` and not loading. `LoadMore` and `LoadMoreOnce` state that without it a click does nothing |
| NotesPaging.SecondPageFollows | pyserver/routes/notes.py:42 | The page after the first one, skipped by the first page's length, ends at the first forty items |
| NotesPaging.ToNotesConcat | pyserver/routes/notes.py:44-49 | Converting two runs of documents is converting their concatenation |
| NotesPaging.Settle | client/src/components/Dashboard.jsx:22-81 | Once a load has moved `skip`, the effect's reset loads end on the first page with `skip` at its length, or on the error with the list kept; an unmoved `skip` triggers nothing |
| NotesPaging.Mount | client/src/components/Dashboard.jsx:63-81 | The mounted dashboard shows the page fetched at skip 0 and offers more exactly when it was full, or shows the load error over an empty list |
| NotesPaging.LoadMore | client/src/components/Dashboard.jsx:316-324 | Without the button (a search term, no more pages, or loading) nothing happens; a non-empty next page is followed by the reset to the first page; a failed or empty one leaves the list |
| NotesPaging.MountOnce | client/src/components/Dashboard.jsx:63-81 | With the initial load run only on mount, the dashboard shows the page fetched at skip 0, or the error |
| NotesPaging.LoadMoreOnce | client/src/components/Dashboard.jsx:316-324 | Without the effect re-running, "load more" appends the next page, or keeps the list and shows the error |
| NotesPaging.ResetLoadSettles | client/src/components/Dashboard.jsx:25-35 | A reset load right after a reset load leaves `skip` unchanged, so the effect stops |
| NotesPaging.MountShowsFirstPage | client/src/api/notes.js:4-14 | Both clients show the user's first twenty notes on mount |
| NotesPaging.LoadMoreRepeatsFirstPage | client/src/components/Dashboard.jsx:22-81 | As written, with at least twenty notes, "load more" first shows the first page twice and then the list returns exactly to its mounted state |
| NotesPaging.StuckAtMount | client/src/components/Dashboard.jsx:22-81 | As written, for every user and server reply, the mounted dashboard is unchanged by "load more" |
| NotesPaging.LoadMoreNeverAdvances | client/src/components/Dashboard.jsx:22-81 | As written, any number of "load more" clicks leaves the mounted dashboard as it was |
| NotesPaging.QueryAloneStillResets | client/src/components/Dashboard.jsx:22-81 | With the query sent but the effect still keyed on `skip`, "load more" still ends on the mounted list |
| NotesPaging.LoadMoreContinues | client/src/components/Dashboard.jsx:22-35 | With the query sent and the initial load run only on mount, "load more" shows the user's first forty notes in order, and "more" stays offered exactly when there are at least forty |
| Preload.ResizeWindow | client/preload.js:5 | `resize-window` is sent with the mode, whatever it is, and no listener changes |
| Preload.ResizeKeepsListeners | client/preload.js:5 | A resize with any mode keeps the invariant and changes no delivery, and its request is the newest message |
| Preload.Send | client/preload.js:8-18 | A message goes out exactly when its channel is one of the four allowed; no listener changes |
| Preload.SendKeepsListeners | client/preload.js:8-18 | A send on any channel with any data keeps the invariant and changes no delivery; outside the four channels nothing goes out |
| Preload.Receive | client/preload.js:20-35 | On one of the five allowed channels one listener is added and a remover for it returned; otherwise nothing changes and nothing is returned |
| Preload.Remove | client/preload.js:33 | The remover deletes exactly its own listener |
| Preload.RemoveAllListeners | client/preload.js:38 | Every listener of the channel goes, whatever the channel, and the others stay |
| Preload.Emit | client/preload.js:29-30 | An emission calls each listener of the channel in order with the arguments, the event dropped |
| Preload.ReceiveValid | client/preload.js:20-35 | Listener ids stay below the next id |
| Preload.ReceiveThenRemoveRestores | client/preload.js:29-33 | Subscribing and calling the remover gives back the listeners as they were |
| Preload.RemoveKeepsOtherChannels | client/preload.js:33 | Removing a listener changes nothing on another channel |
| Preload.RemoveIdempotent | client/preload.js:33 | Calling a remover twice is the same as once |
| Preload.ReceiveThenEmit | client/preload.js:28-30 | A subscribed callback gets every later emission on its channel, after the earlier listeners |
| Preload.RemoveAllSilences | client/preload.js:38 | After `removeAllListeners` an emission on that channel reaches nobody |
| AuthClient.HandleResponse | client/src/api/auth.js:5-16 | An ok reply gives its body; any other throws with the body's message or "Request failed", the status and the body |
| AuthClient.Authenticated | client/src/api/auth.js:27-32 | Succeeds exactly when the reply is ok and carries a truthy user and token |
| AuthClient.DataMessage | client/src/api/auth.js:58 | A truthy message in the error body is the result, as text; with no body, a null body or a falsy message it is the fallback |
| AuthClient.LoginError | client/src/api/auth.js:54-58 | A network error becomes the connection message; any other error the server's message or the login fallback |
| AuthClient.RegisterError | client/src/api/auth.js:96-104 | A 409 becomes the duplicate-account message, then network errors and the fallback as for login |
| AuthClient.LoginUser | client/src/api/auth.js:18-60 | On success returns the user with its token and stores `userId`, `token` and `user`; on failure storage is unchanged and the reworded error is thrown |
| AuthClient.RegisterUser | client/src/api/auth.js:62-106 | On success returns the user with its token; on failure throws the reworded error |
| AuthClient.ValidateSession | client/src/api/auth.js:109-123 | A rejection, a reply that is not ok or a null body gives null; an ok reply gives its `user` when its `valid` is truthy and null otherwise |
| AuthClient.ValidSessionReturnsUser | client/src/api/auth.js:116-117 | An ok reply `{ valid: true, user: u }` gives `u`, and one with `valid: false` gives null whatever its user |
| AuthClient.LogoutUser | client/src/api/auth.js:126-141 | The three stored keys are removed and the socket service disconnects |
| AuthClient.LoginNetworkError | client/src/api/auth.js:54-56 | A rejection whose message contains "NetworkError" surfaces as the connection message and stores nothing |
| AuthClient.LoginFetchFailed | client/src/api/auth.js:54-58 | A rejection with the message "Failed to fetch" names no NetworkError, so it surfaces as the generic login failure and stores nothing |
| AuthClient.LoginRefusedMessage | client/src/api/auth.js:8-12 | A refused login shows the server's message, or the login fallback |
| AuthClient.NoNetworkErrorIn | client/src/api/auth.js:54 | A message without an 'N' is never taken for a network error |
| AuthClient.RegisterConflict | client/src/api/auth.js:96-98 | A 409 always gives the duplicate-account message |
| AuthClient.LogoutBlocksStoredReconnect | client/src/api/auth.js:129-135 | After logout, a `connect` without arguments fails for lack of stored credentials |
| AppContext.Mount | client/src/context/appContext.jsx:14-36 | No contract of its own: no notes, the stored theme or "light", and the user `Restore` gives. `LoginThenRestore` and `CorruptRecordWiped` state its effects |
| AppContext.Restore | client/src/context/appContext.jsx:20-36 | With a token and a record the parsed record is the user; a record that does not parse is wiped along with the token and email |
| AppContext.UserToStore | client/src/context/appContext.jsx:40-45 | The stored record has exactly `_id`, email, name and token; the name defaults to the email's text before '@' and the token to "dummy-token"; null input raises |
| AppContext.Login | client/src/context/appContext.jsx:38-58 | Stores token, email and the record, and connects the socket service exactly when the record has an id |
| AppContext.Logout | client/src/context/appContext.jsx:60-70 | Clears the user and notes, removes the three keys, keeps the theme, and disconnects the service |
| AppContext.DefaultNameIsEmailPrefix | client/src/context/appContext.jsx:43 | A record without a name is named after its email's text before '@' |
| AppContext.LoginThenRestore | client/src/context/appContext.jsx:20-58 | After login, a reload restores the same user |
| AppContext.LoginConnectsIffId | client/src/context/appContext.jsx:53-55 | Without an id login leaves the socket service alone; with one it opens a socket |
| AppContext.LogoutLeavesUserId | client/src/context/appContext.jsx:66-68 | Logout leaves `userId` and `user` in storage, yet a stored-credential `connect` then fails |
| AppContext.CorruptRecordWiped | client/src/context/appContext.jsx:28-34 | A corrupt record gives no user and is removed, so the next mount gives no user either |
| LoginForm.UserDataFor | client/src/components/Login.jsx:27-31 | The record built has exactly name, email and token, the name defaulting to the email's text before '@' |
| LoginForm.AttemptWith | client/src/components/Login.jsx:17-45 | The spinner always ends; a thrown error shows its message or the fallback; navigating implies no error. It takes `loginUser`'s outcome as a parameter; the storage writes of that call are stated by `AuthClient.LoginUser` |
| LoginForm.HandleLoginAsWritten | client/src/components/Login.jsx:17-45 | A reply with a token logs in and navigates; one without shows its message or "Login failed" |
| LoginForm.LoginPageNeverConnects | client/src/components/Login.jsx:27-32 | As written, the record handed to `login` has no id, so logging in never touches the socket service |
| LoginForm.BuildWithId | client/src/components/Login.jsx:27-31 | The corrected record adds the reply's `_id` |
| LoginForm.HandleLogin | client/src/components/Login.jsx:17-45 | Corrected, a thrown error leaves the app untouched and does not navigate |
| LoginForm.LoginConnects | client/src/context/appContext.jsx:53-55 | Corrected, a reply with an id and a token navigates and connects the socket service as that user |
| LoginForm.EnterIffEnabled | client/src/components/Login.jsx:49 | Enter logs in exactly when the button is enabled, and no other key does |
| LoginForm.EnterTriggers | client/src/components/Login.jsx:48-50 | No contract of its own: Enter, not loading, and both fields non-empty. `EnterIffEnabled` relates it to the button |
| LoginForm.ButtonDisabled | client/src/components/Login.jsx:124 | No contract of its own: loading or an empty field. `EnterIffEnabled` and `AttemptReenables` state its behaviour |
| LoginForm.AttemptReenables | client/src/components/Login.jsx:43 | After any attempt with both fields filled, the button is enabled again |
| RegisterForm.HandleChange | client/src/components/Register.jsx:19-27 | The named field takes the value, the other fields are kept, and the error clears |
| RegisterForm.Check | client/src/components/Register.jsx:33-41 | Passes exactly when every field is filled and the password has at least 6 UTF-16 units; an empty field is reported first |
| RegisterForm.HandleSubmit | client/src/components/Register.jsx:29-60 | `registerUser` is called exactly when the checks pass; success shows the message and redirects, failure shows the error; no field but the messages and spinner changes |
| RegisterForm.ShortPasswordRefused | client/src/components/Register.jsx:38-41 | A short password is refused before any call |
| RegisterForm.AstralPasswordAccepted | client/src/components/Register.jsx:38 | Three astral characters count as six units and pass the length check |
| RegisterForm.ConflictShown | client/src/components/Register.jsx:54-56 | A 409 shows the duplicate-account message and does not redirect |
| RegisterForm.EditClearsRefusal | client/src/components/Register.jsx:26 | Editing any field after a submit clears the error |
| NotesRoutes.VerifyJwt | pyserver/routes/notes.py:17-25 | An expired token is "Token expired" and any other bad token "Invalid token", both 401; a good one gives its payload |
| NotesRoutes.AddNote | pyserver/routes/notes.py:29-36 | Succeeds exactly for a payload with `_id`; then one document with the title, content and that id is added and its id returned |
| NotesRoutes.JwtGuardsRoutes | pyserver/routes/notes.py:17-41 | Adding and listing succeed exactly when `verify_jwt` gives a payload with `_id` (listing also needs a non-negative skip), and both report its error otherwise |
| NotesRoutes.Page | pyserver/routes/notes.py:42 | Skips the first items; a limit of 0 means no limit, and a negative limit returns at most its absolute value |
| NotesRoutes.ToNotes | pyserver/routes/notes.py:44-49 | Each document becomes a note with its title, content and id, position by position |
| NotesRoutes.GetNotes | pyserver/routes/notes.py:40-50 | Succeeds exactly for a payload with `_id` and a non-negative skip; returns that page of the user's documents as notes |
| NotesRoutes.GetNotesOwnOnly | pyserver/routes/notes.py:41-42 | Every note returned comes from one of the caller's documents, and a non-zero limit bounds the count |
| NotesRoutes.DefaultPage | pyserver/routes/notes.py:40 | The defaults give the user's first twenty notes, or all when fewer |
| NotesRoutes.PagesConcatenate | pyserver/routes/notes.py:42 | Two consecutive pages are the page twice as long |
| NotesRoutes.PagesCover | pyserver/routes/notes.py:42 | Paging in steps of the limit visits every item from the start, once, in order |
| NotesRoutes.PageThenRest | pyserver/routes/notes.py:42 | A page followed by everything after it is everything from the page's start |
| NotesRoutes.AddThenGet | pyserver/routes/notes.py:30-50 | A note added by a user appears last on that user's unlimited page |
| NotesRoutes.ToNotesAppend | pyserver/routes/notes.py:44-49 | Converting a run with one more document appends its note |
| AuthController.FindOne | server/src/controllers/authController.js:14 | Finds the first user with the email, and none exactly when no user has it |
| AuthController.Public | server/src/controllers/authController.js:28-32 | The user in a reply has exactly `_id`, name and email |
| AuthController.Login | server/src/controllers/authController.js:8-35 | Missing fields, an unknown email and a wrong password are refused in that order; otherwise a token and the public user are returned |
| AuthController.Signup | server/src/controllers/authController.js:38-69 | Missing fields and a known email are refused with the store unchanged; otherwise exactly one user with the hashed password is added |
| AuthController.FindOneAppend | server/src/controllers/authController.js:14 | Adding a user keeps the earlier match, or finds the new user when none matched |
| AuthController.SignupThenLogin | server/src/controllers/authController.js:8-69 | Logging in with the signup's email and password returns the account just made |
| AuthController.SignupTwiceRefused | server/src/controllers/authController.js:44-47 | A second signup with the same email is refused and changes nothing |
| AuthController.NoPasswordInReplies | server/src/controllers/authController.js:26-34 | No reply of either controller carries a password |
| AuthMiddleware.TokenOf | server/src/middleware/authMiddleware.js:12 | The token taken from the header holds no space |
| AuthMiddleware.VerifyToken | server/src/middleware/authMiddleware.js:7-21 | Only a header with the scheme, a token that verifies, an id that reads and a lookup that resolves reach `next`, with the user found; every other case is the same 401 |
| AuthMiddleware.BearerToken | server/src/middleware/authMiddleware.js:12 | The token is the header's text after "Bearer ", up to the next space |
| AuthMiddleware.AcceptedToken | server/src/middleware/authMiddleware.js:15-17 | A token that verifies reaches `next` exactly when the lookup resolves, even to a null user |

## Left out

- Logging, `console` output and the debug flag: none of it affects state.
- Wall-clock time: timers are unordered events, and `Date.now` is a parameter.
- The event loop's interleavings beyond one handler per event, such as a timer firing in the middle of an `await`.
- Electron main-process handlers: they are not part of this model.
- `User.js` and the database driver are not part of this model. Documents are sequences in insertion order.
- MongoDB query operators inside an email are not modelled, and neither are non-string emails.
- bcrypt applied to a non-string password is not modelled.
- The internals of `HTTPBearer`, which refuses a missing header with 403, are not modelled. The notes routes start from the decoded token.
- The uuid generator is left out; connection ids are parameters.
- ConnectionManager.SafeCloseCalls: the two socket states are an oracle. What Starlette's `close` itself does, and the exception it may raise (logged and swallowed by `_safe_close`), are not modelled.
- `next()` throwing inside the middleware's try block is left out. It would send a second 401.
- `formatDate`, `handleResizeWindow`, view-mode switching and the rendering are left out: they are display only.
- `String(_id)` conversions use the number-rendering parameter.
- Dashboard.Truncate: counts characters, not UTF-16 code units as `String.prototype.slice` does, because notes are modelled as sequences of characters.
- WebSocketProvider.Mount: the `[connect]` effect and the token effect run again whenever `url` or `token` changes, and a pending `setTimeout(connect)` keeps calling the `connect` of the render that armed it, with the old `url` and `token`. The model has one fixed `url` and `token` and runs the effects only on mount.
- LoginForm.AttemptWith: it does not call `AuthClient.LoginUser`, so it does not carry that call's writes of `userId`, `token` and `user` to storage. It takes the call's outcome, a value or a thrown message, as a parameter.
- NotesFeed.Merge: the own properties of a string or an array spread into an object are not modelled; such values contribute no keys.
- WebSocketServiceProps.LastRound: the whole trace of a handshake that keeps failing until attempts run out is stated round by round, through `FailedRound` and `LastRound`, not as one lemma over the full trace.
- WebSocketService.Backoff: states the cap and lower bound, not the exact value, which `BackoffSchedule` states.
- Dashboard.LoadMoreAppends: describes the state update of the two loads alone. The reset load the effect runs after `skip` changes is composed in NotesPaging.LoadMore.
- Dashboard.SkipTracksList: describes repeated appends alone. With the effect as written, the list never stays past the first page (NotesPaging.LoadMoreNeverAdvances).
- Dashboard.HandleAddNote: the reload it starts and the effect's reset load after `skip` is set to 0 are not composed with each other.
- NotesPaging.Settle: loads run one at a time to completion. A reset load that overlaps a load still in flight is not modelled.
- WebSocketService.OnMessage: handlers are opaque ids that neither add nor remove handlers, send, nor disconnect while `Set.forEach` walks the live set.
- WebSocketServiceProps.MessagesChangeNothing: holds only for handlers with no effect on the service, as in `OnMessage`.
- `NotesFeed.jsx` imports `useWebSocketMessages` from `contexts/WebSocketContext.jsx`, which does not export it (the hook lives in `hooks/useWebSocketMessages.js`). Also, `App.jsx` renders neither `NotesFeed` nor `WebSocketProvider`. So the modelled feed and provider never run in the app as written. They are modelled as their code reads.

## Findings

| source | as written | input that shows it | evidently intended | confidence | as-written member | corrected member |
|---|---|---|---|---|---|---|
| client/src/api/websocket.js:117-130 | a failed handshake runs the close handler and the catch block, and both call `_handleReconnect` | a service with no attempts used, and a socket whose handshake fails | one reconnect attempt per failed connection | not executed | WebSocketServiceProps.FailedHandshakeCountsTwice | WebSocketServiceProps.FixedFailedHandshakeCountsOnce |
| client/src/api/websocket.js:127-130 | the catch block reconnects without checking `isExplicitDisconnect` | `disconnect()` while the handshake is pending, followed by the handshake failing | no reconnect after an explicit disconnect | not executed | WebSocketServiceProps.DisconnectDuringHandshakeReconnects | WebSocketServiceProps.FixedDisconnectSuppressesReconnect |
| client/src/api/websocket.js:203-206 | no inbound frame clears `heartbeatTimeout` | an open socket, one ping tick, any number of replies, then the timeout | a reply cancels the pong timeout | not executed | WebSocketServiceProps.PongTimeoutSurvivesReplies | WebSocketServiceProps.FixedReplyCancelsPongTimeout |
| client/src/api/websocket.js:121 | the replaced socket's `onclose` stays bound to the service | an open socket, a new `_connect` that opens, then the old socket's close event | a close of a socket that is no longer current is ignored | not executed | WebSocketServiceProps.StaleCloseDisruptsNewSocket | WebSocketServiceProps.FixedStaleCloseIgnored |
| client/src/components/Dashboard.jsx:89 | `addNote(title, content)` against `addNote({ title, content, userId })` | any filled form: the string title has no `title` property, so `addNote` throws before posting | pass `{ title, content }` | not executed | Dashboard.AddNoteAsWrittenNeverPosts | Dashboard.HandleAddNote |
| client/src/components/Login.jsx:27-32 | the record handed to `login` has no `_id` | any successful login from the login page | include `_id: res._id` so that `login` connects the socket service | not executed | LoginForm.LoginPageNeverConnects | LoginForm.LoginConnects |
| client/src/api/notes.js:4-14 | `fetchNotes()` takes no parameters and sends no query, while the dashboard calls `fetchNotes(skip, limit)`; and `loadNotes` depends on `skip`, so the effect that runs it re-runs a reset load whenever `skip` changes (Dashboard.jsx:22-81) | a user with at least twenty notes presses "Load More Notes": the first twenty show twice, then the reset load the effect runs on the change of `skip` brings the list back to the first twenty; note twenty-one never appears | send `?skip=&limit=`, and run the initial load only on mount rather than on every change of `loadNotes` | not executed | NotesPaging.LoadMoreRepeatsFirstPage | NotesPaging.LoadMoreContinues |

# Chat rooms and presence, modelled in Dafny

This project models the room-and-presence engine of a socket.io chat
server (`server/app.js`) and the chat page's view reducer
(`client/src/pages/Chat.tsx`). The server keeps two in-memory stores:
`rooms`, an ordered list of `{id, name, participants, clients, messages,
maxParticipants}`, and `users`, a map `userId -> {socketId, nickname,
lastSeen}`. Each inbound socket event is handled to completion. The
handler may change the stores, write files, and emit outbound events to
the sender, to a room, or to everyone.

The model is one pure function:
`Server.Step(state, socketId, env, event) -> Transition(state', outbound)`.
The outbound events come in emission order, each tagged with its audience.
`env` supplies the fresh room id that `uuidv4()` would draw and the
timestamp that `new Date().toISOString()` would give. The files the
server writes (`rooms.json`, `chat_history/<roomId>.json`, `users.json`)
are a `Store` inside the state. The store changes exactly where a handler
calls `saveRooms`, `saveChatHistory` or `saveUsers`.

Modules:

- `Wrappers`: `Option`, for values that may be `undefined`.
- `Seqs`: `filter`, and `includes` followed by a conditional `push`, with
  order, idempotence and duplicate-freedom facts.
- `Text`: `String.prototype.trim` over ECMAScript white space.
- `Directory`: the `users` object. Keys are kept in insertion order
  because identity is resolved by the first key whose record holds the
  connection.
- `Rooms`: rooms, the `roomInfo` snapshot, the room-list partition, and
  the save/load projections.
- `Server`: inbound and outbound events, one handler per event, and `Step`.
- `ServerProperties`: invariants over every event (persistence
  consistency, append-only lists, duplicate-free membership) plus
  capacity and idempotence.
- `Scenario`: the worked capacity example with users A, B and C.
- `ChatView`: the chat page's message list, typing list, expiry sweep and
  send guard.
- `Sync`: how the page's list follows the server's history.

JavaScript behaviour kept as written:

- A lookup result of `""` is falsy. Where the code tests `if (userId)`,
  that counts as unresolved.
- `join-room` and `typing` use the raw lookup result, which may be
  `undefined`. That is why a participant entry is `Option<UserId>`.
- `users[id]?.nickname || "Unknown"` shows "Unknown" for an empty
  nickname as well as for a missing record.
- `room-exists` and `send-message` add a participant with no capacity
  check.
- `users` starts empty because the user file is never read back. The first
  `saveUsers` after a restart overwrites the file with only the users seen
  since.

Behaviour kept as the code has it, where a reader might expect otherwise:

- `room-exists` and `leave-room` emit nothing when the room is unknown or
  the sender unresolved.
- `join-room` has no identity guard.
- `disconnect` does nothing at all for an unresolved connection, and it
  only updates `lastSeen`.
- `leave-room` also rewrites `rooms.json`.
- `send-message` changes membership but emits no `update-room-list`.

## Model

| member | source | states |
|---|---|---|
| Directory.Lookup | server/app.js:124-126 | The resolved user holds the connection, and no key earlier in key order holds it. When there is none, no key holds it. |
| Directory.SetNickname | server/app.js:314-326 | Upsert. The user's record becomes {socket, nickname, now}. Every other record is unchanged. A new key is appended to the key order. Directory validity is preserved. |
| Directory.Touch | server/app.js:398-399 | Only the user's `lastSeen` changes. |
| Directory.DisplayName | server/app.js:218 | The participant's nickname when the record exists and the nickname is non-empty. "Unknown" in every other case, including an empty nickname. Never empty. |
| Directory.LookupAfterSetNickname | server/app.js:314-331 | After `set-nickname` on a socket, the socket resolves to that user iff no user earlier in key order still holds the socket. |
| Directory.LookupShadowedByEarlierUser | server/app.js:124-126 | Concrete case: re-registering user b on socket "s" still resolves "s" to an earlier user a. |
| Seqs.RemoveAll | server/app.js:290-292 | Every occurrence is removed. Every other element keeps its multiplicity and its order. No change when absent. Duplicate-freedom is kept. |
| Seqs.Filter | server/app.js:132-146 | The result holds exactly the elements satisfying the predicate, each as often as in the input. |
| Seqs.AddIfAbsent | server/app.js:204-209 | The element is present afterwards. The old list is a prefix of the result. Nothing is added when it was already there. Duplicate-freedom is kept. |
| Seqs.FilterIsSubsequence | server/app.js:132-146 | A filtered list keeps the original order. |
| Text.Trim | server/app.js:177-185 | The result is the infix left after stripping white space at both ends. It is empty iff the input is all white space. |
| Text.TrimIdempotent | server/app.js:185 | Trimming a trimmed name changes nothing. |
| Rooms.Snapshot | server/app.js:213-221 | `currentParticipants` equals the participant count. There is one entry per participant, in order, carrying the display name. `isOnline` holds iff the participant's record's socket is among the room's clients. |
| Rooms.ListFor | server/app.js:131-146 | A room is in `myRooms` iff the user is a participant. It is in `availableRooms` iff not a member and below capacity, and in `fullRooms` iff not a member and at or over capacity. |
| Rooms.ListForPartitions | server/app.js:132-146 | The three lists together hold every room exactly as often as the room list does. Each room lands in exactly one list. Each list keeps room order. |
| Rooms.FindRoom | server/app.js:198 | The first room with the id, or none when no room has it. |
| Rooms.HistoryOf | server/app.js:32-43 | The stored history of the room, or the empty list when there is no history file. |
| Rooms.SaveRooms | server/app.js:97-105 | Each room is projected to id, name, participants and maxParticipants, in order. |
| Rooms.LoadRooms | server/app.js:78-93 | Each saved room is restored with its four fields, no clients, and its stored history (empty when none). |
| Rooms.SaveAfterLoad | server/app.js:83-105 | Saving freshly loaded rooms writes back the same file. |
| Rooms.LoadAfterSave | server/app.js:83-105 | Loading saved rooms restores every room except its live clients, when each history file holds that room's messages. |
| Server.Boot | server/app.js:112-117 | At start, one room per saved room, each with no live clients. `roomsId` is their ids, and `users` has no keys. |
| Server.RoomListFor | server/app.js:123-155 | An unresolved connection is sent nothing. A resolved one is sent exactly its room list. |
| Server.NewRoom | server/app.js:183-190 | The new room has the fresh id, the trimmed name, the owner as sole participant, the socket as sole client, and no messages. Its capacity is the argument, or 2 when none is given. |
| Server.HandleCreateRoom | server/app.js:166-195 | An unresolved sender gets `nickname-required`. A missing or blank name gets `room-name-required`. Both leave the state unchanged. Otherwise exactly one room is appended, with the fresh id, the trimmed name, the sender as sole participant and client, no messages, and the given capacity or 2 when none is given. Earlier rooms and users are unchanged. Then `room-created` and a global `update-room-list` are sent. |
| Server.Enter | server/app.js:204-209 | The user is appended to the participants and the socket to the clients, each only if absent. Nothing else in the room changes. |
| Server.Detach | server/app.js:290-292 | Only the socket leaves the clients. The other clients keep their order and multiplicity. Participants, messages, name and capacity are unchanged. |
| Server.HandleRoomExists | server/app.js:197-234 | For a found room and a resolved sender, the room becomes exactly `Enter` of the old room. That is, the sender joins with no capacity check and nothing else in the room changes. No other room and no user changes. The sender gets the full history with the snapshot, then `room-info-updated` and `update-room-list` follow. Otherwise nothing happens. |
| Server.HandleJoinRoom | server/app.js:236-282 | An unknown room gets `room-not-found`. A non-member joining a full room gets `room-full`. Both leave the state unchanged. Otherwise the room becomes exactly `Enter` of the old room with the lookup result (possibly undefined). No other room and no user changes. |
| Server.HandleLeaveRoom | server/app.js:284-312 | For a found room and a resolved sender, that room becomes exactly `Detach` of the old room, and no other room or user changes. Otherwise nothing happens. |
| Server.HandleSetNickname | server/app.js:314-332 | The directory becomes exactly the upsert, with a new user's key appended last, and the user file is written. Rooms, room ids, the rooms file and the history files are unchanged. The reply is `nickname-set`, followed by the room list of whoever the socket now resolves to. |
| Server.HandleSendMessage | server/app.js:342-378 | An unknown room gets `room-not-found`. An unresolved sender gets `nickname-required`. Both leave the state unchanged. Otherwise the room becomes `Enter` of the old room with exactly one message appended. The message carries the sender's id, nickname at send time and timestamp. No other room changes. The history file is rewritten, and the message is broadcast to the room. |
| Server.HandleTyping | server/app.js:380-385 | No state change. The relay goes to the room without the sender and carries the raw lookup result. |
| Server.HandleStopTyping | server/app.js:387-389 | No state change. The relay goes to the room without the sender. |
| Server.DetachEverywhere | server/app.js:403-408 | Every room loses the socket from its clients and nothing else. |
| Server.DetachNotices | server/app.js:403-421 | Exactly one `room-info-updated` per room the socket was live in, carrying that room's snapshot after the socket left. The notices come in room order. Rooms where the socket was not live get none. |
| Server.HandleDisconnect | server/app.js:392-427 | For an unresolved connection nothing happens. Otherwise the directory changes only in the user's `lastSeen`, and every room becomes `Detach` of itself. Both files are rewritten, and room ids and histories are unchanged. The output is the per-room notices followed by one global `update-room-list`. |
| Server.Step | server/app.js:119-428 | Connection and `update-room-list` change nothing and send only the room list. `typing` and `stop-typing` change nothing and send one relay. Only `set-nickname` and `disconnect` touch the users. Only `create-room` adds a room or a room id. |
| ServerProperties.BootIsConsistent | server/app.js:112-117 | Starting from files with distinct room ids gives a consistent state. |
| ServerProperties.StepPreservesConsistency | server/app.js:166-427 | Every event keeps the state consistent, given a fresh id for `create-room`. Consistent means: `roomsId` matches the rooms, ids are distinct, `rooms.json` is the projection, each history file holds its room's messages, and `users.json` equals the directory once any user exists. |
| ServerProperties.CreateRoomPreservesConsistency | server/app.js:182-191 | `create-room` with a fresh id keeps the state consistent. |
| ServerProperties.SendMessagePreservesConsistency | server/app.js:363-373 | `send-message` keeps the history files and `rooms.json` in step. |
| ServerProperties.DisconnectPreservesConsistency | server/app.js:398-425 | `disconnect` keeps the state consistent. |
| ServerProperties.RestartRecoversRooms | server/app.js:78-117 | From a consistent state, a restart restores every room except its live clients, and starts with no users. |
| ServerProperties.RestartThenNicknameKeepsOneUser | server/app.js:116-117 | After a restart, the first `set-nickname` rewrites the user file with that one user only. |
| ServerProperties.StepIsAppendOnly | server/app.js:119-428 | No event removes, renames or resizes a room. Participant lists and histories only grow at the end. |
| ServerProperties.StepKeepsMembershipDistinct | server/app.js:247-257 | If no room lists a participant or client twice, no event makes one do so. |
| ServerProperties.JoinRoomKeepsCapacity | server/app.js:246-253 | `join-room` leaves a room at or under its capacity still at or under it. |
| ServerProperties.RoomExistsCanOverfill | server/app.js:203-206 | Concrete case: `room-exists` puts a second participant into a room of capacity 1. |
| ServerProperties.JoinRoomIdempotent | server/app.js:247-257 | Repeating `join-room` from the same socket leaves the state as the first call left it. |
| ServerProperties.RoomExistsIdempotent | server/app.js:204-209 | Repeating `room-exists` from the same socket leaves the state as the first call left it. |
| ServerProperties.SendMessageMembershipIdempotent | server/app.js:362-369 | A second `send-message` from the same socket leaves participants and clients as the first left them. |
| ServerProperties.DisconnectShowsOffline | server/app.js:403-419 | After `disconnect`, participants are unchanged. A participant whose record holds the socket shows offline. Every other participant's online state is as before. |
| Scenario.CapacityScenario | server/app.js:246-252 | A creates "Test" for two. The room is in A's own list and in C's available list. B joins, and the room is in C's full list. C gets `room-full`, and the state is unchanged. |
| Scenario.CreateAppendsNewRoom | server/app.js:175-190 | With a resolved sender and a non-blank name, `create-room` appends exactly the new room to the list. |
| ChatView.OnRoomExists | client/src/pages/Chat.tsx:64-70 | The list is replaced wholesale with one entry per server message, in order. Each entry copies text, nickname and timestamp. `isMine` holds iff the author is the viewer. |
| ChatView.Format | client/src/pages/Chat.tsx:64-69 | Text, nickname and timestamp are copied. `isMine` holds iff the author is the viewer. |
| ChatView.OnReceiveMessage | client/src/pages/Chat.tsx:80-94 | Exactly one formatted message is appended. Earlier entries are unchanged. |
| ChatView.ReceiveExtendsReplay | client/src/pages/Chat.tsx:64-94 | Appending a received message to a replayed history equals replaying the history with that message. |
| ChatView.OnUserStopTyping | client/src/pages/Chat.tsx:127-129 | Exactly the entries with other nicknames survive, each as often as before and in their original order. Unique nicknames stay unique. |
| ChatView.OnUserTyping | client/src/pages/Chat.tsx:111-120 | The viewer's own user id is ignored. Otherwise the nickname appears exactly once, last, with `now`. Entries of other nicknames keep their multiplicity and order. Unique nicknames stay unique. |
| ChatView.Sweep | client/src/pages/Chat.tsx:156-158 | Exactly the entries younger than 3000 ms are kept, each as often as before and in order. Unique nicknames stay unique. |
| ChatView.SweepIdempotent | client/src/pages/Chat.tsx:156-158 | Sweeping twice at one instant equals sweeping once. |
| ChatView.TypingIndicatorExpires | client/src/pages/Chat.tsx:111-158 | After a `user-typing` at time t, a sweep at t+3000 or later shows no entry for that nickname. Any earlier sweep still shows it. |
| ChatView.HandleSendMessage | client/src/pages/Chat.tsx:173-177 | A send happens iff the draft is not blank and the room id and nickname are non-empty. The untrimmed draft is sent and the input cleared. Otherwise the draft is kept. |
| ChatView.SendClearsDraft | client/src/pages/Chat.tsx:173-177 | Sending again right after a send sends nothing. |
| Sync.ReceivedMessageMatchesHistory | server/app.js:371-374 | After a successful `send-message`, a page showing the room's history that applies the broadcast message shows the new history. |
| Sync.OwnTypingIgnored | server/app.js:380-385 | A `user-typing` relayed from a connection that resolves to the viewer leaves the viewer's typing list unchanged. |
| Sync.StopTypingClearsIndicator | server/app.js:387-389 | After a `stop-typing` relay, the receiving page shows no entry for that nickname and keeps every other entry. The server state is unchanged. |

## Left out

- Express and socket.io setup, CORS, and the `socket.join`, `socket.leave`, `io.to` and `emit` transport. Audiences are tags. Which sockets a room channel reaches is not modelled.
- File I/O, directory creation and JSON encoding. A write always succeeds in the model. The logged-and-swallowed failures of the source are not modelled, and neither is a history file that fails to parse.
- Rooms.LoadAfterSave: the JSON round trip of an `undefined` participant is not modelled. `join-room` can push `undefined` (server/app.js:252), and `JSON.stringify` writes it as `null`. The model keeps a single `None`, so the round trip is exact here but not in the source.
- ServerProperties.RestartRecoversRooms: for the same reason, after a restart the source's `includes(undefined)` (server/app.js:247) no longer matches the reloaded `null`. An unresolved `join-room` then runs the capacity check again and pushes a second entry. The model does not show this.
- Reading `rooms.json` assumes each saved room has a `participants` list. The `|| []` fallback for a file without one is not modelled.
- `uuidv4()` and the clock are parameters. `Step` does not require ids to be fresh. Only the consistency invariant assumes a fresh `create-room` id.
- `get-nickname`. It indexes `users` by socket id rather than by user id, so it never answers for the client's user ids.
- JavaScript object-key details are not modelled: integer-like keys sorting first in `Object.keys`, prototype keys such as `__proto__`, and `users[undefined]` reading the key "undefined". An `undefined` participant is treated as having no record.
- Payloads of the wrong JavaScript type (a non-number `maxParticipants`, a missing `roomId` in `typing`) are out of scope. Every field has its declared type.
- Console logging.
- From the chat page:
  - rendering, scrolling, the new-message preview and `localStorage` caching;
  - `handleRoomInfoUpdated`, a plain replacement of the shown room info;
  - `handleInputChange`, which emits `typing` and schedules `stop-typing` with `setTimeout`;
  - the `setInterval` scheduling of the sweep. The sweep is a function of an explicit `now`.
- The home page, the socket construction in `main.tsx`, and routing.

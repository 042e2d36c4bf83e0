/**
 * The socket event handlers of the chat server as one pure transition
 * function: `Step(state, socketId, env, event)` returns the new state and
 * the outbound events in emission order, each tagged with its audience.
 * The fresh room id (`uuidv4()`) and the current time
 * (`new Date().toISOString()`) come in through `env`. The files the
 * server writes are modelled by `Store`, updated exactly where a handler
 * calls `saveRooms`, `saveChatHistory` or `saveUsers`.
 */
module Server {
  import opened Wrappers
  import opened Directory
  import opened Rooms
  import Seqs
  import Text

  /** The default of the `create-room` handler's `maxParticipants` parameter. */
  const DefaultMaxParticipants := 2

  /** What is on disk: `rooms.json`, `chat_history/<roomId>.json` and `users.json`. */
  datatype Store = Store(rooms: seq<SavedRoom>, history: map<RoomId, seq<Message>>, users: Users)

  /** The process-wide state: `rooms`, `roomsId`, `users`, and the files. */
  datatype State = State(rooms: seq<Room>, roomIds: seq<RoomId>, users: Users, store: Store)

  /** Values the handlers draw from `uuidv4()` and the clock. */
  datatype Env = Env(freshId: RoomId, now: Timestamp)

  /** Inbound socket events; `Connect` is the `connection` callback itself. */
  datatype Inbound =
    | Connect
    | UpdateRoomList
    | CreateRoom(maxParticipants: Option<int>, roomName: Option<string>)
    | RoomExists(roomId: RoomId)
    | JoinRoom(roomId: RoomId)
    | LeaveRoom(roomId: RoomId)
    | SetNickname(nickname: string, userId: UserId)
    | SendMessage(roomId: RoomId, message: string)
    | Typing(roomId: RoomId, nickname: string)
    | StopTyping(roomId: RoomId, nickname: string)
    | Disconnect

  /** `socket.emit`, `io.to(room).emit`, `socket.to(room).emit` and `io.sockets.emit`. */
  datatype Audience = Sender | RoomMembers(roomId: RoomId) | RoomExceptSender(roomId: RoomId) | Everyone

  datatype Payload =
    | RoomListSent(list: RoomList)
    | NicknameRequired
    | RoomNameRequired
    | RoomCreated(roomId: RoomId)
    | UpdateRoomListSignal
    | RoomExistsReply(messages: seq<Message>, roomInfo: RoomInfo)
    | RoomInfoUpdated(info: RoomInfo)
    | RoomJoined(roomId: RoomId)
    | RoomFull
    | RoomNotFound
    | NicknameSet(nickname: string)
    | ReceiveMessage(data: Message)
    | UserTyping(nickname: string, userId: Option<UserId>)
    | UserStopTyping(nickname: string)

  datatype Outbound = Outbound(to: Audience, payload: Payload)

  datatype Transition = Transition(state: State, out: seq<Outbound>)

  /** Process start: rooms loaded from disk, `roomsId` derived, `users` empty (the user file is not read). */
  function Boot(store: Store): (st: State)
    ensures st.rooms == LoadRooms(store.rooms, store.history)
    ensures st.roomIds == IdsOf(st.rooms)
    ensures st.users == Empty && st.users.keys == [] && st.store == store
    ensures |st.rooms| == |store.rooms| && forall i :: 0 <= i < |st.rooms| ==> st.rooms[i].clients == []
  {
    var rooms := LoadRooms(store.rooms, store.history);
    State(rooms, IdsOf(rooms), Empty, store)
  }

  /** Replace the rooms and write `rooms.json` (`saveRooms`). */
  function WithRooms(st: State, rooms: seq<Room>): (r: State)
    ensures r.rooms == rooms && r.store.rooms == SaveRooms(rooms)
    ensures r.roomIds == st.roomIds && r.users == st.users
    ensures r.store.history == st.store.history && r.store.users == st.store.users
  {
    st.(rooms := rooms, store := st.store.(rooms := SaveRooms(rooms)))
  }

  /** Replace the users and write `users.json` (`saveUsers`). */
  function WithUsers(st: State, users: Users): (r: State)
    ensures r.users == users && r.store.users == users
    ensures r.rooms == st.rooms && r.roomIds == st.roomIds
    ensures r.store.rooms == st.store.rooms && r.store.history == st.store.history
  {
    st.(users := users, store := st.store.(users := users))
  }

  /** `updateRoomList`: the sender's room list, or nothing when the connection resolves to no user. */
  function RoomListFor(st: State, s: SocketId): (out: seq<Outbound>)
    ensures !Resolved(Lookup(st.users, s)) ==> out == []
    ensures Resolved(Lookup(st.users, s)) ==>
              |out| == 1 && out[0].to == Sender && out[0].payload.RoomListSent?
              && out[0].payload.list == ListFor(st.rooms, Lookup(st.users, s).value)
  {
    var id := Lookup(st.users, s);
    if Resolved(id) then [Outbound(Sender, RoomListSent(ListFor(st.rooms, id.value)))] else []
  }

  /** The room `create-room` appends. */
  function NewRoom(id: RoomId, name: string, owner: UserId, s: SocketId, maxParticipants: Option<int>): (r: Room)
    ensures r.id == id && r.name == Text.Trim(name) && r.messages == []
    ensures r.participants == [Some(owner)] && r.clients == [s]
    ensures maxParticipants.Some? ==> r.maxParticipants == maxParticipants.value
    ensures maxParticipants.None? ==> r.maxParticipants == DefaultMaxParticipants
  {
    Room(id, Text.Trim(name), [Some(owner)], [s], [],
         if maxParticipants.Some? then maxParticipants.value else DefaultMaxParticipants)
  }

  /**
   * `create-room`: an unresolved sender gets `nickname-required`, a
   * missing or blank name gets `room-name-required`, both with the state
   * unchanged; otherwise exactly one room is appended and every existing
   * room is left as it was.
   */
  function HandleCreateRoom(st: State, s: SocketId, env: Env, maxParticipants: Option<int>, roomName: Option<string>): (t: Transition)
    ensures !Resolved(Lookup(st.users, s)) ==> t == Transition(st, [Outbound(Sender, NicknameRequired)])
    ensures Resolved(Lookup(st.users, s)) && (roomName.None? || Text.IsBlank(roomName.value)) ==>
              t == Transition(st, [Outbound(Sender, RoomNameRequired)])
    ensures Resolved(Lookup(st.users, s)) && roomName.Some? && !Text.IsBlank(roomName.value) ==>
              && |t.state.rooms| == |st.rooms| + 1
              && t.state.rooms[..|st.rooms|] == st.rooms
              && t.state.rooms[|st.rooms|].id == env.freshId
              && t.state.rooms[|st.rooms|].name == Text.Trim(roomName.value) != ""
              && t.state.rooms[|st.rooms|].participants == [Lookup(st.users, s)]
              && t.state.rooms[|st.rooms|].clients == [s]
              && t.state.rooms[|st.rooms|].messages == []
              && (maxParticipants.Some? ==> t.state.rooms[|st.rooms|].maxParticipants == maxParticipants.value)
              && (maxParticipants.None? ==> t.state.rooms[|st.rooms|].maxParticipants == DefaultMaxParticipants)
              && t.state.users == st.users
              && t.state.roomIds == st.roomIds + [env.freshId]
              && t.out == [Outbound(Sender, RoomCreated(env.freshId)), Outbound(Everyone, UpdateRoomListSignal)]
  {
    var id := Lookup(st.users, s);
    if !Resolved(id) then Transition(st, [Outbound(Sender, NicknameRequired)])
    else if roomName.None? || Text.Trim(roomName.value) == "" then Transition(st, [Outbound(Sender, RoomNameRequired)])
    else
      var rooms := st.rooms + [NewRoom(env.freshId, roomName.value, id.value, s, maxParticipants)];
      assert rooms[..|st.rooms|] == st.rooms;
      Transition(WithRooms(st.(roomIds := st.roomIds + [env.freshId]), rooms),
                 [Outbound(Sender, RoomCreated(env.freshId)), Outbound(Everyone, UpdateRoomListSignal)])
  }

  /** Make `id` a participant and `s` a live client, each only if absent. */
  function Enter(room: Room, id: Option<UserId>, s: SocketId): (r: Room)
    ensures r.id == room.id && r.name == room.name && r.messages == room.messages
    ensures r.maxParticipants == room.maxParticipants
    ensures id in r.participants && s in r.clients
    ensures forall p :: p in r.participants <==> p in room.participants || p == id
    ensures forall c :: c in r.clients <==> c in room.clients || c == s
    ensures |room.participants| <= |r.participants| <= |room.participants| + 1 && r.participants[..|room.participants|] == room.participants
    ensures Seqs.Distinct(room.participants) ==> Seqs.Distinct(r.participants)
    ensures Seqs.Distinct(room.clients) ==> Seqs.Distinct(r.clients)
    ensures id in room.participants ==> r.participants == room.participants
    ensures s in room.clients ==> r.clients == room.clients
    ensures id !in room.participants ==> r.participants == room.participants + [id]
    ensures s !in room.clients ==> r.clients == room.clients + [s]
  {
    room.(participants := Seqs.AddIfAbsent(room.participants, id), clients := Seqs.AddIfAbsent(room.clients, s))
  }

  /** Drop connection `s` from the live clients. */
  function Detach(room: Room, s: SocketId): (r: Room)
    ensures r.id == room.id && r.name == room.name && r.messages == room.messages
    ensures r.participants == room.participants && r.maxParticipants == room.maxParticipants
    ensures s !in r.clients && forall c :: c != s ==> (c in r.clients <==> c in room.clients)
    ensures Seqs.IsSubsequence(r.clients, room.clients)
    ensures forall c :: c != s ==> multiset(r.clients)[c] == multiset(room.clients)[c]
    ensures s !in room.clients ==> r == room
  {
    room.(clients := Seqs.RemoveAll(room.clients, s))
  }

  /**
   * `room-exists`: for a known room and a resolved sender, the sender
   * becomes a participant (no capacity check) and a live client, and gets
   * the full history with the snapshot; otherwise nothing happens.
   */
  function HandleRoomExists(st: State, s: SocketId, roomId: RoomId): (t: Transition)
    ensures t.state.users == st.users && t.state.roomIds == st.roomIds
    ensures FindRoom(st.rooms, roomId).None? || !Resolved(Lookup(st.users, s)) ==> t == Transition(st, [])
    ensures |t.state.rooms| == |st.rooms|
    ensures FindRoom(st.rooms, roomId).Some? && Resolved(Lookup(st.users, s)) ==>
              var i := FindRoom(st.rooms, roomId).value;
              var room := t.state.rooms[i];
              && (forall j :: 0 <= j < |st.rooms| && j != i ==> t.state.rooms[j] == st.rooms[j])
              && room == Enter(st.rooms[i], Lookup(st.users, s), s)
              && t.out == [Outbound(Sender, RoomExistsReply(room.messages, Snapshot(room, st.users))),
                           Outbound(RoomMembers(roomId), RoomInfoUpdated(Snapshot(room, st.users))),
                           Outbound(Everyone, UpdateRoomListSignal)]
  {
    var found := FindRoom(st.rooms, roomId);
    var id := Lookup(st.users, s);
    if found.Some? && Resolved(id) then
      var room := Enter(st.rooms[found.value], id, s);
      var info := Snapshot(room, st.users);
      Transition(WithRooms(st, st.rooms[found.value := room]),
                 [Outbound(Sender, RoomExistsReply(room.messages, info)),
                  Outbound(RoomMembers(roomId), RoomInfoUpdated(info)),
                  Outbound(Everyone, UpdateRoomListSignal)])
    else
      Transition(st, [])
  }

  /**
   * `join-room`: an unknown room gets `room-not-found`; a non-member
   * joining a room at or over capacity gets `room-full`; both leave the
   * state unchanged. Otherwise the lookup result (possibly `undefined`:
   * there is no identity guard) becomes a participant and the sender a
   * live client.
   */
  function HandleJoinRoom(st: State, s: SocketId, roomId: RoomId): (t: Transition)
    ensures t.state.users == st.users && t.state.roomIds == st.roomIds
    ensures FindRoom(st.rooms, roomId).None? ==> t == Transition(st, [Outbound(Sender, RoomNotFound)])
    ensures FindRoom(st.rooms, roomId).Some? ==>
              var i := FindRoom(st.rooms, roomId).value;
              var id := Lookup(st.users, s);
              if id !in st.rooms[i].participants && !HasSeat(st.rooms[i]) then
                t == Transition(st, [Outbound(Sender, RoomFull)])
              else
                && |t.state.rooms| == |st.rooms|
                && (forall j :: 0 <= j < |st.rooms| && j != i ==> t.state.rooms[j] == st.rooms[j])
                && t.state.rooms[i] == Enter(st.rooms[i], id, s)
                && t.out == [Outbound(Sender, RoomJoined(roomId)),
                             Outbound(RoomMembers(roomId), RoomInfoUpdated(Snapshot(t.state.rooms[i], st.users))),
                             Outbound(Everyone, UpdateRoomListSignal)]
  {
    match FindRoom(st.rooms, roomId)
    case None => Transition(st, [Outbound(Sender, RoomNotFound)])
    case Some(i) =>
      var id := Lookup(st.users, s);
      if id !in st.rooms[i].participants && |st.rooms[i].participants| >= st.rooms[i].maxParticipants then
        Transition(st, [Outbound(Sender, RoomFull)])
      else
        var room := Enter(st.rooms[i], id, s);
        Transition(WithRooms(st, st.rooms[i := room]),
                   [Outbound(Sender, RoomJoined(roomId)),
                    Outbound(RoomMembers(roomId), RoomInfoUpdated(Snapshot(room, st.users))),
                    Outbound(Everyone, UpdateRoomListSignal)])
  }

  /**
   * `leave-room`: for a known room and a resolved sender, only this
   * connection leaves that room's live clients; otherwise nothing happens.
   */
  function HandleLeaveRoom(st: State, s: SocketId, roomId: RoomId): (t: Transition)
    ensures t.state.users == st.users && t.state.roomIds == st.roomIds
    ensures FindRoom(st.rooms, roomId).None? || !Resolved(Lookup(st.users, s)) ==> t == Transition(st, [])
    ensures FindRoom(st.rooms, roomId).Some? && Resolved(Lookup(st.users, s)) ==>
              var i := FindRoom(st.rooms, roomId).value;
              && |t.state.rooms| == |st.rooms|
              && (forall j :: 0 <= j < |st.rooms| && j != i ==> t.state.rooms[j] == st.rooms[j])
              && t.state.rooms[i] == Detach(st.rooms[i], s)
              && t.out == [Outbound(RoomMembers(roomId), RoomInfoUpdated(Snapshot(t.state.rooms[i], st.users))),
                           Outbound(Everyone, UpdateRoomListSignal)]
  {
    var found := FindRoom(st.rooms, roomId);
    if found.Some? && Resolved(Lookup(st.users, s)) then
      var room := Detach(st.rooms[found.value], s);
      Transition(WithRooms(st, st.rooms[found.value := room]),
                 [Outbound(RoomMembers(roomId), RoomInfoUpdated(Snapshot(room, st.users))),
                  Outbound(Everyone, UpdateRoomListSignal)])
    else
      Transition(st, [])
  }

  /**
   * `set-nickname`: upsert the user bound to this connection, write the
   * user file, confirm, then send the sender's room list.
   */
  function HandleSetNickname(st: State, s: SocketId, env: Env, nickname: string, id: UserId): (t: Transition)
    ensures id in t.state.users.table && t.state.users.table[id] == User(s, nickname, env.now)
    ensures forall k :: k != id ==> (k in t.state.users.table <==> k in st.users.table)
    ensures forall k :: k != id && k in st.users.table ==> t.state.users.table[k] == st.users.table[k]
    ensures t.state.users == Directory.SetNickname(st.users, id, s, nickname, env.now)
    ensures t.state.rooms == st.rooms && t.state.store.users == t.state.users
    ensures t.state.roomIds == st.roomIds && t.state.store.rooms == st.store.rooms && t.state.store.history == st.store.history
    ensures t.out == [Outbound(Sender, NicknameSet(nickname))] + RoomListFor(t.state, s)
  {
    var next := WithUsers(st, Directory.SetNickname(st.users, id, s, nickname, env.now));
    Transition(next, [Outbound(Sender, NicknameSet(nickname))] + RoomListFor(next, s))
  }

  /**
   * `send-message`: an unknown room gets `room-not-found`, an unresolved
   * sender `nickname-required`, both with the state unchanged. Otherwise
   * exactly one message carrying the sender's current nickname is
   * appended, the sender becomes a participant and live client if not
   * already, and the room's history file is rewritten.
   */
  function HandleSendMessage(st: State, s: SocketId, env: Env, roomId: RoomId, text: string): (t: Transition)
    ensures FindRoom(st.rooms, roomId).None? ==> t == Transition(st, [Outbound(Sender, RoomNotFound)])
    ensures FindRoom(st.rooms, roomId).Some? && !Resolved(Lookup(st.users, s)) ==>
              t == Transition(st, [Outbound(Sender, NicknameRequired)])
    ensures FindRoom(st.rooms, roomId).Some? && Resolved(Lookup(st.users, s)) ==>
              var i := FindRoom(st.rooms, roomId).value;
              var author := Lookup(st.users, s).value;
              var msg := Message(text, author, st.users.table[author].nickname, env.now);
              && |t.state.rooms| == |st.rooms|
              && (forall j :: 0 <= j < |st.rooms| && j != i ==> t.state.rooms[j] == st.rooms[j])
              && t.state.rooms[i] == Enter(st.rooms[i], Some(author), s).(messages := st.rooms[i].messages + [msg])
              && t.state.store.history == st.store.history[roomId := t.state.rooms[i].messages]
              && t.state.users == st.users
              && t.out == [Outbound(RoomMembers(roomId), ReceiveMessage(msg))]
  {
    match FindRoom(st.rooms, roomId)
    case None => Transition(st, [Outbound(Sender, RoomNotFound)])
    case Some(i) =>
      var id := Lookup(st.users, s);
      if !Resolved(id) then Transition(st, [Outbound(Sender, NicknameRequired)])
      else
        var msg := Message(text, id.value, st.users.table[id.value].nickname, env.now);
        var entered := Enter(st.rooms[i], id, s);
        var room := entered.(messages := entered.messages + [msg]);
        var next := WithRooms(st, st.rooms[i := room]);
        Transition(next.(store := next.store.(history := next.store.history[roomId := room.messages])),
                   [Outbound(RoomMembers(roomId), ReceiveMessage(msg))])
  }

  /** `typing`: relayed to the room without the sender, carrying the lookup result as is. */
  function HandleTyping(st: State, s: SocketId, roomId: RoomId, nickname: string): (t: Transition)
    ensures t.state == st
    ensures t.out == [Outbound(RoomExceptSender(roomId), UserTyping(nickname, Lookup(st.users, s)))]
  {
    Transition(st, [Outbound(RoomExceptSender(roomId), UserTyping(nickname, Lookup(st.users, s)))])
  }

  /** `stop-typing`: relayed to the room without the sender. */
  function HandleStopTyping(st: State, roomId: RoomId, nickname: string): (t: Transition)
    ensures t.state == st
    ensures t.out == [Outbound(RoomExceptSender(roomId), UserStopTyping(nickname))]
  {
    Transition(st, [Outbound(RoomExceptSender(roomId), UserStopTyping(nickname))])
  }

  /** Every room with connection `s` dropped from its live clients. */
  function DetachEverywhere(rooms: seq<Room>, s: SocketId): (r: seq<Room>)
    ensures |r| == |rooms|
    ensures forall i :: 0 <= i < |rooms| ==> r[i] == Detach(rooms[i], s)
  {
    seq(|rooms|, i requires 0 <= i < |rooms| => if s in rooms[i].clients then Detach(rooms[i], s) else rooms[i])
  }

  /** The `room-info-updated` a room gets when connection `s` leaves it. */
  function DetachNotice(room: Room, s: SocketId, users: Users): Outbound {
    Outbound(RoomMembers(room.id), RoomInfoUpdated(Snapshot(Detach(room, s), users)))
  }

  /** Whether connection `s` is live in a room. */
  function LiveIn(s: SocketId): Room -> bool {
    (room: Room) => s in room.clients
  }

  /** The notice a room gets when connection `s` leaves it, as a function of the room. */
  function NoticeOf(s: SocketId, users: Users): Room -> Outbound {
    (room: Room) => DetachNotice(room, s, users)
  }

  /**
   * The `room-info-updated` notices of `disconnect`: exactly one per room
   * `s` was live in, carrying that room's snapshot after `s` left, in
   * room order.
   */
  function DetachNotices(rooms: seq<Room>, s: SocketId, users: Users): (out: seq<Outbound>)
    ensures |out| == |Seqs.Filter(LiveIn(s), rooms)|
    ensures forall i :: 0 <= i < |rooms| && s in rooms[i].clients ==> DetachNotice(rooms[i], s, users) in out
    ensures forall o :: o in out ==>
              exists i :: 0 <= i < |rooms| && s in rooms[i].clients && o == DetachNotice(rooms[i], s, users)
    ensures Seqs.IsSubsequence(out, Seqs.Map(NoticeOf(s, users), rooms))
  {
    if |rooms| == 0 then []
    else
      var tail := rooms[1..];
      var rest := DetachNotices(tail, s, users);
      var n := DetachNotice(rooms[0], s, users);
      var out := if s in rooms[0].clients then [n] + rest else rest;
      LiveCountCons(rooms, s);
      NoticesCoverLiveRooms(rooms, s, users, rest, out);
      NoticesFromLiveRooms(rooms, s, users, rest, out);
      Seqs.SubsequenceCons(n, rest, Seqs.Map(NoticeOf(s, users), tail));
      out
  }

  /** The live rooms of a non-empty list: the first one if live, then those of the rest. */
  lemma LiveCountCons(rooms: seq<Room>, s: SocketId)
    requires |rooms| > 0
    ensures |Seqs.Filter(LiveIn(s), rooms)| == (if s in rooms[0].clients then 1 else 0) + |Seqs.Filter(LiveIn(s), rooms[1..])|
  {
  }

  /** A room `s` was live in has its notice in front of the rest or among it. */
  lemma {:induction false} NoticesCoverLiveRooms(rooms: seq<Room>, s: SocketId, users: Users, rest: seq<Outbound>, out: seq<Outbound>)
    requires |rooms| > 0
    requires forall i :: 0 <= i < |rooms[1..]| && s in rooms[1..][i].clients ==> DetachNotice(rooms[1..][i], s, users) in rest
    requires out == if s in rooms[0].clients then [DetachNotice(rooms[0], s, users)] + rest else rest
    ensures forall i :: 0 <= i < |rooms| && s in rooms[i].clients ==> DetachNotice(rooms[i], s, users) in out
  {
    forall i | 0 <= i < |rooms| && s in rooms[i].clients
      ensures DetachNotice(rooms[i], s, users) in out
    {
      if i > 0 {
        assert rooms[i] == rooms[1..][i - 1];
      }
    }
  }

  /** Every notice in front of the rest comes from a room `s` was live in. */
  lemma {:induction false} NoticesFromLiveRooms(rooms: seq<Room>, s: SocketId, users: Users, rest: seq<Outbound>, out: seq<Outbound>)
    requires |rooms| > 0
    requires forall o :: o in rest ==>
               exists i :: 0 <= i < |rooms[1..]| && s in rooms[1..][i].clients && o == DetachNotice(rooms[1..][i], s, users)
    requires out == if s in rooms[0].clients then [DetachNotice(rooms[0], s, users)] + rest else rest
    ensures forall o :: o in out ==>
              exists i :: 0 <= i < |rooms| && s in rooms[i].clients && o == DetachNotice(rooms[i], s, users)
  {
    var tail := rooms[1..];
    forall o | o in out
      ensures exists i :: 0 <= i < |rooms| && s in rooms[i].clients && o == DetachNotice(rooms[i], s, users)
    {
      if o in rest {
        var k :| 0 <= k < |tail| && s in tail[k].clients && o == DetachNotice(tail[k], s, users);
        assert rooms[k + 1] == tail[k];
      } else {
        assert s in rooms[0].clients && o == DetachNotice(rooms[0], s, users);
      }
    }
  }

  /**
   * `disconnect`: when the connection resolves, the user's `lastSeen` is
   * updated and the connection leaves every room's live clients; no
   * participant list, history, name or capacity changes. An unresolved
   * connection changes nothing.
   */
  function HandleDisconnect(st: State, s: SocketId, env: Env): (t: Transition)
    ensures !Resolved(Lookup(st.users, s)) ==> t == Transition(st, [])
    ensures Resolved(Lookup(st.users, s)) ==>
              && t.state.rooms == DetachEverywhere(st.rooms, s)
              && Lookup(st.users, s).value in st.users.table
              && t.state.users == Touch(st.users, Lookup(st.users, s).value, env.now)
              && t.state.store.users == t.state.users && t.state.store.rooms == SaveRooms(t.state.rooms)
              && t.state.roomIds == st.roomIds && t.state.store.history == st.store.history
              && t.out == DetachNotices(st.rooms, s, t.state.users) + [Outbound(Everyone, UpdateRoomListSignal)]
  {
    var id := Lookup(st.users, s);
    if !Resolved(id) then Transition(st, [])
    else
      var users := Touch(st.users, id.value, env.now);
      var rooms := DetachEverywhere(st.rooms, s);
      Transition(WithRooms(WithUsers(st, users), rooms),
                 DetachNotices(st.rooms, s, users) + [Outbound(Everyone, UpdateRoomListSignal)])
  }

  /** One inbound event on connection `s`, handled to completion. */
  function Step(st: State, s: SocketId, env: Env, ev: Inbound): (t: Transition)
    ensures ev.Connect? || ev.UpdateRoomList? ==> t == Transition(st, RoomListFor(st, s))
    ensures ev.Typing? || ev.StopTyping? ==> t.state == st && |t.out| == 1 && t.out[0].to == RoomExceptSender(ev.roomId)
    ensures ev.SetNickname? || ev.Typing? || ev.StopTyping? ==> t.state.rooms == st.rooms
    ensures !ev.SetNickname? && !ev.Disconnect? ==> t.state.users == st.users
    ensures !ev.CreateRoom? ==> |t.state.rooms| == |st.rooms| && t.state.roomIds == st.roomIds
  {
    match ev
    case Connect => Transition(st, RoomListFor(st, s))
    case UpdateRoomList => Transition(st, RoomListFor(st, s))
    case CreateRoom(maxParticipants, roomName) => HandleCreateRoom(st, s, env, maxParticipants, roomName)
    case RoomExists(roomId) => HandleRoomExists(st, s, roomId)
    case JoinRoom(roomId) => HandleJoinRoom(st, s, roomId)
    case LeaveRoom(roomId) => HandleLeaveRoom(st, s, roomId)
    case SetNickname(nickname, userId) => HandleSetNickname(st, s, env, nickname, userId)
    case SendMessage(roomId, message) => HandleSendMessage(st, s, env, roomId, message)
    case Typing(roomId, nickname) => HandleTyping(st, s, roomId, nickname)
    case StopTyping(roomId, nickname) => HandleStopTyping(st, roomId, nickname)
    case Disconnect => HandleDisconnect(st, s, env)
  }
}

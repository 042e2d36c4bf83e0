/**
 * Properties of the server that relate several handlers or hold for every
 * event: what is on disk always lets a restart recover the rooms, the
 * durable lists only grow, membership never duplicates, `join-room`
 * respects capacity while `room-exists` does not, and a disconnect shows
 * the user offline without removing them.
 */
module ServerProperties {
  import opened Wrappers
  import opened Directory
  import opened Rooms
  import opened Server
  import Seqs
  import Text

  /**
   * What every handler keeps: a well-formed directory, `roomsId` equal to
   * the room ids, distinct room ids, `rooms.json` equal to the projection
   * of the rooms, each room's history file equal to its messages, and the
   * user file equal to the directory once any user exists.
   */
  predicate Consistent(st: State) {
    && Directory.Valid(st.users)
    && st.roomIds == IdsOf(st.rooms)
    && Seqs.Distinct(IdsOf(st.rooms))
    && st.store.rooms == SaveRooms(st.rooms)
    && HistoryMatches(st.rooms, st.store.history)
    && (st.users.keys != [] ==> st.store.users == st.users)
  }

  /** The id `uuidv4()` supplies is new: no room and no history file has it. */
  predicate FreshFor(st: State, env: Env) {
    env.freshId !in IdsOf(st.rooms) && env.freshId !in st.store.history
  }

  /** A start from files whose room ids are distinct is consistent. */
  lemma BootIsConsistent(store: Store)
    requires forall i, j :: 0 <= i < j < |store.rooms| ==> store.rooms[i].id != store.rooms[j].id
    ensures Consistent(Boot(store))
  {
    SaveAfterLoad(store.rooms, store.history);
  }

  /** A restart recovers every room, minus its live clients, but no users. */
  lemma RestartRecoversRooms(st: State)
    requires Consistent(st)
    ensures Boot(st.store).rooms == WithoutClients(st.rooms)
    ensures Boot(st.store).users == Empty
  {
    LoadAfterSave(st.rooms, st.store.history);
  }

  /**
   * Because the user file is never read back, the first `set-nickname`
   * after a restart rewrites it with that one user alone.
   */
  lemma RestartThenNicknameKeepsOneUser(store: Store, s: SocketId, env: Env, nickname: string, id: UserId)
    ensures var st := Step(Boot(store), s, env, SetNickname(nickname, id)).state;
            st.store.users.keys == [id] && st.store.users.table.Keys == {id}
  {
  }

  lemma UpdatePreservesIds(rooms: seq<Room>, i: nat, room: Room)
    requires i < |rooms| && room.id == rooms[i].id
    ensures IdsOf(rooms[i := room]) == IdsOf(rooms)
  {
  }

  /** Replacing one room by a room with the same id and messages keeps the history in step. */
  lemma UpdatePreservesHistory(rooms: seq<Room>, i: nat, room: Room, history: map<RoomId, seq<Message>>)
    requires i < |rooms| && room.id == rooms[i].id && room.messages == rooms[i].messages
    requires HistoryMatches(rooms, history)
    ensures HistoryMatches(rooms[i := room], history)
  {
  }

  lemma {:induction false} CreateRoomPreservesConsistency(st: State, s: SocketId, env: Env, maxParticipants: Option<int>, roomName: Option<string>)
    requires Consistent(st) && FreshFor(st, env)
    ensures Consistent(HandleCreateRoom(st, s, env, maxParticipants, roomName).state)
  {
    var t := HandleCreateRoom(st, s, env, maxParticipants, roomName);
    if t.state != st {
      var n := |st.rooms|;
      assert t.state.rooms == st.rooms + [t.state.rooms[n]];
      assert IdsOf(t.state.rooms) == IdsOf(st.rooms) + [env.freshId];
      forall i, j | 0 <= i < j < |t.state.rooms| ensures IdsOf(t.state.rooms)[i] != IdsOf(t.state.rooms)[j] {
        if j == n {
          assert IdsOf(t.state.rooms)[i] == IdsOf(st.rooms)[i];
        }
      }
      assert HistoryOf(t.state.store.history, env.freshId) == [];
    }
  }

  lemma {:induction false} SendMessagePreservesConsistency(st: State, s: SocketId, env: Env, roomId: RoomId, text: string)
    requires Consistent(st)
    ensures Consistent(HandleSendMessage(st, s, env, roomId, text).state)
  {
    var t := HandleSendMessage(st, s, env, roomId, text);
    if FindRoom(st.rooms, roomId).Some? && Resolved(Lookup(st.users, s)) {
      var i := FindRoom(st.rooms, roomId).value;
      var rooms := t.state.rooms;
      assert rooms == st.rooms[i := rooms[i]];
      UpdatePreservesIds(st.rooms, i, rooms[i]);
      forall j | 0 <= j < |rooms| ensures rooms[j].messages == HistoryOf(t.state.store.history, rooms[j].id) {
        if j != i {
          assert IdsOf(st.rooms)[j] != IdsOf(st.rooms)[i];
        }
      }
    }
  }

  lemma {:induction false} DisconnectPreservesConsistency(st: State, s: SocketId, env: Env)
    requires Consistent(st)
    ensures Consistent(HandleDisconnect(st, s, env).state)
  {
    var t := HandleDisconnect(st, s, env);
    if Resolved(Lookup(st.users, s)) {
      assert IdsOf(t.state.rooms) == IdsOf(st.rooms);
      assert t.state.users.keys == st.users.keys && t.state.users.keys != [];
    }
  }

  /** Every event keeps the state consistent, given a fresh id for `create-room`. */
  lemma StepPreservesConsistency(st: State, s: SocketId, env: Env, ev: Inbound)
    requires Consistent(st)
    requires ev.CreateRoom? ==> FreshFor(st, env)
    ensures Consistent(Step(st, s, env, ev).state)
  {
    var t := Step(st, s, env, ev);
    match ev
    case CreateRoom(m, n) => CreateRoomPreservesConsistency(st, s, env, m, n);
    case SendMessage(roomId, text) => SendMessagePreservesConsistency(st, s, env, roomId, text);
    case Disconnect => DisconnectPreservesConsistency(st, s, env);
    case RoomExists(roomId) =>
      if t.state != st {
        var i := FindRoom(st.rooms, roomId).value;
        UpdatePreservesIds(st.rooms, i, t.state.rooms[i]);
        UpdatePreservesHistory(st.rooms, i, t.state.rooms[i], st.store.history);
      }
    case JoinRoom(roomId) =>
      if t.state != st {
        var i := FindRoom(st.rooms, roomId).value;
        UpdatePreservesIds(st.rooms, i, t.state.rooms[i]);
        UpdatePreservesHistory(st.rooms, i, t.state.rooms[i], st.store.history);
      }
    case LeaveRoom(roomId) =>
      if t.state != st {
        var i := FindRoom(st.rooms, roomId).value;
        UpdatePreservesIds(st.rooms, i, t.state.rooms[i]);
        UpdatePreservesHistory(st.rooms, i, t.state.rooms[i], st.store.history);
      }
    case SetNickname(nickname, id) =>
    case _ =>
  }

  /**
   * `after` extends `before`: no room is removed or renamed and no
   * capacity changes; participant lists and histories only grow at the
   * end, so first-join order and earlier messages are preserved.
   */
  predicate Extends(before: State, after: State) {
    && |before.rooms| <= |after.rooms|
    && forall k :: 0 <= k < |before.rooms| ==>
         && after.rooms[k].id == before.rooms[k].id
         && after.rooms[k].name == before.rooms[k].name
         && after.rooms[k].maxParticipants == before.rooms[k].maxParticipants
         && before.rooms[k].participants <= after.rooms[k].participants
         && before.rooms[k].messages <= after.rooms[k].messages
  }

  lemma CreateRoomExtends(st: State, s: SocketId, env: Env, m: Option<int>, n: Option<string>)
    ensures Extends(st, HandleCreateRoom(st, s, env, m, n).state)
  {
    var next := HandleCreateRoom(st, s, env, m, n).state;
    if next != st {
      forall k | 0 <= k < |st.rooms| ensures next.rooms[k] == st.rooms[k] {
        assert next.rooms[..|st.rooms|][k] == next.rooms[k];
      }
    }
  }

  lemma SendMessageExtends(st: State, s: SocketId, env: Env, roomId: RoomId, text: string)
    ensures Extends(st, HandleSendMessage(st, s, env, roomId, text).state)
  {
  }

  lemma RoomExistsExtends(st: State, s: SocketId, roomId: RoomId)
    ensures Extends(st, HandleRoomExists(st, s, roomId).state)
  {
  }

  lemma JoinRoomExtends(st: State, s: SocketId, roomId: RoomId)
    ensures Extends(st, HandleJoinRoom(st, s, roomId).state)
  {
  }

  /** Every event extends the state: rooms, participants and messages are append-only. */
  lemma StepIsAppendOnly(st: State, s: SocketId, env: Env, ev: Inbound)
    ensures Extends(st, Step(st, s, env, ev).state)
  {
    match ev
    case CreateRoom(m, n) => CreateRoomExtends(st, s, env, m, n);
    case SendMessage(roomId, text) => SendMessageExtends(st, s, env, roomId, text);
    case RoomExists(roomId) => RoomExistsExtends(st, s, roomId);
    case JoinRoom(roomId) => JoinRoomExtends(st, s, roomId);
    case LeaveRoom(roomId) => LeaveRoomExtends(st, s, roomId);
    case SetNickname(nickname, id) =>
      assert Step(st, s, env, ev).state.rooms == st.rooms;
    case Disconnect => DisconnectExtends(st, s, env);
    case _ =>
      assert Step(st, s, env, ev).state == st;
  }

  lemma LeaveRoomExtends(st: State, s: SocketId, roomId: RoomId)
    ensures Extends(st, HandleLeaveRoom(st, s, roomId).state)
  {
  }

  lemma DisconnectExtends(st: State, s: SocketId, env: Env)
    ensures Extends(st, HandleDisconnect(st, s, env).state)
  {
  }

  /** No room lists a participant or a live client twice. */
  predicate NoDuplicateMembership(st: State) {
    forall k :: 0 <= k < |st.rooms| ==>
      Seqs.Distinct(st.rooms[k].participants) && Seqs.Distinct(st.rooms[k].clients)
  }

  lemma CreateRoomKeepsMembershipDistinct(st: State, s: SocketId, env: Env, m: Option<int>, n: Option<string>)
    requires NoDuplicateMembership(st)
    ensures NoDuplicateMembership(HandleCreateRoom(st, s, env, m, n).state)
  {
    var next := HandleCreateRoom(st, s, env, m, n).state;
    if next != st {
      forall k | 0 <= k < |next.rooms|
        ensures Seqs.Distinct(next.rooms[k].participants) && Seqs.Distinct(next.rooms[k].clients)
      {
        if k < |st.rooms| {
          assert next.rooms[..|st.rooms|][k] == next.rooms[k];
        }
      }
    }
  }

  lemma LeaveRoomKeepsMembershipDistinct(st: State, s: SocketId, roomId: RoomId)
    requires NoDuplicateMembership(st)
    ensures NoDuplicateMembership(HandleLeaveRoom(st, s, roomId).state)
  {
  }

  lemma DisconnectKeepsMembershipDistinct(st: State, s: SocketId, env: Env)
    requires NoDuplicateMembership(st)
    ensures NoDuplicateMembership(HandleDisconnect(st, s, env).state)
  {
  }

  lemma SendMessageKeepsMembershipDistinct(st: State, s: SocketId, env: Env, roomId: RoomId, text: string)
    requires NoDuplicateMembership(st)
    ensures NoDuplicateMembership(HandleSendMessage(st, s, env, roomId, text).state)
  {
  }

  /** No event duplicates a participant or a live client. */
  lemma StepKeepsMembershipDistinct(st: State, s: SocketId, env: Env, ev: Inbound)
    requires NoDuplicateMembership(st)
    ensures NoDuplicateMembership(Step(st, s, env, ev).state)
  {
    match ev
    case CreateRoom(m, n) => CreateRoomKeepsMembershipDistinct(st, s, env, m, n);
    case LeaveRoom(roomId) => LeaveRoomKeepsMembershipDistinct(st, s, roomId);
    case Disconnect => DisconnectKeepsMembershipDistinct(st, s, env);
    case SendMessage(roomId, text) => SendMessageKeepsMembershipDistinct(st, s, env, roomId, text);
    case RoomExists(roomId) =>
    case JoinRoom(roomId) =>
    case SetNickname(nickname, id) =>
    case _ =>
  }

  /**
   * `join-room` never takes a room over capacity: a room at or under its
   * maximum stays at or under it.
   */
  lemma JoinRoomKeepsCapacity(st: State, s: SocketId, env: Env, roomId: RoomId, k: nat)
    requires k < |st.rooms| && |st.rooms[k].participants| <= st.rooms[k].maxParticipants
    ensures var next := Step(st, s, env, JoinRoom(roomId)).state;
            k < |next.rooms| && |next.rooms[k].participants| <= next.rooms[k].maxParticipants
  {
    var next := Step(st, s, env, JoinRoom(roomId)).state;
    if next != st {
      var i := FindRoom(st.rooms, roomId).value;
      if k == i {
        var id := Lookup(st.users, s);
        assert next.rooms[i] == Enter(st.rooms[i], id, s);
      }
    }
  }

  /**
   * `room-exists` adds a participant without a capacity check: a room
   * with capacity 1 held by "b" gains "a" as a second participant.
   */
  lemma RoomExistsCanOverfill()
    ensures var users := Directory.SetNickname(Empty, "a", "s1", "Ann", "t0");
            var room := Room("r", "Lobby", [Some("b")], [], [], 1);
            var st := State([room], ["r"], users, Store(SaveRooms([room]), map[], users));
            var next := Step(st, "s1", Env("unused", "t1"), RoomExists("r")).state;
            |next.rooms[0].participants| == 2 > next.rooms[0].maxParticipants
  {
    var users := Directory.SetNickname(Empty, "a", "s1", "Ann", "t0");
    assert users.keys == ["a"];
    assert Lookup(users, "s1") == Some("a");
    var room := Room("r", "Lobby", [Some("b")], [], [], 1);
    assert FindRoom([room], "r") == Some(0);
    var st := State([room], ["r"], users, Store(SaveRooms([room]), map[], users));
    var t := HandleRoomExists(st, "s1", "r");
    assert Step(st, "s1", Env("unused", "t1"), RoomExists("r")) == t;
    assert t.state.rooms[0] == Enter(room, Some("a"), "s1");
    assert Enter(room, Some("a"), "s1").participants == [Some("b"), Some("a")];
  }

  /** `join-room` repeated from the same connection changes nothing more. */
  lemma JoinRoomIdempotent(st: State, s: SocketId, env: Env, roomId: RoomId)
    ensures var once := Step(st, s, env, JoinRoom(roomId));
            Step(once.state, s, env, JoinRoom(roomId)).state == once.state
  {
    var once := Step(st, s, env, JoinRoom(roomId));
    if once.state != st {
      var i := FindRoom(st.rooms, roomId).value;
      UpdatePreservesIds(st.rooms, i, once.state.rooms[i]);
      FindRoomSameIds(st.rooms, once.state.rooms, roomId);
      assert once.state.rooms[i := once.state.rooms[i]] == once.state.rooms;
    }
  }

  /** `room-exists` repeated from the same connection changes nothing more. */
  lemma RoomExistsIdempotent(st: State, s: SocketId, env: Env, roomId: RoomId)
    ensures var once := Step(st, s, env, RoomExists(roomId));
            Step(once.state, s, env, RoomExists(roomId)).state == once.state
  {
    var once := Step(st, s, env, RoomExists(roomId));
    if once.state != st {
      var i := FindRoom(st.rooms, roomId).value;
      UpdatePreservesIds(st.rooms, i, once.state.rooms[i]);
      FindRoomSameIds(st.rooms, once.state.rooms, roomId);
      assert once.state.rooms[i := once.state.rooms[i]] == once.state.rooms;
    }
  }

  /**
   * A second `send-message` from the same connection appends its message
   * but leaves the participant and client lists as the first left them.
   */
  lemma SendMessageMembershipIdempotent(st: State, s: SocketId, env1: Env, env2: Env, roomId: RoomId, text1: string, text2: string)
    ensures var once := Step(st, s, env1, SendMessage(roomId, text1)).state;
            var twice := Step(once, s, env2, SendMessage(roomId, text2)).state;
            && |twice.rooms| == |once.rooms|
            && forall k :: 0 <= k < |once.rooms| ==>
                 twice.rooms[k].participants == once.rooms[k].participants
                 && twice.rooms[k].clients == once.rooms[k].clients
  {
    var t1 := Server.HandleSendMessage(st, s, env1, roomId, text1);
    assert Step(st, s, env1, SendMessage(roomId, text1)) == t1;
    var once := t1.state;
    assert Step(once, s, env2, SendMessage(roomId, text2)) == Server.HandleSendMessage(once, s, env2, roomId, text2);
    if once != st {
      var i := FindRoom(st.rooms, roomId).value;
      UpdatePreservesIds(st.rooms, i, once.rooms[i]);
      FindRoomSameIds(st.rooms, once.rooms, roomId);
    }
  }

  /**
   * After a resolved `disconnect` on `s`, every room still lists the same
   * participants, each participant whose record holds `s` shows offline
   * in the next snapshot, and every other participant's online state is
   * what it was before.
   */
  lemma DisconnectShowsOffline(st: State, s: SocketId, env: Env, k: nat, i: nat)
    requires Resolved(Lookup(st.users, s))
    requires k < |st.rooms| && i < |st.rooms[k].participants|
    ensures var next := Step(st, s, env, Disconnect).state;
            var p := st.rooms[k].participants[i];
            && next.rooms[k].participants == st.rooms[k].participants
            && var online := Snapshot(next.rooms[k], next.users).participants[i].isOnline;
               var before := Snapshot(st.rooms[k], st.users).participants[i].isOnline;
               (p.Some? && HoldsSocket(st.users.table, p.value, s) ==> !online)
               && (!(p.Some? && HoldsSocket(st.users.table, p.value, s)) ==> online == before)
  {
    DisconnectState(st, s, env);
    var next := Step(st, s, env, Disconnect).state;
    var p := st.rooms[k].participants[i];
    assert next.rooms[k] == Detach(st.rooms[k], s);
    if p.Some? && p.value in st.users.table {
      assert next.users.table[p.value].socketId == st.users.table[p.value].socketId;
    }
  }

  /** A resolved `disconnect` detaches `s` from every room and touches the user's `lastSeen`. */
  lemma DisconnectState(st: State, s: SocketId, env: Env)
    requires Resolved(Lookup(st.users, s))
    ensures Step(st, s, env, Disconnect).state.rooms == DetachEverywhere(st.rooms, s)
    ensures Step(st, s, env, Disconnect).state.users == Touch(st.users, Lookup(st.users, s).value, env.now)
  {
  }
}

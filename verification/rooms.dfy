/**
 * Rooms: the durable participant list, the live client list, the message
 * history, the `roomInfo` snapshot sent to clients, the per-user room
 * list, and the projections the server writes to and reads from disk.
 */
module Rooms {
  import opened Wrappers
  import opened Directory
  import Seqs

  type RoomId = string

  /** A chat message; `nickname` is the author's nickname at send time. */
  datatype Message = Message(message: string, id: UserId, nickname: string, timestamp: Timestamp)

  /**
   * A room as the server holds it in memory. `participants` holds the
   * result of the identity lookup, which `join-room` pushes without a
   * guard, so an entry can be `undefined` (None).
   */
  datatype Room = Room(
    id: RoomId,
    name: string,
    participants: seq<Option<UserId>>,
    clients: seq<SocketId>,
    messages: seq<Message>,
    maxParticipants: int)

  datatype ParticipantView = ParticipantView(nickname: string, isOnline: bool)

  /** The `roomInfo` payload of `room-exists` and `room-info-updated`. */
  datatype RoomInfo = RoomInfo(
    name: string,
    maxParticipants: int,
    currentParticipants: nat,
    participants: seq<ParticipantView>)

  /** The `room-list` payload. */
  datatype RoomList = RoomList(myRooms: seq<Room>, availableRooms: seq<Room>, fullRooms: seq<Room>)

  /** A room as written to `rooms.json`: no clients, no messages. */
  datatype SavedRoom = SavedRoom(id: RoomId, name: string, participants: seq<Option<UserId>>, maxParticipants: int)

  /**
   * The inline room snapshot: one entry per participant, in participant
   * order, with the participant's display name and whether the
   * connection their record currently holds is among the live clients.
   */
  function Snapshot(room: Room, users: Users): (info: RoomInfo)
    ensures info.name == room.name && info.maxParticipants == room.maxParticipants
    ensures info.currentParticipants == |room.participants| == |info.participants|
    ensures forall i :: 0 <= i < |room.participants| ==>
              info.participants[i].nickname == DisplayName(users, room.participants[i])
    ensures forall i :: 0 <= i < |room.participants| ==>
              (info.participants[i].isOnline <==>
                 && room.participants[i].Some?
                 && room.participants[i].value in users.table
                 && users.table[room.participants[i].value].socketId in room.clients)
  {
    RoomInfo(
      room.name,
      room.maxParticipants,
      |room.participants|,
      seq(|room.participants|, i requires 0 <= i < |room.participants| =>
        ParticipantView(DisplayName(users, room.participants[i]),
                        IsOnline(users, room.participants[i], room.clients))))
  }

  /** `room.participants.includes(userId)`. */
  predicate IsMember(room: Room, id: UserId) {
    Some(id) in room.participants
  }

  /** `room.participants.length < room.maxParticipants`. */
  predicate HasSeat(room: Room) {
    |room.participants| < room.maxParticipants
  }

  /** The three `filter` calls of `updateRoomList` for a resolved user. */
  function ListFor(rooms: seq<Room>, id: UserId): (r: RoomList)
    ensures forall room :: room in r.myRooms <==> room in rooms && IsMember(room, id)
    ensures forall room :: room in r.availableRooms <==> room in rooms && !IsMember(room, id) && HasSeat(room)
    ensures forall room :: room in r.fullRooms <==> room in rooms && !IsMember(room, id) && !HasSeat(room)
  {
    RoomList(
      Seqs.Filter(room => IsMember(room, id), rooms),
      Seqs.Filter(room => !IsMember(room, id) && HasSeat(room), rooms),
      Seqs.Filter(room => !IsMember(room, id) && !HasSeat(room), rooms))
  }

  /**
   * The three lists partition the rooms: every occurrence of a room lands
   * in exactly one list, and each list keeps the original room order.
   */
  lemma {:induction false} ListForPartitions(rooms: seq<Room>, id: UserId)
    ensures var r := ListFor(rooms, id);
            multiset(r.myRooms) + multiset(r.availableRooms) + multiset(r.fullRooms) == multiset(rooms)
    ensures var r := ListFor(rooms, id);
            && Seqs.IsSubsequence(r.myRooms, rooms)
            && Seqs.IsSubsequence(r.availableRooms, rooms)
            && Seqs.IsSubsequence(r.fullRooms, rooms)
    ensures var r := ListFor(rooms, id);
            forall room :: room in rooms ==>
              (room in r.myRooms && room !in r.availableRooms && room !in r.fullRooms)
              || (room !in r.myRooms && room in r.availableRooms && room !in r.fullRooms)
              || (room !in r.myRooms && room !in r.availableRooms && room in r.fullRooms)
  {
    var r := ListFor(rooms, id);
    var total := multiset(r.myRooms) + multiset(r.availableRooms) + multiset(r.fullRooms);
    forall room ensures total[room] == multiset(rooms)[room] {
    }
    Seqs.FilterIsSubsequence(room => IsMember(room, id), rooms);
    Seqs.FilterIsSubsequence(room => !IsMember(room, id) && HasSeat(room), rooms);
    Seqs.FilterIsSubsequence(room => !IsMember(room, id) && !HasSeat(room), rooms);
  }

  /** Index of the first room with the given id: `rooms.find((room) => room.id === roomId)`. */
  function FindRoom(rooms: seq<Room>, id: RoomId): (r: Option<nat>)
    ensures r.Some? ==> r.value < |rooms| && rooms[r.value].id == id
    ensures r.Some? ==> forall i :: 0 <= i < r.value ==> rooms[i].id != id
    ensures r.None? ==> forall i :: 0 <= i < |rooms| ==> rooms[i].id != id
  {
    if |rooms| == 0 then None
    else if rooms[0].id == id then Some(0)
    else match FindRoom(rooms[1..], id)
      case None => None
      case Some(i) => Some(i + 1)
  }

  /** The room ids in room order: `rooms.map((room) => room.id)`. */
  function IdsOf(rooms: seq<Room>): (ids: seq<RoomId>)
    ensures |ids| == |rooms| && forall i :: 0 <= i < |rooms| ==> ids[i] == rooms[i].id
  {
    seq(|rooms|, i requires 0 <= i < |rooms| => rooms[i].id)
  }

  /** The projection `saveRooms` writes for one room. */
  function Save(room: Room): SavedRoom {
    SavedRoom(room.id, room.name, room.participants, room.maxParticipants)
  }

  /** `saveRooms`: each room projected to {id, name, participants, maxParticipants}, in order. */
  function SaveRooms(rooms: seq<Room>): (saved: seq<SavedRoom>)
    ensures |saved| == |rooms|
    ensures forall i :: 0 <= i < |rooms| ==>
              saved[i].id == rooms[i].id && saved[i].name == rooms[i].name
              && saved[i].participants == rooms[i].participants
              && saved[i].maxParticipants == rooms[i].maxParticipants
  {
    seq(|rooms|, i requires 0 <= i < |rooms| => Save(rooms[i]))
  }

  /** `loadChatHistory`: a room with no history file has no messages. */
  function HistoryOf(history: map<RoomId, seq<Message>>, id: RoomId): (msgs: seq<Message>)
    ensures id in history ==> msgs == history[id]
    ensures id !in history ==> msgs == []
  {
    if id in history then history[id] else []
  }

  /** `loadRooms`: the saved fields, no live clients, and the room's stored history. */
  function LoadRooms(saved: seq<SavedRoom>, history: map<RoomId, seq<Message>>): (rooms: seq<Room>)
    ensures |rooms| == |saved|
    ensures forall i :: 0 <= i < |saved| ==>
              rooms[i].id == saved[i].id && rooms[i].name == saved[i].name
              && rooms[i].participants == saved[i].participants
              && rooms[i].maxParticipants == saved[i].maxParticipants
              && rooms[i].clients == []
              && rooms[i].messages == HistoryOf(history, saved[i].id)
  {
    seq(|saved|, i requires 0 <= i < |saved| =>
      Room(saved[i].id, saved[i].name, saved[i].participants, [], HistoryOf(history, saved[i].id),
           saved[i].maxParticipants))
  }

  /** Every room's messages are what its history entry holds. */
  predicate HistoryMatches(rooms: seq<Room>, history: map<RoomId, seq<Message>>) {
    forall i :: 0 <= i < |rooms| ==> rooms[i].messages == HistoryOf(history, rooms[i].id)
  }

  /** The rooms with their live clients dropped, as a restart leaves them. */
  function WithoutClients(rooms: seq<Room>): (r: seq<Room>)
    ensures |r| == |rooms|
    ensures forall i :: 0 <= i < |rooms| ==> r[i] == rooms[i].(clients := [])
  {
    seq(|rooms|, i requires 0 <= i < |rooms| => rooms[i].(clients := []))
  }

  /** Saving what was just loaded writes back the same file. */
  lemma SaveAfterLoad(saved: seq<SavedRoom>, history: map<RoomId, seq<Message>>)
    ensures SaveRooms(LoadRooms(saved, history)) == saved
  {
  }

  /**
   * Loading what was saved restores every room except its live clients,
   * provided each room's history entry holds its messages.
   */
  lemma LoadAfterSave(rooms: seq<Room>, history: map<RoomId, seq<Message>>)
    requires HistoryMatches(rooms, history)
    ensures LoadRooms(SaveRooms(rooms), history) == WithoutClients(rooms)
  {
  }

  /** The first-match lookup depends only on the room ids, in order. */
  lemma {:induction false} FindRoomSameIds(a: seq<Room>, b: seq<Room>, id: RoomId)
    requires IdsOf(a) == IdsOf(b)
    ensures FindRoom(a, id) == FindRoom(b, id)
  {
    assert |a| == |IdsOf(a)| == |b|;
    if |a| > 0 {
      assert a[0].id == IdsOf(a)[0] == b[0].id;
      assert IdsOf(a[1..]) == IdsOf(a)[1..] == IdsOf(b)[1..] == IdsOf(b[1..]);
      FindRoomSameIds(a[1..], b[1..], id);
    }
  }
}

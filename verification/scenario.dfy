/** A worked capacity example: A creates "Test" for two, B joins, C is refused. */
module Scenario {
  import opened Wrappers
  import opened Directory
  import opened Rooms
  import opened Server
  import Text

  /** Three users A, B and C, bound to connections "sa", "sb" and "sc". */
  function ScenarioUsers(): (users: Users)
    ensures users.keys == ["A", "B", "C"]
    ensures Lookup(users, "sa") == Some("A") && Lookup(users, "sb") == Some("B") && Lookup(users, "sc") == Some("C")
  {
    var users := Directory.SetNickname(Directory.SetNickname(Directory.SetNickname(
                   Empty, "A", "sa", "Ann", "t0"), "B", "sb", "Ben", "t0"), "C", "sc", "Cy", "t0");
    assert users.keys == ["A", "B", "C"];
    assert HoldsSocket(users.table, users.keys[0], "sa");
    assert HoldsSocket(users.table, users.keys[1], "sb");
    assert HoldsSocket(users.table, users.keys[2], "sc");
    users
  }

  lemma TestNeedsNoTrim()
    ensures Text.Trim("Test") == "Test"
  {
    assert Text.LeadingSpaces("Test") == 0;
    assert Text.TrailingSpaces("Test") == 0;
  }

  /** A room "Test" for two created by A on "sa". */
  lemma ScenarioCreate(st0: State)
    requires st0.rooms == [] && Lookup(st0.users, "sa") == Some("A")
    ensures HandleCreateRoom(st0, "sa", Env("r1", "t1"), Some(2), Some("Test")).state.rooms
            == [Room("r1", "Test", [Some("A")], ["sa"], [], 2)]
    ensures HandleCreateRoom(st0, "sa", Env("r1", "t1"), Some(2), Some("Test")).state.users == st0.users
  {
    TestNotBlank();
    CreateAppendsNewRoom(st0, "sa", Env("r1", "t1"), Some(2), "Test");
    TestRoom();
  }

  /** With a resolved sender and a non-blank name, `create-room` appends exactly `NewRoom`. */
  lemma CreateAppendsNewRoom(st: State, s: SocketId, env: Env, maxParticipants: Option<int>, name: string)
    requires Resolved(Lookup(st.users, s)) && !Text.IsBlank(name)
    ensures HandleCreateRoom(st, s, env, maxParticipants, Some(name)).state.rooms
            == st.rooms + [NewRoom(env.freshId, name, Lookup(st.users, s).value, s, maxParticipants)]
  {
  }

  lemma TestRoom()
    ensures NewRoom("r1", "Test", "A", "sa", Some(2)) == Room("r1", "Test", [Some("A")], ["sa"], [], 2)
  {
    TestNeedsNoTrim();
  }

  lemma TestNotBlank()
    ensures !Text.IsBlank("Test")
  {
    assert !Text.IsSpace("Test"[0]);
  }

  /** B joins the room while a seat is free. */
  lemma ScenarioJoin(st1: State)
    requires st1.rooms == [Room("r1", "Test", [Some("A")], ["sa"], [], 2)] && Lookup(st1.users, "sb") == Some("B")
    ensures HandleJoinRoom(st1, "sb", "r1").state.rooms
            == [Room("r1", "Test", [Some("A"), Some("B")], ["sa", "sb"], [], 2)]
  {
    FoundAlone(st1.rooms[0]);
    BEnters(st1.rooms[0]);
    var id := Lookup(st1.users, "sb");
    assert id == Some("B");
    assert id !in st1.rooms[0].participants && HasSeat(st1.rooms[0]);
    assert HandleJoinRoom(st1, "sb", "r1").state.rooms == st1.rooms[0 := Enter(st1.rooms[0], id, "sb")];
  }

  lemma FoundAlone(room: Room)
    ensures FindRoom([room], room.id) == Some(0)
  {
  }

  lemma BEnters(room: Room)
    requires room == Room("r1", "Test", [Some("A")], ["sa"], [], 2)
    ensures Enter(room, Some("B"), "sb") == Room("r1", "Test", [Some("A"), Some("B")], ["sa", "sb"], [], 2)
  {
  }

  /** C is refused once the room is full, and nothing changes. */
  lemma ScenarioFull(st2: State)
    requires st2.rooms == [Room("r1", "Test", [Some("A"), Some("B")], ["sa", "sb"], [], 2)] && Lookup(st2.users, "sc") == Some("C")
    ensures HandleJoinRoom(st2, "sc", "r1") == Transition(st2, [Outbound(Sender, RoomFull)])
  {
    FoundAlone(st2.rooms[0]);
    assert Some("C") !in st2.rooms[0].participants;
  }

  /**
   * The worked example: A creates "Test" for two, B joins, and C is
   * refused with `room-full`, the participants staying [A, B]. The room
   * is in A's own list and C's available list, then in C's full list.
   */
  lemma CapacityScenario()
    ensures var st0 := State([], [], ScenarioUsers(), Store([], map[], ScenarioUsers()));
            var st1 := HandleCreateRoom(st0, "sa", Env("r1", "t1"), Some(2), Some("Test")).state;
            var st2 := HandleJoinRoom(st1, "sb", "r1").state;
            var t3 := HandleJoinRoom(st2, "sc", "r1");
            && st1.rooms == [Room("r1", "Test", [Some("A")], ["sa"], [], 2)]
            && ListFor(st1.rooms, "A").myRooms == st1.rooms
            && ListFor(st1.rooms, "C").availableRooms == st1.rooms
            && st2.rooms == [Room("r1", "Test", [Some("A"), Some("B")], ["sa", "sb"], [], 2)]
            && ListFor(st2.rooms, "C").fullRooms == st2.rooms
            && t3 == Transition(st2, [Outbound(Sender, RoomFull)])
  {
    var users := ScenarioUsers();
    var st0 := State([], [], users, Store([], map[], users));
    ScenarioCreate(st0);
    var st1 := HandleCreateRoom(st0, "sa", Env("r1", "t1"), Some(2), Some("Test")).state;
    assert st1.users == users;
    ScenarioJoin(st1);
    var st2 := HandleJoinRoom(st1, "sb", "r1").state;
    assert st2.users == users;
    ScenarioFull(st2);
    ScenarioLists();
  }

  /** Where the room appears in A's and C's lists before and after B joins. */
  lemma ScenarioLists()
    ensures var room1 := Room("r1", "Test", [Some("A")], ["sa"], [], 2);
            var room2 := Room("r1", "Test", [Some("A"), Some("B")], ["sa", "sb"], [], 2);
            && ListFor([room1], "A").myRooms == [room1]
            && ListFor([room1], "C").availableRooms == [room1]
            && ListFor([room2], "C").fullRooms == [room2]
  {
    var room1 := Room("r1", "Test", [Some("A")], ["sa"], [], 2);
    var room2 := Room("r1", "Test", [Some("A"), Some("B")], ["sa", "sb"], [], 2);
    assert room1 in ListFor([room1], "A").myRooms;
    assert room1 in ListFor([room1], "C").availableRooms;
    assert room2 in ListFor([room2], "C").fullRooms;
  }
}

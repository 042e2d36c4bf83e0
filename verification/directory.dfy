/**
 * The server's `users` object: userId -> {socketId, nickname, lastSeen}.
 * JavaScript reports an object's keys in insertion order, and identity is
 * resolved by the first key whose record holds the live connection, so
 * the key order is part of the model.
 */
module Directory {
  import opened Wrappers
  import Seqs

  type UserId = string
  type SocketId = string
  /** An ISO-8601 instant from `new Date().toISOString()`, supplied by the caller. */
  type Timestamp = string

  /** The nickname shown for a participant with no usable record. */
  const UnknownNickname := "Unknown"

  datatype User = User(socketId: SocketId, nickname: string, lastSeen: Timestamp)

  /** `keys` is `Object.keys(users)`; `table` holds the records. */
  datatype Users = Users(keys: seq<UserId>, table: map<UserId, User>)

  /** The directory the server starts with: `let users = {}`. */
  const Empty := Users([], map[])

  /** Every record has exactly one key position. */
  predicate Valid(users: Users) {
    && Seqs.Distinct(users.keys)
    && (forall k :: k in users.keys ==> k in users.table)
    && (forall k :: k in users.table ==> k in users.keys)
  }

  predicate HoldsSocket(table: map<UserId, User>, id: UserId, s: SocketId) {
    id in table && table[id].socketId == s
  }

  /** Position, in key order, of the first user bound to connection `s`. */
  function FirstHolder(keys: seq<UserId>, table: map<UserId, User>, s: SocketId): (r: Option<nat>)
    ensures r.Some? ==> r.value < |keys| && HoldsSocket(table, keys[r.value], s)
    ensures r.Some? ==> forall i :: 0 <= i < r.value ==> !HoldsSocket(table, keys[i], s)
    ensures r.None? ==> forall i :: 0 <= i < |keys| ==> !HoldsSocket(table, keys[i], s)
  {
    if |keys| == 0 then None
    else if HoldsSocket(table, keys[0], s) then Some(0)
    else match FirstHolder(keys[1..], table, s)
      case None => None
      case Some(i) => Some(i + 1)
  }

  /**
   * `Object.keys(users).find((id) => users[id].socketId === socket.id)`:
   * the user bound to `s` who comes first in key order, or `undefined`.
   */
  function Lookup(users: Users, s: SocketId): (r: Option<UserId>)
    ensures r.Some? ==> r.value in users.keys && HoldsSocket(users.table, r.value, s)
    ensures r.None? ==> forall k :: k in users.keys ==> !HoldsSocket(users.table, k, s)
    ensures r.Some? ==> exists i :: 0 <= i < |users.keys| && users.keys[i] == r.value
                           && forall j :: 0 <= j < i ==> !HoldsSocket(users.table, users.keys[j], s)
  {
    match FirstHolder(users.keys, users.table, s)
    case None => None
    case Some(i) =>
      // `i` is the witness of the third ensures: the first key holding `s`.
      assert 0 <= i < |users.keys| && forall j :: 0 <= j < i ==> !HoldsSocket(users.table, users.keys[j], s);
      Some(users.keys[i])
  }

  /** JavaScript truthiness of a lookup result: `undefined` and "" are both falsy. */
  predicate Resolved(id: Option<UserId>) {
    id.Some? && id.value != ""
  }

  /**
   * The `set-nickname` upsert: the record for `id` becomes
   * {s, nickname, now}, a new key goes to the end of the key order, and
   * every other record is untouched.
   */
  function SetNickname(users: Users, id: UserId, s: SocketId, nickname: string, now: Timestamp): (r: Users)
    ensures id in r.table && r.table[id] == User(s, nickname, now)
    ensures forall k :: k != id ==> (k in r.table <==> k in users.table)
    ensures forall k :: k != id && k in users.table ==> r.table[k] == users.table[k]
    ensures id in users.table ==> r.keys == users.keys
    ensures id !in users.table ==> r.keys == users.keys + [id]
    ensures Valid(users) ==> Valid(r)
  {
    var keys := if id in users.table then users.keys else users.keys + [id];
    Users(keys, users.table[id := User(s, nickname, now)])
  }

  /** The `disconnect` update: only the user's `lastSeen` changes. */
  function Touch(users: Users, id: UserId, now: Timestamp): (r: Users)
    requires id in users.table
    ensures r.keys == users.keys && r.table.Keys == users.table.Keys
    ensures r.table[id].socketId == users.table[id].socketId
    ensures r.table[id].nickname == users.table[id].nickname
    ensures r.table[id].lastSeen == now
    ensures forall k :: k in users.table && k != id ==> r.table[k] == users.table[k]
  {
    Users(users.keys, users.table[id := users.table[id].(lastSeen := now)])
  }

  /** `users[id]?.nickname || "Unknown"`: an absent record or an empty nickname shows as "Unknown". */
  function DisplayName(users: Users, id: Option<UserId>): (r: string)
    ensures r != ""
    ensures id.Some? && id.value in users.table && users.table[id.value].nickname != ""
            ==> r == users.table[id.value].nickname
    ensures !(id.Some? && id.value in users.table && users.table[id.value].nickname != "") ==> r == UnknownNickname
  {
    if id.Some? && id.value in users.table && users.table[id.value].nickname != "" then
      users.table[id.value].nickname
    else
      UnknownNickname
  }

  /** `clients.includes(users[id]?.socketId)`: the participant's current connection is live in the room. */
  predicate IsOnline(users: Users, id: Option<UserId>, clients: seq<SocketId>) {
    id.Some? && id.value in users.table && users.table[id.value].socketId in clients
  }

  /**
   * After `set-nickname` on `s`, the connection resolves to the new user
   * exactly when no user earlier in key order is still bound to `s`.
   */
  lemma {:induction false} LookupAfterSetNickname(users: Users, id: UserId, s: SocketId, nickname: string, now: Timestamp)
    requires Valid(users)
    ensures var r := SetNickname(users, id, s, nickname, now);
            Lookup(r, s) == Some(id) <==>
              forall k :: k in r.keys && k != id && HoldsSocket(r.table, k, s) ==> Before(r.keys, id, k)
  {
    var r := SetNickname(users, id, s, nickname, now);
    assert Valid(r);
    var j := IndexOf(r.keys, id);
    match FirstHolder(r.keys, r.table, s)
    case None =>
      assert HoldsSocket(r.table, r.keys[j], s);
    case Some(i) =>
      if Lookup(r, s) == Some(id) {
        assert r.keys[i] == id;
        forall k | k in r.keys && k != id && HoldsSocket(r.table, k, s)
          ensures Before(r.keys, id, k)
        {
          var m := IndexOf(r.keys, k);
          assert i != m;
        }
      } else {
        var k := r.keys[i];
        assert k != id;
        assert IndexOf(r.keys, k) == i;
        assert HoldsSocket(r.table, r.keys[j], s);
        assert !Before(r.keys, id, k);
      }
  }

  /** Position of `x` in a sequence that contains it. */
  function IndexOf(keys: seq<UserId>, x: UserId): (i: nat)
    requires x in keys
    ensures i < |keys| && keys[i] == x
    ensures forall j :: 0 <= j < i ==> keys[j] != x
  {
    if keys[0] == x then 0 else 1 + IndexOf(keys[1..], x)
  }

  /** `a` comes before `b` in key order. */
  predicate Before(keys: seq<UserId>, a: UserId, b: UserId)
    requires a in keys && b in keys
  {
    IndexOf(keys, a) < IndexOf(keys, b)
  }

  /**
   * The first-match lookup can leave a connection resolving to someone
   * else: when an earlier user still holds socket "s", re-registering a
   * later user on "s" does not make "s" resolve to that later user.
   */
  lemma LookupShadowedByEarlierUser()
    ensures var before := SetNickname(SetNickname(Empty, "a", "s", "Ann", "t0"), "b", "x", "Bob", "t0");
            var after := SetNickname(before, "b", "s", "Bob", "t1");
            Lookup(after, "s") == Some("a")
  {
    var before := SetNickname(SetNickname(Empty, "a", "s", "Ann", "t0"), "b", "x", "Bob", "t0");
    var after := SetNickname(before, "b", "s", "Bob", "t1");
    assert after.keys == ["a", "b"];
    assert HoldsSocket(after.table, after.keys[0], "s");
  }
}

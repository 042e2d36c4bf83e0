/**
 * The chat page's view state as driven by socket events: the formatted
 * message list, the list of users currently typing with its periodic
 * expiry sweep, and the guard in front of `send-message`. Time is the
 * integer `now` of `Date.now()`, passed in; no timers are modelled.
 */
module ChatView {
  import opened Wrappers
  import opened Directory
  import opened Rooms
  import Seqs
  import Text

  /** A typing entry is dropped by the sweep once it is this many milliseconds old. */
  const TypingExpiryMs := 3000

  /** A message as the page shows it. */
  datatype FormattedMessage = FormattedMessage(message: string, isMine: bool, nickname: string, timestamp: Timestamp)

  /** Someone typing, with the `Date.now()` of their latest `user-typing`. */
  datatype TypingUser = TypingUser(nickname: string, timestamp: int)

  /** What `handleSendMessage` does with the draft. */
  datatype SendAttempt = NotSent | Sent(roomId: RoomId, message: string)

  /** One server message as the page shows it: mine exactly when the viewer wrote it. */
  function Format(msg: Message, me: UserId): (f: FormattedMessage)
    ensures f.message == msg.message && f.nickname == msg.nickname && f.timestamp == msg.timestamp
    ensures f.isMine <==> msg.id == me
  {
    FormattedMessage(msg.message, msg.id == me, msg.nickname, msg.timestamp)
  }

  /**
   * `handleRoomExists`: the list is replaced wholesale by the server's
   * history, entry for entry, each marked as mine exactly when the viewer
   * wrote it.
   */
  function OnRoomExists(history: seq<Message>, me: UserId): (view: seq<FormattedMessage>)
    ensures |view| == |history|
    ensures forall i :: 0 <= i < |history| ==>
              && view[i].message == history[i].message
              && view[i].nickname == history[i].nickname
              && view[i].timestamp == history[i].timestamp
              && (view[i].isMine <==> history[i].id == me)
  {
    seq(|history|, i requires 0 <= i < |history| => Format(history[i], me))
  }

  /** `handleReceiveMessage`: one formatted message appended; earlier entries unchanged. */
  function OnReceiveMessage(view: seq<FormattedMessage>, msg: Message, me: UserId): (r: seq<FormattedMessage>)
    ensures |r| == |view| + 1 && r[..|view|] == view
    ensures r[|view|].message == msg.message && r[|view|].nickname == msg.nickname
    ensures r[|view|].timestamp == msg.timestamp && (r[|view|].isMine <==> msg.id == me)
  {
    view + [Format(msg, me)]
  }

  /**
   * Appending a received message to the replayed history gives the
   * replay of the history with that message: the incremental and the
   * wholesale views agree.
   */
  lemma ReceiveExtendsReplay(history: seq<Message>, msg: Message, me: UserId)
    ensures OnReceiveMessage(OnRoomExists(history, me), msg, me) == OnRoomExists(history + [msg], me)
  {
    var a := OnReceiveMessage(OnRoomExists(history, me), msg, me);
    var b := OnRoomExists(history + [msg], me);
    assert |a| == |b|;
    forall i | 0 <= i < |a| ensures a[i] == b[i] {
      if i < |history| {
        assert a[i] == a[..|history|][i];
      }
    }
  }

  /** No two typing entries share a nickname. */
  predicate UniqueNicknames(typing: seq<TypingUser>) {
    forall i, j :: 0 <= i < j < |typing| ==> typing[i].nickname != typing[j].nickname
  }

  /** Filtering a typing list keeps its nicknames unique. */
  lemma {:induction false} FilterKeepsUnique(p: TypingUser -> bool, typing: seq<TypingUser>)
    requires UniqueNicknames(typing)
    ensures UniqueNicknames(Seqs.Filter(p, typing))
  {
    if |typing| > 0 {
      assert UniqueNicknames(typing[1..]);
      FilterKeepsUnique(p, typing[1..]);
      var rest := Seqs.Filter(p, typing[1..]);
      forall t | t in rest ensures t.nickname != typing[0].nickname {
        var k :| 0 <= k < |typing[1..]| && typing[1..][k] == t;
        assert typing[k + 1] == t;
      }
    }
  }

  /**
   * `user-stop-typing`: every entry with that nickname is removed; the
   * others survive in their original order.
   */
  function OnUserStopTyping(typing: seq<TypingUser>, nickname: string): (r: seq<TypingUser>)
    ensures forall t :: t in r <==> t in typing && t.nickname != nickname
    ensures forall t :: multiset(r)[t] == if t.nickname != nickname then multiset(typing)[t] else 0
    ensures Seqs.IsSubsequence(r, typing)
    ensures UniqueNicknames(typing) ==> UniqueNicknames(r)
  {
    var keep := (t: TypingUser) => t.nickname != nickname;
    Seqs.FilterIsSubsequence(keep, typing);
    if UniqueNicknames(typing) then
      FilterKeepsUnique(keep, typing);
      Seqs.Filter(keep, typing)
    else
      Seqs.Filter(keep, typing)
  }

  /**
   * `user-typing`: ignored when it reports the viewer's own user id;
   * otherwise the nickname's old entries go and one fresh entry is
   * appended, so the nickname appears exactly once, last.
   */
  function OnUserTyping(typing: seq<TypingUser>, nickname: string, typingUserId: Option<UserId>, me: UserId, now: int): (r: seq<TypingUser>)
    ensures typingUserId == Some(me) ==> r == typing
    ensures typingUserId != Some(me) ==>
              && |r| >= 1 && r[|r| - 1] == TypingUser(nickname, now)
              && (forall i :: 0 <= i < |r| - 1 ==> r[i].nickname != nickname)
              && (forall t: TypingUser :: t.nickname != nickname ==> (t in r <==> t in typing))
              && Seqs.IsSubsequence(r[..|r| - 1], typing)
              && (forall t: TypingUser :: t.nickname != nickname ==> multiset(r)[t] == multiset(typing)[t])
    ensures UniqueNicknames(typing) ==> UniqueNicknames(r)
  {
    if typingUserId == Some(me) then typing
    else
      var rest := OnUserStopTyping(typing, nickname);
      AppendTyping(typing, rest, nickname, now);
      rest + [TypingUser(nickname, now)]
  }

  /** Appending a fresh entry to a list cleared of its nickname: the facts `OnUserTyping` promises. */
  lemma AppendTyping(typing: seq<TypingUser>, rest: seq<TypingUser>, nickname: string, now: int)
    requires forall t :: t in rest <==> t in typing && t.nickname != nickname
    requires forall t :: multiset(rest)[t] == if t.nickname != nickname then multiset(typing)[t] else 0
    requires Seqs.IsSubsequence(rest, typing)
    requires UniqueNicknames(typing) ==> UniqueNicknames(rest)
    ensures var r := rest + [TypingUser(nickname, now)];
            && (forall i :: 0 <= i < |r| - 1 ==> r[i].nickname != nickname)
            && (forall t: TypingUser :: t.nickname != nickname ==> (t in r <==> t in typing))
            && r[..|r| - 1] == rest
            && (forall t: TypingUser :: t.nickname != nickname ==> multiset(r)[t] == multiset(typing)[t])
            && (UniqueNicknames(typing) ==> UniqueNicknames(r))
  {
    var r := rest + [TypingUser(nickname, now)];
    assert r[..|r| - 1] == rest;
    assert forall i :: 0 <= i < |r| - 1 ==> r[i] in rest;
    assert multiset(r) == multiset(rest) + multiset{TypingUser(nickname, now)};
  }

  /** The interval sweep: keep exactly the entries younger than the expiry, in order. */
  function Sweep(typing: seq<TypingUser>, now: int): (r: seq<TypingUser>)
    ensures forall t :: t in r <==> t in typing && now - t.timestamp < TypingExpiryMs
    ensures forall t :: multiset(r)[t] == if now - t.timestamp < TypingExpiryMs then multiset(typing)[t] else 0
    ensures Seqs.IsSubsequence(r, typing)
    ensures UniqueNicknames(typing) ==> UniqueNicknames(r)
  {
    var young := (t: TypingUser) => now - t.timestamp < TypingExpiryMs;
    Seqs.FilterIsSubsequence(young, typing);
    if UniqueNicknames(typing) then
      FilterKeepsUnique(young, typing);
      Seqs.Filter(young, typing)
    else
      Seqs.Filter(young, typing)
  }

  /** Sweeping twice at the same instant is sweeping once. */
  lemma SweepIdempotent(typing: seq<TypingUser>, now: int)
    ensures Sweep(Sweep(typing, now), now) == Sweep(typing, now)
  {
    Seqs.FilterIdempotent((t: TypingUser) => now - t.timestamp < TypingExpiryMs, typing);
  }

  /**
   * A `user-typing` with no later refresh disappears at the first sweep
   * that comes the expiry period or more after it, and survives every
   * sweep before then.
   */
  lemma TypingIndicatorExpires(typing: seq<TypingUser>, nickname: string, typingUserId: Option<UserId>, me: UserId, at: int, now: int)
    requires typingUserId != Some(me)
    ensures var swept := Sweep(OnUserTyping(typing, nickname, typingUserId, me, at), now);
            now - at >= TypingExpiryMs ==> forall t :: t in swept ==> t.nickname != nickname
    ensures var swept := Sweep(OnUserTyping(typing, nickname, typingUserId, me, at), now);
            now - at < TypingExpiryMs ==> TypingUser(nickname, at) in swept
  {
    var r := OnUserTyping(typing, nickname, typingUserId, me, at);
    forall t | t in r && t.nickname == nickname ensures t == TypingUser(nickname, at) {
      var k :| 0 <= k < |r| && r[k] == t;
    }
  }

  /**
   * `handleSendMessage`: nothing is sent when the draft is blank or the
   * room id or nickname is empty; otherwise the untrimmed draft is sent
   * and the input cleared.
   */
  function HandleSendMessage(draft: string, roomId: Option<RoomId>, nickname: string): (r: (SendAttempt, string))
    ensures r.0.Sent? <==> !Text.IsBlank(draft) && roomId.Some? && roomId.value != "" && nickname != ""
    ensures r.0.Sent? ==> r.0 == Sent(roomId.value, draft) && r.1 == ""
    ensures r.0.NotSent? ==> r.1 == draft
  {
    if Text.Trim(draft) == "" || roomId.None? || roomId.value == "" || nickname == "" then (NotSent, draft)
    else (Sent(roomId.value, draft), "")
  }

  /** A send clears the input, so pressing Enter again at once sends nothing. */
  lemma SendClearsDraft(draft: string, roomId: Option<RoomId>, nickname: string)
    requires HandleSendMessage(draft, roomId, nickname).0.Sent?
    ensures HandleSendMessage(HandleSendMessage(draft, roomId, nickname).1, roomId, nickname) == (NotSent, "")
  {
    assert Text.IsBlank("");
  }
}

/**
 * How the chat page's message list follows the server's room history: a
 * page that replayed the history from `room-exists` and then applies the
 * `receive-message` broadcast of a successful `send-message` shows the
 * room's new history.
 */
module Sync {
  import opened Wrappers
  import opened Directory
  import opened Rooms
  import opened Server
  import opened ChatView

  /**
   * After a successful `send-message`, the broadcast message applied to
   * a page that shows the room's history yields the page for the new
   * history.
   */
  lemma ReceivedMessageMatchesHistory(st: State, s: SocketId, env: Env, roomId: RoomId, text: string, me: UserId, view: seq<FormattedMessage>)
    requires FindRoom(st.rooms, roomId).Some? && Resolved(Lookup(st.users, s))
    requires view == OnRoomExists(st.rooms[FindRoom(st.rooms, roomId).value].messages, me)
    ensures var t := Server.HandleSendMessage(st, s, env, roomId, text);
            var i := FindRoom(st.rooms, roomId).value;
            && |t.out| == 1 && t.out[0].payload.ReceiveMessage?
            && OnReceiveMessage(view, t.out[0].payload.data, me) == OnRoomExists(t.state.rooms[i].messages, me)
  {
    var t := Server.HandleSendMessage(st, s, env, roomId, text);
    var i := FindRoom(st.rooms, roomId).value;
    ReceiveExtendsReplay(st.rooms[i].messages, t.out[0].payload.data, me);
  }

  /**
   * The `user-typing` relayed from a connection that resolves to the
   * viewer's own user id leaves that viewer's typing list unchanged.
   */
  lemma OwnTypingIgnored(st: State, s: SocketId, roomId: RoomId, nickname: string, me: UserId, typing: seq<TypingUser>, now: int)
    requires Lookup(st.users, s) == Some(me)
    ensures var relayed := HandleTyping(st, s, roomId, nickname).out[0].payload;
            OnUserTyping(typing, relayed.nickname, relayed.userId, me, now) == typing
  {
  }

  /**
   * A viewer who applies the `user-stop-typing` relay no longer shows
   * that nickname as typing, and every other entry stays.
   */
  lemma StopTypingClearsIndicator(st: State, roomId: RoomId, nickname: string, typing: seq<TypingUser>)
    ensures var t := HandleStopTyping(st, roomId, nickname);
            var shown := OnUserStopTyping(typing, t.out[0].payload.nickname);
            && t.state == st
            && (forall u :: u in shown ==> u.nickname != nickname)
            && (forall u :: u in typing && u.nickname != nickname ==> u in shown)
  {
  }
}

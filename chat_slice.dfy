/**
 * The `chat` slice of the Redux store (src/redux/chatSlice.js) as pure
 * reducers: each case maps the old state and the action payload to the new
 * state. Room and message ids come from `nanoid` and timestamps from the
 * clock; both are passed in as parameters.
 */
module ChatReducer {
  import opened Wrappers
  import opened JsString
  import opened Seqs

  type RoomId = string

  datatype Room = Room(id: RoomId, title: string, createdAt: string)

  datatype Sender = User | Ai

  /** A chat message; AI replies carry no image. */
  datatype Message = Message(id: string, text: string, image: Option<string>, sender: Sender, timestamp: string)

  datatype ChatState = ChatState(
    chatRooms: seq<Room>,              // most recently created first
    activeRoom: Option<RoomId>,
    messages: map<RoomId, seq<Message>>,
    typing: bool)                      // one flag for all rooms

  const Initial := ChatState([], None, map[], false)

  predicate HasRoom(rooms: seq<Room>, id: RoomId) {
    exists k :: 0 <= k < |rooms| && rooms[k].id == id
  }

  /**
   * The state every reducer keeps: room ids are distinct and non-empty (as
   * `nanoid` delivers them) and every room has a message list.
   */
  ghost predicate Valid(s: ChatState) {
    && (forall i, j :: 0 <= i < j < |s.chatRooms| ==> s.chatRooms[i].id != s.chatRooms[j].id)
    && (forall room | room in s.chatRooms :: room.id != "" && room.id in s.messages)
  }

  /** A `nanoid` result: never empty and never seen before. */
  predicate FreshId(s: ChatState, id: RoomId) {
    id != "" && id !in s.messages && !HasRoom(s.chatRooms, id)
  }

  /** The title of a room created when `count` rooms exist: the requested one unless it is falsy. */
  function RoomTitle(requested: Option<string>, count: nat): (t: string)
    ensures requested.Some? && requested.value != "" ==> t == requested.value
    ensures (requested.None? || requested.value == "") ==>
      && StartsWith(t, "Chat ") && |t| > 5 && t[5] != '0'
      && AllDigits(t[5..]) && DecimalValue(t[5..]) == count + 1
  {
    if requested.Some? && requested.value != "" then requested.value
    else
      var t := "Chat " + DecimalString(count + 1);
      assert t[5..] == DecimalString(count + 1);
      DecimalRoundTrip(count + 1);
      t
  }

  /** `createRoom`: a new room at the front, with an empty history, made active. */
  function CreateRoom(s: ChatState, title: Option<string>, id: RoomId, createdAt: string): (r: ChatState)
    ensures |r.chatRooms| == |s.chatRooms| + 1
    ensures r.chatRooms[0] == Room(id, RoomTitle(title, |s.chatRooms|), createdAt)
    ensures r.chatRooms[1..] == s.chatRooms
    ensures r.messages.Keys == s.messages.Keys + {id} && r.messages[id] == []
    ensures forall k | k in s.messages && k != id :: r.messages[k] == s.messages[k]
    ensures r.activeRoom == Some(id) && r.typing == s.typing
  {
    var room := Room(id, RoomTitle(title, |s.chatRooms|), createdAt);
    s.(chatRooms := [room] + s.chatRooms, messages := s.messages[id := []], activeRoom := Some(id))
  }

  /** `state.chatRooms[0]?.id || null`. */
  function HeadId(rooms: seq<Room>): Option<RoomId> {
    if rooms != [] && rooms[0].id != "" then Some(rooms[0].id) else None
  }

  /** The rooms whose id differs from `id`, in their original order. */
  function WithoutRoom(rooms: seq<Room>, id: RoomId): (r: seq<Room>)
    ensures forall room | room in r :: room in rooms && room.id != id
    ensures forall room | room in rooms :: room.id != id ==> room in r
    ensures IsSubsequence(r, rooms)
    ensures forall room | room in rooms ::
      multiset(r)[room] == if room.id != id then multiset(rooms)[room] else 0
  {
    Filter(rooms, (room: Room) => room.id != id)
  }

  /**
   * `deleteRoom`: drops every room with that id; hands the active pointer
   * to the new head when the active room was deleted. The message lists,
   * the deleted room's included, are left as they were.
   */
  function DeleteRoom(s: ChatState, id: RoomId): (r: ChatState)
    ensures forall room | room in r.chatRooms :: room in s.chatRooms && room.id != id
    ensures forall room | room in s.chatRooms :: room.id != id ==> room in r.chatRooms
    ensures IsSubsequence(r.chatRooms, s.chatRooms)
    ensures forall room | room in s.chatRooms ::
      multiset(r.chatRooms)[room] == if room.id != id then multiset(s.chatRooms)[room] else 0
    ensures s.activeRoom == Some(id) && r.chatRooms == [] ==> r.activeRoom == None
    ensures s.activeRoom == Some(id) && r.chatRooms != [] && r.chatRooms[0].id != "" ==>
      r.activeRoom == Some(r.chatRooms[0].id)
    ensures s.activeRoom == Some(id) && r.chatRooms != [] && r.chatRooms[0].id == "" ==>
      r.activeRoom == None
    ensures s.activeRoom != Some(id) ==> r.activeRoom == s.activeRoom
    ensures r.messages == s.messages && r.typing == s.typing
  {
    var rooms := WithoutRoom(s.chatRooms, id);
    s.(chatRooms := rooms, activeRoom := if s.activeRoom == Some(id) then HeadId(rooms) else s.activeRoom)
  }

  /** `setActiveRoom`: stores the id without checking that a room has it. */
  function SetActiveRoom(s: ChatState, id: RoomId): (r: ChatState)
    ensures r.activeRoom == Some(id)
    ensures r.chatRooms == s.chatRooms && r.messages == s.messages && r.typing == s.typing
  {
    s.(activeRoom := Some(id))
  }

  /** The list a room's messages are appended to: the existing one or a new empty one. */
  function ListOf(messages: map<RoomId, seq<Message>>, id: RoomId): seq<Message> {
    if id in messages then messages[id] else []
  }

  /** `sendMessage`: one user message at the end of the room's list; typing on. */
  function SendMessage(s: ChatState, roomId: RoomId, text: string, image: Option<string>,
                       msgId: string, timestamp: string): (r: ChatState)
    ensures r.messages.Keys == s.messages.Keys + {roomId}
    ensures |r.messages[roomId]| == |ListOf(s.messages, roomId)| + 1
    ensures r.messages[roomId][..|ListOf(s.messages, roomId)|] == ListOf(s.messages, roomId)
    ensures r.messages[roomId][|r.messages[roomId]| - 1] == Message(msgId, text, image, User, timestamp)
    ensures forall k | k in s.messages && k != roomId :: r.messages[k] == s.messages[k]
    ensures r.typing
    ensures r.chatRooms == s.chatRooms && r.activeRoom == s.activeRoom
  {
    var msg := Message(msgId, text, image, User, timestamp);
    s.(messages := s.messages[roomId := ListOf(s.messages, roomId) + [msg]], typing := true)
  }

  /**
   * `addAIMessage`: one AI message at the end of the room's list; typing
   * off. Without a list, `push` on `undefined` throws and the store keeps
   * its state: the result is then `None`.
   */
  function AddAIMessage(s: ChatState, roomId: RoomId, text: string, msgId: string, timestamp: string): (r: Option<ChatState>)
    ensures r.Some? <==> roomId in s.messages
    ensures r.Some? ==>
      && r.value.messages.Keys == s.messages.Keys
      && r.value.messages[roomId] == s.messages[roomId] + [Message(msgId, text, None, Ai, timestamp)]
      && (forall k | k in s.messages && k != roomId :: r.value.messages[k] == s.messages[k])
      && !r.value.typing
      && r.value.chatRooms == s.chatRooms && r.value.activeRoom == s.activeRoom
  {
    if roomId in s.messages then
      var msg := Message(msgId, text, None, Ai, timestamp);
      Some(s.(messages := s.messages[roomId := s.messages[roomId] + [msg]], typing := false))
    else None
  }

  /** `setTyping`. */
  function SetTyping(s: ChatState, on: bool): (r: ChatState)
    ensures r.typing == on
    ensures r.chatRooms == s.chatRooms && r.activeRoom == s.activeRoom && r.messages == s.messages
  {
    s.(typing := on)
  }

  // ---- Invariant preservation ----

  lemma InitialValid()
    ensures Valid(Initial)
  {
  }

  lemma CreateRoomValid(s: ChatState, title: Option<string>, id: RoomId, createdAt: string)
    requires Valid(s) && FreshId(s, id)
    ensures Valid(CreateRoom(s, title, id, createdAt))
  {
    var r := CreateRoom(s, title, id, createdAt);
    forall i, j | 0 <= i < j < |r.chatRooms| ensures r.chatRooms[i].id != r.chatRooms[j].id {
      assert r.chatRooms[j] == s.chatRooms[j - 1];
      if i > 0 {
        assert r.chatRooms[i] == s.chatRooms[i - 1];
      }
    }
  }

  lemma DeleteRoomValid(s: ChatState, id: RoomId)
    requires Valid(s)
    ensures Valid(DeleteRoom(s, id))
  {
    DistinctIdsWithoutRoom(s.chatRooms, id);
  }

  /** Removing the rooms with one id from a list with distinct ids keeps them distinct. */
  lemma {:induction false} DistinctIdsWithoutRoom(rooms: seq<Room>, id: RoomId)
    requires forall i, j :: 0 <= i < j < |rooms| ==> rooms[i].id != rooms[j].id
    ensures var r := WithoutRoom(rooms, id);
      forall i, j :: 0 <= i < j < |r| ==> r[i].id != r[j].id
  {
    if rooms != [] {
      DistinctIdsWithoutRoom(rooms[1..], id);
      WithoutRoomStep(rooms, id);
      HeadIdUnique(rooms);
      if rooms[0].id != id {
        DistinctIdsCons(rooms[0], WithoutRoom(rooms[1..], id));
      }
    }
  }

  /** With distinct ids, no later room shares the head's id. */
  lemma HeadIdUnique(rooms: seq<Room>)
    requires rooms != []
    requires forall i, j :: 0 <= i < j < |rooms| ==> rooms[i].id != rooms[j].id
    ensures forall room | room in rooms[1..] :: room.id != rooms[0].id
  {
    forall room | room in rooms[1..] ensures room.id != rooms[0].id {
      var k :| 0 <= k < |rooms[1..]| && rooms[1..][k] == room;
      assert rooms[k + 1] == room;
    }
  }

  /** A room whose id is new, put in front of rooms with distinct ids, keeps them distinct. */
  lemma DistinctIdsCons(head: Room, rest: seq<Room>)
    requires forall i, j :: 0 <= i < j < |rest| ==> rest[i].id != rest[j].id
    requires forall room | room in rest :: room.id != head.id
    ensures var r := [head] + rest;
      forall i, j :: 0 <= i < j < |r| ==> r[i].id != r[j].id
  {
    var r := [head] + rest;
    forall i, j | 0 <= i < j < |r| ensures r[i].id != r[j].id {
      assert r[j] == rest[j - 1] && r[j] in rest;
      if i > 0 {
        assert r[i] == rest[i - 1];
      }
    }
  }

  /** One step of the filter: the head stays exactly when its id differs. */
  lemma WithoutRoomStep(rooms: seq<Room>, id: RoomId)
    requires rooms != []
    ensures WithoutRoom(rooms, id) ==
      if rooms[0].id != id then [rooms[0]] + WithoutRoom(rooms[1..], id) else WithoutRoom(rooms[1..], id)
  {
  }

  lemma SendMessageValid(s: ChatState, roomId: RoomId, text: string, image: Option<string>, msgId: string, timestamp: string)
    requires Valid(s)
    ensures Valid(SendMessage(s, roomId, text, image, msgId, timestamp))
  {
  }

  lemma AddAIMessageValid(s: ChatState, roomId: RoomId, text: string, msgId: string, timestamp: string)
    requires Valid(s) && roomId in s.messages
    ensures Valid(AddAIMessage(s, roomId, text, msgId, timestamp).value)
  {
  }

  // ---- Composed behaviour ----

  /**
   * With distinct ids, deleting the room just created gives back the old
   * room list, while its (empty) message list stays behind.
   */
  lemma CreateThenDelete(s: ChatState, title: Option<string>, id: RoomId, createdAt: string)
    requires Valid(s) && FreshId(s, id)
    ensures var r := DeleteRoom(CreateRoom(s, title, id, createdAt), id);
      && r.chatRooms == s.chatRooms
      && r.messages == s.messages[id := []]
      && r.activeRoom == HeadId(s.chatRooms)
  {
    var c := CreateRoom(s, title, id, createdAt);
    var keep := (room: Room) => room.id != id;
    assert Filter(c.chatRooms, keep) == Filter(s.chatRooms, keep) by {
      assert c.chatRooms == [c.chatRooms[0]] + s.chatRooms;
    }
    forall room | room in s.chatRooms ensures keep(room) {
      var k :| 0 <= k < |s.chatRooms| && s.chatRooms[k] == room;
    }
    FilterKeepsAll(s.chatRooms, keep);
  }

  /**
   * A send followed by its reply: the room's list grows by the user
   * message and then the AI message, and the typing flag ends off.
   */
  lemma SendThenReply(s: ChatState, roomId: RoomId, text: string, image: Option<string>, reply: string,
                      userId: string, aiId: string, t1: string, t2: string)
    ensures var sent := SetTyping(SendMessage(s, roomId, text, image, userId, t1), true);
      var r := AddAIMessage(sent, roomId, reply, aiId, t2);
      && r.Some?
      && r.value.messages[roomId] == ListOf(s.messages, roomId)
           + [Message(userId, text, image, User, t1), Message(aiId, reply, None, Ai, t2)]
      && !r.value.typing
  {
    var sent := SetTyping(SendMessage(s, roomId, text, image, userId, t1), true);
    var old_ := ListOf(s.messages, roomId);
    assert sent.messages[roomId] == old_ + [Message(userId, text, image, User, t1)];
  }

  /**
   * A reply that lands after its room was deleted is still appended: the
   * list survives the delete, and the room does not come back.
   */
  lemma ReplyAfterDelete(s: ChatState, roomId: RoomId, reply: string, aiId: string, t: string)
    requires roomId in s.messages
    ensures var d := DeleteRoom(s, roomId);
      var r := AddAIMessage(d, roomId, reply, aiId, t);
      && r.Some?
      && r.value.messages[roomId] == s.messages[roomId] + [Message(aiId, reply, None, Ai, t)]
      && !HasRoom(r.value.chatRooms, roomId)
  {
  }

  /**
   * The typing flag is shared: a reply for one room switches it off while
   * a reply for another room is still outstanding.
   */
  lemma TypingIsGlobal(s: ChatState, a: RoomId, b: RoomId, ta: string, tb: string, reply: string,
                       ida: string, idb: string, idr: string, t: string)
    requires a != b
    ensures var s1 := SetTyping(SendMessage(s, a, ta, None, ida, t), true);
      var s2 := SetTyping(SendMessage(s1, b, tb, None, idb, t), true);
      var r := AddAIMessage(s2, a, reply, idr, t);
      r.Some? && !r.value.typing && |r.value.messages[b]| == |ListOf(s.messages, b)| + 1
  {
  }
}

/**
 * The same slice as the store holds it: one object whose reducers update
 * its fields in place (Immer drafts), each as its pure counterpart says.
 */
module ChatSlice {
  import opened Wrappers
  import opened ChatReducer

  class ChatStore {
    var chatRooms: seq<Room>
    var activeRoom: Option<RoomId>
    var messages: map<RoomId, seq<Message>>
    var typing: bool

    function State(): ChatState
      reads this
    {
      ChatState(chatRooms, activeRoom, messages, typing)
    }

    /** `initialState`. */
    constructor ()
      ensures State() == Initial
    {
      chatRooms := [];
      activeRoom := None;
      messages := map[];
      typing := false;
    }

    method CreateRoom(title: Option<string>, id: RoomId, createdAt: string)
      modifies this
      ensures State() == ChatReducer.CreateRoom(old(State()), title, id, createdAt)
    {
      var room := Room(id, RoomTitle(title, |chatRooms|), createdAt);
      chatRooms := [room] + chatRooms;   // unshift
      messages := messages[id := []];
      activeRoom := Some(id);
    }

    method DeleteRoom(id: RoomId)
      modifies this
      ensures State() == ChatReducer.DeleteRoom(old(State()), id)
    {
      chatRooms := WithoutRoom(chatRooms, id);
      if activeRoom == Some(id) {
        activeRoom := HeadId(chatRooms);
      }
    }

    method SetActiveRoom(id: RoomId)
      modifies this
      ensures State() == ChatReducer.SetActiveRoom(old(State()), id)
    {
      activeRoom := Some(id);
    }

    method SendMessage(roomId: RoomId, text: string, image: Option<string>, msgId: string, timestamp: string)
      modifies this
      ensures State() == ChatReducer.SendMessage(old(State()), roomId, text, image, msgId, timestamp)
    {
      if roomId !in messages {
        messages := messages[roomId := []];
      }
      messages := messages[roomId := messages[roomId] + [Message(msgId, text, image, User, timestamp)]];
      typing := true;
    }

    /** Returns false, leaving the state as it was, where the source throws. */
    method AddAIMessage(roomId: RoomId, text: string, msgId: string, timestamp: string) returns (ok: bool)
      modifies this
      ensures ok == (roomId in old(messages))
      ensures var r := ChatReducer.AddAIMessage(old(State()), roomId, text, msgId, timestamp);
        State() == if ok then r.value else old(State())
    {
      if roomId !in messages {
        return false;
      }
      messages := messages[roomId := messages[roomId] + [Message(msgId, text, None, Ai, timestamp)]];
      typing := false;
      ok := true;
    }

    method SetTyping(on: bool)
      modifies this
      ensures State() == ChatReducer.SetTyping(old(State()), on)
    {
      typing := on;
    }
  }
}

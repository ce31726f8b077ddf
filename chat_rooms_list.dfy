/**
 * The room sidebar (src/components/dashboard/ChatRoomsList.jsx): the
 * case-insensitive search over room titles and the guards in front of the
 * create and delete dispatches. The browser's `prompt` and `confirm`
 * answers are parameters.
 */
module ChatRoomsList {
  import opened Wrappers
  import opened JsString
  import opened Seqs
  import opened ChatReducer

  /** The filter callback: the lower-cased title includes the lower-cased query. */
  function MatchesQuery(query: string): Room -> bool {
    (room: Room) => Contains(ToLower(room.title), ToLower(query))
  }

  /** `filteredRooms`: the rooms whose title matches, in list order. */
  function FilteredRooms(rooms: seq<Room>, query: string): (r: seq<Room>)
    ensures forall room | room in r :: room in rooms && Contains(ToLower(room.title), ToLower(query))
    ensures forall room | room in rooms :: Contains(ToLower(room.title), ToLower(query)) ==> room in r
    ensures IsSubsequence(r, rooms)
    ensures forall room | room in rooms ::
      multiset(r)[room] == if Contains(ToLower(room.title), ToLower(query)) then multiset(rooms)[room] else 0
  {
    Filter(rooms, MatchesQuery(query))
  }

  /** An empty search shows every room. */
  lemma EmptyQueryKeepsAll(rooms: seq<Room>)
    ensures FilteredRooms(rooms, "") == rooms
  {
    forall room | room in rooms ensures MatchesQuery("")(room) {
      ContainsEmpty(ToLower(room.title));
    }
    FilterKeepsAll(rooms, MatchesQuery(""));
  }

  /**
   * `handleCreateRoom`: the title to dispatch `createRoom` with, if any. A
   * cancelled prompt (`None`) counts as ''; a blank answer dispatches
   * nothing; otherwise the answer goes out untrimmed.
   */
  function HandleCreateRoom(answer: Option<string>): (title: Option<string>)
    ensures title.Some? <==> answer.Some? && !AllWhitespace(answer.value)
    ensures title.Some? ==> title.value == answer.value
  {
    var text := if answer.Some? then answer.value else "";
    if Trim(text) != "" then Some(text) else None
  }

  /** A room created from the sidebar bears the typed title, never the default one. */
  lemma CreatedFromSidebarKeepsTitle(s: ChatState, answer: Option<string>, id: RoomId, createdAt: string)
    requires HandleCreateRoom(answer).Some?
    ensures CreateRoom(s, HandleCreateRoom(answer), id, createdAt).chatRooms[0].title == answer.value
  {
  }

  /** `handleDeleteRoom`: the id to dispatch `deleteRoom` with, only when confirmed. */
  function HandleDeleteRoom(roomId: RoomId, confirmed: bool): (target: Option<RoomId>)
    ensures target.Some? <==> confirmed
    ensures target.Some? ==> target.value == roomId
  {
    if confirmed then Some(roomId) else None
  }
}

/**
 * The chat screen (src/components/chat/ChatInterface.jsx): the send guard,
 * the simulated replies, the image checks, the history "pages", and the
 * handlers that drive the `chat` store. Each `setTimeout` callback is a
 * pending timer fired by a separate step, in any order; each
 * `Math.random` draw is a parameter.
 */
module ChatInterface {
  import opened Wrappers
  import opened JsString
  import opened ChatReducer
  import opened ChatSlice
  import Seqs

  // ---- Pure parts ----

  /** `roomId ? messages[roomId] || [] : []`. */
  function RoomMessages(roomId: Option<RoomId>, messages: map<RoomId, seq<Message>>): (r: seq<Message>)
    ensures roomId.Some? && roomId.value != "" && roomId.value in messages ==> r == messages[roomId.value]
    ensures roomId.None? || roomId.value == "" || roomId.value !in messages ==> r == []
  {
    if roomId.Some? && roomId.value != "" then ListOf(messages, roomId.value) else []
  }

  /** A preview is truthy when present and non-empty. */
  predicate HasImage(preview: Option<string>) {
    preview.Some? && preview.value != ""
  }

  /** The guard of `handleSendMessage`. */
  predicate CanSend(text: string, preview: Option<string>) {
    Trim(text) != "" || HasImage(preview)
  }

  /** Nothing is sent exactly when the text is all whitespace and there is no image. */
  lemma CannotSendIff(text: string, preview: Option<string>)
    ensures !CanSend(text, preview) <==> AllWhitespace(text) && !HasImage(preview)
  {
  }

  /** The seven answers of `getSimulatedAIResponse`. */
  function ReplyTemplates(userText: string): seq<string> {
    [ "I understand your question about: " + userText,
      "That's an interesting point about: " + userText,
      "I've considered your input on: " + userText,
      "Based on your message: " + userText + ", I recommend...",
      "Thanks for sharing: " + userText + ". Here's my perspective...",
      "Let me think about that... Regarding " + userText + ", I'd suggest...",
      "Interesting! About " + userText + ", here's what I know..." ]
  }

  /** `Math.floor(Math.random() * responses.length)`. */
  type TemplateIndex = i: int | 0 <= i < 7

  /** `getSimulatedAIResponse`: one of the templates, and it quotes the user's text. */
  function SimulatedReply(userText: string, pick: TemplateIndex): (r: string)
    ensures r in ReplyTemplates(userText)
    ensures Contains(r, userText)
  {
    var r := ReplyTemplates(userText)[pick];
    match pick
    case 0 => ContainsInfix("I understand your question about: ", userText, ""); assert r == "I understand your question about: " + userText + ""; r
    case 1 => ContainsInfix("That's an interesting point about: ", userText, ""); assert r == "That's an interesting point about: " + userText + ""; r
    case 2 => ContainsInfix("I've considered your input on: ", userText, ""); assert r == "I've considered your input on: " + userText + ""; r
    case 3 => ContainsInfix("Based on your message: ", userText, ", I recommend..."); assert r == "Based on your message: " + userText + ", I recommend..."; r
    case 4 => ContainsInfix("Thanks for sharing: ", userText, ". Here's my perspective..."); assert r == "Thanks for sharing: " + userText + ". Here's my perspective..."; r
    case 5 => ContainsInfix("Let me think about that... Regarding ", userText, ", I'd suggest..."); assert r == "Let me think about that... Regarding " + userText + ", I'd suggest..."; r
    case 6 => ContainsInfix("Interesting! About ", userText, ", here's what I know..."); assert r == "Interesting! About " + userText + ", here's what I know..."; r
  }

  /** The file picked in the upload input: its MIME type and its size in bytes. */
  datatype FileInfo = FileInfo(mimeType: string, size: int)

  datatype UploadVerdict = NoFile | NotAnImage | TooLarge | Accepted

  const MaxImageBytes: int := 5 * 1024 * 1024

  /** The checks of `handleImageUpload`, in order. */
  function CheckUpload(file: Option<FileInfo>): (v: UploadVerdict)
    ensures v == Accepted <==>
      file.Some? && StartsWith(file.value.mimeType, "image/") && file.value.size <= 5242880
    ensures v == NotAnImage <==> file.Some? && !StartsWith(file.value.mimeType, "image/")
    ensures v == NoFile <==> file.None?
  {
    if file.None? then NoFile
    else if !StartsWith(file.value.mimeType, "image/") then NotAnImage
    else if file.value.size > MaxImageBytes then TooLarge
    else Accepted
  }

  /** The effect that loads older messages: in view, past page 1, not already loading. */
  predicate LoadMoreTriggered(inView: bool, page: int, loadingMore: bool) {
    inView && page > 1 && !loadingMore
  }

  // ---- The component ----

  /** A `setTimeout` callback scheduled by the screen. */
  datatype ChatTimer =
    | ReplyDue(roomId: RoomId, userText: string)   // from handleSendMessage, after 1000-3000 ms
    | PageDue                                      // from loadMoreMessages, after 1000 ms

  class ChatInterfaceView {
    const store: ChatStore
    var roomId: RoomId              // the route parameter; the component survives a route change
    var messageText: string
    var imagePreview: Option<string>
    var page: int
    var loadingMore: bool
    var pending: seq<ChatTimer>

    /** Every reply still to come has a list to land in. */
    ghost predicate RepliesHaveLists()
      reads this, store
    {
      forall t | t in pending :: t.ReplyDue? ==> t.roomId in store.messages
    }

    /** The history never pages: `page` stays at 1 and no page timer exists. */
    ghost predicate PageFrozen()
      reads this
    {
      page == 1 && !loadingMore && PageDue !in pending
    }

    /** Mounting with a room in the route: a truthy id becomes active (the first effect). */
    constructor (store: ChatStore, roomId: RoomId)
      modifies store
      ensures this.store == store && this.roomId == roomId
      ensures store.State() ==
        if roomId != "" then ChatReducer.SetActiveRoom(old(store.State()), roomId) else old(store.State())
      ensures messageText == "" && imagePreview == None && pending == []
      ensures PageFrozen() && RepliesHaveLists()
    {
      this.store := store;
      this.roomId := roomId;
      messageText := "";
      imagePreview := None;
      page := 1;
      loadingMore := false;
      pending := [];
      new;
      if roomId != "" {
        store.SetActiveRoom(roomId);
      }
    }

    /**
     * Another room picked while the screen is shown: the same component
     * gets the new route parameter, so the draft, the preview, the page and
     * the timers all stay; the effect runs again only when the id changed,
     * and makes a truthy id active.
     */
    method ChangeRoute(newId: RoomId)
      modifies this, store
      ensures roomId == newId
      ensures store.State() ==
        if newId != old(roomId) && newId != "" then ChatReducer.SetActiveRoom(old(store.State()), newId)
        else old(store.State())
      ensures messageText == old(messageText) && imagePreview == old(imagePreview)
      ensures page == old(page) && loadingMore == old(loadingMore) && pending == old(pending)
      ensures old(RepliesHaveLists()) ==> RepliesHaveLists()
      ensures old(PageFrozen()) ==> PageFrozen()
    {
      var changed := newId != roomId;
      roomId := newId;
      if changed && newId != "" {
        store.SetActiveRoom(newId);
      }
    }

    /** Typing in the text area. */
    method EditText(text: string)
      modifies this
      ensures messageText == text
      ensures imagePreview == old(imagePreview) && page == old(page)
      ensures loadingMore == old(loadingMore) && pending == old(pending)
      ensures roomId == old(roomId)
    {
      messageText := text;
    }

    /** `handleImageUpload`: an accepted file becomes the preview (its data URL). */
    method HandleImageUpload(file: Option<FileInfo>, dataUrl: string) returns (verdict: UploadVerdict)
      modifies this
      ensures verdict == CheckUpload(file)
      ensures imagePreview == if verdict == Accepted then Some(dataUrl) else old(imagePreview)
      ensures messageText == old(messageText) && page == old(page)
      ensures loadingMore == old(loadingMore) && pending == old(pending)
      ensures roomId == old(roomId)
    {
      verdict := CheckUpload(file);
      if verdict == Accepted {
        imagePreview := Some(dataUrl);
      }
    }

    /** The button on the preview. */
    method RemoveImage()
      modifies this
      ensures imagePreview == None
      ensures messageText == old(messageText) && page == old(page)
      ensures loadingMore == old(loadingMore) && pending == old(pending)
      ensures roomId == old(roomId)
    {
      imagePreview := None;
    }

    /**
     * `handleSendMessage`: unless blocked by the guard, send the untrimmed
     * text and the image, clear both, turn typing on and schedule one reply
     * quoting the text as it was.
     */
    method HandleSendMessage(msgId: string, timestamp: string)
      modifies this, store
      ensures !CanSend(old(messageText), old(imagePreview)) ==>
        && store.State() == old(store.State())
        && messageText == old(messageText) && imagePreview == old(imagePreview)
        && pending == old(pending)
      ensures CanSend(old(messageText), old(imagePreview)) ==>
        && store.State() == SetTyping(ChatReducer.SendMessage(old(store.State()), roomId,
             old(messageText), old(imagePreview), msgId, timestamp), true)
        && messageText == "" && imagePreview == None
        && pending == old(pending) + [ReplyDue(roomId, old(messageText))]
      ensures page == old(page) && loadingMore == old(loadingMore)
      ensures old(RepliesHaveLists()) ==> RepliesHaveLists()
      ensures old(PageFrozen()) ==> PageFrozen()
      ensures roomId == old(roomId)
    {
      if !CanSend(messageText, imagePreview) {
        return;
      }
      var text := messageText;
      ghost var keys := store.messages.Keys;
      store.SendMessage(roomId, text, imagePreview, msgId, timestamp);
      messageText := "";
      imagePreview := None;
      store.SetTyping(true);
      assert store.messages.Keys == keys + {roomId};
      pending := pending + [ReplyDue(roomId, text)];
    }

    /**
     * A reply timer fires: `addAIMessage` with one of the templates. It
     * fails only if the room has no list, which `RepliesHaveLists` rules out.
     */
    method FireReply(i: nat, pick: TemplateIndex, msgId: string, timestamp: string) returns (ok: bool)
      requires i < |pending| && pending[i].ReplyDue?
      modifies this, store
      ensures var t := old(pending[i]);
        var r := ChatReducer.AddAIMessage(old(store.State()), t.roomId, SimulatedReply(t.userText, pick), msgId, timestamp);
        && ok == r.Some?
        && store.State() == if ok then r.value else old(store.State())
      ensures old(RepliesHaveLists()) ==> ok && RepliesHaveLists()
      ensures pending == old(pending[..i] + pending[i + 1..])
      ensures messageText == old(messageText) && imagePreview == old(imagePreview)
      ensures page == old(page) && loadingMore == old(loadingMore)
      ensures old(PageFrozen()) ==> PageFrozen()
      ensures roomId == old(roomId)
    {
      var t := pending[i];
      ok := store.AddAIMessage(t.roomId, SimulatedReply(t.userText, pick), msgId, timestamp);
      pending := pending[..i] + pending[i + 1..];
      assert forall u | u in pending :: u in old(pending);
    }

    /** The effect on `inView`: load more only when `LoadMoreTriggered`. */
    method OnInView(inView: bool)
      modifies this
      ensures LoadMoreTriggered(inView, old(page), old(loadingMore)) ==>
        loadingMore && pending == old(pending) + [PageDue]
      ensures !LoadMoreTriggered(inView, old(page), old(loadingMore)) ==>
        loadingMore == old(loadingMore) && pending == old(pending)
      ensures page == old(page) && messageText == old(messageText) && imagePreview == old(imagePreview)
      ensures old(PageFrozen()) ==> PageFrozen()
      ensures roomId == old(roomId)
    {
      if LoadMoreTriggered(inView, page, loadingMore) {
        LoadMoreMessages();
      }
    }

    /** `loadMoreMessages`: mark loading and schedule the page step. */
    method LoadMoreMessages()
      modifies this
      ensures loadingMore && pending == old(pending) + [PageDue]
      ensures page == old(page) && messageText == old(messageText) && imagePreview == old(imagePreview)
      ensures roomId == old(roomId)
    {
      loadingMore := true;
      pending := pending + [PageDue];
    }

    /** The page timer fires: one page more, loading over. */
    method FirePage(i: nat)
      requires i < |pending| && pending[i].PageDue?
      modifies this
      ensures page == old(page) + 1 && !loadingMore
      ensures pending == old(pending[..i] + pending[i + 1..])
      ensures messageText == old(messageText) && imagePreview == old(imagePreview)
      ensures roomId == old(roomId)
    {
      page := page + 1;
      loadingMore := false;
      pending := pending[..i] + pending[i + 1..];
    }
  }

  /**
   * A send followed by the room's deletion: the user message is in the
   * room's list, the room is gone, and its reply is still pending.
   */
  method SendThenDelete(view: ChatInterfaceView)
    requires view.RepliesHaveLists() && view.pending == []
    requires CanSend(view.messageText, view.imagePreview)
    modifies view, view.store
    ensures view.roomId in view.store.messages
    ensures view.store.messages[view.roomId] ==
      old(ListOf(view.store.messages, view.roomId)) + [Message("m1", old(view.messageText), old(view.imagePreview), User, "t1")]
    ensures !HasRoom(view.store.chatRooms, view.roomId)
    ensures view.pending == [ReplyDue(view.roomId, old(view.messageText))]
    ensures view.RepliesHaveLists()
  {
    var before := ListOf(view.store.messages, view.roomId);
    var text := view.messageText;
    var user := Message("m1", text, view.imagePreview, User, "t1");
    view.HandleSendMessage("m1", "t1");
    assert view.store.messages[view.roomId] == before + [user];
    assert view.pending == [ReplyDue(view.roomId, text)];
    var afterSend := view.store.messages;
    view.store.DeleteRoom(view.roomId);
    assert view.store.messages == afterSend;
  }

  /**
   * A send, then the room's deletion, then the reply: the reply still
   * lands in the deleted room's list, and the room stays deleted.
   */
  method SendDeleteThenReply(view: ChatInterfaceView, pick: TemplateIndex)
    requires view.RepliesHaveLists() && view.pending == []
    requires CanSend(view.messageText, view.imagePreview)
    modifies view, view.store
    ensures var before := old(ListOf(view.store.messages, view.roomId));
      && view.roomId in view.store.messages
      && view.store.messages[view.roomId] ==
           before + [Message("m1", old(view.messageText), old(view.imagePreview), User, "t1"),
                     Message("m2", SimulatedReply(old(view.messageText), pick), None, Ai, "t2")]
      && !HasRoom(view.store.chatRooms, view.roomId)
      && !view.store.typing && view.pending == []
  {
    var before := ListOf(view.store.messages, view.roomId);
    var text, image := view.messageText, view.imagePreview;
    var user := Message("m1", text, image, User, "t1");
    var ai := Message("m2", SimulatedReply(text, pick), None, Ai, "t2");
    SendThenDelete(view);
    var rooms, afterDelete := view.store.chatRooms, view.store.messages;
    var ok := view.FireReply(0, pick, "m2", "t2");
    assert view.store.chatRooms == rooms;
    assert view.store.messages[view.roomId] == afterDelete[view.roomId] + [ai];
    Seqs.PushTwice(before, user, ai);
  }

  /**
   * Text typed while one room is shown, then another room picked, then
   * Send: the draft survives the route change and goes to the new room,
   * whose reply is the one scheduled.
   */
  method DraftFollowsRoute(view: ChatInterfaceView, text: string, other: RoomId)
    requires Trim(text) != "" && other != "" && other != view.roomId
    modifies view, view.store
    ensures view.roomId == other && view.store.activeRoom == Some(other)
    ensures other in view.store.messages
    ensures view.store.messages[other] ==
      old(ListOf(view.store.messages, other)) + [Message("m1", text, old(view.imagePreview), User, "t1")]
    ensures view.pending == old(view.pending) + [ReplyDue(other, text)]
    ensures view.messageText == "" && view.imagePreview == None
  {
    var before := ListOf(view.store.messages, other);
    view.EditText(text);
    view.ChangeRoute(other);
    assert view.store.activeRoom == Some(other);
    assert ListOf(view.store.messages, other) == before;
    view.HandleSendMessage("m1", "t1");
  }
}

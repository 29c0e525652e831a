/**
 * The chatroom page: opening a room by its route id, sending a message with the
 * canned reply that follows it, renaming the room, and reading its history.
 */
module ChatroomPage {
  import opened Builtins
  import opened ChatStore

  /** The number of canned assistant replies. */
  const ReplyCount: nat := 10

  /**
   * The canned assistant replies, by position in their table; one is picked at
   * random for each sent message.
   */
  function GeminiReply(i: nat): string
    requires i < ReplyCount
  {
    match i
    case 0 => "That's a really interesting thought! To approach this properly, we need to break it down into smaller pieces. First, consider the core problem you're trying to solve — is it technical, conceptual, or strategic? Once we have clarity on that, we can start identifying potential solutions. I’d love to dive deeper if you share more context."
    case 1 => "Great question. Let's think about this logically: every complex system starts with a simple foundation. The trick is understanding how the building blocks fit together. Whether it’s a coding problem, a product decision, or a design challenge, the key is to work backward from the outcome you want and test small pieces along the way."
    case 2 => "You're definitely on the right track! But there might be a couple of nuances worth exploring. For example, have you considered how this scales or performs under edge cases? These little details can really shape the outcome. I can also help visualize the logic or suggest best practices if you’d like."
    case 3 => "Interesting! Here’s what I’d suggest: try rephrasing your problem in terms of inputs, expected outcomes, and possible blockers. This not only makes it easier to debug or plan, but also helps identify any assumptions that might be hiding in plain sight. If you’re stuck at a particular step, let’s zoom in there."
    case 4 => "That’s a classic scenario! Many developers/designers/strategists run into similar issues. A good starting point might be to look at how others solved this in similar contexts. For example, certain patterns repeat across projects — like debounce logic in frontend apps, or failover systems in backends. I can even walk you through a working example if you want."
    case 5 => "Let’s approach this like a mini strategy session. First, write down what success looks like. Then, identify the tools, libraries, or mental models that could help you reach that. Whether it’s React state management, content architecture, or performance optimization — there’s always a structured way forward."
    case 6 => "You’re thinking deeply — I like that. A lot of people skip over the planning stage and jump straight into code. But stepping back to ask, “What’s the best way to do this long term?” is what sets apart junior devs from senior ones. Let's explore a scalable, maintainable path forward."
    case 7 => "Let me expand on that. This reminds me of a common principle in software design: “favor composition over inheritance.” In other words, try to build things that are modular, testable, and easy to replace. It might seem like overkill now, but future-you will thank you when the project grows."
    case 8 => "What you’ve described is actually a great use case for a pattern like the observer, pub-sub, or even state machines depending on complexity. It depends a bit on whether the changes are local to one component or shared across many. If you describe your component flow, I’ll help you choose the right tool."
    case _ => "Let’s break this down step by step. First: what is the input to your function/system/page? Second: what transformation happens? Third: what should the final result be? Thinking in this structure makes even complex ideas feel manageable. It’s a powerful debugging and design approach."
  }

  /**
   * Array.prototype.find over the rooms: the first room with the id, or None when
   * no room has it.
   */
  function FindRoom(chatrooms: seq<Room>, id: string): (r: Option<Room>)
    ensures r.None? <==> forall i :: 0 <= i < |chatrooms| ==> chatrooms[i].id != id
    ensures r.Some? ==> exists i :: 0 <= i < |chatrooms| && chatrooms[i] == r.value && r.value.id == id &&
                                    forall j :: 0 <= j < i ==> chatrooms[j].id != id
  {
    if chatrooms == [] then None
    else if chatrooms[0].id == id then Some(chatrooms[0])
    else
      var r := FindRoom(chatrooms[1..], id);
      assert r.Some? ==> exists i :: 0 <= i < |chatrooms[1..]| && chatrooms[1..][i] == r.value &&
                                      (forall j :: 0 <= j < i ==> chatrooms[1..][j].id != id);
      r
  }

  /** The reply slot chosen by Math.floor(Math.random() * geminiReplies.length). */
  function ReplyIndex(roll: real): (i: nat)
    requires 0.0 <= roll < 1.0
    ensures i < ReplyCount
    ensures i as real <= roll * ReplyCount as real < i as real + 1.0
  {
    (roll * ReplyCount as real).Floor
  }

  /**
   * The history the page shows after a sent message and the reply that follows
   * it: the history it showed before (empty when the room had none), then the
   * user's message, then the reply, with every other room's history unchanged.
   */
  lemma SentAndRepliedHistory(msgs: map<string, seq<Message>>, id: string, sent: Message, reply: Message)
    ensures HistoryOf(WithMessage(WithMessage(msgs, id, sent), id, reply), id) == HistoryOf(msgs, id) + [sent, reply]
    ensures forall k :: k != id ==> HistoryOf(WithMessage(WithMessage(msgs, id, sent), id, reply), k) == HistoryOf(msgs, k)
  {
  }

  // ---------------------------------------------------------------------------
  // Opening a room

  /** How rendering the page for a route id ends. */
  datatype PageOpen = Crashed | NotFoundShown | Opened(room: Room)

  /**
   * Rendering as written: the room's title is read to initialise the title field
   * before the "not found" guard runs, so an unknown id throws. The guard is
   * unreachable: whenever it would fire, rendering has already thrown.
   */
  function OpenPageAsWritten(chatrooms: seq<Room>, id: string): (p: PageOpen)
    ensures p != NotFoundShown
    ensures p == Crashed <==> forall i :: 0 <= i < |chatrooms| ==> chatrooms[i].id != id
  {
    var chatroom := FindRoom(chatrooms, id);
    if chatroom.None? then Crashed else Opened(chatroom.value)
  }

  /**
   * The crash is reached by deleting, from the sidebar, the room being viewed:
   * the page renders again with an id that no room has.
   */
  lemma DeletingViewedRoomCrashes(chatrooms: seq<Room>, id: string)
    ensures OpenPageAsWritten(WithoutRoom(chatrooms, id), id) == Crashed
  {
  }

  /**
   * Rendering as intended: an unknown id shows "Chatroom not found" and never
   * throws; a known id opens the first room that has it.
   */
  function OpenPage(chatrooms: seq<Room>, id: string): (p: PageOpen)
    ensures p != Crashed
    ensures p == NotFoundShown <==> forall i :: 0 <= i < |chatrooms| ==> chatrooms[i].id != id
    ensures p.Opened? ==> p.room.id == id && p.room in chatrooms
    ensures p.Opened? ==> FindRoom(chatrooms, id) == Some(p.room)
  {
    var chatroom := FindRoom(chatrooms, id);
    if chatroom.None? then NotFoundShown else Opened(chatroom.value)
  }

  /** Deleting the viewed room now leads to the "not found" view. */
  lemma DeletingViewedRoomShowsNotFound(chatrooms: seq<Room>, id: string)
    ensures OpenPage(WithoutRoom(chatrooms, id), id) == NotFoundShown
  {
  }

  // ---------------------------------------------------------------------------
  // The page object

  class Page {
    const id: string
    const store: Store
    var input: string
    var imageFile: seq<string>
    var isTyping: bool
    var newTitle: string
    var edit: bool

    /** The page for a room that exists, with its title field holding the room's title. */
    constructor (id: string, store: Store)
      requires OpenPage(store.rooms, id).Opened?
      ensures this.id == id && this.store == store
      ensures input == "" && imageFile == [] && !isTyping && !edit
      ensures newTitle == OpenPage(store.rooms, id).room.title
    {
      this.id := id;
      this.store := store;
      input := "";
      imageFile := [];
      isTyping := false;
      newTitle := FindRoom(store.rooms, id).value.title;
      edit := false;
    }

    /**
     * sendMessage, up to the timer: a blank input sends nothing, even with images
     * pending. Otherwise one user message with the trimmed text and the pending
     * images is appended to this room, the input and the images are cleared, and
     * the typing indicator comes on.
     */
    method SendMessage(now: string) returns (sent: bool)
      requires store.Valid()
      modifies this`input, this`imageFile, this`isTyping, store
      ensures store.Valid()
      ensures sent <==> !IsBlank(old(input))
      ensures !sent ==> input == old(input) && imageFile == old(imageFile) && isTyping == old(isTyping)
      ensures !sent ==> unchanged(store)
      ensures sent ==>
                && store.msgs == WithMessage(old(store.msgs), id, Message(User, Trim(old(input)), Some(old(imageFile)), now))
                && store.rooms == old(store.rooms)
                && store.storage == old(store.storage)[MessagesKey := MessageMap(store.msgs)]
                && input == "" && imageFile == [] && isTyping
    {
      if Trim(input) == "" {
        return false;
      }
      var userMessage := Message(User, Trim(input), Some(imageFile), now);
      store.AddMessage(id, userMessage);
      input := "";
      imageFile := [];
      isTyping := true;
      sent := true;
    }

    /**
     * The timer that follows a sent message: append one of the canned replies,
     * picked by the random roll, to this room and switch the typing indicator off.
     */
    method DeliverReply(roll: real, now: string) returns (randomIndex: nat)
      requires store.Valid()
      requires 0.0 <= roll < 1.0
      modifies this`isTyping, store
      ensures store.Valid()
      ensures randomIndex < ReplyCount && randomIndex == ReplyIndex(roll)
      ensures store.msgs == WithMessage(old(store.msgs), id, Message(Gemini, GeminiReply(randomIndex), None, now))
      ensures store.rooms == old(store.rooms)
      ensures store.storage == old(store.storage)[MessagesKey := MessageMap(store.msgs)]
      ensures !isTyping
    {
      randomIndex := ReplyIndex(roll);
      var aiReply := Message(Gemini, GeminiReply(randomIndex), None, now);
      store.AddMessage(id, aiReply);
      isTyping := false;
    }

    /**
     * handleNewTitleSubmit: a title equal to the room's current one leaves the
     * store alone; any other title, the empty one included, goes to
     * editChatroomTitle unchanged. Either way edit mode closes.
     */
    method HandleNewTitleSubmit()
      requires store.Valid()
      requires FindRoom(store.rooms, id).Some?
      modifies this`edit, store
      ensures store.Valid()
      ensures !edit
      ensures newTitle == FindRoom(old(store.rooms), id).value.title ==> unchanged(store)
      ensures newTitle != FindRoom(old(store.rooms), id).value.title ==>
                && store.rooms == Retitled(old(store.rooms), id, newTitle)
                && store.msgs == old(store.msgs)
                && store.storage == old(store.storage)[RoomsKey := RoomList(store.rooms)]
    {
      var chatroom := FindRoom(store.rooms, id).value;
      if newTitle == chatroom.title {
        edit := false;
        return;
      }
      store.EditChatroomTitle(id, newTitle);
      edit := false;
    }
  }
}

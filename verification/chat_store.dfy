/**
 * The client-side chat store: an ordered list of chat rooms and a map from room
 * id to that room's ordered message history, mirrored into a key-value browser
 * storage under the keys "chat-rooms" and "chat-messages".
 *
 * Stored values are kept typed (a room list or a message map); the JSON text in
 * between is taken to be a faithful encoding of them.
 */
module ChatStore {
  import opened Builtins

  datatype Option<T> = None | Some(value: T)

  /** The "from" field of a message: "user" or "gemini". */
  datatype Sender = User | Gemini

  datatype Room = Room(id: string, title: string, createdAt: string)

  /**
   * A chat message. Only messages typed by the user carry an "image" field (a list
   * of data URIs, possibly empty); the sample messages and the canned replies have none.
   */
  datatype Message = Message(from: Sender, text: string, image: Option<seq<string>>, timestamp: string)

  /** A value held in storage under one key. */
  datatype Snapshot = RoomList(rooms: seq<Room>) | MessageMap(byRoom: map<string, seq<Message>>)

  type Storage = map<string, Snapshot>

  const RoomsKey: string := "chat-rooms"
  const MessagesKey: string := "chat-messages"

  // ---------------------------------------------------------------------------
  // Sample data used to seed an empty storage

  const SampleRooms: seq<Room> := [
    Room("1752930361512", "Startup Pitch Draft", "2025-07-18T12:00:00Z"),
    Room("1752930361513", "CSS Grid Confusion \U{1F629}", "2025-07-17T10:30:00Z"),
    Room("1752930361514", "Explain Redux Like I'm 5", "2025-07-16T09:15:00Z"),
    Room("1752930361515", "Generate Blog Ideas (AI)", "2025-07-15T08:45:00Z")
  ]

  const SampleMessages: map<string, seq<Message>> := map[
    "1752930361512" := [
      Message(User, "Hey, here's my pitch idea:", None, "10:00 AM"),
      Message(Gemini, "Great! Start with a one-liner that captures your value.", None, "10:01 AM")
    ],
    "1752930361513" := [
      Message(User, "Why is CSS Grid so confusing \U{1F629}", None, "11:00 AM"),
      Message(Gemini, "Want a visual layout example?", None, "11:01 AM")
    ],
    "1752930361514" := [
      Message(User, "Explain Redux like I'm 5", None, "9:15 AM"),
      Message(Gemini, "Imagine a single big toy box (store)...", None, "9:16 AM")
    ],
    "1752930361515" := [
      Message(User, "Can you give me blog post ideas?", None, "8:45 AM"),
      Message(Gemini, "Sure. Topics on frontend performance, accessibility?", None, "8:46 AM")
    ]
  ]

  // ---------------------------------------------------------------------------
  // Pure views and updates of the two collections

  /** No two rooms share an id. */
  predicate UniqueIds(rooms: seq<Room>)
  {
    forall i, j :: 0 <= i < j < |rooms| ==> rooms[i].id != rooms[j].id
  }

  /** The history of room `id`; a room without an entry reads as the empty history. */
  function HistoryOf(msgs: map<string, seq<Message>>, id: string): (h: seq<Message>)
    ensures id in msgs ==> h == msgs[id]
    ensures id !in msgs ==> h == []
  {
    if id in msgs then msgs[id] else []
  }

  /** The keep-test of the room filter in deleteChatrooms. */
  function IdIsNot(id: string): Room -> bool
  {
    (room: Room) => room.id != id
  }

  /**
   * The room list after deleteChatrooms(id): every room with that id is gone and
   * every other room stays, in its original order and multiplicity.
   */
  function WithoutRoom(rooms: seq<Room>, id: string): (r: seq<Room>)
    ensures forall x :: x in r ==> x in rooms && x.id != id
    ensures forall x :: x in rooms && x.id != id ==> x in r
    ensures forall x :: multiset(r)[x] == if x.id == id then 0 else multiset(rooms)[x]
    ensures IsSubsequence(r, rooms)
    ensures (forall i :: 0 <= i < |rooms| ==> rooms[i].id != id) ==> r == rooms
  {
    Filter(rooms, IdIsNot(id))
  }

  /**
   * The room list after editChatroomTitle(id, title): same length and order, same
   * ids and creation times; the rooms with that id carry the new title, the others
   * keep theirs.
   */
  function Retitled(rooms: seq<Room>, id: string, title: string): (r: seq<Room>)
    ensures |r| == |rooms|
    ensures forall i :: 0 <= i < |rooms| ==> r[i].id == rooms[i].id && r[i].createdAt == rooms[i].createdAt
    ensures forall i :: 0 <= i < |rooms| ==>
              r[i].title == if rooms[i].id == id then title else rooms[i].title
    ensures (forall i :: 0 <= i < |rooms| ==> rooms[i].id != id) ==> r == rooms
  {
    if rooms == [] then []
    else [if rooms[0].id == id then rooms[0].(title := title) else rooms[0]] + Retitled(rooms[1..], id, title)
  }

  /**
   * The message map after addMessage(id, m): the history of `id` (empty when it had
   * none) gains `m` at its end; every other key keeps its history. The room need
   * not exist.
   */
  function WithMessage(msgs: map<string, seq<Message>>, id: string, m: Message): (r: map<string, seq<Message>>)
    ensures r.Keys == msgs.Keys + {id}
    ensures HistoryOf(r, id) == HistoryOf(msgs, id) + [m]
    ensures forall k :: k in msgs && k != id ==> r[k] == msgs[k]
  {
    msgs[id := HistoryOf(msgs, id) + [m]]
  }

  // ---------------------------------------------------------------------------
  // Storage and startup

  /** Each of the store's two keys, when present, holds a value of its own shape. */
  predicate WellTyped(s: Storage)
  {
    (RoomsKey in s ==> s[RoomsKey].RoomList?) && (MessagesKey in s ==> s[MessagesKey].MessageMap?)
  }

  /** The storage holds exactly `rooms` and `msgs` under the store's two keys. */
  predicate Mirrors(s: Storage, rooms: seq<Room>, msgs: map<string, seq<Message>>)
  {
    RoomsKey in s && s[RoomsKey] == RoomList(rooms) &&
    MessagesKey in s && s[MessagesKey] == MessageMap(msgs)
  }

  /** The room list read at startup: a missing entry reads as the empty list. */
  function LoadedRooms(s: Storage): seq<Room>
    requires WellTyped(s)
  {
    if RoomsKey in s then s[RoomsKey].rooms else []
  }

  /** The message map read at startup: a missing entry reads as null. */
  function LoadedMessages(s: Storage): Option<map<string, seq<Message>>>
    requires WellTyped(s)
  {
    if MessagesKey in s then Some(s[MessagesKey].byRoom) else None
  }

  /** What startup produces: the two in-memory collections and the storage afterwards. */
  datatype Boot = Boot(rooms: seq<Room>, msgs: map<string, seq<Message>>, storage: Storage)

  /**
   * Startup: an empty or missing room list is replaced by the sample rooms, a
   * missing message map by the sample messages, and each replacement is written
   * back. Afterwards storage mirrors memory, the room list is never empty, and
   * keys other than the store's two are untouched.
   */
  function Startup(s: Storage): (b: Boot)
    requires WellTyped(s)
    ensures Mirrors(b.storage, b.rooms, b.msgs)
    ensures b.rooms != []
    ensures b.storage.Keys == s.Keys + {RoomsKey, MessagesKey}
    ensures forall k :: k in s && k != RoomsKey && k != MessagesKey ==> b.storage[k] == s[k]
  {
    var loadedRooms := LoadedRooms(s);
    var loadedMessages := LoadedMessages(s);
    var rooms := if |loadedRooms| > 0 then loadedRooms else SampleRooms;
    var msgs := if loadedMessages.Some? then loadedMessages.value else SampleMessages;
    var s1 := if loadedMessages.None? then s[MessagesKey := MessageMap(SampleMessages)] else s;
    var s2 := if |loadedRooms| == 0 then s1[RoomsKey := RoomList(SampleRooms)] else s1;
    Boot(rooms, msgs, s2)
  }

  /** A first start on an empty storage seeds the four sample rooms and their histories. */
  lemma FirstStartSeeds()
    ensures Startup(map[]) == Boot(SampleRooms, SampleMessages,
              map[RoomsKey := RoomList(SampleRooms), MessagesKey := MessageMap(SampleMessages)])
    ensures |SampleRooms| == 4 && UniqueIds(SampleRooms)
    ensures forall i :: 0 <= i < |SampleRooms| ==> |HistoryOf(SampleMessages, SampleRooms[i].id)| == 2
  {
  }

  /**
   * Seeding is asymmetric: an empty stored room list counts as missing and is
   * replaced, while a stored message map is kept even when it is empty.
   */
  lemma SeedingIsAsymmetric(s: Storage)
    requires WellTyped(s)
    ensures LoadedRooms(s) == [] ==>
              Startup(s).rooms == SampleRooms && Startup(s).storage[RoomsKey] == RoomList(SampleRooms)
    ensures LoadedRooms(s) != [] ==>
              Startup(s).rooms == LoadedRooms(s) && Startup(s).storage[RoomsKey] == s[RoomsKey]
    ensures MessagesKey !in s ==>
              Startup(s).msgs == SampleMessages && Startup(s).storage[MessagesKey] == MessageMap(SampleMessages)
    ensures MessagesKey in s ==>
              Startup(s).msgs == s[MessagesKey].byRoom && Startup(s).storage[MessagesKey] == s[MessagesKey]
  {
  }

  /** A storage that already holds a non-empty room list and a message map is used as is and not written. */
  lemma StartupKeepsPopulatedStorage(s: Storage)
    requires WellTyped(s) && LoadedRooms(s) != [] && MessagesKey in s
    ensures Startup(s) == Boot(LoadedRooms(s), s[MessagesKey].byRoom, s)
  {
  }

  /** Starting a second time from what the first start left in storage changes nothing. */
  lemma StartupIdempotent(s: Storage)
    requires WellTyped(s)
    ensures WellTyped(Startup(s).storage)
    ensures Startup(Startup(s).storage) == Startup(s)
  {
  }

  /**
   * Restarting from the storage of a running store restores its collections
   * exactly, provided the room list is not empty.
   */
  lemma RestartRestoresState(s: Storage, rooms: seq<Room>, msgs: map<string, seq<Message>>)
    requires Mirrors(s, rooms, msgs) && rooms != []
    ensures WellTyped(s)
    ensures Startup(s) == Boot(rooms, msgs, s)
  {
  }

  /**
   * When every room has been deleted, a restart brings the sample rooms back but
   * keeps the stored message map, so they come back without their sample histories.
   */
  lemma RestartAfterDeletingEveryRoom(s: Storage, msgs: map<string, seq<Message>>)
    requires Mirrors(s, [], msgs)
    ensures WellTyped(s)
    ensures Startup(s).rooms == SampleRooms && Startup(s).msgs == msgs
  {
  }

  // ---------------------------------------------------------------------------
  // Lemmas about the updates

  /** A room appended under an unused id keeps the ids unique. */
  lemma AppendKeepsIdsUnique(rooms: seq<Room>, room: Room)
    requires UniqueIds(rooms)
    requires forall i :: 0 <= i < |rooms| ==> rooms[i].id != room.id
    ensures UniqueIds(rooms + [room])
  {
  }

  /** Deleting and retitling rooms keep unique ids unique. */
  lemma {:induction false} UpdatesKeepIdsUnique(rooms: seq<Room>, id: string, title: string)
    requires UniqueIds(rooms)
    ensures UniqueIds(WithoutRoom(rooms, id))
    ensures UniqueIds(Retitled(rooms, id, title))
  {
    FilterKeepsIdsUnique(rooms, IdIsNot(id));
  }

  /** Helper: a filtered list of rooms with unique ids has unique ids. */
  lemma {:induction false} FilterKeepsIdsUnique(rooms: seq<Room>, keep: Room -> bool)
    requires UniqueIds(rooms)
    ensures UniqueIds(Filter(rooms, keep))
  {
    if rooms != [] {
      var tail := rooms[1..];
      assert UniqueIds(tail) by {
        forall i, j | 0 <= i < j < |tail| ensures tail[i].id != tail[j].id {
          assert tail[i] == rooms[i + 1] && tail[j] == rooms[j + 1];
        }
      }
      FilterKeepsIdsUnique(tail, keep);
      var rest := Filter(tail, keep);
      if keep(rooms[0]) {
        var r := [rooms[0]] + rest;
        assert r == Filter(rooms, keep);
        forall i, j | 0 <= i < j < |r| ensures r[i].id != r[j].id {
          assert r[j] == rest[j - 1];
          if i == 0 {
            assert r[j] in tail;
            var m :| 0 <= m < |tail| && tail[m] == r[j];
            assert rooms[m + 1] == r[j];
          } else {
            assert r[i] == rest[i - 1];
          }
        }
      }
    }
  }

  /** After a room is deleted, reading its history gives the empty history: nothing is orphaned. */
  lemma DeletedRoomLeavesNoHistory(msgs: map<string, seq<Message>>, id: string, m: Message)
    ensures HistoryOf(msgs - {id}, id) == []
    ensures HistoryOf(WithMessage(msgs, id, m) - {id}, id) == []
  {
  }

  // ---------------------------------------------------------------------------
  // The store object

  class Store {
    var rooms: seq<Room>
    var msgs: map<string, seq<Message>>
    var storage: Storage

    /** Storage mirrors both in-memory collections. */
    ghost predicate Valid()
      reads this
    {
      Mirrors(storage, rooms, msgs)
    }

    /** Startup: read storage, fall back to the sample data, and persist what was seeded. */
    constructor (stored: Storage)
      requires WellTyped(stored)
      ensures Valid()
      ensures Boot(rooms, msgs, storage) == Startup(stored)
    {
      var boot := Startup(stored);
      rooms, msgs, storage := boot.rooms, boot.msgs, boot.storage;
    }

    /**
     * addChatrooms: append one room with the given title, id and creation time,
     * and persist the room list. The title is not validated and the id is not
     * checked against the existing rooms.
     */
    method AddChatrooms(title: string, newId: string, createdAt: string)
      requires Valid()
      modifies this
      ensures Valid()
      ensures rooms == old(rooms) + [Room(newId, title, createdAt)]
      ensures msgs == old(msgs)
      ensures storage == old(storage)[RoomsKey := RoomList(rooms)]
    {
      var newChatroom := Room(newId, title, createdAt);
      var updated := rooms + [newChatroom];
      storage := storage[RoomsKey := RoomList(updated)];
      rooms := updated;
    }

    /**
     * deleteChatrooms: drop every room with the id and that id's history, and
     * persist both collections.
     */
    method DeleteChatrooms(id: string)
      requires Valid()
      modifies this
      ensures Valid()
      ensures rooms == WithoutRoom(old(rooms), id)
      ensures msgs.Keys == old(msgs).Keys - {id}
      ensures forall k :: k in msgs ==> msgs[k] == old(msgs)[k]
      ensures storage == old(storage)[RoomsKey := RoomList(rooms)][MessagesKey := MessageMap(msgs)]
    {
      var updatedRooms := WithoutRoom(rooms, id);
      var updatedMessages := msgs;
      updatedMessages := updatedMessages - {id};
      storage := storage[RoomsKey := RoomList(updatedRooms)];
      storage := storage[MessagesKey := MessageMap(updatedMessages)];
      rooms, msgs := updatedRooms, updatedMessages;
    }

    /** addMessage: append a message to a room's history and persist the message map. */
    method AddMessage(chatroomId: string, message: Message)
      requires Valid()
      modifies this
      ensures Valid()
      ensures msgs == WithMessage(old(msgs), chatroomId, message)
      ensures rooms == old(rooms)
      ensures storage == old(storage)[MessagesKey := MessageMap(msgs)]
    {
      var prevMessages := HistoryOf(msgs, chatroomId);
      var updatedMessages := msgs[chatroomId := prevMessages + [message]];
      storage := storage[MessagesKey := MessageMap(updatedMessages)];
      msgs := updatedMessages;
    }

    /** editChatroomTitle: give every room with the id the new title and persist the room list. */
    method EditChatroomTitle(id: string, newTitle: string)
      requires Valid()
      modifies this
      ensures Valid()
      ensures rooms == Retitled(old(rooms), id, newTitle)
      ensures msgs == old(msgs)
      ensures storage == old(storage)[RoomsKey := RoomList(rooms)]
    {
      var updatedRooms := Retitled(rooms, id, newTitle);
      storage := storage[RoomsKey := RoomList(updatedRooms)];
      rooms := updatedRooms;
    }
  }
}

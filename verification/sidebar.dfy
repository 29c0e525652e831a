/**
 * The sidebar: a case-insensitive search over the room titles, and the handlers
 * that create and delete rooms through the store.
 */
module Sidebar {
  import opened Builtins
  import opened ChatStore

  /**
   * The search test on one room: its lowered title includes the term, which the
   * caller has already lowered once for the whole search.
   */
  predicate TitleIncludes(room: Room, lowerTerm: string)
  {
    Includes(Lower(room.title), lowerTerm)
  }

  /**
   * The search result: exactly the rooms whose title matches the term, each as
   * often as in `chatrooms`, kept in their original order. An empty term keeps
   * every room.
   */
  function Search(chatrooms: seq<Room>, searchTerm: string): (r: seq<Room>)
    ensures forall x :: x in r <==> x in chatrooms && TitleIncludes(x, Lower(searchTerm))
    ensures forall x :: multiset(r)[x] == if TitleIncludes(x, Lower(searchTerm)) then multiset(chatrooms)[x] else 0
    ensures IsSubsequence(r, chatrooms)
    ensures |r| <= |chatrooms|
    ensures searchTerm == "" ==> r == chatrooms
  {
    var lower := Lower(searchTerm);
    Filter(chatrooms, (room: Room) => TitleIncludes(room, lower))
  }

  /** Two search terms that differ only in letter case give the same result. */
  lemma SearchIgnoresCase(chatrooms: seq<Room>, term1: string, term2: string)
    requires Lower(term1) == Lower(term2)
    ensures Search(chatrooms, term1) == Search(chatrooms, term2)
  {
  }

  /** Searching for a term and for its lower-case form is the same search. */
  lemma SearchByLoweredTerm(chatrooms: seq<Room>, searchTerm: string)
    ensures Search(chatrooms, Lower(searchTerm)) == Search(chatrooms, searchTerm)
  {
    LowerIdempotent(searchTerm);
  }

  /** The sidebar's own state, beside the store it calls into. */
  class SidebarPanel {
    const store: Store
    var newChatroom: string
    var searchTerm: string
    var filtered: seq<Room>

    constructor (store: Store)
      ensures this.store == store
      ensures newChatroom == "" && searchTerm == "" && filtered == store.rooms
    {
      this.store := store;
      newChatroom := "";
      searchTerm := "";
      filtered := store.rooms;
    }

    /** The debounced search effect: recompute the shown rooms from the current term. */
    method ApplySearch()
      modifies this`filtered
      ensures filtered == Search(store.rooms, searchTerm)
    {
      filtered := Search(store.rooms, searchTerm);
    }

    /**
     * handleCreate: a blank name changes nothing, not even the input; any other
     * name creates one room titled with the trimmed name and clears the input.
     */
    method HandleCreate(newId: string, createdAt: string)
      requires store.Valid()
      modifies this`newChatroom, store
      ensures store.Valid()
      ensures IsBlank(old(newChatroom)) ==> newChatroom == old(newChatroom) && unchanged(store)
      ensures !IsBlank(old(newChatroom)) ==>
                && newChatroom == ""
                && store.rooms == old(store.rooms) + [Room(newId, Trim(old(newChatroom)), createdAt)]
                && store.msgs == old(store.msgs)
                && store.storage == old(store.storage)[RoomsKey := RoomList(store.rooms)]
    {
      if Trim(newChatroom) == "" {
        return;
      }
      store.AddChatrooms(Trim(newChatroom), newId, createdAt);
      newChatroom := "";
    }

    /** handleDelete: delete the room and its history through the store. */
    method HandleDelete(id: string)
      requires store.Valid()
      modifies store
      ensures store.Valid()
      ensures store.rooms == WithoutRoom(old(store.rooms), id)
      ensures store.msgs.Keys == old(store.msgs).Keys - {id}
      ensures forall k :: k in store.msgs ==> store.msgs[k] == old(store.msgs)[k]
      ensures store.storage == old(store.storage)[RoomsKey := RoomList(store.rooms)][MessagesKey := MessageMap(store.msgs)]
    {
      store.DeleteChatrooms(id);
    }
  }
}

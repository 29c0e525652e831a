# Gemini-clone chat client: a Dafny model of its state and page rules

This project models the client-side core of a browser chat application that
imitates an AI assistant. The core is the **chat store**. It holds an ordered
list of chat rooms (`id`, `title`, `createdAt`) and a map from room id to the
room's ordered message history. Every change is written through to browser
key-value storage under the keys `"chat-rooms"` and `"chat-messages"`. On
startup the store reads storage, falls back to four sample rooms and their
sample histories, and persists whatever it seeded.

Around the store, the model covers the small rules each page applies before it
calls into it:

- the **sidebar**: the case-insensitive room search, and the create and delete
  handlers;
- the **chatroom page**: sending a message, the canned reply that follows it,
  renaming the room, and the history lookup;
- the **login page**: the form schema and the two-step OTP submit.

Files:

- `builtins.dfy` (module `Builtins`): the JavaScript built-ins the core relies
  on, written out. These are `Array.prototype.filter`, `String.prototype.trim`
  (with the full ECMAScript whitespace set), `toLowerCase` and `includes`.
- `chat_store.dfy` (module `ChatStore`): the data model, the sample data, pure
  update functions, startup seeding and the `Store` class.
- `sidebar.dfy` (module `Sidebar`): `Search` and the `SidebarPanel` class.
- `chatroom_page.dfy` (module `ChatroomPage`): the reply table (`GeminiReply`), `FindRoom`, page
  opening and the `Page` class.
- `login.dfy` (module `Login`): the schema, the submit step and the `LoginPage`
  class.

Modelling choices:

- Storage is a `map<string, Snapshot>`. A snapshot is either a typed room list
  or a typed message map. JSON encoding is taken to be the identity on these
  values.
- The store's invariant `Store.Valid()` says that storage holds exactly the
  in-memory room list and message map under the two keys. Startup establishes
  it, and every mutator preserves it.
- Values from the environment become parameters:
  - the new room id (`Date.now()`);
  - timestamps (`toISOString`, `toLocaleTimeString`);
  - the random number behind the reply choice, a real `roll` with
    `0 <= roll < 1`.
- Message `image` is an `Option`. User messages carry the pending image list.
  The sample messages and the canned replies have no such field.
- Sender `from` is `User` or `Gemini`. These stand for the strings `"user"` and
  `"gemini"` that the code writes.

Where the code departs from what the store is usually taken to promise, the model follows the code:

- Startup on unparseable storage. A fallback to defaults would be expected.
  In the code, a parse failure throws. Startup therefore requires well-typed
  storage (`WellTyped`).
- Restart round trip. Restarting from storage should restore the
  state. The code does this only while the room list is non-empty
  (`RestartRestoresState`). An empty stored room list is re-seeded with the sample
  rooms, while the stored message map is kept (`RestartAfterDeletingEveryRoom`).
- Unique room ids. Room ids are meant to be unique, but nothing in the code
  guarantees it. Uniqueness is proved only under the precondition that the new
  id is unused (`AppendKeepsIdsUnique`, `UpdatesKeepIdsUnique`). Deletion and
  retitling act on every room with the id.
- Orphaned histories. `addMessage` does not check that the room exists. The
  model keeps this behaviour: `WithMessage` creates a history for any id.

## Model

| member | source | states |
|---|---|---|
| Builtins.Filter | src/store/chatStore.js:106 | The result is exactly the accepted elements, each with its multiplicity in the input (multiset), in input order (subsequence). It is never longer than the input, and it equals the input when every element is accepted. |
| Builtins.Trim | src/features/Sidebar.jsx:29-30 | The result is a slice of the input with only whitespace before and after it. It starts and ends with non-whitespace. It is empty exactly when the input is blank. |
| Builtins.TrimIdempotent | src/features/Sidebar.jsx:30 | Trimming an already trimmed name changes nothing. |
| Builtins.Lower | src/features/Sidebar.jsx:16 | Same length as the input. Each upper-case ASCII letter becomes its lower-case partner, and every other character is kept. |
| Builtins.LowerIdempotent | src/features/Sidebar.jsx:16-18 | Lowering twice is lowering once. |
| Builtins.Includes | src/features/Sidebar.jsx:18 | The empty string is included in every string. A needle longer than the string is never included. |
| Builtins.IncludesIffOccurs | src/features/Sidebar.jsx:18 | `includes` holds exactly when the needle occurs at some position of the string. Both directions are proved. |
| ChatStore.HistoryOf | src/store/chatStore.js:122 | A room id with an entry reads as its stored history. An id without one reads as the empty history, as `messagesByRoom[id] \|\| []` does. |
| ChatStore.WithoutRoom | src/store/chatStore.js:106 | No room with the id is left. Every other room is kept with its multiplicity and its order. An unknown id leaves the list equal. |
| ChatStore.Retitled | src/store/chatStore.js:137-139 | Length, order, ids and createdAt are unchanged. Rooms with the id get the new title, with no emptiness check. The others keep their title. An unknown id leaves the list equal. |
| ChatStore.WithMessage | src/store/chatStore.js:121-126 | The room's history becomes its old history followed by the message, where an absent history counts as empty. Every other key keeps its history. The key set gains the id. |
| ChatStore.Startup | src/store/chatStore.js:70-84 | After startup, storage mirrors both collections and the room list is non-empty. Only the store's two keys can be added or changed. |
| ChatStore.FirstStartSeeds | src/store/chatStore.js:3-84 | Starting on empty storage yields the 4 sample rooms, which have distinct ids and two sample messages each, and persists both samples. |
| ChatStore.SeedingIsAsymmetric | src/store/chatStore.js:75-84 | A missing or empty room list is replaced by the samples, which are then persisted. A stored non-empty list is kept. A missing message map is replaced by the samples and persisted. A present message map, even an empty one, is kept. |
| ChatStore.StartupKeepsPopulatedStorage | src/store/chatStore.js:75-84 | With a non-empty stored room list and a stored message map, startup uses both and writes nothing. |
| ChatStore.StartupIdempotent | src/store/chatStore.js:70-84 | Starting again from the storage that the first start left gives the same state and storage. |
| ChatStore.RestartRestoresState | src/store/chatStore.js:70-84 | Restarting from the storage of a running store, with a non-empty room list, restores both collections exactly and writes nothing. |
| ChatStore.RestartAfterDeletingEveryRoom | src/store/chatStore.js:75-83 | After every room has been deleted, a restart brings back the sample rooms but keeps the stored message map. |
| ChatStore.AppendKeepsIdsUnique | src/store/chatStore.js:91-97 | Appending a room whose id is unused keeps the ids unique. |
| ChatStore.UpdatesKeepIdsUnique | src/store/chatStore.js:104-144 | Deleting and retitling keep the ids unique. |
| ChatStore.DeletedRoomLeavesNoHistory | src/store/chatStore.js:107-108 | After deletion, the id's history reads as empty, even right after a message was added to it. |
| ChatStore.Store.constructor | src/store/chatStore.js:69-88 | The store's state and storage are the result of `Startup` on the stored data, and storage mirrors memory. |
| ChatStore.Store.AddChatrooms | src/store/chatStore.js:89-102 | Exactly one room with the given title, id and createdAt is appended at the end. Earlier rooms and the message map are unchanged. Only `"chat-rooms"` is written, and it holds the new list. |
| ChatStore.Store.DeleteChatrooms | src/store/chatStore.js:104-117 | The room list becomes `WithoutRoom` of the old list. The id's history is removed and every other history is unchanged. Both keys are written with the new values. |
| ChatStore.Store.AddMessage | src/store/chatStore.js:119-133 | The message map becomes `WithMessage` of the old map. Rooms are unchanged. Only `"chat-messages"` is written, and it holds the new map. |
| ChatStore.Store.EditChatroomTitle | src/store/chatStore.js:135-144 | The room list becomes `Retitled` of the old list. The message map is unchanged. Only `"chat-rooms"` is written, and it holds the new list. |
| Sidebar.Search | src/features/Sidebar.jsx:16-18 | The result is exactly the rooms whose lowered title includes the lowered term, with their multiplicities, in original order. It is never longer than the input. An empty term keeps every room. |
| Sidebar.SearchIgnoresCase | src/features/Sidebar.jsx:16-18 | Terms that differ only in letter case give the same result. |
| Sidebar.SearchByLoweredTerm | src/features/Sidebar.jsx:16-18 | Searching for the lower-case form of a term gives the same result as the term itself. |
| Sidebar.SidebarPanel.constructor | src/features/Sidebar.jsx:9-11 | The inputs start empty, and the shown list starts as the store's rooms. |
| Sidebar.SidebarPanel.ApplySearch | src/features/Sidebar.jsx:14-20 | The shown list becomes `Search` of the store's rooms with the current term. |
| Sidebar.SidebarPanel.HandleCreate | src/features/Sidebar.jsx:28-33 | A blank name changes neither the store nor the input. Otherwise one room titled with the trimmed name is appended and the input is cleared. |
| Sidebar.SidebarPanel.HandleDelete | src/features/Sidebar.jsx:35-38 | The room list becomes `WithoutRoom` of the old list, and the id's history is removed while every other history is kept. Both store keys are rewritten, and every other storage key is unchanged. |
| ChatroomPage.FindRoom | src/pages/ChatroomPage.jsx:33 | Gives the first room with the id, or none exactly when no room has the id. |
| ChatroomPage.ReplyIndex | src/pages/ChatroomPage.jsx:73 | The index is the floor of roll × 10, where 10 is the size of the reply table (`ReplyCount`), so it lies in 0..9. |
| ChatroomPage.GeminiReply | src/pages/ChatroomPage.jsx:8-28 | The reply table: slot i holds the i-th of the 10 canned replies, character for character. It has no contract of its own; `DeliverReply` states how a slot is chosen. |
| ChatroomPage.SentAndRepliedHistory | src/pages/ChatroomPage.jsx:36-82 | After a sent message and the reply that follows it, the room shows its earlier history (empty if it had none), then the user's message, then the reply. Every other room shows what it showed before. |
| ChatroomPage.OpenPageAsWritten | src/pages/ChatroomPage.jsx:30-111 | As written, rendering never shows "not found". It crashes exactly when no room has the id. |
| ChatroomPage.DeletingViewedRoomCrashes | src/pages/ChatroomPage.jsx:44 | As written, rendering crashes for an id whose room has just been deleted. |
| ChatroomPage.OpenPage | src/pages/ChatroomPage.jsx:111 | As intended, rendering never crashes. It shows "not found" exactly when no room has the id, and otherwise opens the first room with that id, the one `FindRoom` gives. |
| ChatroomPage.DeletingViewedRoomShowsNotFound | src/pages/ChatroomPage.jsx:111 | As intended, deleting the viewed room leads to the "not found" view. |
| ChatroomPage.Page.constructor | src/pages/ChatroomPage.jsx:34-45 | The page state starts with empty input, no images, no typing indicator and edit mode off. The title field holds the room's title. |
| ChatroomPage.Page.SendMessage | src/pages/ChatroomPage.jsx:57-70 | A blank input, even with images pending, sends nothing and changes nothing. Otherwise exactly one user message with the trimmed text and the pending images is appended to this room. Only `"chat-messages"` is written. Input and images are then cleared and the typing indicator comes on. |
| ChatroomPage.Page.DeliverReply | src/pages/ChatroomPage.jsx:72-82 | One `gemini` message is appended to the same room. Its text is `GeminiReply(i)`, entry i of the 10-entry reply table, for the index i < 10 chosen by `ReplyIndex`. Rooms are unchanged, and only `"chat-messages"` is written. The typing indicator goes off. |
| ChatroomPage.Page.HandleNewTitleSubmit | src/pages/ChatroomPage.jsx:85-93 | A title equal to the current one leaves the store untouched. Any other title, empty included, retitles the room. Edit mode is closed in both cases. |
| Login.SchemaErrors | src/pages/Login.jsx:9-13 | An empty country code fails. A phone number shorter than 10 characters fails, with no digit or format check. The OTP field always passes. |
| Login.Step | src/pages/Login.jsx:47-58 | A form the schema rejects changes nothing. The first accepted submit only raises `otpSent` and never navigates. With `otpSent` up, a 6-character OTP of any content navigates to `/chat/1752930361512`. Any other length is refused, and `otpSent` stays up. |
| Login.OtpSentIsMonotone | src/pages/Login.jsx:47-58 | Once `otpSent` is true, it stays true through any run of submits. |
| Login.NavigationNeedsEarlierSend | src/pages/Login.jsx:47-58 | From a fresh page, a submit navigates only after an earlier submit that the schema accepted. |
| Login.LoginPage.constructor | src/pages/Login.jsx:18 | `otpSent` starts false. |
| Login.LoginPage.Submit | src/pages/Login.jsx:47-58 | The new `otpSent` and the outcome of the submit are those of `Step`. |

## Findings

| source | as written | input that shows it | evidently intended | confidence | as-written member | corrected member |
|---|---|---|---|---|---|---|
| src/pages/ChatroomPage.jsx:44 | The title field is initialised from `chatroom.title` before the guard at line 111 checks whether `chatroom` exists. For an unknown id this throws, so "Chatroom not found" is never shown. | Open `/chat/<id>` and delete that room from the sidebar on the same page. The page re-renders with `chatroom` undefined (`DeletingViewedRoomCrashes`). | An unknown id shows "Chatroom not found". | high (not executed) | ChatroomPage.OpenPageAsWritten | ChatroomPage.OpenPage |

## Left out

- JSON encoding and decoding around storage. Values are stored typed. A
  parse failure, which throws in the code, is excluded by `WellTyped` and not
  given a recovery rule.
- Storage write failures, such as a full quota, are not modelled. Every write
  succeeds.
- Timing is not modelled: the 300 ms search debounce and the 1500 ms reply
  delay. `ApplySearch` and `DeliverReply` model only the state change when the
  timer fires.
- The model does not force `DeliverReply` to follow each successful
  `SendMessage` exactly once. The pairing is made by the timer, which is not
  modelled.
- `Math.random`, `Date.now()`, `toISOString()` and `toLocaleTimeString()` are
  parameters. Nothing about their values is assumed beyond the range of the
  random number.
- Builtins.Lower: folds ASCII letters only. Full Unicode `toLowerCase` is not modelled.
- ChatroomPage.ReplyIndex: takes the exact real floor of roll × 10. The code
  multiplies IEEE doubles, and the product is rounded before the floor. For
  some rolls the two differ by one slot: for the double nearest 0.3, the code
  picks slot 3 and the model picks slot 2. Both always pick a slot in 0..9.
- ChatroomPage.GeminiReply: carries no contract. Stating anything about the ten
  long reply texts costs the solver more than the model allows. The table is
  given by the function's body.
- Login.SchemaErrors: compares lengths counted in Unicode code points.
  JavaScript counts UTF-16 code units, so the two differ for characters outside
  the Basic Multilingual Plane. The same holds for the OTP length in `Step`.
- `FileReader` image loading. Images are opaque strings that the user appends
  to the pending list.
- The plain input setters that typing performs (`setInput`, `setNewTitle`,
  `setNewChatroom`, `setSearchTerm`) and the edit-mode opener are not modelled.
  The model's fields are assigned directly. Also left out:
  - the Escape-key handler;
  - the effect that resets edit mode and the title field when the route id changes.
- Rendering, styling, animation, toasts (except the texts that `Login.Step`
  returns), clipboard copy, scroll-to-bottom, and the sidebar open/push toggles
  are UI with no stateable logic.
- The country-list fetch (`src/utils/fetchCountries.js`), routing
  (`src/App.jsx`) and `tailwind.config.js` are not part of this model.

# Local persistence and conversation state of a client-side chat app

This project models, in Dafny, the persistence and conversation-state layer of a
browser chat application. Users pick a reusable prompt, exchange messages with a
simulated assistant, and keep their conversations in `localStorage`. Two parts are
modelled:

- `src/utils/storage.ts` is the store. Three records live under the keys
  `gpt-prompts`, `gpt-conversations` and `current-conversation-id`. The store
  offers prompt and conversation CRUD and manages the current-conversation
  id. Here it is the class `Storage.Store`, with one field per record.
  Each exported function is a method that reads a record, changes it and writes
  it back. A list record is a `Slot`: absent, unreadable (a parse failure), or a
  parsed list. A missing or unreadable record reads as the empty list, as the
  source's `try`/`catch` makes it.
- `src/App.tsx` is the controller, which holds the React state
  `conversations` and `currentConversation`. Here it is the class
  `App.Controller`, with those two fields and a `Store`. `initializeApp` seeds
  the default prompts and resolves the active conversation. `handleSendMessage`
  is built on the pure function `Chat.AppendMessage`, which appends the message
  and derives the title.

Fresh ids (`crypto.randomUUID()`) and clock readings (`new Date()`) are
parameters. A fresh id must not already be in the list it is added to.
Timestamps are integers.

Modules: `Wrappers` (Option), `Types` (the records of `src/types/index.ts`),
`Records` (the keyed-list operations `findIndex`, `filter` and `map` that the
source applies), `Decimal` (the numeral in a default title), `Storage`, `Chat`
and `App`.

Default conversation titles are the Korean `"대화 N"` ("conversation N"), as at
src/utils/storage.ts:101. `getPrompts` does not rebuild dates, while
`getConversations` does. This does not show in the model, where timestamps are
integers.

## Model

| member | source | states |
|---|---|---|
| `Records.FindIndex` | src/utils/storage.ts:43 | returns `None` exactly when no entry has the id; otherwise the returned index holds that id and every earlier entry has another id |
| `Records.RemoveKey` | src/utils/storage.ts:56 | no entry of the filtered list has the id; its length plus the number of matches is the old length; an absent id leaves the list unchanged |
| `Records.RemoveKeyMembers` | src/utils/storage.ts:56 | every kept entry comes from the old list, and every old entry with another id is kept |
| `Records.ReplaceKey` | src/App.tsx:83-85 | same length; each entry with the id becomes the new value and every other entry is unchanged |
| `Records.RemoveKeyAppend` | src/utils/storage.ts:56 | filtering distributes over concatenation, so the kept entries stay in their original order |
| `Records.RemoveKeyAt` | src/utils/storage.ts:56 | with unique ids, deleting entry `k`'s id gives exactly `s[..k] + s[k+1..]` |
| `Records.CountKeyUnique` | src/utils/storage.ts:127 | with unique ids, an id occurs once if present and not at all otherwise, so a delete shrinks the list by exactly 1 or 0 |
| `Records.RemoveKeyUnique` | src/utils/storage.ts:56 | filtering keeps ids unique |
| `Records.AddFreshUnique` | src/utils/storage.ts:36 | appending or prepending an entry with a fresh id keeps ids unique |
| `Records.ReplaceAtUnique` | src/utils/storage.ts:45 | replacing an entry by one with the same id keeps ids unique |
| `Storage.Load` | src/utils/storage.ts:11-17 | a parsed list is read as stored; a missing or unreadable record reads as the empty list (as in `getPrompts` and, at lines 64 and 75-77, `getConversations`), so a non-empty result always comes from a parsed list |
| `Storage.DefaultTitle` | src/utils/storage.ts:101 | the title is `"대화 "` followed by a decimal numeral, and that numeral reads back as the stored count plus one and has no leading zero, so the title is exactly the one the template literal prints |
| `Storage.MergePrompt` | src/utils/storage.ts:45-49 | `id` and `createdAt` are kept, `updatedAt` becomes the update time, and `name` and `content` take the patch's value when it gives one and keep the old one otherwise |
| `Storage.MergeConversation` | src/utils/storage.ts:116-120 | every field the patch gives takes the patch's value, every other field is kept, and `updatedAt` is the update time even when the patch gives one |
| `Storage.CurrentIdAfterDelete` | src/utils/storage.ts:131-136 | a current id other than the deleted one is kept; the deleted one is replaced by the id of the first remaining conversation, and is absent exactly when none remains |
| `Decimal.NatToString` | src/utils/storage.ts:101 | the numeral has at least one character, consists of digits only, and has no leading zero |
| `Decimal.NatToStringRoundTrip` | src/utils/storage.ts:101 | reading the numeral back returns the number it was written from |
| `Decimal.NatToStringInjective` | src/utils/storage.ts:101 | two numerals are equal if and only if their numbers are |
| `Storage.DefaultTitleInjective` | src/utils/storage.ts:101 | the titles `"대화 " + (count+1)` are equal if and only if the counts are, so titles repeat only when the stored count repeats |
| `Storage.MergeFullPatch` | src/utils/storage.ts:116-120 | merging a whole conversation as the patch gives that conversation, with `updatedAt` set to the update time |
| `Storage.PromptsAfterUpdate` | src/utils/storage.ts:41-52 | an unknown id leaves the record as it was (no save); otherwise only the first matching entry changes: `name`/`content` take the patch's values when given, `updatedAt` is the new time, and `id`, `createdAt`, the length and all other entries are kept |
| `Storage.ConversationsAfterUpdate` | src/utils/storage.ts:112-123 | an unknown id leaves the record as it was (no save); otherwise only the first matching entry is replaced, by the merged record with a refreshed `updatedAt` |
| `Storage.UpdatePromptKeepsUnique` | src/utils/storage.ts:43-50 | updating a prompt keeps prompt ids unique |
| `Storage.UpdateConversationKeepsUnique` | src/utils/storage.ts:114-120 | updating a conversation with a patch that leaves `id` alone, or sets it to the same id, keeps conversation ids unique |
| `Storage.DeleteKeepsCurrentIdIntegrity` | src/utils/storage.ts:130-137 | after a delete the current id never names the deleted id. A current id naming another conversation is kept. One naming the deleted one moves to the first remaining conversation, and is cleared only when none remains. One that named a stored conversation still does |
| `Storage.Store.GetPrompts` | src/utils/storage.ts:10-18 | never fails; returns the stored list, or the empty list when the record is missing or unreadable |
| `Storage.Store.SavePrompts` | src/utils/storage.ts:20-26 | the prompt record becomes the given list |
| `Storage.Store.AddPrompt` | src/utils/storage.ts:28-39 | returns the prompt with the supplied name and content, the fresh id and both timestamps `now`; the record becomes the old list plus exactly that prompt at the end; ids stay unique |
| `Storage.Store.UpdatePrompt` | src/utils/storage.ts:41-52 | the record becomes `PromptsAfterUpdate` of the old record |
| `Storage.Store.DeletePrompt` | src/utils/storage.ts:54-58 | the record becomes the old list without the entries with that id, order kept, always saved; with unique ids the length drops by 1 if the id was present and by 0 otherwise |
| `Storage.Store.GetConversations` | src/utils/storage.ts:61-79 | never fails; returns the stored list, or the empty list when the record is missing or unreadable |
| `Storage.Store.SaveConversations` | src/utils/storage.ts:81-87 | the conversation record becomes the given list |
| `Storage.Store.GetCurrentConversationId` | src/utils/storage.ts:89-91 | returns the stored current id, absent when the key is missing |
| `Storage.Store.SetCurrentConversationId` | src/utils/storage.ts:93-95 | the current id becomes the given id, without checking it against the list |
| `Storage.Store.CreateNewConversation` | src/utils/storage.ts:97-110 | returns an empty conversation with the fresh id, titled `"대화 " + (old count + 1)`; the record becomes that conversation followed by the old list unchanged; the current id is set to its id |
| `Storage.Store.UpdateConversation` | src/utils/storage.ts:112-123 | the record becomes `ConversationsAfterUpdate` of the old record |
| `Storage.Store.DeleteConversation` | src/utils/storage.ts:125-137 | the record becomes the old list without the entries with that id; the current id follows `CurrentIdAfterDelete` and never names the deleted id; a current id that was the deleted one becomes the first remaining conversation's id, or is removed when none remains; a current id that named a stored conversation still does; with unique ids the length drops by exactly 1 or 0 |
| `Storage.DeleteCurrentScenario` | src/utils/storage.ts:125-137 | two conversations with the second one current: deleting it makes the first one current and leaves one conversation |
| `Storage.DefaultTitleRepeatScenario` | src/utils/storage.ts:101-106 | create two conversations, delete the older one, then create a third: the new one has the same title `"대화 2"` as the survivor |
| `Chat.Substring` | src/App.tsx:79 | JavaScript `substring`: for ordered non-negative bounds, the slice between the bounds clamped to the length |
| `Chat.DerivedTitle` | src/App.tsx:79 | a content of at most 30 characters is the title itself; a longer one gives its first 30 characters followed by `...`, 33 characters in all |
| `Chat.ToMessage` | src/App.tsx:65-69 | the new message has the supplied id and time and carries exactly the sent content, kind, sender, prompt name and image |
| `Chat.AppendMessage` | src/App.tsx:65-80 | keeps `id` and `createdAt`, sets `updatedAt` to `now`; messages are the old messages plus the new one; the title changes to `DerivedTitle(content)` only when the old message count is 0 and the sender is the user |
| `Chat.AppendAll` | src/App.tsx:62-89 | sends that each see the previous result accumulate their messages in order, and the title is decided by the very first message alone |
| `Chat.AppendAllKeepsHistory` | src/App.tsx:73 | later appends never change earlier messages, and a conversation that already has messages keeps its title |
| `Chat.LongFirstMessageTitle` | src/App.tsx:78-80 | a 45-character first user message gives its first 30 characters plus `...`, 33 characters in all |
| `Chat.ShortFirstMessageTitle` | src/App.tsx:78-80 | a 20-character first user message becomes the title unchanged |
| `Chat.StaleExchange` | src/components/ChatInterface.tsx:83-94 | the second write of a captured-closure turn: the captured conversation's id and `createdAt`, the reply's time as `updatedAt`, and the captured messages plus the reply only |
| `Chat.StaleExchangeLosesQuestion` | src/components/ChatInterface.tsx:83-94 | when the question and the reply go through one captured handler, the result holds only the captured messages plus the reply: the question is absent, and the title is the captured one |
| `Chat.LiveCallsAreExchange` | src/App.tsx:62-80 | two calls of the send handler, the second appending to the first's result, give exactly `Exchange`, the intended turn |
| `Chat.ExchangeKeepsBoth` | src/App.tsx:71-80 | when the reply is appended to the conversation that holds the question, both messages are kept, in order, and a first user message titles the conversation |
| `App.DefaultPrompts` | src/App.tsx:28-39 | three prompts in order, with ids `a`, `b`, `c`, named `일반 대화`, `이미지 분석`, `번역`, both timestamps the seeding time; distinct ids give unique ids |
| `App.Resolve` | src/App.tsx:47-59 | exactly one branch applies. The current-id branch applies if and only if some stored conversation has the current id, and then it picks the first such one. The first-conversation branch applies if and only if there is no match and the list is non-empty, and then it picks entry 0. The create branch applies if and only if nothing is stored |
| `App.Controller.constructor` | src/App.tsx:15-16 | initially no conversations are loaded and none is active |
| `App.Controller.SeedDefaultPrompts` | src/App.tsx:26-40 | an empty prompt list becomes exactly the three default prompts, in order; a non-empty one is left untouched |
| `App.Controller.InitializeApp` | src/App.tsx:24-60 | when no prompt is stored, the record becomes exactly the three default prompts in order; otherwise it is untouched. Then the `Resolve` branch runs. In the create branch there is one new empty conversation titled `"대화 1"`, active and current. In the other two branches the store's conversations and current id are untouched |
| `App.Controller.SendFrom` | src/App.tsx:62-89 | with no active conversation nothing changes. Otherwise the appended conversation becomes active and replaces only entries with its id in the in-memory list. It is written through under the same id, and its stored entry becomes exactly the new conversation |
| `App.Controller.HandleSendMessage` | src/App.tsx:62-89 | the same as `SendFrom`, with the live state as the captured state |
| `App.FreshStartScenario` | src/App.tsx:24-60 | on an empty store, start-up leaves exactly three prompts named `일반 대화`, `이미지 분석`, `번역`, and one empty conversation `"대화 1"` that is both active and current |
| `App.Question` | src/components/ChatInterface.tsx:77-82 | a text message from the user with the typed content and the selected prompt's name and no image; appending it retitles a conversation exactly when the conversation has no messages |
| `App.Reply` | src/components/ChatInterface.tsx:89-100 | a text message from the assistant with the given content, no prompt name and no image; appending it never retitles a conversation |
| `App.ReplyText` | src/components/ChatInterface.tsx:88-100 | the reply's content is the response data when the call succeeded with non-empty data; otherwise the error text when it is non-empty, and otherwise the fixed text `오류가 발생했습니다.` ("an error occurred"); it is never empty |
| `App.StaleWritesLeaveReply` | src/components/ChatInterface.tsx:83-94 | writing the question's result and then the reply's result, both built from the captured conversation, through `updateConversation` leaves the store holding exactly `StaleExchange`: the second write replaces the first |
| `App.StaleTurnScenario` | src/components/ChatInterface.tsx:83-101 | a first turn through one captured handler stores a conversation holding the reply alone, under its default title |
| `App.LiveTurnScenario` | src/App.tsx:62-89 | a first turn through handlers that see the live state stores both messages, in order, titled from the question |

## Left out

- JSON serialisation and `Date` reconstruction are not modelled. Records are typed values and timestamps are integers, so the date rebuilding in `getConversations` (src/utils/storage.ts:66-74), and its absence in `getPrompts`, do not show.
- Write failures (quota exceeded, storage unavailable) are not modelled: every save succeeds. Read failures are modelled as `Slot.Unreadable`.
- Each store operation takes one clock value `now`. The source reads `new Date()` twice in `addPrompt` and `createNewConversation` and up to three times in `handleSendMessage`, and those readings may differ by a millisecond.
- App.Controller.InitializeApp: the three seeded prompts and the created conversation share one timestamp `now`, while the source reads the clock separately for each of them (two readings per `addPrompt` and two in `createNewConversation`, eight in all).
- A stored prompt record that parses to something other than a list (`null`, an object) is not modelled. `getPrompts` would return that value as it is; `Slot.Unreadable` stands only for text that `JSON.parse` rejects.
- The clock is not assumed monotonic, so `updatedAt` being at least its previous value holds only when the caller's `now` is.
- `crypto.randomUUID()` is a parameter with a freshness precondition (`AddPrompt`, `CreateNewConversation`). `InitializeApp` requires its three prompt ids to be distinct.
- JavaScript spread semantics for keys set explicitly to `undefined` are not modelled: absent patch fields are `None` and leave the field as it was.
- String lengths and `substring` count Unicode scalar values, not UTF-16 code units. They differ only for characters outside the Basic Multilingual Plane.
- `Decimal.NatToString` covers the counts a template literal prints in plain decimal. Exponent notation for numbers of 10^21 and more is not modelled.
- React rendering is not modelled. State setters take effect at once. `selectedPrompt`, `isPromptManagerOpen` and `handleSelectPrompt` are UI state.
- `src/components/ChatInterface.tsx` is modelled only through the text messages it sends (`Question`, `Reply`, `ReplyText`) and its calling pattern (`StaleExchange`, `StaleTurnScenario`). Its rendering, input guards, the image branch's messages and object-URL previews are left out.
- `src/components/PromptManager.tsx` is UI; its local list updates mirror the store operations modelled here.
- `src/services/api.ts` is left out: mocked I/O with timer delays, randomly chosen replies and browser `File` values.
- Concurrent writes from several tabs are not modelled; the model is single-threaded.

## Findings

| source | as written | input that shows it | evidently intended | confidence | as-written member | corrected member |
|---|---|---|---|---|---|---|
| src/components/ChatInterface.tsx:83-94 | Both `onSendMessage` calls of one `handleSend` run the `handleSendMessage` closure of the render in which Send was pressed. So the reply is appended to the conversation as it was before the user's message (src/App.tsx:71-75), and `updateConversation` writes that result over the stored one | fresh store; the user sends `hello` into the empty conversation `대화 1`; the reply is `hi`. The stored conversation then holds only the reply and keeps the title `대화 1` | the conversation holds `[hello, hi]` and is titled `hello` | high; not executed | `App.StaleWritesLeaveReply`, `Chat.StaleExchangeLosesQuestion` | `Chat.Exchange`, `Chat.ExchangeKeepsBoth` |

The controller's `HandleSendMessage` reads the live state, so each call appends to
the previous call's result; `Chat.LiveCallsAreExchange` proves that two such appends
give `Chat.Exchange` for any conversation, and `App.LiveTurnScenario` proves the
stored result of one first turn on a fresh store. The captured
pattern is `App.Controller.SendFrom` called twice with the same captured state;
`App.StaleTurnScenario` proves that one, and `App.StaleWritesLeaveReply` shows that
the two writes under the same id leave `Chat.StaleExchange` in the store.

# Chat session state of the NewsBuddy chat page

This project models, in Dafny, the session state layer of a browser chat client:
the list of chat sessions, the id of the active session, and the page handlers
that turn one list into the next. It covers the optimistic send and its completion,
reset, new chat, select, delete and the start-up initialisation. It also covers the
helpers they rely on: the session factory, the id generators, the history reconciler
and the reading of the stored session list.

Three modules:

- `NumberText` (number_text.dfy): the decimal and base-36 renderings JavaScript
  gives natural numbers, with their inverse and injectivity. Clock readings,
  random digits and message positions become ids through these renderings.
- `ChatService` (chat_service.dfy): `Message` and `ChatSession` as datatypes,
  `generateChatId`/`generateSessionId`, `createNewChatSession`,
  `loadChatHistoryForSession` and the date-restoring map of `getStoredChatSessions`,
  all as functions.
- `ChatPage` (chat_page.dfy): the next-collection computations as functions, and
  the class `SessionStore` with the fields `chatSessions: seq<ChatSession>` and
  `currentChatId: string`, one method per handler.

External effects are parameters:

- The backend is a function from request to outcome. `sendMessage` answers or
  throws. `resetChatSession` and `getChatHistory` return a reply or throw.
- A point in time is an integer number of milliseconds (`Date`); the clock readings that ids are built from are natural numbers.
- `Math.random()` is the sequence of base-36 digits its fraction prints as.
- The stored session list is a `StoredValue`: no store, nothing stored,
  unparsable, or the parsed entries. Date text is read and written by
  `parseDate`/`formatDate` parameters.

Where the code departs from the intended design of the session layer, the model follows the code.
The reconciler's title is no exception: it is the title as written, and the intended one is
stated beside it under "## Findings".

- The reconciler keeps the session's `lastMessage` but stamps the history messages
  with the current time. So "`lastMessage` is the last message's time" does not
  hold after reconciliation (`ReconcileMayLeaveLastMessageStale`).
- The reconciled title always ends in "..." even when the user message is short.
  The send title adds "..." only past 30 characters.
- Select does not check that the id names a session. The method's contract says the
  active id names a session afterwards exactly when it does.
- A new or reset session reads the clock twice, once for the greeting and once for
  `lastMessage`, so its `lastMessage` is the greeting's time only when both readings agree.
- Sessions with no messages are reconciled too. The trigger is "at most one message".
- A stored active id that is the empty string counts as absent.

## Model

| member | source | states |
|---|---|---|
| `NumberText.ToRadix` | lib/services/chat-service.ts:92-100 | `toString(radix)` of a natural is non-empty and every character is a base-36 digit below the radix |
| `NumberText.FromRadixToRadix` | lib/services/chat-service.ts:92-100 | reading a rendering back gives the rendered number (the inverse of `toString(radix)`) |
| `NumberText.ToRadixInjective` | app/page.tsx:107 | distinct numbers render to distinct text, so ids made from distinct clock readings or positions differ |
| `NumberText.DigitsText` | lib/services/chat-service.ts:93 | the random fraction's digits print as one base-36 character per digit, in order |
| `ChatService.TitlePrefix` | app/page.tsx:124 | `slice(0, 30)`: a text of at most 30 characters is kept whole, a longer one is cut to its first 30 |
| `ChatService.GenerateSessionId` | lib/services/chat-service.ts:92-94 | a backend session id is non-empty and made of base-36 characters only |
| `ChatService.GenerateChatId` | lib/services/chat-service.ts:96-100 | a local chat id starts with "chat_" and is longer than that prefix |
| `ChatService.ChatIdIsNotSessionId` | lib/services/chat-service.ts:92-100 | no chat id equals any session id, whatever the random digits and clocks |
| `ChatService.GreetingMessage` | lib/services/chat-service.ts:174-179 | the greeting has id "1", the fixed greeting text, is not a user message, and carries the given time |
| `ChatService.NewChatSession` | lib/services/chat-service.ts:165-183 | a new session is titled "New Chat", holds exactly the greeting stamped with the first clock reading, its `lastMessage` is the second reading (the greeting's time exactly when the two agree), its chat id starts with "chat_" and differs from its session id |
| `ChatService.HistoryMessageId` | lib/services/chat-service.ts:194 | a history message id is "history_" followed by the position |
| `ChatService.HistoryMessagesFrom` | lib/services/chat-service.ts:193-198 | the history maps to messages one for one, in order: content is the text, user exactly when the sender is "user", positional id, current time |
| `ChatService.HistoryIdsDistinct` | lib/services/chat-service.ts:193-198 | the positional ids of the reconciled messages are pairwise distinct |
| `ChatService.FirstUserContent` | lib/services/chat-service.ts:205 | `find` of the first user message: absent exactly when no message is a user message, otherwise the content of the first one |
| `ChatService.HistoryTitleAsWritten` | lib/services/chat-service.ts:203-207 | the title as the code computes it: kept unless it is "New Chat", otherwise the first user message cut to 30 characters plus "...", and always ending in "..." |
| `ChatService.HistoryTitle` | lib/services/chat-service.ts:203-207 | a title other than "New Chat" is kept; "New Chat" becomes the first user message cut to 30 characters plus "...", or "Chat History" with no user message |
| `ChatService.AsWrittenTitleWithoutUserMessage` | lib/services/chat-service.ts:205-206 | with no user message the code names the session "undefined...", not the intended "Chat History" |
| `ChatService.TitlesAgreeWithUserMessage` | lib/services/chat-service.ts:203-207 | the as-written and the intended titles agree whenever the title is not "New Chat" or a user message exists |
| `ChatService.ReconcileSession` | lib/services/chat-service.ts:186-219 | the id, session id and `lastMessage` are kept; without a successful non-empty history, or when the fetch throws, the session is returned unchanged; otherwise the messages are exactly the mapped history and the title follows HistoryTitleAsWritten |
| `ChatService.ReconciledMessagesMirrorHistory` | lib/services/chat-service.ts:192-202 | after a usable history the session has one message per entry, same order, content the text, user exactly for sender "user", id "history_<position>" |
| `ChatService.ReconciledTitleFromFirstUserMessage` | lib/services/chat-service.ts:203-205 | a "New Chat" session takes the first user entry's text, cut to 30, plus "..." as its title |
| `ChatService.ReconciledTitleWithoutUserEntry` | lib/services/chat-service.ts:203-206 | a "New Chat" session reconciled from a history without a user entry is titled "undefined..." |
| `ChatService.ReconcileMayLeaveLastMessageStale` | lib/services/chat-service.ts:200-208 | every fresh session whose two creation readings agree tracks its last message, and after a successful history fetched at any other time it keeps its old `lastMessage`, which is then not the last message's time |
| `ChatService.RestoreMessages` | lib/services/chat-service.ts:134-137 | restoring keeps every stored message's id, content and sender in order and parses its timestamp |
| `ChatService.RestoreSessions` | lib/services/chat-service.ts:131-138 | one restored session per stored entry, in order |
| `ChatService.LoadSessions` | lib/services/chat-service.ts:122-143 | no store, nothing stored or a parse failure gives no sessions; otherwise one session per entry, in order, with the same ids, title, message count and message order, and the dates parsed |
| `ChatService.StoreMessages` | lib/services/chat-service.ts:149 | serialising keeps one stored message per message |
| `ChatService.StoreSessions` | lib/services/chat-service.ts:145-153 | serialising keeps one stored entry per session |
| `ChatService.LoadAfterStore` | lib/services/chat-service.ts:122-153 | storing a collection and loading it back gives the same collection when dates read back exactly |
| `ChatPage.FindIndex` | app/page.tsx:101 | `find` by id: absent exactly when no session has the id, otherwise the first position holding it |
| `ChatPage.UserMessage` | app/page.tsx:106-111 | the optimistic message is a user message with the sent content and the send time |
| `ChatPage.ReplyMessage` | app/page.tsx:138-165 | the reply is never a user message; it carries the backend's answer, or the fixed error text when the send threw |
| `ChatPage.SendIdsDistinct` | app/page.tsx:106-143 | the user message and the reply, whose clock is read no earlier than the send's, have different ids |
| `ChatPage.SendTitle` | app/page.tsx:122-125 | a "New Chat" title becomes the content when it has at most 30 characters, else its first 30 plus "..."; any other title is kept |
| `ChatPage.UpdateWhere` | app/page.tsx:116-129 | `prev.map` over ids: same length, the sessions with the id are transformed, all others untouched |
| `ChatPage.ApplySend` | app/page.tsx:116-130 | the sessions with the target id gain exactly the user message at the end, `lastMessage` becomes its time, the title follows SendTitle, ids are kept; every other session is unchanged |
| `ChatPage.ApplyReply` | app/page.tsx:145-177 | the sessions with the target id gain exactly the reply at the end and `lastMessage` becomes its time, title and ids kept; every other session is unchanged |
| `ChatPage.ApplyReset` | app/page.tsx:191-209 | the sessions with the target id keep their ids but hold exactly one greeting (id "1", not a user message) stamped with the first clock reading, the title "New Chat" and the second reading as `lastMessage`; every other session is unchanged |
| `ChatPage.ResetMatchesFactory` | app/page.tsx:194-206 | a reset session holds the same messages, title and `lastMessage` as a session the factory creates from the same two clock readings |
| `ChatPage.SendThenReply` | app/page.tsx:116-155 | a full send appends exactly two messages, the user's then the reply, and leaves `lastMessage` at the reply's time |
| `ChatPage.SendScenario` | app/page.tsx:116-155 | a fresh session sent "Hi" and answered "Hello back" is titled "Hi" and holds greeting, "Hi" (user), "Hello back" (bot) |
| `ChatPage.Without` | app/page.tsx:231 | `filter`: no survivor has the id, the survivors are exactly the sessions with other ids, nothing changes when the id is absent and something is removed when it is present |
| `ChatPage.WithoutAppend` | app/page.tsx:231 | filtering distributes over concatenation, so the survivors keep their order |
| `ChatPage.WithoutAllMatching` | app/page.tsx:231 | a list whose sessions all carry the id is emptied by the filter |
| `ChatPage.FirstSurvivor` | app/page.tsx:234-236 | after a delete, the first session is the first one of the old list whose id differs |
| `ChatPage.ReconcileAll` | app/page.tsx:42-50 | sessions with at most one message go through the reconciler with their own history, the others pass through unchanged; length, order and ids are kept |
| `ChatPage.ResolveActiveId` | app/page.tsx:60-65 | the stored id when it is non-empty and names a session, else the first session's id; the result always names a session and is absent only for an empty list |
| `ChatPage.SessionStore.constructor` | app/page.tsx:20-21 | the state starts with no sessions and an empty active id |
| `ChatPage.SessionStore.CurrentChat` | app/page.tsx:101 | the active session is present exactly when the active id names a session, and then it is the first session with that id |
| `ChatPage.SessionStore.Initialize` | app/page.tsx:27-82 | an empty store gives one fresh session; sessions with at most one message are reconciled and the order is kept; the active id is resolved as in ResolveActiveId; a storage exception gives exactly one fresh session, active; the list is never empty afterwards |
| `ChatPage.SessionStore.SendOptimistic` | app/page.tsx:103-130 | without an active session nothing changes; otherwise the active session gains the user message as in ApplySend and the request carries its backend id and the content |
| `ChatPage.SessionStore.CompleteSend` | app/page.tsx:132-177 | the reply (answer or error text) is appended to the session the send started on, as in ApplyReply; the active id is unchanged |
| `ChatPage.SessionStore.HandleSendMessage` | app/page.tsx:103-181 | without an active session nothing changes; otherwise the active session gains the user message then the reply to the request made with its backend id |
| `ChatPage.SessionStore.HandleResetChat` | app/page.tsx:183-216 | only a reply with success on an existing active session resets it as in ApplyReset; a failure, a thrown error or no active session leave the list unchanged |
| `ChatPage.SessionStore.HandleNewChat` | app/page.tsx:218-223 | a fresh session is prepended, the old sessions follow in their order, and the fresh one is active |
| `ChatPage.SessionStore.HandleSelectChat` | app/page.tsx:225-227 | the active id becomes the given id and the list is unchanged; the active id names a session afterwards exactly when the given id does |
| `ChatPage.SessionStore.HandleDeleteChat` | app/page.tsx:229-245 | every session with the id is removed; deleting the active one makes the first survivor active, or a fresh session when none survives, so the list is never empty; deleting another keeps the active id naming a session |

## Findings

| source | as written | input that shows it | evidently intended | confidence | as-written member | corrected member |
|---|---|---|---|---|---|---|
| lib/services/chat-service.ts:205-206 | the "Chat History" alternative is joined by a logical or after the concatenation with "...", whose result is always a non-empty string; with no user message it is "undefined..." | a session titled "New Chat" reconciled from a successful history whose only entry has sender "bot" | such a session is titled "Chat History" | high (not executed) | `ChatService.AsWrittenTitleWithoutUserMessage` | `ChatService.HistoryTitle` |

The reconciler of the model (`ReconcileSession`) follows the code and uses `HistoryTitleAsWritten`;
`ReconciledTitleWithoutUserEntry` shows the effect on a reconciled session. `HistoryTitle` is the
corrected definition, and `TitlesAgreeWithUserMessage` proves that it changes nothing else.

## Left out

- The `fetch` wrappers `getChatHistory`, `sendMessage` and `resetChatSession` are network I/O. Only their outcomes are modelled, as parameters.
- `localStorage` access, `JSON.parse`/`JSON.stringify` and the `typeof window` guard are not modelled. Their results enter as a `StoredValue` and as date text functions. An invalid date string (`Invalid Date`) is not represented.
- `storeChatSessions`, `getStoredCurrentChatId` and `storeCurrentChatId` are not modelled as writes. The only effect kept is that an exception on the active-id entry sends initialisation to its fallback (`IdLookup.StorageError`).
- The write-through persistence effects and the `isLoading`/`isInitialLoading` flags are React machinery with no effect on the session list.
- Overlapping handlers are not modelled, except that a send is split into `SendOptimistic` and `CompleteSend`. The completion writes to the session captured when the send began, so another handler may run in between.
- `Promise.all` runs the reconciliations concurrently. Each depends only on its own session, so the model maps them in order.
- The `null` filter after reconciliation is the identity, because the reconciler never returns `null`. The model has no filter there.
- In the send handler the id (`Date.now()`) and the timestamp (`new Date()`) of a message are one clock reading, the reconciliations of one initialisation share one reading, and so do the messages of one reconciliation (`new Date()` is called once per history entry). The id generators, the greeting and `lastMessage` of the factory and of a reset each take a reading of their own.
- ChatPage.ReconcileAll: looks up each session's history by its backend session id, so two sessions sharing a backend id get the same outcome in the model, while the code fetches once per session and the two fetches could differ.
- The `console.log` and `console.error` calls (lib/services/chat-service.ts:64, 70, 87, 116, 140, 151, 213; app/page.tsx:72, 157, 212) are diagnostics with no effect on the state and are not modelled.
- String lengths are counted in characters. JavaScript counts UTF-16 code units, which differ for characters outside the Basic Multilingual Plane.
- Fields that the spread `...session` would carry over from stored JSON beyond the declared ones are not represented.
- ChatService.StoreMessages: states only the length, because its element-wise content is fixed through `LoadAfterStore`.
- ChatService.StoreSessions: states only the length, for the same reason.
- The chat area and sidebar components are rendering and animation and are not part of this model.

# nlp-chatbot: a Dafny model of the chat pipeline's logic

The repository is a chat application. A React client sends a user's text to an Express
backend. The backend keeps each conversation as a MongoDB document and forwards the
text to a Gemini chat handle, which it caches per session in a process-wide dictionary.
This project models the sequential logic of that pipeline and proves properties of it:

- `SseClient` (`chat_types.dfy`, `sse_client.dfy`): the client's `sendMessageToChat`.
  - A missing or empty session id or message raises before any request is made.
  - A non-ok status raises before the body is read.
  - The body is folded read by read: each read is split on newlines, only `data: ` lines
    are parsed, chunks accumulate, and the first done payload returns.
  - The loop is an imperative method proved against the specification functions
    `StreamSteps`, `Fold`, `Calls` and `Consumed`. The lemmas about those functions
    state what the fold promises.
- `ChatController` (`chat_controller.dfy`): the backend's send and create operations.
  - The store and the `activeChats` handle cache are map fields of one `Controller`
    object.
  - Send appends the User turn, maps the log to the provider's two roles, gets or
    creates the cached handle, and appends the AI reply.
- `InputBox` (`input_box.dfy`): the word counter, the 500-word edit limit, submission of
  the trimmed text, and the send-button rule.
  - `countWords` (trim, split on white space, drop empty tokens) is proved equal to an
    independent definition: the number of maximal runs of non-white-space characters.
- `ChatWindow` (`chat_window.dfy`): the optimistic send, as a state machine over
  `localMessages`, `isSending`, `error` and `showModal`, and the prop-sync effect.
- `ChatList` (`chat_list.dfy`): `getChatPreview`, the hover state, and the
  delete-confirmation state.
- `ChatsCache` (`chats_cache.dfy`): the query-cache updater that removes a deleted chat,
  the keys each mutation outcome invalidates, and the messages query's enable rule.
- `Sidebar` (`sidebar.dfy`): the 30-character chat label and the empty-list placeholder.

The external services are parameters of the model, not part of it:
- the network: `fetch`, the body reader and `TextDecoder`;
- `JSON.parse`;
- MongoDB;
- the Gemini SDK;
- the clock behind the `Date.now()` ids.

The body's decoded strings, the parsed payloads, the store's fresh id, the provider's
reply and the local ids are inputs.

The client and the backend shown do not agree on the response format:
- The client's `sendMessageToChat` (`frontend/src/hooks/queries/chatQueries.js` lines
  41-80) reads the body as server-sent events, that is as `data: ` lines.
- The controller answers one JSON object (`backend/src/controllers/chatController.js`
  line 76), with no `data: ` prefix.
- So against this backend the client's fold finds no `data: ` line and resolves to the
  empty message (`SseClient.NoDataLineGivesEmptyMessage`).

## Model

| member | source | states |
|---|---|---|
| SseClient.SendMessageToChat | frontend/src/hooks/queries/chatQueries.js:25-80 | The request is made iff the session id and message are both truthy. Otherwise `Session ID is required` / `Message is required` is raised, in that order, and nothing is read. A non-ok status raises the status error without reading. Otherwise the result is the fold of the body's line steps; the values taken and the `onChunk` calls are those the specification functions give, and there are no calls when `onChunk` is absent |
| SseClient.ReadBody | frontend/src/hooks/queries/chatQueries.js:41-80 | The read loop returns `Fold` of all line steps, takes exactly `Consumed` values (up to and including the read holding the first done payload), and makes exactly the `Calls` `onChunk` calls |
| SseClient.ReadValue | frontend/src/hooks/queries/chatQueries.js:50-77 | One read, split on its own: if it holds a done payload the call's result, calls and values taken are final; otherwise the accumulation and the calls are those of all reads up to and including this one |
| SseClient.Split | frontend/src/hooks/queries/chatQueries.js:51 | `split("\n")` yields at least one piece and no piece holds a newline |
| SseClient.JoinSplit | frontend/src/hooks/queries/chatQueries.js:51 | Joining the pieces with newlines gives back the read: splitting loses nothing |
| SseClient.SplitJoin | frontend/src/hooks/queries/chatQueries.js:51 | Splitting the newline-join of newline-free lines gives back those lines |
| SseClient.NoDoneReturnsAccumulation | frontend/src/hooks/queries/chatQueries.js:43-80 | Without a done payload, the returned message is the in-order concatenation of the chunk texts |
| SseClient.FirstDoneWins | frontend/src/hooks/queries/chatQueries.js:62-64 | The first done payload's `message` is returned whatever follows, instead of the accumulation, and no `onChunk` call follows it |
| SseClient.DoneAt | frontend/src/hooks/queries/chatQueries.js:45-64 | A done payload on line j of read i, with no done before it, fixes the result, the calls (those of the steps before it) and the number of reads taken (i + 1) |
| SseClient.ConsumedUpTo | frontend/src/hooks/queries/chatQueries.js:45-64 | The read holding the first done payload is the last read taken |
| SseClient.ConsumedAll | frontend/src/hooks/queries/chatQueries.js:45-48 | Without a done payload every read is taken, until the reader reports done |
| SseClient.FoldConcat | frontend/src/hooks/queries/chatQueries.js:43-80 | After done-free steps, the fold and the calls continue from the accumulation reached so far |
| SseClient.SkipIsNeutral | frontend/src/hooks/queries/chatQueries.js:55-75 | A skipped step can be removed anywhere without changing the result or the calls |
| SseClient.IgnoredLineDoesNotMatter | frontend/src/hooks/queries/chatQueries.js:53-75 | Removing a line that does not start with `data: `, or whose payload is malformed or has a truthy `error`, changes neither the result nor the calls. The `throw` for an error payload is caught by the same `try`, so such payloads are skipped |
| SseClient.StreamAppendsNonEmpty | frontend/src/hooks/queries/chatQueries.js:66 | Only a truthy (non-empty) chunk is accumulated |
| SseClient.CallsExtend | frontend/src/hooks/queries/chatQueries.js:66-70 | Each `onChunk` call gets the chunk and the accumulation including it, so each accumulation is the previous one extended by the new chunk; the chunks are non-empty |
| SseClient.LastCallIsResult | frontend/src/hooks/queries/chatQueries.js:67-80 | Without a done payload, the last `onChunk` accumulation is the returned message |
| SseClient.StreamStepsConcat | frontend/src/hooks/queries/chatQueries.js:45-51 | Each read is split and processed on its own: the steps of consecutive reads are the steps of each read, concatenated |
| SseClient.SplitLineAcrossReadsIsLost | frontend/src/hooks/queries/chatQueries.js:50-54 | A `data: ` line cut across two reads is skipped as two non-data lines, while the same line in one read is parsed |
| SseClient.NoDataLineGivesEmptyMessage | frontend/src/hooks/queries/chatQueries.js:53-80 | A body with no `data: ` line (such as the controller's JSON reply) resolves to the empty message with no `onChunk` call |
| SseClient.AllSkipped | frontend/src/hooks/queries/chatQueries.js:53-80 | Steps that are all skipped return the accumulation unchanged and make no call |
| InputBox.CountWordsIsWordRuns | frontend/src/components/InputBox.jsx:9-11 | `countWords` equals the number of maximal runs of non-white-space characters |
| InputBox.SplitCountsRuns | frontend/src/components/InputBox.jsx:10 | The number of non-empty pieces of `split(/\s+/)` is the number of positions where a non-space run starts |
| InputBox.CountWordsZeroIffBlank | frontend/src/components/InputBox.jsx:10 | The count is 0 exactly for empty or white-space-only text |
| InputBox.CountWordsIgnoresOuterSpace | frontend/src/components/InputBox.jsx:10 | Leading and trailing white space does not change the count |
| InputBox.CountWordsIgnoresRunLength | frontend/src/components/InputBox.jsx:10 | Replacing an inner white-space run by a single space does not change the count |
| InputBox.TrimStartShape | frontend/src/components/InputBox.jsx:10 | `trim` at the front drops a white-space-only prefix, and all of it |
| InputBox.TrimEndShape | frontend/src/components/InputBox.jsx:10 | `trim` at the end drops a white-space-only suffix, and all of it |
| InputBox.TrimEmptyIffBlank | frontend/src/components/InputBox.jsx:25 | `message.trim()` is falsy exactly when the text is white space only |
| InputBox.SendDisabledIffNothingToSend | frontend/src/components/InputBox.jsx:69 | Within the limit, the button is disabled iff loading or the text is blank, which are exactly the cases in which submit sends nothing |
| InputBox.InputState.constructor | frontend/src/components/InputBox.jsx:4-5 | Starts at `''`/0, where `wordCount == countWords(message) <= 500` holds |
| InputBox.InputState.HandleInputChange | frontend/src/components/InputBox.jsx:13-21 | An edit of at most 500 words replaces the text and its count; a longer edit changes nothing; the invariant is kept |
| InputBox.InputState.HandleSubmit | frontend/src/components/InputBox.jsx:23-30 | Non-blank text while not loading is sent once, trimmed, and the state is reset when the send resolves. Blank text or loading sends nothing and changes nothing. The invariant is kept |
| ChatController.GeminiRole | backend/src/controllers/chatController.js:57 | `User` maps to `"user"` and every other role to `"model"` |
| ChatController.ToGeminiHistory | backend/src/controllers/chatController.js:56-59 | The mapping keeps length and order, maps the role, and makes the content the single text part |
| ChatController.HistoryRoundTrip | backend/src/controllers/chatController.js:56-59 | The mapping is lossless: the log is recovered from the mapped history |
| ChatController.HistoryInjective | backend/src/controllers/chatController.js:56-59 | Distinct logs map to distinct histories |
| ChatController.SeedEndsWithUserTurn | backend/src/controllers/chatController.js:53-59 | The seed history built after the append keeps the earlier entries and ends with the just-appended User turn |
| ChatController.Controller.constructor | backend/src/controllers/chatController.js:14 | A process starts with an empty handle cache |
| ChatController.Controller.CreateNewChat | backend/src/controllers/chatController.js:17-36 | An empty chat is saved under the store's fresh id and an empty `gemini-2.5.flash` handle is cached under it; nothing else changes; 201 with the id; every cached handle still belongs to a stored chat |
| ChatController.Controller.SendMessageToChat | backend/src/controllers/chatController.js:43-81 | An unknown session gives 404 and changes nothing. A cache hit leaves the cache as it is. A miss inserts, under that id only, a `gemini-2.5-flash` handle seeded with the mapped log including the new User turn. A reply saves the log extended by exactly the User and then the AI turn and answers 200 with the reply and that log. A provider failure saves nothing and answers 500 |
| ChatWindow.Optimistic | frontend/src/components/ChatWindow.jsx:63-67 | The optimistic update appends exactly one User message with the given content and local id, after the unchanged list |
| ChatWindow.RejectionText | frontend/src/components/ChatWindow.jsx:87 | The error shown is the rejection's message when non-empty, and never empty |
| ChatWindow.SendEffect | frontend/src/components/ChatWindow.jsx:63-89 | Over a whole send: an array result, or an object's `messages` array, replaces the list. A string result leaves the old list, the optimistic User message and one AI message. Any other shape keeps only the optimistic addition. A rejection resets to the `messages` prop |
| ChatWindow.RejectionDropsOptimistic | frontend/src/components/ChatWindow.jsx:86-89 | After a rejection no message with the optimistic id remains unless the prop had one |
| ChatWindow.ChatWindowState.constructor | frontend/src/components/ChatWindow.jsx:28-31 | The list starts as the prop; not sending, no error, modal closed |
| ChatWindow.ChatWindowState.SyncProps | frontend/src/components/ChatWindow.jsx:36-39 | New props reset `localMessages` to the `messages` prop; the other cells are unchanged |
| ChatWindow.ChatWindowState.BeginSend | frontend/src/components/ChatWindow.jsx:51-67 | Without a truthy session the error is set and the modal shown, `onSend` is not called and the list is unchanged. Otherwise sending is set, the error cleared and the optimistic message appended |
| ChatWindow.ChatWindowState.FinishSend | frontend/src/components/ChatWindow.jsx:71-92 | The outcome is reconciled into the list; only a rejection sets the error; `isSending` is false on every path |
| ChatWindow.ChatWindowState.CloseModal | frontend/src/components/ChatWindow.jsx:197 | The modal closes and nothing else changes |
| ChatList.FirstUser | frontend/src/components/ChatList.jsx:39 | `find` returns the least index holding a User message, or none when there is no User message |
| ChatList.GetChatPreview | frontend/src/components/ChatList.jsx:30-32 | A truthy title is returned verbatim |
| ChatList.PreviewOfEmptyChat | frontend/src/components/ChatList.jsx:34-36 | With no title and a missing or empty list the preview is `New chat` |
| ChatList.PreviewOfFirstUserMessage | frontend/src/components/ChatList.jsx:39-43 | With no title, the first User message decides: its content's preview when non-empty, else `Chat conversation` |
| ChatList.PreviewWithoutUserMessage | frontend/src/components/ChatList.jsx:39-43 | With no title and no User message the preview is `Chat conversation` |
| ChatList.LaterUserMessageIsNotConsulted | frontend/src/components/ChatList.jsx:39-43 | An empty first User message gives `Chat conversation` even when a later User message has content |
| ChatList.ContentPreviewShape | frontend/src/components/ChatList.jsx:41 | The preview of a content is at most 53 characters; it is the content itself up to 50 characters, else its first 50 characters plus `...` |
| ChatList.MessagePreviewBound | frontend/src/components/ChatList.jsx:34-43 | Without a title the preview has at most 53 characters |
| ChatList.ChatListState.constructor | frontend/src/components/ChatList.jsx:5-10 | Nothing hovered; the confirmation is `{false, null, null}` |
| ChatList.ChatListState.MouseEnter | frontend/src/components/ChatList.jsx:62 | The hovered id becomes the row's |
| ChatList.ChatListState.MouseLeave | frontend/src/components/ChatList.jsx:63 | The hovered id is cleared |
| ChatList.ChatListState.OpenDeleteConfirm | frontend/src/components/ChatList.jsx:82-91 | On the hovered row, the delete button records the chat's id with its preview and opens the confirmation |
| ChatList.ChatListState.CloseDeleteConfirm | frontend/src/components/ChatList.jsx:127-134 | Closing, or Cancel, resets the confirmation to `{false, null, null}` |
| ChatList.ChatListState.ConfirmDelete | frontend/src/components/ChatList.jsx:137-142 | Delete calls `onDeleteChat` with the recorded id only when a handler exists and the id is truthy; then the modal's `onClose` (Modal.jsx lines 79-81) resets the confirmation |
| ChatsCache.MessagesQuery | frontend/src/hooks/useChats.js:29-36 | The messages query is keyed `["chat", sessionId, "messages"]` and enabled iff the session id is truthy |
| ChatsCache.RemoveChat | frontend/src/hooks/useChats.js:97-99 | No remaining chat has the deleted id; a chat remains iff it was there with another id |
| ChatsCache.RemoveChatConcat | frontend/src/hooks/useChats.js:98 | The filter works piecewise over concatenation, so kept chats stay in their relative order |
| ChatsCache.RemoveChatIdempotent | frontend/src/hooks/useChats.js:98 | Applying the update twice equals applying it once |
| ChatsCache.RemoveAbsentChat | frontend/src/hooks/useChats.js:98 | A list without the id is returned unchanged |
| ChatsCache.RemoveChatCount | frontend/src/hooks/useChats.js:98 | Exactly the chats carrying the id are removed |
| ChatsCache.QueryCache.DeleteSucceeded | frontend/src/hooks/useChats.js:95-100 | A cached list loses the deleted chat and nothing is invalidated; with nothing cached the updater throws and the cache is unchanged |
| ChatsCache.QueryCache.DeleteFailed | frontend/src/hooks/useChats.js:101-105 | The list is not edited; only `["chats"]` is invalidated |
| ChatsCache.QueryCache.SendSucceeded | frontend/src/hooks/useChats.js:69-79 | Exactly `["chat", sessionId, "messages"]` and then `["chats"]` are invalidated |
| Sidebar.SidebarContent | frontend/src/components/Sidebar.jsx:19-37 | An empty list shows `No chats yet` and only then; otherwise one label per chat, in order |
| Sidebar.SidebarLabel | frontend/src/components/Sidebar.jsx:33-35 | A chat with no messages is labelled `New Chat`. Otherwise the label is a prefix of the first message's content, of its length or 30 characters when that is shorter, followed by `...`; so a label has at most 33 characters |
| Sidebar.LongContentIsCut | frontend/src/components/Sidebar.jsx:34 | A content longer than 30 characters is cut to its first 30 characters, followed by `...` |
| Sidebar.LabelDependsOnFirstContentOnly | frontend/src/components/Sidebar.jsx:34 | The label depends only on the first message's content, not on its role |
| Sidebar.ShortContentStillGetsEllipsis | frontend/src/components/Sidebar.jsx:34 | A content of at most 30 characters is shown whole, with `...` still appended |
| Sidebar.FirstMessageRoleIgnored | frontend/src/components/Sidebar.jsx:34 | A chat opening with an AI message is labelled with the AI's text |

## Left out

- The network, the body reader and `TextDecoder`: a response is its `ok` flag, its status
  and its already-decoded strings. Multi-byte characters split across reads by the
  streaming decoder are not modelled.
- `JSON.parse` is the parameter `parse`; only the truthiness of `error`, `done` and
  `chunk` and the value of `message` are kept. A chunk that is a non-string truthy value
  (a number) is not modelled.
- An `onChunk` callback that throws: its throw would be caught by the same `catch` and
  the line skipped, after the accumulation was extended. The model's `onChunk` does not
  throw.
- Lengths and cuts (`substring`, `slice`, `.length`) count UTF-16 code units in
  JavaScript and characters here. They differ for text outside the Basic Multilingual
  Plane. This affects ChatList.GetChatPreview, ChatList.ContentPreviewShape and
  Sidebar.SidebarLabel.
- ChatController.Controller.SendMessageToChat: models the sequential logic the code
  spells out, not what it does as written.
  - `Chat.findById({sessionId})` is not awaited and is given an object (line 49), so the
    404 test never fires and the push throws.
  - The `catch` logs the undefined `err` (line 79), so the 500 answer is never sent.
  - The provider's reply is an input (`None` for a failure).
  - Store failures are not modelled.
  - The error body's `message: error.message` is not modelled.
  - The controller imports `ai` as a default export (line 11), but
    `backend/src/services/geminiService.js` exports it only by name (line 21). So `ai` is
    undefined and `ai.chats.create` throws as written; the model assumes the named
    import.
- ChatController.Controller.CreateNewChat: models the intent of reading the id after the
  save. As written, `sessionId` is read (line 22) before its `const` declaration
  (line 29), which throws. The store's fresh id is an input. Its 500 path (a failed
  save) is not modelled. Even with that order fixed, the schema
  (`backend/src/models/chatModel.js` line 18) declares `sessionId` a required, unique
  Number, which this function never supplies, so `save()` would fail validation; the
  model assumes the save succeeds. `ai.chats.create` (line 32) meets the same import
  mismatch as the send.
- The Gemini SDK's own conversation state is not modelled: a handle records its model
  and seed history as created. The `sendMessage` call itself is not modelled; on a
  cache miss it sends the User turn again after a seed that already ends with it
  (ChatController.SeedEndsWithUserTurn).
- `getNextSessionId` and the counter model, routes, `server.js`, the database connection
  and the Gemini client setup are not part of this model.
- ChatWindow:
  - the `Date.now()` ids are parameters;
  - `scrollToBottom`, the streaming bubble and all rendering are not modelled;
  - a `null` `messages` prop is not modelled: `messages || []` and the catch's reset
    would then differ;
  - overlapping sends and a prop sync during the `await` are outside the sequential
    model, although `FinishSend` takes the captured prop to allow the latter.
- InputBox:
  - the Enter-key handler, which calls the same submit, is not modelled;
  - the textarea auto-height effect is not modelled;
  - the `disabled` and `placeholder` props that ChatWindow passes and InputBox ignores
    are not modelled;
  - InputBox.InputState.HandleSubmit: a rejecting `onSendMessage` is an input flag; the
    rejection itself propagates to the caller; the model only records that the reset is
    skipped.
- ChatList: `formatDate`, the loading placeholder and row selection are not modelled.
  ChatList.ChatListState.OpenDeleteConfirm requires the row to be hovered, because the
  button is only rendered then.
- ChatsCache:
  - react-query's prefix matching of invalidated keys, refetching, stale times, the
    queries' fetch functions and `useCreateChat` are not modelled; invalidation is a log
    of keys;
  - what the library does after an `onSuccess` throws is not modelled.
- Sidebar.SidebarLabel requires a message list, because the sidebar reads
  `chat.messages.length` without a guard. A chat without one makes the render throw,
  which is outside the model.
- Concurrency of any kind: the model is one call at a time.

# Local Ollama chat client: a Dafny model of its core

The program is a desktop chat client for a local Ollama inference server.
It is an Electron application with two processes. The main process runs
the HTTP client and a SQLite chat-history database. The React renderer
holds the chat panel, the conversation sidebar, the system-prompt dialog
and the token gauge. This project models the core of both processes and
proves what that core promises.

- `common.dfy` (module `Common`): `Option`, JavaScript's `trim()` with its
  whitespace set, and `indexOf` of one character.
- `ipc_errors.dfy` (module `IpcErrors`): how the `ollama:list-models`,
  `ollama:chat` and `ollama:generate` handlers turn a client failure into
  the `{message, details}` object sent on `error`.
- `stream_framer.dfy` (module `StreamFramer`): the streaming chat handler.
  - The NDJSON framer is the `data` loop that cuts the buffer at every
    `\n` and sends each non-blank line that parses: the method
    `CutLines`, proved against the pure `SplitLines` and `Decode`.
  - The promise settles on `end` or on `error`.
  - The class `ChatStream` is one handler invocation.
  - `OnData` is proved against the pure `Feed`. Lemmas show that the
    chunks and the buffer do not depend on how the stream was fragmented.
- `chat_interface.dfy` (module `ChatInterface`): the chat panel as the
  class `Chat`, with `handleSubmit`, the chunk callback, the catch block
  and the unmount cleanup. The listener registry of the preload bridge is
  a set. Lemmas describe a whole streamed turn.
- `ordering.dfy` (module `Ordering`): ordering by an integer key, used for
  `ORDER BY created_at`.
- `conversation_store.dfy` (module `ConversationStore`): the two tables as
  the class `Store`. It models primary keys, the foreign key with
  `ON DELETE CASCADE`, the title update and the two ordered listings.
  Ids and timestamps are inputs.
- `sidebar.dfy` (module `ConversationSidebar`): the sidebar's list and
  title editor as the class `Sidebar`, with delete, rename and start-edit.
  The open conversation, which the application component owns, is also a
  field. Lemmas cover the list filter and the list map.
- `system_prompt.dfy` (module `SystemPrompt`): the dialog's draft and dirty
  flag as the class `PromptEditor`. It covers the 2000-unit limit, save,
  the save-enabled condition and the reset on open.
- `token_counter.dfy` (module `TokenCounter`): the rounding percentage,
  the bar width and the three usage tiers.

In the code, the inputs of the outside world are parameters:

- the result of `JSON.parse`, a function `parse` given to each `ChatStream`;
- the server's failures, as `IpcErrors.Failure`;
- the store's replies to the sidebar, as `Option` values;
- uuids and `datetime('now')`, as arguments of the store's methods.

## Model

| member | source | states |
|---|---|---|
| Common.TrimStart | src/renderer/components/ChatInterface.tsx:56-58 | the result is a suffix of the input that does not start with whitespace, and everything removed is whitespace |
| Common.TrimEnd | src/renderer/components/ChatInterface.tsx:56-58 | the result is a prefix of the input that does not end with whitespace, and everything removed is whitespace |
| Common.Trim | src/renderer/components/ChatInterface.tsx:56-58 | the trimmed text is no longer than the input and neither starts nor ends with whitespace |
| Common.IsWhitespace | src/renderer/components/ChatInterface.tsx:56-58 | space, tab, line feed and carriage return are whitespace to `trim()`, and no printable ASCII character other than space is |
| Common.TrimEmptyIffBlank | electron/main.mjs:113 | `s.trim()` is falsy exactly when every character of `s` is whitespace |
| Common.TrimIsIdempotent | src/renderer/components/SystemPromptModal.tsx:25-26 | trimming a trimmed string changes nothing |
| Common.IndexOf | electron/main.mjs:109 | -1 exactly when the character is absent, otherwise the position of its first occurrence |
| Common.IndexOfUnique | electron/main.mjs:109 | a position holding the character with no earlier occurrence is the one `indexOf` reports |
| IpcErrors.ListModelsError | electron/main.mjs:63-77 | headline "Unable to connect to Ollama" exactly for ECONNREFUSED and "Failed to fetch models" otherwise; the details end with the client's message |
| IpcErrors.ConnectionDetails | electron/main.mjs:137-139 | the details are the client's message, with the "Unable to connect" prefix exactly for ECONNREFUSED |
| IpcErrors.ChatError | electron/main.mjs:135-141 | headline "Chat failed", with the connection details |
| IpcErrors.GenerateError | electron/main.mjs:156-162 | headline "Generation failed", with the connection details |
| IpcErrors.DetailsRevealRefusal | electron/main.mjs:137-139 | for the same client message, the details are equal exactly when both failures are refusals or neither is |
| IpcErrors.ChatAndGenerateShareDetails | electron/main.mjs:135-141 | chat and generate errors share their details and differ in the headline |
| StreamFramer.SplitLines | electron/main.mjs:108-111 | cutting a text at its `\n`s yields at most one line per character; what the cut returns is fixed by `SplitLinesSpec` |
| StreamFramer.SplitLinesSpec | electron/main.mjs:108-112 | with each `\n` put back, the cut lines followed by the rest give the text back; no line and not the rest contains `\n` |
| StreamFramer.CutAt | electron/main.mjs:109-111 | one cut takes the text before the first `\n` as a line and continues after it |
| StreamFramer.Decode | electron/main.mjs:113-120 | a run of lines sends at most one chunk per line |
| StreamFramer.DecodeLine | electron/main.mjs:113-120 | a blank line sends nothing; any other line sends its parsed chunk, or nothing when parsing fails |
| StreamFramer.DecodeAppend | electron/main.mjs:109-121 | lines are decoded independently: decoding a concatenation concatenates the results |
| StreamFramer.SplitLinesAppend | electron/main.mjs:104-122 | cutting `s + t` is cutting `s`, then cutting what is left of `s` followed by `t` |
| StreamFramer.CutAppend | electron/main.mjs:109-111 | text appended after the first `\n` does not change the first line |
| StreamFramer.FeedConserves | electron/main.mjs:105-112 | after one data event, the lines cut with their `\n` put back, followed by the new buffer, are the old buffer followed by the fragment; neither the new buffer nor any line holds `\n` |
| StreamFramer.FeedTwice | electron/main.mjs:104-122 | two data events send the same chunks, and leave the same buffer, as one event with the joined text |
| StreamFramer.FeedAllIsFeedConcat | electron/main.mjs:101-122 | however the stream is fragmented, the chunks sent and the final buffer are those of the whole text |
| StreamFramer.NoCompleteLine | electron/main.mjs:109 | a buffer without `\n` yields no line and stays as it is |
| StreamFramer.Feed | electron/main.mjs:104-122 | after a data event the buffer holds no `\n`: every complete line has been taken |
| StreamFramer.FeedAll | electron/main.mjs:104-122 | after one or more data events, or none from a buffer without `\n`, the buffer holds no `\n` |
| StreamFramer.CutLines | electron/main.mjs:108-121 | the loop sends exactly the chunks of the lines `SplitLines` cuts, in order, and leaves `SplitLines`' rest, which holds no `\n` |
| StreamFramer.ChatStream.constructor | electron/main.mjs:81-82 | an invocation starts with no buffer, nothing sent and the promise pending |
| StreamFramer.ChatStream.OnResponse | electron/main.mjs:93-101 | once the stream is open, the buffer is empty and nothing else changes |
| StreamFramer.ChatStream.OnRequestFailed | electron/main.mjs:133-142 | a failed request sends the chat error on `error` once and rejects with it |
| StreamFramer.ChatStream.OnData | electron/main.mjs:104-122 | a data event appends exactly the chunks of `Feed` to those already sent, and the buffer becomes `Feed`'s rest, which holds no `\n` |
| StreamFramer.ChatStream.OnEnd | electron/main.mjs:124-127 | `end` resolves `{done: true}`; the unterminated rest of the buffer is not sent |
| StreamFramer.ChatStream.OnStreamError | electron/main.mjs:124-131 | a stream `error` rejects with the raw failure and sends nothing on `error` |
| ChatInterface.OnChunkSpec | src/renderer/components/ChatInterface.tsx:82-95 | a chunk adds its content to the accumulator, publishes the whole text when it had content, and a final chunk appends the assistant message and clears loading and the published text |
| ChatInterface.PublishedTextIsCumulative | src/renderer/components/ChatInterface.tsx:82-95 | while no chunk is final, the published text is always the whole reply so far, and the transcript and the loading flag do not change |
| ChatInterface.TurnCompletes | src/renderer/components/ChatInterface.tsx:82-95 | the turn's final chunk appends exactly one assistant message with the text of every chunk, and clears loading and the published text |
| ChatInterface.HasContent | src/renderer/components/ChatInterface.tsx:83 | a chunk counts as having content exactly when its message text is non-empty |
| ChatInterface.Chat.constructor | src/renderer/components/ChatInterface.tsx:21-28 | a mounted panel starts empty, not loading and with no listener |
| ChatInterface.Chat.SetInput | src/renderer/components/ChatInterface.tsx:246 | typing sets the input |
| ChatInterface.Chat.CanSubmit | src/renderer/components/ChatInterface.tsx:56 | a submit goes ahead, and the send button (line 259) is enabled, exactly when not loading and the input is not all whitespace |
| ChatInterface.Chat.Submit | src/renderer/components/ChatInterface.tsx:54-98 | a request starts exactly when not loading and the trimmed input is non-empty (also the send button's condition, line 259); it appends the trimmed user message, clears the input, the published text and the accumulator, and replaces the old listener, so at most one listener exists; otherwise nothing changes |
| ChatInterface.Chat.ReplaceListener | src/renderer/components/ChatInterface.tsx:75-82 | the previous subscription is removed and the new listener becomes the only one, the one the cleanup would remove |
| ChatInterface.Chat.OnChunk | src/renderer/components/ChatInterface.tsx:82-95 | with a listener registered, a chunk changes the state as `OnChunkSpec` says; without one, it changes nothing |
| ChatInterface.Chat.OnError | src/renderer/components/ChatInterface.tsx:99-108 | a rejected request makes the transcript the list that its own submit sent, plus the apology, and clears loading |
| ChatInterface.Chat.Unmount | src/renderer/components/ChatInterface.tsx:44-52 | unmounting removes the listener |
| Ordering.InsertBy | electron/db.mjs:54-56 | inserting into a sorted sequence keeps it sorted and adds exactly that element |
| ConversationStore.MessagesOf | electron/db.mjs:68-72 | the selected messages are exactly the stored messages of that conversation |
| ConversationStore.WithoutConversation | electron/db.mjs:32 | the cascade keeps exactly the messages of the other conversations |
| ConversationStore.FiltersPartition | electron/db.mjs:32 | every message is either selected for the conversation or kept by its cascade, never both |
| ConversationStore.CascadeKeepsIdsUnique | electron/db.mjs:27 | the cascade keeps message ids unique |
| ConversationStore.CascadeKeepsOthers | electron/db.mjs:32 | deleting one conversation leaves another's messages, in order, as they were |
| ConversationStore.CascadeOfAbsentIsIdentity | electron/db.mjs:32 | the cascade of a conversation without messages removes nothing |
| ConversationStore.MessagesOfAbsentIsEmpty | electron/db.mjs:112-114 | a conversation without stored messages selects none |
| ConversationStore.DeleteIsComplete | electron/db.mjs:91-93 | after a delete the conversation has no messages, and a second delete changes nothing |
| ConversationStore.Store.constructor | electron/db.mjs:18-34 | the tables start empty and consistent |
| ConversationStore.Store.HasMessageId | electron/db.mjs:27 | an id is free for a new message exactly when no stored message has it (the `messages` primary key) |
| ConversationStore.Store.CreateConversation | electron/db.mjs:77-81 | a new id inserts the row and returns the row read back; a used id is a primary-key violation that changes nothing |
| ConversationStore.Store.GetConversation | electron/db.mjs:83-85 | the row is returned exactly when its id is stored, under that id |
| ConversationStore.Store.UpdateConversationTitle | electron/db.mjs:95-98 | a stored id gets the new title and the row read back; an unknown id changes nothing and reads back nothing |
| ConversationStore.Store.DeleteConversation | electron/db.mjs:91-93 | the row is removed and its messages go with it; an unknown id is no error and leaves both tables as they were; the tables stay consistent |
| ConversationStore.Store.AddMessage | electron/db.mjs:100-110 | a used message id is a primary-key violation and an unknown conversation a foreign-key violation, and both store nothing; otherwise the row is appended |
| ConversationStore.Store.GetMessages | electron/db.mjs:112-114 | the conversation's messages, exactly and each once, ordered by creation time |
| ConversationStore.Store.ListConversations | electron/db.mjs:87-89 | every conversation once, newest first |
| ConversationSidebar.Ids | src/renderer/components/ConversationSidebar.tsx:35 | the list's ids in list order |
| ConversationSidebar.RemoveById | src/renderer/components/ConversationSidebar.tsx:35 | the filtered list holds exactly the entries with another id |
| ConversationSidebar.ReplaceById | src/renderer/components/ConversationSidebar.tsx:49-51 | each entry with the id is replaced by the row read back, and every other entry stays in place |
| ConversationSidebar.RemoveByIdAppend | src/renderer/components/ConversationSidebar.tsx:35 | the filter keeps the survivors in order |
| ConversationSidebar.RemoveAbsentIsIdentity | src/renderer/components/ConversationSidebar.tsx:35 | filtering out an absent id leaves the list as it was |
| ConversationSidebar.RemoveIsIdempotent | src/renderer/components/ConversationSidebar.tsx:35 | deleting twice is deleting once |
| ConversationSidebar.DeleteRemovesOneEntry | src/renderer/components/ConversationSidebar.tsx:35 | with distinct ids, a delete removes exactly that one entry |
| ConversationSidebar.RemoveOnlyEntry | src/renderer/components/ConversationSidebar.tsx:35 | deleting an id held by one entry alone removes that entry and keeps the others in order |
| ConversationSidebar.RenameKeepsIds | src/renderer/components/ConversationSidebar.tsx:49-51 | a rename whose reply has the same id keeps the list's ids, in order, and keeps them distinct |
| ConversationSidebar.RenameChangesOneEntry | src/renderer/components/ConversationSidebar.tsx:49-51 | with distinct ids, a rename changes exactly the entry with that id |
| ConversationSidebar.Sidebar.constructor | src/renderer/components/ConversationSidebar.tsx:11-14 | a mounted sidebar has an empty list, is loading and is not editing |
| ConversationSidebar.Sidebar.Load | src/renderer/components/ConversationSidebar.tsx:20-29 | the list becomes the store's reply, or stays on failure; loading ends either way |
| ConversationSidebar.Sidebar.HandleDelete | src/renderer/components/ConversationSidebar.tsx:31-42 | after a successful delete the entry is gone and an open conversation with that id is closed; a failure changes nothing |
| ConversationSidebar.Sidebar.HandleUpdateTitle | src/renderer/components/ConversationSidebar.tsx:44-56 | the store gets the id and the edited title; on success the row read back replaces the entry and the editor closes; a failure changes nothing |
| ConversationSidebar.Sidebar.StartEdit | src/renderer/components/ConversationSidebar.tsx:151-155 | the editor opens on that entry, filled with its title |
| ConversationSidebar.Sidebar.SetEditTitle | src/renderer/components/ConversationSidebar.tsx:113 | typing sets the edited title |
| ConversationSidebar.Sidebar.CancelEdit | src/renderer/components/ConversationSidebar.tsx:128 | cancel closes the editor |
| ConversationSidebar.Sidebar.Select | src/renderer/App.tsx:47-50 | selecting opens the conversation and switches to its model |
| ConversationSidebar.Sidebar.NewChat | src/renderer/App.tsx:52-54 | a new chat has no open conversation |
| SystemPrompt.Utf16Length | src/renderer/components/SystemPromptModal.tsx:32 | a string's JavaScript length is between its number of characters and twice that |
| SystemPrompt.Utf16LengthAppend | src/renderer/components/SystemPromptModal.tsx:32 | the JavaScript length of a concatenation is the sum of the lengths |
| SystemPrompt.SlicesAreShorter | src/renderer/components/SystemPromptModal.tsx:32 | neither part of a string cut in two is longer than the whole |
| SystemPrompt.Fits | src/renderer/components/SystemPromptModal.tsx:32 | an edit within the limit has at most 2000 characters, and one of at most 1000 characters always fits |
| SystemPrompt.TrimmedIsShorter | src/renderer/components/SystemPromptModal.tsx:25-26 | trimming never makes the prompt longer |
| SystemPrompt.PromptEditor.constructor | src/renderer/components/SystemPromptModal.tsx:14-15 | the draft starts as the saved prompt, not dirty |
| SystemPrompt.PromptEditor.SetProps | src/renderer/components/SystemPromptModal.tsx:17-22 | when the dialog is open and a property changed, the draft becomes the saved prompt and is not dirty; otherwise the draft is kept |
| SystemPrompt.PromptEditor.HandlePromptChange | src/renderer/components/SystemPromptModal.tsx:11-36 | an edit is taken exactly when it is at most 2000 long, and marks the draft dirty; a longer one changes nothing; a dirty draft is always within the limit |
| SystemPrompt.PromptEditor.HandleSave | src/renderer/components/SystemPromptModal.tsx:24-29 | a non-blank draft is handed to `onSave` trimmed, is no longer when saved, and `onClose` is called; a blank draft calls neither |
| SystemPrompt.PromptEditor.SaveEnabled | src/renderer/components/SystemPromptModal.tsx:103 | the button is enabled exactly when the draft is dirty and not blank, that is, when `HandleSave` would save |
| TokenCounter.PercentageUsed | src/renderer/components/TokenCounter.tsx:11 | the percentage is the rounding of `100 * total / max`, with halves rounded up |
| TokenCounter.TotalTokens | src/renderer/components/TokenCounter.tsx:10 | the total is at least each of its parts, and 0 only when both are |
| TokenCounter.PercentageIsNearest | src/renderer/components/TokenCounter.tsx:11 | an integer is the percentage exactly when it is within half a unit of the exact share |
| TokenCounter.PercentageIsMonotone | src/renderer/components/TokenCounter.tsx:10-11 | more tokens never show a smaller percentage |
| TokenCounter.PercentageEnds | src/renderer/components/TokenCounter.tsx:11 | no tokens is 0 % and a full context is 100 % |
| TokenCounter.BarWidth | src/renderer/components/TokenCounter.tsx:42 | the width is the percentage capped at 100 |
| TokenCounter.TierOf | src/renderer/components/TokenCounter.tsx:36-40 | high exactly above 90, moderate above 75 up to 90, and low otherwise |
| TokenCounter.TierIsMonotone | src/renderer/components/TokenCounter.tsx:36-40 | a higher percentage never falls to a lower tier |
| TokenCounter.BarColour | src/renderer/components/TokenCounter.tsx:36-40 | the bar's class is the colour of the percentage's tier |
| TokenCounter.UsageHint | src/renderer/components/TokenCounter.tsx:45-49 | the tooltip is the hint of the percentage's tier |
| TokenCounter.ColourAndHintAgree | src/renderer/components/TokenCounter.tsx:36-49 | the bar colour and the tooltip always show the same tier, and each tells the tiers apart |
| TokenCounter.FullContextIsHighUsage | src/renderer/components/TokenCounter.tsx:10-42 | a full or overfull context fills the bar and is high usage |

## Left out

- Networking and I/O are not modelled: the HTTP client, the Electron IPC
  transport, `webContents.send` and console logging. Sending is modelled as
  appending to `sent` and `notices`.
- `JSON.parse` is left out. It is the `parse` parameter, so any parser
  behaviour can be plugged in.
- `chunk.toString()` is left out: fragments arrive as text. A UTF-8
  character split across two network chunks is decoded by the source as
  one or more replacement characters on each side of the split, depending
  on the character and where it is split. The model does not see bytes.
- The non-streaming chat path (`stream = false`) is not modelled. It
  returns the response body and involves no framing.
- The list-models and generate results are not modelled. Only their error
  paths are in the core.
- Concurrency is not modelled. Each event handler runs as one atomic step,
  as Node runs `data`, `end` and `error` callbacks one at a time.
- The SQLite engine is not modelled. The store covers the constraints the
  schema declares and the statements `db.mjs` runs.
  - `datetime('now')` and uuid v4 are inputs.
  - Timestamps are whole seconds, as `datetime('now')` stores them.
- ConversationStore.Store.ListConversations: ties in `created_at` are
  ordered arbitrarily by SQLite.
  - The model promises only an order by non-increasing timestamp.
  - The proof keeps ties in the order the keys were visited.
- ConversationStore.Store.GetMessages: ties in `created_at` have no
  order in the query. The model promises only an ordering by timestamp
  and the exact rows, as a multiset.
- ConversationStore.Store.AddMessage: the source returns a `created_at`
  read from the JavaScript clock as an ISO string. The insert stores
  SQLite's own `datetime('now')`. The model returns the stored row with the
  one timestamp it is given.
- The conversation and message IPC handlers that the preload script calls
  (`conversation:list`, `conversation:delete`, `conversation:update`,
  `conversation:create`, `message:add`, `message:list`) are not defined in
  `electron/main.mjs`. The sidebar's replies are therefore inputs. Without
  a handler, every such call rejects, which is the `None` reply.
- ConversationSidebar.Sidebar.HandleUpdateTitle: a successful reply is
  always a row. The source would put `undefined` into the list when the id
  had been deleted in between. The model does not capture that.
- The parent of the system-prompt dialog is not part of this model.
  `HandleSave` returns the calls of `onSave` and `onClose` as its results;
  whether the dialog then closes is up to the parent, which passes the new
  `isOpen` back through `SetProps`.
- `formatDate`, the rendering and the styling are left out. So are the
  auto-resizing text area, scrolling and the key handler (Enter submits as
  the form does).
- TokenCounter.PercentageUsed: exact rational arithmetic replaces IEEE
  floating point. `total / max * 100` can land just below a half-way
  point that is exact in rationals, and round differently there.
  `maxContext` must be positive. For 0 the source shows `NaN` or
  `Infinity`, which the model does not capture.
- The model captures these behaviours as the source has them, and the
  proofs and notes state them:
  - A stream `error` reaches the renderer as a raw rejection. It is not
    reported on `error`, because the handler returns the promise from
    its `try` block without awaiting it (`OnStreamError`).
  - When the chat request rejects, the catch block rebuilds the transcript
    from the list that the same submit captured, which `OnError` takes as
    its argument. An assistant message appended by a
    final chunk in between is dropped (`OnError`).
  - If the stream ends without a final chunk, the panel stays loading
    (`PublishedTextIsCumulative`: loading is unchanged while no chunk is
    final). The unterminated rest of the buffer is never sent (`OnEnd`).

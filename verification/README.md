# Assistant workspace core, in Dafny

This project models the logic under a small browser chat client. The client
lets a user create assistants backed by one of two providers: a chat backend
(Gemini) or an agent backend (OpenAI assistants with a vector store). The
user opens threads under an assistant and streams replies into them. The
client also animates a scripted multi-agent workflow, browses a cloud drive,
and guards the message composer.

Everything is pure functions over immutable data. Remote results, clock
readings, streamed chunks and run events are parameters.

Modules:

- `Text`: sequence concatenation, decimal rendering of clock values (the
  `Date.now()` inside ids), and its injectivity.
- `Common`: `Option`, a thrown value (`Error` object or other value), a
  remote result, and the banner text of a caught error.
- `Lists`: the two array operations the handlers use on record lists,
  `find` and an order-keeping `filter`.
- `Types`: messages, threads, assistants and the remote assistant record.
- `ConversationStore`: the application shell's state and its handlers.
  These are create, delete, select and update assistant; create and delete
  thread; and send, which is a fold of the streamed chunks into a reply
  placeholder. The module also holds a consistency invariant over threads
  and message lists, and proofs that every handler preserves it when the
  handler runs as one atomic step (see "Left out" for the awaiting ones).
- `WorkflowAnimator`: the eight-step workflow table, reset, step entry,
  step exit and completion, and a whole-run method with its end state.
- `GeminiService` and `OpenAiService`: the two stream adapters, modelled as
  functions from backend input to text fragments. They also cover:
  - the history conversion;
  - the provisioning and release call order;
  - the sandbox file-id list updates.
- `GoogleDrive`: the authenticated-fetch guard, query escaping, the
  mime-to-kind mapping, and the export-or-download URL choice.
- `MessageInput`: `String.prototype.trim`, the submit guard and the
  disabled state of the send button.

## Model

| member | source | states |
|---|---|---|
| Text.Decimal | layouts/AppLayout.tsx:35 | a clock value is rendered as a non-empty digit string without leading zeros |
| Text.PrefixedDecimalInjective | layouts/AppLayout.tsx:146-152 | ids built as a prefix plus different clock values are different |
| Lists.FindFirst | layouts/AppLayout.tsx:26 | finds an entry iff some entry matches, and what it finds is the first entry that matches |
| Lists.Without | layouts/AppLayout.tsx:76 | every entry that is not dropped keeps its number of occurrences, and no dropped entry remains |
| Lists.WithoutMembers | layouts/AppLayout.tsx:131 | the entries kept are exactly the list's entries that are not dropped |
| Lists.WithoutAppend | layouts/AppLayout.tsx:76 | filtering works part by part, so the kept entries keep their order |
| Lists.WithoutKeepsKeysDistinct | layouts/AppLayout.tsx:131 | filtering a list whose keys are distinct leaves them distinct |
| Lists.WithoutNothingDropped | layouts/AppLayout.tsx:131 | when no entry is dropped the list comes back unchanged |
| ConversationStore.CreateAssistant | layouts/AppLayout.tsx:30-64 | a chat-backend assistant is appended with the default model and the clock id; an agent-backend one is appended only after provisioning succeeds, with the remote record's fields and ids; either way it is selected and the thread cleared; a failed provisioning changes only the banner |
| ConversationStore.CreateAssistantKeepsConsistency | layouts/AppLayout.tsx:30-64 | creating an assistant keeps threads and message lists consistent |
| ConversationStore.AgentCreationBindsStore | layouts/AppLayout.tsx:44-55 | fed with the adapter's provisioning, an assistant is added iff both remote calls returned; the record names the remote assistant and the very store its file search is bound to; a failure shows the failing call's error |
| ConversationStore.SelectAssistant | layouts/AppLayout.tsx:182-185 | selecting sets the assistant and always clears the thread, even when the same assistant is selected again; nothing else changes |
| ConversationStore.SendAfterSelectIgnored | layouts/AppLayout.tsx:142-185 | because selecting an assistant clears the thread, a send right after it is rejected and asks for nothing |
| ConversationStore.SelectThread | layouts/AppLayout.tsx:221 | selecting a thread sets only the thread selection; every list, the assistant selection and both flags are kept |
| ConversationStore.SelectionsAndUpdatesKeepConsistency | layouts/AppLayout.tsx:182-192 | selecting an assistant or a thread and updating an assistant keep the store consistent |
| ConversationStore.UpdateAssistant | layouts/AppLayout.tsx:187-192 | every assistant with the id gets the given fields and keeps its provider; lists, selections, the streaming flag and the banner are kept; the remote instruction push happens iff the assistant selected before the update is agent-backed and the instructions are non-empty, and it targets that selected assistant |
| ConversationStore.UpdateAssistantIdempotent | layouts/AppLayout.tsx:188-190 | applying an update twice gives the same state and the same push as applying it once |
| ConversationStore.RemoveAssistant | layouts/AppLayout.tsx:76 | the filtered list holds exactly the assistants whose id differs |
| ConversationStore.DeleteAssistant | layouts/AppLayout.tsx:66-99 | an unknown id changes nothing; a failed remote delete of an agent-backend assistant changes only the banner; otherwise the assistant, its thread list and each of its threads' message lists are removed, the other assistants stay in their order, every other entry is kept, and both selections are cleared iff it was the selected assistant |
| ConversationStore.AgentDeletionCascadesIffReleased | layouts/AppLayout.tsx:70-98 | fed with the adapter's release of an agent-backend assistant, the delete removes the assistant and clears the banner iff every deletion the adapter issued completed; a failed assistant deletion shows its error |
| ConversationStore.DeleteAssistantKeepsConsistency | layouts/AppLayout.tsx:76-93 | the cascade leaves no orphaned message list and no thread without one |
| ConversationStore.CascadeKeepsConsistency | layouts/AppLayout.tsx:81-93 | dropping one assistant's thread list together with its threads' message lists keeps the three consistency conditions |
| ConversationStore.CreateThread | layouts/AppLayout.tsx:101-126 | without a selected assistant nothing changes; a failed remote thread creation changes only the banner; otherwise the new thread is appended to the selected assistant's list, gets an empty message list and is selected, and other lists and the streaming flag are kept |
| ConversationStore.CreateThreadKeepsConsistency | layouts/AppLayout.tsx:110-121 | when the new thread id is fresh, the store stays consistent |
| ConversationStore.RemoveThread | layouts/AppLayout.tsx:131 | the filtered list holds exactly the threads whose id differs |
| ConversationStore.DeleteThread | layouts/AppLayout.tsx:128-140 | without a selected assistant nothing changes; otherwise the thread leaves only the selected assistant's list, whose other threads stay in order, its message list is dropped, other lists are kept, and the thread selection is cleared iff it was the deleted thread |
| ConversationStore.DeleteThreadKeepsConsistency | layouts/AppLayout.tsx:128-140 | when no other assistant lists the thread, deleting it keeps the store consistent |
| ConversationStore.SendIdsDiffer | layouts/AppLayout.tsx:146-153 | the user message and the reply placeholder of one send have different ids |
| ConversationStore.BeginSend | layouts/AppLayout.tsx:146-154 | an accepted send appends the user message and then an empty assistant placeholder, turns streaming on and clears the banner |
| ConversationStore.AccumulateAppendsConcat | layouts/AppLayout.tsx:164-169 | folding the chunks appends their in-order concatenation to the placeholder and leaves every other message as it was |
| ConversationStore.FinishSend | layouts/AppLayout.tsx:164-179 | streaming is off afterwards; only the sending thread's list changes; the banner is set iff the adapter threw |
| ConversationStore.RequestFor | layouts/AppLayout.tsx:157-163 | the chat backend gets the selected assistant's model and instructions and the messages before this send; the agent backend gets the thread's remote id and the assistant's remote id |
| ConversationStore.RequestAsWritten | layouts/AppLayout.tsx:157-163 | as the handler builds it, the chat backend gets no model, the selected assistant's instructions and the messages before this send; the agent backend gets the thread's remote id and the assistant's remote id |
| ConversationStore.SendMessage | layouts/AppLayout.tsx:142-180 | a send with no selected thread, no selected assistant, a thread outside the assistant's list, or a stream in flight changes nothing and asks nothing; an accepted one issues the request as the handler builds it, ends with streaming off, changes only the sending thread's list, and sets the banner iff the adapter threw |
| ConversationStore.SendAppendsExchange | layouts/AppLayout.tsx:146-176 | when the reply id is fresh, the thread ends as its earlier messages, then the user message, then the reply holding the concatenated chunks, or "Error: " and the message when the adapter threw |
| ConversationStore.SendWhileStreamingIgnored | layouts/AppLayout.tsx:144-150 | the streaming flag is global: any state that is streaming ignores a send and issues no request, in particular right after a send began, even when the user has switched to another thread |
| ConversationStore.ChatFailureStaysInBand | services/geminiService.ts:59-62 | a chat-backend failure caught by the adapter reaches the reply as all the chunk text followed by the adapter's error text, and the banner stays clear |
| ConversationStore.RunFailureStaysInBand | services/openAiService.ts:113-116 | an agent-backend failure to append the message becomes the whole reply text, and the banner stays clear |
| ConversationStore.SendKeepsConsistency | layouts/AppLayout.tsx:146-176 | a send keeps the store consistent |
| ConversationStore.AsWrittenChatLacksModel | layouts/AppLayout.tsx:159 | as the handler calls it, the chat session of every accepted chat-backend send gets no model |
| ConversationStore.AsWrittenChatExample | layouts/AppLayout.tsx:159 | a concrete store whose first chat request carries no model, while the corrected request carries the default model |
| WorkflowAnimator.Reset | components/orchestration/OrchestrationPanel.tsx:54-60 | reset gives step -1, every base agent idle, an empty log, the initial file table and no link |
| WorkflowAnimator.Enter | components/orchestration/OrchestrationPanel.tsx:62-87 | entering step i sets the index to i, appends one log entry with the step's agent and task, makes the agent and its parent active, sets the step's link, and starts the edit of the agent's file (version + 1, updating) while keeping the other files |
| WorkflowAnimator.Exit | components/orchestration/OrchestrationPanel.tsx:90-104 | leaving step i sets the agent to handoff iff the step hands off and to idle otherwise, sets the parent idle, and syncs the agent's file without changing its version |
| WorkflowAnimator.Complete | components/orchestration/OrchestrationPanel.tsx:64-69 | completion stops the run, clears the link, sets every status key idle and appends one "Workflow completed." entry |
| WorkflowAnimator.Advance | components/orchestration/OrchestrationPanel.tsx:62-75 | one tick adds exactly one log entry: with steps left it is the next step's agent and task and the index moves on; past the last step it is the completion entry, the run stops and the link clears |
| WorkflowAnimator.StepsByWholeTable | components/orchestration/OrchestrationPanel.tsx:21-30 | the devops and architect agents each act once in the table |
| WorkflowAnimator.Start | components/orchestration/OrchestrationPanel.tsx:111-114 | starting turns the run on and resets the panel to step -1, idle base agents, an empty log, the initial files and no link |
| WorkflowAnimator.StartForgetsEarlierRuns | components/orchestration/OrchestrationPanel.tsx:111-114 | every run starts from the same panel, whatever an earlier run left |
| WorkflowAnimator.StartSettled | components/orchestration/OrchestrationPanel.tsx:54-60 | a fresh run starts from the settled state before any step |
| WorkflowAnimator.StepKeepsSettled | components/orchestration/OrchestrationPanel.tsx:62-107 | entering and leaving step k from the state settled after k steps gives the state settled after k + 1 steps |
| WorkflowAnimator.FilesAfterStep | components/orchestration/OrchestrationPanel.tsx:82-104 | one step's entry and exit take the file table settled after k steps to the one settled after k + 1 |
| WorkflowAnimator.StatusAfterStep | components/orchestration/OrchestrationPanel.tsx:77-96 | after a step's entry and exit, every status is idle or handoff and the base agents are still shown |
| WorkflowAnimator.CompletionOfSettled | components/orchestration/OrchestrationPanel.tsx:64-69 | completing after all eight steps gives the final log, idle statuses and synced files |
| WorkflowAnimator.RunWorkflow | components/orchestration/OrchestrationPanel.tsx:21-109 | a full run logs the eight step texts in order with their timestamps and then "Workflow completed."; it ends with every agent idle, files 1 and 3 at version 2 and files 2 and 4 at version 1, all synced, not simulating, with no link |
| GeminiService.CreateAssistant | services/geminiService.ts:18-28 | the record has the chat-backend provider, the given name, instructions and model, id "asst_gemini_" plus the clock value, and that clock value as its creation time |
| GeminiService.CreatedIdsDistinct | services/geminiService.ts:20 | assistants created at different times get different ids |
| GeminiService.ToHistory | services/geminiService.ts:30-35 | the history has one entry per message, in order; the role is "model" iff the message is the assistant's, and "user" otherwise; each entry's only part is the message text |
| GeminiService.HistoryRoundTrip | services/geminiService.ts:30-35 | the role and content of every message can be read back from the history |
| GeminiService.NonEmptyTexts | services/geminiService.ts:54-58 | only non-empty texts are yielded, never more than there were chunks |
| GeminiService.NonEmptyTextsAppend | services/geminiService.ts:54-58 | filtering a sequence of chunks is the filtering of its parts joined, so arrival order is kept |
| GeminiService.NonEmptyTextsSpellAll | services/geminiService.ts:54-58 | the yielded texts spell the same string as all chunk texts |
| GeminiService.StreamFragments | services/geminiService.ts:47-63 | without an error the fragments are the non-empty texts; with one they are followed by exactly one fragment with the error prefix and the details; no fragment is empty |
| GeminiService.StreamSpells | services/geminiService.ts:47-63 | the fragments concatenate to every chunk text, then the error fragment if the backend threw |
| OpenAiService.CreateAssistant | services/openAiService.ts:23-42 | the vector store is created first; the assistant is created only after it, with both tools and file search bound to exactly that store; either failure is passed on unchanged |
| OpenAiService.DeleteAssistant | services/openAiService.ts:44-62 | the assistant deletion is always issued, and the store deletion iff a non-empty store id is given; the call fails iff an issued deletion fails |
| OpenAiService.DeltaText | services/openAiService.ts:101-105 | a delta yields its first part's text iff that part is text with a non-empty value |
| OpenAiService.EventFragments | services/openAiService.ts:100-116 | no fragment of the event loop is empty |
| OpenAiService.FragmentsWithoutRunFailure | services/openAiService.ts:100-116 | with no failed-run event, the fragments are the delta texts in event order, then one exception fragment if the stream threw |
| OpenAiService.FragmentsUpToRunFailure | services/openAiService.ts:106-111 | at the first failed-run event the fragments are the delta texts before it, then its one fragment; later events and exceptions yield nothing |
| OpenAiService.StreamResponse | services/openAiService.ts:85-117 | the user message is appended before the run starts; a failed append yields one exception fragment and starts no run |
| OpenAiService.UploadIds | services/openAiService.ts:193-201 | the sandbox ids after an upload are the existing ones, or none, followed by the new id |
| OpenAiService.RemoveIds | services/openAiService.ts:213-215 | the removed id no longer occurs; every other id keeps its number of occurrences |
| OpenAiService.RemoveIdsLength | services/openAiService.ts:215 | the list shrinks by exactly the number of occurrences removed |
| OpenAiService.RemoveIdsAppend | services/openAiService.ts:215 | removal works part by part, so the remaining ids keep their order |
| OpenAiService.RemoveAbsentId | services/openAiService.ts:215 | removing an id that does not occur changes nothing |
| OpenAiService.UploadThenDelete | services/openAiService.ts:189-230 | deleting a just-uploaded file that was not there before restores the previous id list |
| GoogleDrive.FetchWithAuth | services/googleDrive.ts:5-19 | an empty token fails before any request; otherwise exactly one bearer request is made; a failure status gives the server's message or the fixed fallback, and a rejected fetch passes its own error on |
| GoogleDrive.FetchCarriesToken | services/googleDrive.ts:6-12 | every request sent is for the given URL and carries exactly the given, non-empty token in its header |
| GoogleDrive.Escape | services/googleDrive.ts:24 | the output is the input plus one character per single quote |
| GoogleDrive.UnescapeEscape | services/googleDrive.ts:24 | escaping is invertible, so the search text is recovered exactly |
| GoogleDrive.EscapeStartsWithBackslashOrNoQuote | services/googleDrive.ts:24 | escaped text never begins with a bare quote |
| GoogleDrive.EscapeWithoutQuotes | services/googleDrive.ts:24 | text without single quotes, backslashes included, is copied unchanged |
| GoogleDrive.ListQuery | services/googleDrive.ts:22-25 | an empty search gives exactly the folder and not-trashed filter; a non-empty one appends the name clause with the escaped text |
| GoogleDrive.NameFilterRecoverable | services/googleDrive.ts:22-25 | the search text can be read back from the query string |
| GoogleDrive.ListUrl | services/googleDrive.ts:26 | the encoded query sits between the files endpoint and the fixed field and ordering parameters, and can be read back |
| GoogleDrive.WithKinds | services/googleDrive.ts:29 | length, order and the other fields are kept; the kind is "drive#folder" iff the mime type is the folder type, and "drive#file" otherwise |
| GoogleDrive.WithKindsIdempotent | services/googleDrive.ts:29 | relabelling twice is relabelling once, and files with the same mime type get the same kind |
| GoogleDrive.ListFiles | services/googleDrive.ts:21-30 | with a token it sends one request for the built query and succeeds iff the reply does, with the kinds relabelled; a rejected fetch passes its error on |
| GoogleDrive.ListRootFiles | services/googleDrive.ts:21 | with the default arguments the request asks for the top folder's untrashed files without a name filter |
| GoogleDrive.ContentUrl | services/googleDrive.ts:33-41 | native documents are exported, spreadsheets as CSV and others as plain text; every other file is downloaded raw |
| GoogleDrive.ContentUrlRecoverable | services/googleDrive.ts:33-41 | the file id can be read back from the URL, and its tail is the CSV export iff the file is a spreadsheet, the text export iff it is another native document, and the raw download iff it is not native |
| GoogleDrive.GetFileContent | services/googleDrive.ts:32-45 | with a token it sends one request for the chosen URL and returns the body iff the reply succeeded |
| GoogleDrive.SpreadsheetIsNative | services/googleDrive.ts:34-37 | the spreadsheet type has the native prefix, so the CSV branch is reachable |
| MessageInput.TrimStart | components/main/MessageInput.tsx:22-23 | the result is a suffix whose cut-off prefix is all whitespace and which does not start with whitespace |
| MessageInput.TrimEnd | components/main/MessageInput.tsx:22-23 | the result is a prefix whose cut-off suffix is all whitespace and which does not end with whitespace |
| MessageInput.Trim | components/main/MessageInput.tsx:22-23 | the result is an infix flanked by whitespace, neither starting nor ending with whitespace, and it is empty iff the text is all whitespace |
| MessageInput.CutBothEnds | components/main/MessageInput.tsx:22-23 | cutting the front and then the back leaves the whitespace-flanked infix |
| MessageInput.TrimIdempotent | components/main/MessageInput.tsx:23 | trimming twice is trimming once |
| MessageInput.Submit | components/main/MessageInput.tsx:20-26 | a submit fires iff the text has a non-whitespace character or a file is attached, and nothing is being sent; it passes the trimmed text and clears the box; otherwise the box is unchanged |
| MessageInput.DisabledIffSubmitIgnored | components/main/MessageInput.tsx:22-68 | the send button is disabled exactly when a submit would be ignored |

The store's consistency invariant (`ConversationStore.Consistent`) says:

- every listed thread has a message list;
- every message list belongs to a listed thread;
- no thread id is listed twice.

The source never states this invariant. The handlers maintain it when each
runs as one atomic step, as long as the clock-built thread ids are fresh and
a deleted thread is listed only under the selected assistant. The handlers
that await a remote call are not atomic in the source; see "Left out".

## Left out

- React rendering, JSX, `useMemo`/`useCallback` and the view components are not modelled. The memoised values become functions of the state (`SelectedAssistant`, `CurrentThreads`).
- The animator's timer and effect wiring (`setTimeout`, `clearTimeout`, the `useEffect` at components/orchestration/OrchestrationPanel.tsx:111-121) is not modelled. The model runs the step table in order, as the transitions describe.
  - As wired, `runSimulationStep` is rebuilt on every step change. The effect depends on it, so every step change re-runs the effect, which cancels the pending timer and resets the panel.
  - That behaviour is scheduling, and this model does not cover it.
- SDK and network calls are parameters. Their outcomes are `Remote`/`Outcome` values, event sequences and `Reply` values. Parsing the error JSON of a failed HTTP reply is reduced to an optional message. A success body that fails to parse, or that lacks `files`, is not modelled.
- `encodeURIComponent` is passed to `GoogleDrive.ListUrl` as an opaque function.
- Clock values are parameters, and one handler reads a single clock value. The source calls `Date.now()` several times per handler, so an id and a creation time may differ by a millisecond there.
- `toLocaleTimeString` is a text parameter.
- Id freshness is a precondition where a proof needs it. `msg_` and `thread_` ids built from the clock can collide.
- Every handler that awaits a remote call (create, delete and send) is modelled as one atomic step on the state it starts from. In the source, other handlers can run during the await:
  - `handleDeleteAssistant` reads `threads` and `selectedAssistantId` from its closure (layouts/AppLayout.tsx:67-81). A thread created under the assistant during the await keeps its message list, because the message deletes use the stale thread list while the whole thread key is removed.
  - `handleCreateThread` appends under the closure's `selectedAssistantId` after the await (layouts/AppLayout.tsx:107-118), even if the selection changed meanwhile.
  - The consistency lemmas hold only for the atomic model.
- Both stream adapters catch every backend failure and yield it as a last fragment (services/geminiService.ts:59-62, services/openAiService.ts:113-116). The handler's "Error: " placeholder text and banner (layouts/AppLayout.tsx:170-176) are therefore reached only when an adapter throws before its fragment loop, such as `createChat` itself throwing. A provider failure shows as the adapter's error text appended to the reply, with no banner (`ChatFailureStaysInBand`, `RunFailureStaysInBand`). The model follows the code here, although a design where a failed reply reads "Error: " and the description would be the natural reading of the handler.
- A send is a sequential fold. Interleavings of React's batched updates with other handlers during a stream are not modelled.
- The send's closure reads `messages` when the handler was created. The model reads the current state, which is the same when nothing else changes in between.
- OpenAiService.DeleteAssistant: when both deletions fail, the model reports the assistant deletion's error. `Promise.all` rejects with whichever failure settles first, and that depends on timing.
- ConversationStore.UpdateAssistant: models updates of name, instructions and model only. `Partial<Assistant>` would also let a caller overwrite the id or provider, which no caller does.
- ConversationStore.CreateAssistant: takes the provisioning result as given. The handler calls the agent-backend `createAssistant` at layouts/AppLayout.tsx:45 without a `model` argument, so the remote request carries no model. The store does not model that request.
- The remote update fired by `handleUpdateAssistant` is modelled as an issued `InstructionPush`. Its completion and failure are not awaited by the source, so they are not modelled.
- The OpenAI helpers `updateAssistant` and `createThread` are single SDK calls with log-and-rethrow error handling (services/openAiService.ts:64-84). The store calls them (layouts/AppLayout.tsx:107 and :190) and covers their effect through its remote-result parameters.
- The knowledge-file helpers are called from file panels that are not part of this model, and the helpers are not modelled either: `listFiles` (one SDK call), `uploadFile` (upload, then attach to the vector store, services/openAiService.ts:134 and :140), `deleteFile` (detach, then delete, :154-155), `getFile` (one call) and `listSandboxFiles` (one assistant retrieval, then one retrieval per sandbox file id, :175-182). Only the id-list arithmetic of the two sandbox updates is modelled (`UploadIds`, `RemoveIds`).
- A missing text value in a message delta is modelled as an empty text. Both are falsy, so they behave the same.
- The Gemini session is not modelled beyond its history conversion and its chunk stream. The chunk stream is treated as a sequence of optional texts followed by an optional exception.
- `window.confirm` before deletions is presentation.
- The error banner's dismiss click is presentation.
- The types module of the client (`types.ts`) is not part of this model. Record shapes follow how the handlers build them.

## Findings

| source | as written | input that shows it | evidently intended | confidence | as-written member | corrected member |
|---|---|---|---|---|---|---|
| layouts/AppLayout.tsx:159 | `createChat(selectedAssistant.instructions, history)` passes two arguments to a function whose third parameter is the model (services/geminiService.ts:37-39), so the chat session is created with an undefined model | any accepted send to a chat-backend assistant, e.g. the assistant "asst_gemini_1" with model "gemini-2.5-flash" and one empty thread | the session is created for the selected assistant's own model | not executed; high that the argument is missing | ConversationStore.AsWrittenChatLacksModel | ConversationStore.RequestFor |

`ConversationStore.SendMessage` issues the request as written, so the model
follows the handler; `RequestFor` states the corrected request beside it.

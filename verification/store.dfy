/** The conversation state of the application shell (layouts/AppLayout.tsx):
    the assistant list, threads per assistant, messages per thread, the two
    selections, the streaming flag and the error banner, with one pure
    transition per handler. Remote results, clock readings and the streamed
    chunks are parameters. */
module ConversationStore {
  import opened Common
  import opened Text
  import opened Types
  import opened Lists
  import OpenAiService
  import GeminiService

  datatype AppState = AppState(
    assistants: seq<Assistant>,
    threads: map<string, seq<Thread>>,
    messages: map<string, seq<Message>>,
    selectedAssistantId: Option<string>,
    selectedThreadId: Option<string>,
    isStreaming: bool,
    error: Option<string>)

  const DefaultGeminiModel: string := "gemini-2.5-flash"
  const UnknownError: string := "An unknown error occurred."
  const UnknownDeletionError: string := "An unknown error occurred during deletion."

  const Initial: AppState := AppState([], map[], map[], None, None, false, None)

  // ---------------------------------------------------------------------
  // Lookups, with the source's `|| []` defaults

  function ThreadsOf(s: AppState, assistantId: string): seq<Thread>
  {
    if assistantId in s.threads then s.threads[assistantId] else []
  }

  function MessagesOf(s: AppState, threadId: string): seq<Message>
  {
    if threadId in s.messages then s.messages[threadId] else []
  }

  function FindAssistant(list: seq<Assistant>, id: string): Option<Assistant>
  {
    FindFirst(list, (a: Assistant) => a.id == id)
  }

  function FindThread(list: seq<Thread>, id: string): Option<Thread>
  {
    FindFirst(list, (t: Thread) => t.id == id)
  }

  /** The assistant named by the selection (a missing selection finds none). */
  function SelectedAssistant(s: AppState): Option<Assistant>
  {
    if s.selectedAssistantId.Some? then FindAssistant(s.assistants, s.selectedAssistantId.value) else None
  }

  /** The threads listed for the selected assistant. */
  function CurrentThreads(s: AppState): seq<Thread>
  {
    if Truthy(s.selectedAssistantId) then ThreadsOf(s, s.selectedAssistantId.value) else []
  }

  function ThreadIds(list: seq<Thread>): set<string>
  {
    set t | t in list :: t.id
  }

  // ---------------------------------------------------------------------
  // Identifiers built from the clock

  function GeminiAssistantId(now: nat): string { "asst_gemini_" + Decimal(now) }
  function OpenAiAssistantId(now: nat): string { "asst_openai_" + Decimal(now) }
  function ThreadId(now: nat): string { "thread_" + Decimal(now) }
  function UserMessageId(now: nat): string { "msg_" + Decimal(now) }
  function ReplyMessageId(now: nat): string { "msg_" + Decimal(now + 1) }

  /** The user message and the reply placeholder of one send never share an id. */
  lemma SendIdsDiffer(now: nat)
    ensures UserMessageId(now) != ReplyMessageId(now)
  {
    PrefixedDecimalInjective("msg_", now, now + 1);
  }

  // ---------------------------------------------------------------------
  // Consistency of threads and message lists

  /** Some assistant lists a thread with this id. */
  ghost predicate Listed(threads: map<string, seq<Thread>>, threadId: string)
  {
    exists aid, i :: aid in threads && 0 <= i < |threads[aid]| && threads[aid][i].id == threadId
  }

  /** Every listed thread has a message list. */
  ghost predicate ListedHaveMessages(threads: map<string, seq<Thread>>, messages: map<string, seq<Message>>)
  {
    forall aid, i :: aid in threads && 0 <= i < |threads[aid]| ==> threads[aid][i].id in messages
  }

  /** Every message list belongs to a listed thread. */
  ghost predicate MessagesAreListed(threads: map<string, seq<Thread>>, messages: map<string, seq<Message>>)
  {
    forall tid :: tid in messages ==> Listed(threads, tid)
  }

  /** No thread id is listed twice, under one assistant or two. */
  ghost predicate UniqueThreadIds(threads: map<string, seq<Thread>>)
  {
    forall a1, i, a2, j ::
      (a1 in threads && a2 in threads && 0 <= i < |threads[a1]| && 0 <= j < |threads[a2]|
       && threads[a1][i].id == threads[a2][j].id) ==> a1 == a2 && i == j
  }

  ghost predicate Consistent(s: AppState)
  {
    && ListedHaveMessages(s.threads, s.messages)
    && MessagesAreListed(s.threads, s.messages)
    && UniqueThreadIds(s.threads)
  }

  lemma InitialConsistent()
    ensures Consistent(Initial)
  {
  }

  // ---------------------------------------------------------------------
  // Creating and selecting assistants

  datatype ProviderChoice = ChooseGemini | ChooseOpenAi

  /** `handleCreateAssistant`. A chat-backend assistant is admitted at once
      with the default model; an agent-backend one only when provisioning
      (`remote`) succeeded, with the remote record's fields. The new
      assistant is appended and selected and the thread selection cleared;
      a failed provisioning only sets the error banner. */
  function CreateAssistant(s: AppState, name: string, instructions: string, provider: ProviderChoice,
                           now: nat, remote: Remote<Provisioned>): (r: AppState)
    ensures r.threads == s.threads && r.messages == s.messages && r.isStreaming == s.isStreaming
    ensures provider == ChooseOpenAi && remote.Threw? ==>
              r == s.(error := Some(BannerText(remote.error, UnknownError)))
    ensures provider == ChooseGemini ==>
              r.assistants == s.assistants + [Assistant(GeminiAssistantId(now), name, instructions, DefaultGeminiModel, now, Gemini)]
    ensures provider == ChooseOpenAi && remote.Returned? ==>
              var ra := remote.value.assistant;
              r.assistants == s.assistants
                + [Assistant(OpenAiAssistantId(now), ra.name, ra.instructions, ra.model, ra.createdAt,
                             OpenAi(ra.id, remote.value.vectorStoreId))]
    ensures provider == ChooseGemini || remote.Returned? ==>
              && |r.assistants| == |s.assistants| + 1
              && r.selectedAssistantId == Some(r.assistants[|s.assistants|].id)
              && r.selectedThreadId == None
              && r.error == None
  {
    match provider
    case ChooseGemini =>
      var a := Assistant(GeminiAssistantId(now), name, instructions, DefaultGeminiModel, now, Gemini);
      s.(assistants := s.assistants + [a], selectedAssistantId := Some(a.id), selectedThreadId := None, error := None)
    case ChooseOpenAi =>
      match remote
      case Threw(e) => s.(error := Some(BannerText(e, UnknownError)))
      case Returned(Provisioned(ra, storeId)) =>
        var a := Assistant(OpenAiAssistantId(now), ra.name, ra.instructions, ra.model, ra.createdAt,
                           OpenAi(ra.id, storeId));
        s.(assistants := s.assistants + [a], selectedAssistantId := Some(a.id), selectedThreadId := None, error := None)
  }

  /** `handleSelectAssistant`: selects the id and always clears the thread,
      even when the same assistant is selected again. */
  function SelectAssistant(s: AppState, id: string): (r: AppState)
    ensures r.selectedAssistantId == Some(id) && r.selectedThreadId == None
    ensures r.assistants == s.assistants && r.threads == s.threads && r.messages == s.messages
    ensures r.isStreaming == s.isStreaming && r.error == s.error
  {
    s.(selectedAssistantId := Some(id), selectedThreadId := None)
  }

  /** Selecting a thread is a plain setter of the selection: the assistant
      selection, the lists and the flags are left alone. */
  function SelectThread(s: AppState, id: string): (r: AppState)
    ensures r.selectedThreadId == Some(id) && r.selectedAssistantId == s.selectedAssistantId
    ensures r.assistants == s.assistants && r.threads == s.threads && r.messages == s.messages
    ensures r.isStreaming == s.isStreaming && r.error == s.error
  {
    s.(selectedThreadId := Some(id))
  }

  /** The fields an update may carry. */
  datatype AssistantUpdate = AssistantUpdate(name: Option<string>, instructions: Option<string>, model: Option<string>)

  function ApplyUpdate(a: Assistant, u: AssistantUpdate): Assistant
  {
    a.(name := u.name.GetOr(a.name), instructions := u.instructions.GetOr(a.instructions),
       model := u.model.GetOr(a.model))
  }

  /** The remote instruction update the handler fires without awaiting it. */
  datatype InstructionPush = InstructionPush(remoteAssistantId: string, instructions: string)

  datatype Updated = Updated(state: AppState, push: Option<InstructionPush>)

  /** `handleUpdateAssistant`: every assistant with the id gets the given
      fields. The remote push is decided by the assistant selected before
      the update, not by `id`: it is sent iff that one is an agent-backend
      assistant and the update carries non-empty instructions. */
  function UpdateAssistant(s: AppState, id: string, u: AssistantUpdate): (r: Updated)
    ensures |r.state.assistants| == |s.assistants|
    ensures forall i :: 0 <= i < |s.assistants| ==>
              r.state.assistants[i] == if s.assistants[i].id == id then ApplyUpdate(s.assistants[i], u) else s.assistants[i]
    ensures forall i :: 0 <= i < |s.assistants| ==> r.state.assistants[i].provider == s.assistants[i].provider
    ensures r.state.threads == s.threads && r.state.messages == s.messages
    ensures r.state.selectedAssistantId == s.selectedAssistantId && r.state.selectedThreadId == s.selectedThreadId
    ensures r.state.isStreaming == s.isStreaming && r.state.error == s.error
    ensures r.push.Some? <==>
              SelectedAssistant(s).Some? && SelectedAssistant(s).value.provider.OpenAi? && Truthy(u.instructions)
    ensures r.push.Some? ==>
              r.push.value == InstructionPush(SelectedAssistant(s).value.provider.remoteAssistantId, u.instructions.value)
  {
    var list := seq(|s.assistants|, i requires 0 <= i < |s.assistants| =>
      if s.assistants[i].id == id then ApplyUpdate(s.assistants[i], u) else s.assistants[i]);
    var sel := SelectedAssistant(s);
    var push := if sel.Some? && sel.value.provider.OpenAi? && Truthy(u.instructions)
                then Some(InstructionPush(sel.value.provider.remoteAssistantId, u.instructions.value)) else None;
    Updated(s.(assistants := list), push)
  }

  /** Applying the same update twice is applying it once, and the remote
      push it asks for is the same both times. */
  lemma UpdateAssistantIdempotent(s: AppState, id: string, u: AssistantUpdate)
    ensures var once := UpdateAssistant(s, id, u);
            var twice := UpdateAssistant(once.state, id, u);
            twice.state == once.state && twice.push == once.push
  {
    var once := UpdateAssistant(s, id, u);
    var twice := UpdateAssistant(once.state, id, u);
    forall i | 0 <= i < |s.assistants| ensures twice.state.assistants[i] == once.state.assistants[i] {
      if s.assistants[i].id == id {
        assert once.state.assistants[i] == ApplyUpdate(s.assistants[i], u);
      }
    }
    assert twice.state.assistants == once.state.assistants;
    if s.selectedAssistantId.Some? {
      FindAfterUpdate(s.assistants, once.state.assistants, s.selectedAssistantId.value, id, u);
    }
  }

  /** Finding by id in the updated list finds the updated entry. */
  lemma {:induction false} FindAfterUpdate(list: seq<Assistant>, updated: seq<Assistant>, key: string, id: string,
                                          u: AssistantUpdate)
    requires |updated| == |list|
    requires forall i :: 0 <= i < |list| ==>
               updated[i] == if list[i].id == id then ApplyUpdate(list[i], u) else list[i]
    ensures FindAssistant(updated, key).Some? <==> FindAssistant(list, key).Some?
    ensures FindAssistant(list, key).Some? ==>
              FindAssistant(updated, key).value.provider == FindAssistant(list, key).value.provider
  {
    if |list| > 0 {
      FindAfterUpdate(list[1..], updated[1..], key, id, u);
    }
  }

  // ---------------------------------------------------------------------
  // Deleting assistants

  /** The assistant list without any entry carrying `id`, order kept. */
  function RemoveAssistant(list: seq<Assistant>, id: string): (r: seq<Assistant>)
    ensures forall a :: a in r <==> a in list && a.id != id
  {
    WithoutMembers(list, (a: Assistant) => a.id == id);
    Without(list, (a: Assistant) => a.id == id)
  }

  /** `handleDeleteAssistant`. An unknown id changes nothing. For an
      agent-backend assistant the remote deletion (`remote`) runs first, and
      if it fails only the error banner changes. Otherwise the assistant,
      its thread list and the message list of each of its threads go, and
      the selections are cleared iff it was the selected assistant. */
  function DeleteAssistant(s: AppState, id: string, remote: Outcome): (r: AppState)
    ensures FindAssistant(s.assistants, id).None? ==> r == s
    ensures FindAssistant(s.assistants, id).Some? && FindAssistant(s.assistants, id).value.provider.OpenAi?
            && remote.Raised? ==>
              r == s.(error := Some(BannerText(remote.error, UnknownDeletionError)))
    ensures FindAssistant(s.assistants, id).Some? && (FindAssistant(s.assistants, id).value.provider.Gemini? || remote.Completed?) ==>
              && r.assistants == RemoveAssistant(s.assistants, id)
              && (forall a :: a in r.assistants <==> a in s.assistants && a.id != id)
              && r.threads.Keys == s.threads.Keys - {id}
              && (forall aid :: aid in r.threads ==> r.threads[aid] == s.threads[aid])
              && r.messages.Keys == s.messages.Keys - ThreadIds(ThreadsOf(s, id))
              && (forall tid :: tid in r.messages ==> r.messages[tid] == s.messages[tid])
              && (s.selectedAssistantId == Some(id) ==> r.selectedAssistantId == None && r.selectedThreadId == None)
              && (s.selectedAssistantId != Some(id) ==>
                    r.selectedAssistantId == s.selectedAssistantId && r.selectedThreadId == s.selectedThreadId)
              && r.error == None && r.isStreaming == s.isStreaming
  {
    match FindAssistant(s.assistants, id)
    case None => s
    case Some(a) =>
      if a.provider.OpenAi? && remote.Raised? then
        s.(error := Some(BannerText(remote.error, UnknownDeletionError)))
      else
        var wasSelected := s.selectedAssistantId == Some(id);
        s.(assistants := RemoveAssistant(s.assistants, id),
           threads := s.threads - {id},
           messages := s.messages - ThreadIds(ThreadsOf(s, id)),
           selectedAssistantId := if wasSelected then None else s.selectedAssistantId,
           selectedThreadId := if wasSelected then None else s.selectedThreadId,
           error := None)
  }

  // ---------------------------------------------------------------------
  // Creating and deleting threads

  /** `handleCreateThread`. Without a selected assistant nothing happens. For
      an agent-backend assistant the remote thread (`remote`) must be
      created first; its failure only sets the banner. Otherwise the new
      thread is appended to the selected assistant's list, gets an empty
      message list and is selected. */
  function CreateThread(s: AppState, now: nat, clockText: string, remote: Remote<string>): (r: AppState)
    ensures !Truthy(s.selectedAssistantId) || SelectedAssistant(s).None? ==> r == s
    ensures Truthy(s.selectedAssistantId) && SelectedAssistant(s).Some? && SelectedAssistant(s).value.provider.OpenAi?
            && remote.Threw? ==>
              r == s.(error := Some(BannerText(remote.error, UnknownError)))
    ensures Truthy(s.selectedAssistantId) && SelectedAssistant(s).Some?
            && (SelectedAssistant(s).value.provider.Gemini? || remote.Returned?) ==>
              var aid := s.selectedAssistantId.value;
              var t := Thread(ThreadId(now), "New Chat " + clockText, now,
                              if SelectedAssistant(s).value.provider.OpenAi? then Some(remote.value) else None);
              && r.threads == s.threads[aid := ThreadsOf(s, aid) + [t]]
              && r.messages.Keys == s.messages.Keys + {t.id}
              && r.messages[t.id] == []
              && (forall tid :: tid in s.messages && tid != t.id ==> r.messages[tid] == s.messages[tid])
              && r.selectedThreadId == Some(t.id)
              && r.assistants == s.assistants && r.selectedAssistantId == s.selectedAssistantId
              && r.error == None && r.isStreaming == s.isStreaming
  {
    if !Truthy(s.selectedAssistantId) || SelectedAssistant(s).None? then s
    else
      var aid := s.selectedAssistantId.value;
      var asst := SelectedAssistant(s).value;
      if asst.provider.OpenAi? && remote.Threw? then
        s.(error := Some(BannerText(remote.error, UnknownError)))
      else
        var t := Thread(ThreadId(now), "New Chat " + clockText, now,
                        if asst.provider.OpenAi? then Some(remote.value) else None);
        s.(threads := s.threads[aid := ThreadsOf(s, aid) + [t]],
           messages := s.messages[t.id := []],
           selectedThreadId := Some(t.id),
           error := None)
  }

  /** The thread list without any thread carrying `id`, order kept. */
  function RemoveThread(list: seq<Thread>, id: string): (r: seq<Thread>)
    ensures forall t :: t in r <==> t in list && t.id != id
  {
    WithoutMembers(list, (t: Thread) => t.id == id);
    Without(list, (t: Thread) => t.id == id)
  }

  /** `handleDeleteThread`. Without a selected assistant nothing happens.
      Otherwise the thread leaves the selected assistant's list only (other
      assistants' lists are not searched), its message list is dropped, and
      the thread selection is cleared iff it was this thread. */
  function DeleteThread(s: AppState, threadId: string): (r: AppState)
    ensures !Truthy(s.selectedAssistantId) ==> r == s
    ensures Truthy(s.selectedAssistantId) ==>
              var aid := s.selectedAssistantId.value;
              && r.threads.Keys == s.threads.Keys + {aid}
              && r.threads[aid] == RemoveThread(ThreadsOf(s, aid), threadId)
              && (forall t :: t in r.threads[aid] <==> t in ThreadsOf(s, aid) && t.id != threadId)
              && (forall other :: other in s.threads && other != aid ==> r.threads[other] == s.threads[other])
              && r.messages.Keys == s.messages.Keys - {threadId}
              && (forall tid :: tid in r.messages ==> r.messages[tid] == s.messages[tid])
              && (r.selectedThreadId == None <==> s.selectedThreadId == Some(threadId) || s.selectedThreadId == None)
              && (s.selectedThreadId != Some(threadId) ==> r.selectedThreadId == s.selectedThreadId)
              && r.assistants == s.assistants && r.selectedAssistantId == s.selectedAssistantId
              && r.error == s.error && r.isStreaming == s.isStreaming
  {
    if !Truthy(s.selectedAssistantId) then s
    else
      var aid := s.selectedAssistantId.value;
      s.(threads := s.threads[aid := RemoveThread(ThreadsOf(s, aid), threadId)],
         messages := s.messages - {threadId},
         selectedThreadId := if s.selectedThreadId == Some(threadId) then None else s.selectedThreadId)
  }

  // ---------------------------------------------------------------------
  // Sending a message and accumulating the reply

  /** The guard of `handleSendMessage`: a thread is selected, the selected
      assistant exists, the selected thread is in that assistant's list, and
      no stream is in flight anywhere (one flag for the whole application). */
  predicate SendAccepted(s: AppState)
  {
    && Truthy(s.selectedThreadId)
    && SelectedAssistant(s).Some?
    && FindThread(CurrentThreads(s), s.selectedThreadId.value).Some?
    && !s.isStreaming
  }

  /** What the adapter is asked for: the chat backend gets a model (absent
      when the caller passes none), the assistant's instructions and the
      thread's messages before this send; the agent backend gets the remote
      thread and assistant ids. */
  datatype StreamRequest =
    | ChatRequest(model: Option<string>, instructions: string, history: seq<Message>, text: string)
    | RunRequest(remoteThreadId: Option<string>, remoteAssistantId: string, text: string)

  /** What the adapter delivers: its fragments in order, then possibly an
      exception escaping it. */
  datatype Delivery = Delivery(chunks: seq<string>, thrown: Option<Thrown>)

  /** Appends `chunk` to every message carrying `id`. */
  function AppendChunk(ms: seq<Message>, id: string, chunk: string): seq<Message>
  {
    seq(|ms|, i requires 0 <= i < |ms| =>
      if ms[i].id == id then ms[i].(content := ms[i].content + chunk) else ms[i])
  }

  /** The `for await` loop: each chunk, in order, appended to the messages
      carrying `id`. */
  function Accumulate(ms: seq<Message>, id: string, chunks: seq<string>): seq<Message>
    decreases |chunks|
  {
    if |chunks| == 0 then ms else Accumulate(AppendChunk(ms, id, chunks[0]), id, chunks[1..])
  }

  /** Accumulating appends the concatenation of all chunks to exactly the
      messages carrying `id`; every other message is untouched. */
  lemma {:induction false} AccumulateAppendsConcat(ms: seq<Message>, id: string, chunks: seq<string>)
    ensures |Accumulate(ms, id, chunks)| == |ms|
    ensures forall i :: 0 <= i < |ms| ==>
              Accumulate(ms, id, chunks)[i]
              == if ms[i].id == id then ms[i].(content := ms[i].content + Concat(chunks)) else ms[i]
    decreases |chunks|
  {
    if |chunks| > 0 {
      var next := AppendChunk(ms, id, chunks[0]);
      AccumulateAppendsConcat(next, id, chunks[1..]);
      forall i | 0 <= i < |ms| && ms[i].id == id
        ensures Accumulate(ms, id, chunks)[i] == ms[i].(content := ms[i].content + Concat(chunks))
      {
        assert next[i].content + Concat(chunks[1..]) == ms[i].content + (chunks[0] + Concat(chunks[1..]));
      }
    }
  }

  /** Replaces the content of every message carrying `id`. */
  function SetContent(ms: seq<Message>, id: string, content: string): seq<Message>
  {
    seq(|ms|, i requires 0 <= i < |ms| => if ms[i].id == id then ms[i].(content := content) else ms[i])
  }

  /** The state right after an accepted send started: the user message and
      the empty reply placeholder appended, streaming on, banner cleared. */
  function BeginSend(s: AppState, content: string, now: nat): (r: AppState)
    requires SendAccepted(s)
    ensures var tid := s.selectedThreadId.value;
            && r.messages == s.messages[tid := MessagesOf(s, tid)
                 + [Message(UserMessageId(now), UserRole, content, now),
                    Message(ReplyMessageId(now), AssistantRole, "", now + 1)]]
            && r.isStreaming && r.error == None
            && r.assistants == s.assistants && r.threads == s.threads
            && r.selectedAssistantId == s.selectedAssistantId && r.selectedThreadId == s.selectedThreadId
  {
    var tid := s.selectedThreadId.value;
    var history := MessagesOf(s, tid);
    var userMessage := Message(UserMessageId(now), UserRole, content, now);
    var s1 := s.(messages := s.messages[tid := history + [userMessage]], isStreaming := true, error := None);
    var placeholder := Message(ReplyMessageId(now), AssistantRole, "", now + 1);
    assert MessagesOf(s1, tid) + [placeholder] == history + [userMessage, placeholder];
    s1.(messages := s1.messages[tid := MessagesOf(s1, tid) + [placeholder]])
  }

  /** Folds the delivered chunks into the placeholder; on an exception, the
      placeholder shows the error and the banner is set; streaming ends in
      every case. */
  function FinishSend(s: AppState, tid: string, replyId: string, d: Delivery): (r: AppState)
    ensures r.assistants == s.assistants && r.threads == s.threads
    ensures r.selectedAssistantId == s.selectedAssistantId && r.selectedThreadId == s.selectedThreadId
    ensures !r.isStreaming
    ensures r.messages.Keys == s.messages.Keys + {tid}
    ensures forall k :: k in s.messages && k != tid ==> r.messages[k] == s.messages[k]
    ensures d.thrown.None? ==> r.error == s.error
    ensures d.thrown.Some? ==> r.error == Some(BannerText(d.thrown.value, UnknownError))
  {
    var streamed := s.(messages := s.messages[tid := Accumulate(MessagesOf(s, tid), replyId, d.chunks)]);
    var settled :=
      match d.thrown
      case None => streamed
      case Some(e) =>
        var msg := BannerText(e, UnknownError);
        streamed.(error := Some(msg),
                  messages := streamed.messages[tid := SetContent(MessagesOf(streamed, tid), replyId, "Error: " + msg)]);
    settled.(isStreaming := false)
  }

  datatype Sent = Sent(state: AppState, request: Option<StreamRequest>)

  /** The adapter request of an accepted send, with the chat session
      created for the selected assistant's own model. */
  function RequestFor(s: AppState, content: string): (r: StreamRequest)
    requires SendAccepted(s)
    ensures r.text == content
    ensures r.ChatRequest? <==> SelectedAssistant(s).value.provider.Gemini?
    ensures r.ChatRequest? ==>
              && r.model == Some(SelectedAssistant(s).value.model)
              && r.instructions == SelectedAssistant(s).value.instructions
              && r.history == MessagesOf(s, s.selectedThreadId.value)
    ensures r.RunRequest? ==>
              && r.remoteAssistantId == SelectedAssistant(s).value.provider.remoteAssistantId
              && r.remoteThreadId == FindThread(CurrentThreads(s), s.selectedThreadId.value).value.remoteThreadId
  {
    var asst := SelectedAssistant(s).value;
    var tid := s.selectedThreadId.value;
    match asst.provider
    case Gemini => ChatRequest(Some(asst.model), asst.instructions, MessagesOf(s, tid), content)
    case OpenAi(remoteAssistantId, _) =>
      RunRequest(FindThread(CurrentThreads(s), tid).value.remoteThreadId, remoteAssistantId, content)
  }

  /** The request as the handler builds it: `createChat` is called with the
      instructions and the history only, so its `model` parameter is
      undefined. */
  function RequestAsWritten(s: AppState, content: string): (r: StreamRequest)
    requires SendAccepted(s)
    ensures r.text == content
    ensures r.ChatRequest? <==> SelectedAssistant(s).value.provider.Gemini?
    ensures r.ChatRequest? ==>
              && r.model == None
              && r.instructions == SelectedAssistant(s).value.instructions
              && r.history == MessagesOf(s, s.selectedThreadId.value)
    ensures r.RunRequest? ==>
              && r.remoteAssistantId == SelectedAssistant(s).value.provider.remoteAssistantId
              && r.remoteThreadId == FindThread(CurrentThreads(s), s.selectedThreadId.value).value.remoteThreadId
  {
    var asst := SelectedAssistant(s).value;
    var tid := s.selectedThreadId.value;
    match asst.provider
    case Gemini => ChatRequest(None, asst.instructions, MessagesOf(s, tid), content)
    case OpenAi(remoteAssistantId, _) =>
      RunRequest(FindThread(CurrentThreads(s), tid).value.remoteThreadId, remoteAssistantId, content)
  }

  /** Every accepted send to a chat-backend assistant opens its session
      without a model, although the assistant record names one; the two
      builders differ exactly there. */
  lemma AsWrittenChatLacksModel(s: AppState, content: string)
    requires SendAccepted(s) && SelectedAssistant(s).value.provider.Gemini?
    ensures RequestAsWritten(s, content).model == None
    ensures RequestFor(s, content).model == Some(SelectedAssistant(s).value.model)
    ensures RequestAsWritten(s, content) == RequestFor(s, content).(model := None)
  {
  }

  /** A concrete instance: the assistant made by the create handler carries
      the default model, which its first chat never receives. */
  lemma AsWrittenChatExample()
    ensures var a := Assistant("asst_gemini_1", "Helper", "Be brief.", DefaultGeminiModel, 1, Gemini);
            var t := Thread("thread_2", "New Chat", 2, None);
            var s := AppState([a], map["asst_gemini_1" := [t]], map["thread_2" := []],
                              Some("asst_gemini_1"), Some("thread_2"), false, None);
            && SendAccepted(s)
            && RequestAsWritten(s, "hi") == ChatRequest(None, "Be brief.", [], "hi")
            && RequestFor(s, "hi") == ChatRequest(Some(DefaultGeminiModel), "Be brief.", [], "hi")
  {
    var a := Assistant("asst_gemini_1", "Helper", "Be brief.", DefaultGeminiModel, 1, Gemini);
    var t := Thread("thread_2", "New Chat", 2, None);
    var s := AppState([a], map["asst_gemini_1" := [t]], map["thread_2" := []],
                      Some("asst_gemini_1"), Some("thread_2"), false, None);
    assert FindAssistant(s.assistants, "asst_gemini_1") == Some(a);
    assert CurrentThreads(s) == [t];
    assert FindThread([t], "thread_2") == Some(t);
  }

  /** `handleSendMessage`: a rejected send changes nothing and asks nothing;
      an accepted one issues the request as the handler builds it, streams
      the delivery into the placeholder and settles. */
  function SendMessage(s: AppState, content: string, now: nat, d: Delivery): (r: Sent)
    ensures !SendAccepted(s) ==> r.state == s && r.request.None?
    ensures SendAccepted(s) ==> r.request == Some(RequestAsWritten(s, content))
    ensures SendAccepted(s) ==>
              && !r.state.isStreaming
              && r.state.assistants == s.assistants && r.state.threads == s.threads
              && r.state.selectedAssistantId == s.selectedAssistantId
              && r.state.selectedThreadId == s.selectedThreadId
              && r.state.messages.Keys == s.messages.Keys + {s.selectedThreadId.value}
              && (forall k :: k in s.messages && k != s.selectedThreadId.value ==> r.state.messages[k] == s.messages[k])
              && (r.state.error.Some? <==> d.thrown.Some?)
              && (d.thrown.Some? ==> r.state.error == Some(BannerText(d.thrown.value, UnknownError)))
  {
    if !SendAccepted(s) then Sent(s, None)
    else
      var tid := s.selectedThreadId.value;
      Sent(FinishSend(BeginSend(s, content, now), tid, ReplyMessageId(now), d), Some(RequestAsWritten(s, content)))
  }

  /** The reply id is fresh in the thread being written to. */
  predicate FreshReplyId(s: AppState, now: nat)
    requires Truthy(s.selectedThreadId)
  {
    forall i :: 0 <= i < |MessagesOf(s, s.selectedThreadId.value)| ==>
      MessagesOf(s, s.selectedThreadId.value)[i].id != ReplyMessageId(now)
  }

  /** An accepted send leaves the thread's earlier messages as they were and
      appends exactly two: the user message with the given content, then the
      assistant reply whose content is the in-order concatenation of every
      chunk, or "Error: " and the banner text when the adapter threw. */
  lemma SendAppendsExchange(s: AppState, content: string, now: nat, d: Delivery)
    requires SendAccepted(s) && FreshReplyId(s, now)
    ensures var tid := s.selectedThreadId.value;
            var reply := if d.thrown.Some? then "Error: " + BannerText(d.thrown.value, UnknownError)
                         else Concat(d.chunks);
            SendMessage(s, content, now, d).state.messages[tid]
            == MessagesOf(s, tid)
               + [Message(UserMessageId(now), UserRole, content, now),
                  Message(ReplyMessageId(now), AssistantRole, reply, now + 1)]
  {
    var tid := s.selectedThreadId.value;
    var history := MessagesOf(s, tid);
    var replyId := ReplyMessageId(now);
    var user := Message(UserMessageId(now), UserRole, content, now);
    var placeholder := Message(replyId, AssistantRole, "", now + 1);
    var started := history + [user, placeholder];
    SendIdsDiffer(now);
    AccumulateAppendsConcat(started, replyId, d.chunks);
    var streamed := Accumulate(started, replyId, d.chunks);
    var filled := history + [user, placeholder.(content := Concat(d.chunks))];
    forall i | 0 <= i < |started| ensures streamed[i] == filled[i] {
      if i < |history| { assert started[i] == history[i]; }
    }
    assert streamed == filled;
    if d.thrown.Some? {
      var msg := BannerText(d.thrown.value, UnknownError);
      var shown := SetContent(streamed, replyId, "Error: " + msg);
      var failed := history + [user, placeholder.(content := "Error: " + msg)];
      forall i | 0 <= i < |streamed| ensures shown[i] == failed[i] {
        if i < |history| { assert streamed[i] == history[i]; }
      }
      assert shown == failed;
    }
  }

  /** The streaming flag is one for the whole application: while a reply
      streams, a send is ignored and asks for nothing, whichever thread the
      user has switched to in the meantime. */
  lemma SendWhileStreamingIgnored(s: AppState, content: string, now: nat, other: string,
                                  later: string, now2: nat, d: Delivery)
    requires SendAccepted(s)
    ensures var started := BeginSend(s, content, now);
            && SendMessage(started, later, now2, d) == Sent(started, None)
            && SendMessage(SelectThread(started, other), later, now2, d) == Sent(SelectThread(started, other), None)
    ensures forall t: AppState :: t.isStreaming ==> SendMessage(t, later, now2, d) == Sent(t, None)
  {
  }

  /** The chat adapter catches a backend failure and yields it as one last
      fragment, so the handler sees no exception: the reply holds all the
      chunk text followed by the adapter's error text, and the banner stays
      clear. */
  lemma ChatFailureStaysInBand(s: AppState, content: string, now: nat,
                               chunks: seq<GeminiService.Chunk>, e: Thrown)
    requires SendAccepted(s) && FreshReplyId(s, now)
    ensures var tid := s.selectedThreadId.value;
            var d := Delivery(GeminiService.StreamFragments(chunks, Some(e)), None);
            var r := SendMessage(s, content, now, d).state;
            && r.error == None
            && r.messages[tid]
               == MessagesOf(s, tid)
                  + [Message(UserMessageId(now), UserRole, content, now),
                     Message(ReplyMessageId(now), AssistantRole,
                             Concat(GeminiService.AllTexts(chunks)) + (GeminiService.ErrorPrefix + Details(e)), now + 1)]
  {
    var d := Delivery(GeminiService.StreamFragments(chunks, Some(e)), None);
    SendAppendsExchange(s, content, now, d);
    GeminiService.StreamSpells(chunks, Some(e));
  }

  /** Likewise for the agent adapter: a failed message append becomes the
      whole reply text, and the banner stays clear. */
  lemma RunFailureStaysInBand(s: AppState, content: string, now: nat, threadId: string, assistantId: string,
                              e: Thrown, events: seq<OpenAiService.RunEvent>, thrown: Option<Thrown>)
    requires SendAccepted(s) && FreshReplyId(s, now)
    ensures var tid := s.selectedThreadId.value;
            var response := OpenAiService.StreamResponse(threadId, assistantId, content, Raised(e), events, thrown);
            var r := SendMessage(s, content, now, Delivery(response.fragments, None)).state;
            && r.error == None
            && r.messages[tid]
               == MessagesOf(s, tid)
                  + [Message(UserMessageId(now), UserRole, content, now),
                     Message(ReplyMessageId(now), AssistantRole, OpenAiService.ExceptionFragment(e), now + 1)]
  {
    var response := OpenAiService.StreamResponse(threadId, assistantId, content, Raised(e), events, thrown);
    SendAppendsExchange(s, content, now, Delivery(response.fragments, None));
    var fragment := OpenAiService.ExceptionFragment(e);
    assert response.fragments == [fragment];
    assert [fragment][1..] == [];
    assert Concat([fragment]) == fragment + Concat([]);
    assert fragment + "" == fragment;
    assert Concat(response.fragments) == fragment;
  }

  // ---------------------------------------------------------------------
  // Consistency is preserved

  lemma CreateAssistantKeepsConsistency(s: AppState, name: string, instructions: string, provider: ProviderChoice,
                                        now: nat, remote: Remote<Provisioned>)
    requires Consistent(s)
    ensures Consistent(CreateAssistant(s, name, instructions, provider, now, remote))
  {
  }

  /** A new thread keeps the store consistent when its id is fresh. */
  lemma CreateThreadKeepsConsistency(s: AppState, now: nat, clockText: string, remote: Remote<string>)
    requires Consistent(s) && ThreadId(now) !in s.messages
    ensures Consistent(CreateThread(s, now, clockText, remote))
  {
    var r := CreateThread(s, now, clockText, remote);
    if Truthy(s.selectedAssistantId) && SelectedAssistant(s).Some?
       && (SelectedAssistant(s).value.provider.Gemini? || remote.Returned?) {
      var aid := s.selectedAssistantId.value;
      var before := ThreadsOf(s, aid);
      var tid := ThreadId(now);
      assert !Listed(s.threads, tid);
      assert |r.threads[aid]| == |before| + 1 && r.threads[aid][|before|].id == tid;
      forall a, i | a in r.threads && 0 <= i < |r.threads[a]| ensures r.threads[a][i].id in r.messages {
        if a == aid && i < |before| { assert r.threads[a][i] == s.threads[a][i]; }
      }
      forall k | k in r.messages ensures Listed(r.threads, k) {
        if k == tid {
          assert r.threads[aid][|before|].id == tid;
        } else {
          var a, i :| a in s.threads && 0 <= i < |s.threads[a]| && s.threads[a][i].id == k;
          if a == aid { assert r.threads[a][i] == s.threads[a][i]; } else { assert r.threads[a] == s.threads[a]; }
        }
      }
      forall a1, i, a2, j | a1 in r.threads && a2 in r.threads && 0 <= i < |r.threads[a1]| && 0 <= j < |r.threads[a2]|
          && r.threads[a1][i].id == r.threads[a2][j].id
        ensures a1 == a2 && i == j
      {
        var new1 := a1 == aid && i == |before|;
        var new2 := a2 == aid && j == |before|;
        if !new1 { assert r.threads[a1][i] == s.threads[a1][i]; }
        if !new2 { assert r.threads[a2][j] == s.threads[a2][j]; }
      }
    }
  }

  /** Deleting a thread keeps the store consistent when no other assistant
      lists it (the thread panel only offers the current assistant's). */
  lemma DeleteThreadKeepsConsistency(s: AppState, threadId: string)
    requires Consistent(s)
    requires Truthy(s.selectedAssistantId) ==>
               forall a, i :: a in s.threads && a != s.selectedAssistantId.value && 0 <= i < |s.threads[a]|
                 ==> s.threads[a][i].id != threadId
    ensures Consistent(DeleteThread(s, threadId))
  {
    if Truthy(s.selectedAssistantId) {
      var aid := s.selectedAssistantId.value;
      var kept := RemoveThread(ThreadsOf(s, aid), threadId);
      assert forall t :: t in kept <==> t in ThreadsOf(s, aid) && t.id != threadId;
      assert DistinctIds(ThreadsOf(s, aid)) by {
        if aid in s.threads {
          forall i, j | 0 <= i < |s.threads[aid]| && 0 <= j < |s.threads[aid]| && s.threads[aid][i].id == s.threads[aid][j].id
            ensures i == j
          {
          }
        }
      }
      RemoveThreadUnique(ThreadsOf(s, aid), threadId);
      FilteredListHasMessages(s.threads, s.messages, aid, kept, threadId);
      FilteredMessagesListed(s.threads, s.messages, aid, kept, threadId);
      FilteredIdsUnique(s.threads, aid, kept);
    }
  }

  lemma FilteredListHasMessages(threads: map<string, seq<Thread>>, messages: map<string, seq<Message>>,
                                aid: string, kept: seq<Thread>, threadId: string)
    requires ListedHaveMessages(threads, messages)
    requires forall t :: t in kept ==> aid in threads && t in threads[aid] && t.id != threadId
    requires forall a, i :: a in threads && a != aid && 0 <= i < |threads[a]| ==> threads[a][i].id != threadId
    ensures ListedHaveMessages(threads[aid := kept], messages - {threadId})
  {
    var r: map<string, seq<Thread>> := threads[aid := kept];
    forall a, i | a in r && 0 <= i < |r[a]| ensures r[a][i].id in messages - {threadId} {
      if a == aid {
        assert kept[i] in kept;
        var j :| 0 <= j < |threads[aid]| && threads[aid][j] == kept[i];
      }
    }
  }

  lemma FilteredMessagesListed(threads: map<string, seq<Thread>>, messages: map<string, seq<Message>>,
                               aid: string, kept: seq<Thread>, threadId: string)
    requires MessagesAreListed(threads, messages)
    requires forall t :: t in kept <==> (aid in threads && t in threads[aid] && t.id != threadId)
    ensures MessagesAreListed(threads[aid := kept], messages - {threadId})
  {
    var r: map<string, seq<Thread>> := threads[aid := kept];
    forall k | k in messages - {threadId} ensures Listed(r, k) {
      var a, i :| a in threads && 0 <= i < |threads[a]| && threads[a][i].id == k;
      if a == aid {
        assert threads[a][i] in kept;
        var j :| 0 <= j < |kept| && kept[j] == threads[a][i];
        assert r[aid][j].id == k;
      } else {
        assert r[a][i].id == k;
      }
    }
  }

  lemma FilteredIdsUnique(threads: map<string, seq<Thread>>, aid: string, kept: seq<Thread>)
    requires UniqueThreadIds(threads)
    requires forall t :: t in kept ==> aid in threads && t in threads[aid]
    requires DistinctIds(kept)
    ensures UniqueThreadIds(threads[aid := kept])
  {
    var r: map<string, seq<Thread>> := threads[aid := kept];
    forall a1, i, a2, j | a1 in r && a2 in r && 0 <= i < |r[a1]| && 0 <= j < |r[a2]| && r[a1][i].id == r[a2][j].id
      ensures a1 == a2 && i == j
    {
      // each position of `r` comes from a position of `threads` under the
      // same assistant, and ids are unique there
      var i' := Origin(threads, aid, kept, a1, i);
      var j' := Origin(threads, aid, kept, a2, j);
      assert threads[a1][i'].id == threads[a2][j'].id;
    }
  }

  /** Where an entry of the filtered map sits in the original one. */
  lemma Origin(threads: map<string, seq<Thread>>, aid: string, kept: seq<Thread>, a: string, i: int) returns (i': int)
    requires forall t :: t in kept ==> aid in threads && t in threads[aid]
    requires a in threads[aid := kept] && 0 <= i < |threads[aid := kept][a]|
    ensures a in threads && 0 <= i' < |threads[a]| && threads[a][i'] == threads[aid := kept][a][i]
    ensures a != aid ==> i' == i
  {
    if a == aid {
      assert kept[i] in kept;
      i' :| 0 <= i' < |threads[aid]| && threads[aid][i'] == kept[i];
    } else {
      i' := i;
    }
  }

  function IdOf(t: Thread): string { t.id }

  /** No two threads of the list share an id. */
  ghost predicate DistinctIds(list: seq<Thread>)
  {
    KeysDistinct(list, IdOf)
  }

  /** Filtering a list whose ids are distinct leaves ids distinct. */
  lemma RemoveThreadUnique(list: seq<Thread>, threadId: string)
    requires DistinctIds(list)
    ensures DistinctIds(RemoveThread(list, threadId))
  {
    WithoutKeepsKeysDistinct(list, (t: Thread) => t.id == threadId, IdOf);
  }

  /** The id of a listed thread is among its list's ids. */
  lemma IdListed(list: seq<Thread>, i: int)
    requires 0 <= i < |list|
    ensures list[i].id in ThreadIds(list)
  {
    assert list[i] in list;
  }

  /** Under unique ids, a thread listed under one assistant has an id that
      no other assistant's list carries. */
  lemma IdNotListedElsewhere(threads: map<string, seq<Thread>>, a: string, i: int, b: string)
    requires UniqueThreadIds(threads) && a in threads && 0 <= i < |threads[a]| && a != b
    ensures threads[a][i].id !in ThreadIds(if b in threads then threads[b] else [])
  {
    var list := if b in threads then threads[b] else [];
    forall t | t in list ensures t.id != threads[a][i].id {
      var j :| 0 <= j < |list| && list[j] == t;
      assert threads[b][j] == t;
    }
  }

  /** Deleting an assistant keeps the store consistent: its threads and
      their message lists go together. */
  lemma DeleteAssistantKeepsConsistency(s: AppState, id: string, remote: Outcome)
    requires Consistent(s)
    ensures Consistent(DeleteAssistant(s, id, remote))
  {
    var r := DeleteAssistant(s, id, remote);
    if r.threads != s.threads {
      assert r.threads == s.threads - {id} && r.messages == s.messages - ThreadIds(ThreadsOf(s, id));
      CascadeKeepsConsistency(s.threads, s.messages, id);
    }
  }

  /** Dropping an assistant's thread list together with the message list of
      each of its threads leaves no list without its counterpart. */
  lemma CascadeKeepsConsistency(threads: map<string, seq<Thread>>, messages: map<string, seq<Message>>, id: string)
    requires ListedHaveMessages(threads, messages) && MessagesAreListed(threads, messages)
    requires UniqueThreadIds(threads)
    ensures var gone := ThreadIds(if id in threads then threads[id] else []);
            && ListedHaveMessages(threads - {id}, messages - gone)
            && MessagesAreListed(threads - {id}, messages - gone)
            && UniqueThreadIds(threads - {id})
  {
    var gone := ThreadIds(if id in threads then threads[id] else []);
    var rt: map<string, seq<Thread>> := threads - {id};
    var rm: map<string, seq<Message>> := messages - gone;
    forall a, i | a in rt && 0 <= i < |rt[a]| ensures rt[a][i].id in rm {
      IdNotListedElsewhere(threads, a, i, id);
    }
    forall k | k in rm ensures Listed(rt, k) {
      var a, i :| a in threads && 0 <= i < |threads[a]| && threads[a][i].id == k;
      IdListed(threads[a], i);
      assert a != id;
      assert rt[a][i].id == k;
    }
  }

  /** Selecting and updating touch neither thread lists nor message lists. */
  lemma SelectionsAndUpdatesKeepConsistency(s: AppState, assistantId: string, threadId: string, u: AssistantUpdate)
    requires Consistent(s)
    ensures Consistent(SelectAssistant(s, assistantId))
    ensures Consistent(SelectThread(s, threadId))
    ensures Consistent(UpdateAssistant(s, assistantId, u).state)
  {
  }

  /** Selecting an assistant clears the thread selection, so a send right
      after it is rejected and asks the adapters for nothing. */
  lemma SendAfterSelectIgnored(s: AppState, id: string, content: string, now: nat, d: Delivery)
    ensures var selected := SelectAssistant(s, id);
            SendMessage(selected, content, now, d) == Sent(selected, None)
  {
  }

  /** The agent-backend release feeding the delete handler: the assistant
      and its lists go iff every deletion the adapter issued completed, and
      otherwise the banner shows the failing deletion's error. */
  lemma AgentDeletionCascadesIffReleased(s: AppState, id: string, assistantDeletion: Outcome, storeDeletion: Outcome)
    requires FindAssistant(s.assistants, id).Some? && FindAssistant(s.assistants, id).value.provider.OpenAi?
    ensures var p := FindAssistant(s.assistants, id).value.provider;
            var release := OpenAiService.DeleteAssistant(p.remoteAssistantId, Some(p.vectorStoreId),
                                                         assistantDeletion, storeDeletion);
            var r := DeleteAssistant(s, id, release.outcome);
            && ((forall a :: a in r.assistants ==> a.id != id)
                <==> assistantDeletion.Completed? && (p.vectorStoreId == "" || storeDeletion.Completed?))
            && (r.error == None
                <==> assistantDeletion.Completed? && (p.vectorStoreId == "" || storeDeletion.Completed?))
            && (assistantDeletion.Raised? ==>
                  r.error == Some(BannerText(assistantDeletion.error, UnknownDeletionError)))
  {
    var a := FindAssistant(s.assistants, id).value;
    var release := OpenAiService.DeleteAssistant(a.provider.remoteAssistantId, Some(a.provider.vectorStoreId),
                                                 assistantDeletion, storeDeletion);
    var r := DeleteAssistant(s, id, release.outcome);
    if release.outcome.Raised? {
      assert a in r.assistants && a.id == id;
    }
  }

  /** The agent-backend provisioning feeding the create handler: an
      assistant is added iff both remote calls returned, and the record it
      adds names the remote assistant and the very store that assistant's
      file search was bound to. */
  lemma AgentCreationBindsStore(s: AppState, name: string, instructions: string, model: string, now: nat,
                                store: Remote<string>, created: Remote<RemoteAssistant>)
    ensures var p := OpenAiService.CreateAssistant(name, instructions, model, store, created);
            var r := CreateAssistant(s, name, instructions, ChooseOpenAi, now, p.result);
            && (|r.assistants| == |s.assistants| + 1 <==> store.Returned? && created.Returned?)
            && (store.Returned? && created.Returned? ==>
                  && r.assistants[|s.assistants|].provider == OpenAi(created.value.id, store.value)
                  && p.calls[1].vectorStoreIds == [r.assistants[|s.assistants|].provider.vectorStoreId]
                  && OpenAiService.FileSearch in p.calls[1].tools)
            && (store.Threw? ==> r == s.(error := Some(BannerText(store.error, UnknownError))))
            && (store.Returned? && created.Threw? ==>
                  r == s.(error := Some(BannerText(created.error, UnknownError))))
  {
  }

  /** A send rewrites only the message list of a thread that already has
      one, so the store stays consistent. */
  lemma SendKeepsConsistency(s: AppState, content: string, now: nat, d: Delivery)
    requires Consistent(s)
    ensures Consistent(SendMessage(s, content, now, d).state)
  {
    if SendAccepted(s) {
      SelectedThreadHasMessages(s);
      var r := SendMessage(s, content, now, d).state;
      assert r.messages.Keys == s.messages.Keys;
      SameListsKeepConsistency(s, r);
    }
  }

  /** A thread a send accepts is listed, so it already has a message list. */
  lemma SelectedThreadHasMessages(s: AppState)
    requires Consistent(s) && SendAccepted(s)
    ensures s.selectedThreadId.value in s.messages
  {
    var tid := s.selectedThreadId.value;
    var aid := s.selectedAssistantId.value;
    var t := FindThread(CurrentThreads(s), tid).value;
    var i :| 0 <= i < |s.threads[aid]| && s.threads[aid][i] == t;
  }

  /** Consistency speaks only of the thread lists and of which threads have
      message lists, not of what those lists hold. */
  lemma SameListsKeepConsistency(s: AppState, r: AppState)
    requires Consistent(s) && r.threads == s.threads && r.messages.Keys == s.messages.Keys
    ensures Consistent(r)
  {
  }
}

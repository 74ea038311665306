/** The agent-backend adapter (services/openAiService.ts). Every SDK request
    is recorded as a `RemoteCall`, in issue order; the backend's answers
    (ids, events, failures) are parameters. */
module OpenAiService {
  import opened Common
  import opened Text
  import opened Types
  import opened Lists

  datatype Tool = FileSearch | CodeInterpreter

  datatype RemoteCall =
    | CreateVectorStore(storeName: string)
    | CreateRemoteAssistant(name: string, instructions: string, model: string,
                            tools: seq<Tool>, vectorStoreIds: seq<string>)
    | DeleteRemoteAssistant(assistantId: string)
    | DeleteVectorStore(vectorStoreId: string)
    | AppendUserMessage(threadId: string, text: string)
    | StartRun(threadId: string, assistantId: string)

  // ---------------------------------------------------------------------
  // Assistant provisioning and release

  datatype Provisioning = Provisioning(calls: seq<RemoteCall>, result: Remote<Provisioned>)

  /** `createAssistant`: creates the knowledge store, then an assistant whose
      file search is bound to exactly that store. A failure of either call
      is rethrown unchanged; nothing is created after a failed store. */
  function CreateAssistant(name: string, instructions: string, model: string,
                           store: Remote<string>, created: Remote<RemoteAssistant>): (r: Provisioning)
    ensures |r.calls| >= 1 && r.calls[0] == CreateVectorStore(name + " Vector Store")
    ensures store.Threw? ==> r.calls == [CreateVectorStore(name + " Vector Store")] && r.result == Threw(store.error)
    ensures store.Returned? ==>
              && |r.calls| == 2
              && r.calls[1].CreateRemoteAssistant?
              && r.calls[1].name == name && r.calls[1].instructions == instructions && r.calls[1].model == model
              && r.calls[1].tools == [FileSearch, CodeInterpreter]
              && r.calls[1].vectorStoreIds == [store.value]
    ensures store.Returned? && created.Threw? ==> r.result == Threw(created.error)
    ensures r.result.Returned? <==> store.Returned? && created.Returned?
    ensures r.result.Returned? ==>
      r.result.value.vectorStoreId == store.value && r.result.value.assistant == created.value
  {
    var storeCall := CreateVectorStore(name + " Vector Store");
    match store
    case Threw(e) => Provisioning([storeCall], Threw(e))
    case Returned(storeId) =>
      var calls := [storeCall, CreateRemoteAssistant(name, instructions, model, [FileSearch, CodeInterpreter], [storeId])];
      match created
      case Threw(e) => Provisioning(calls, Threw(e))
      case Returned(a) => Provisioning(calls, Returned(Provisioned(a, storeId)))
  }

  datatype Release = Release(calls: seq<RemoteCall>, outcome: Outcome)

  /** `deleteAssistant`: both deletions are issued before either is awaited,
      so the assistant is always deleted and the store is deleted exactly
      when a (truthy) store id is given; the call fails if any deletion
      fails. When both fail the model reports the assistant's error. */
  function DeleteAssistant(assistantId: string, vectorStoreId: Option<string>,
                           assistantDeletion: Outcome, storeDeletion: Outcome): (r: Release)
    ensures |r.calls| >= 1 && r.calls[0] == DeleteRemoteAssistant(assistantId)
    ensures Truthy(vectorStoreId) ==> r.calls == [DeleteRemoteAssistant(assistantId), DeleteVectorStore(vectorStoreId.value)]
    ensures !Truthy(vectorStoreId) ==> r.calls == [DeleteRemoteAssistant(assistantId)]
    ensures r.outcome.Raised? <==> assistantDeletion.Raised? || (Truthy(vectorStoreId) && storeDeletion.Raised?)
    ensures r.outcome.Raised? ==> r.outcome == assistantDeletion || r.outcome == storeDeletion
  {
    if Truthy(vectorStoreId) then
      Release([DeleteRemoteAssistant(assistantId), DeleteVectorStore(vectorStoreId.value)],
              if assistantDeletion.Raised? then assistantDeletion else storeDeletion)
    else
      Release([DeleteRemoteAssistant(assistantId)], assistantDeletion)
  }

  // ---------------------------------------------------------------------
  // Run events to fragments

  /** The first content part of a message delta. A missing text value is
      represented by the empty string: both are falsy in the source. */
  datatype DeltaPart = TextPart(value: string) | OtherPart

  datatype RunEvent =
    | MessageDelta(content: seq<DeltaPart>)
    | RunFailed(lastError: Option<string>)
    | OtherEvent

  const RunFailedPrefix: string := "\n\n**An error occurred:** "
  const ExceptionPrefix: string := "\n\nAn error occurred while getting a response. Details: "

  /** What one message delta yields: its first part's text when that part is
      text with a non-empty value, else nothing. */
  function DeltaText(content: seq<DeltaPart>): (r: seq<string>)
    ensures |r| <= 1
    ensures |r| == 1 <==> |content| > 0 && content[0].TextPart? && content[0].value != ""
    ensures |r| == 1 ==> r[0] == content[0].value
  {
    if |content| > 0 && content[0].TextPart? && content[0].value != "" then [content[0].value] else []
  }

  function RunFailedFragment(lastError: Option<string>): string
  {
    RunFailedPrefix + lastError.GetOr("Unknown error")
  }

  function ExceptionFragment(e: Thrown): string
  {
    ExceptionPrefix + Details(e)
  }

  /** The loop over run events: deltas yield their text, a failed run yields
      one fragment and ends the loop, other events yield nothing; if the
      event stream throws after the last event, one trailing error fragment. */
  function EventFragments(events: seq<RunEvent>, thrown: Option<Thrown>): (r: seq<string>)
    ensures forall i :: 0 <= i < |r| ==> r[i] != ""
  {
    if |events| == 0 then
      (if thrown.Some? then [ExceptionFragment(thrown.value)] else [])
    else
      match events[0]
      case MessageDelta(c) => DeltaText(c) + EventFragments(events[1..], thrown)
      case RunFailed(err) => [RunFailedFragment(err)]
      case OtherEvent => EventFragments(events[1..], thrown)
  }

  /** The delta texts of a run with no failure event, in event order. */
  function DeltaTexts(events: seq<RunEvent>): seq<string>
  {
    if |events| == 0 then []
    else (if events[0].MessageDelta? then DeltaText(events[0].content) else []) + DeltaTexts(events[1..])
  }

  predicate NoRunFailure(events: seq<RunEvent>)
  {
    forall i :: 0 <= i < |events| ==> !events[i].RunFailed?
  }

  /** Without a failure event: every delta text in event order, then the
      exception fragment if the stream threw. */
  lemma {:induction false} FragmentsWithoutRunFailure(events: seq<RunEvent>, thrown: Option<Thrown>)
    requires NoRunFailure(events)
    ensures EventFragments(events, thrown)
         == DeltaTexts(events) + (if thrown.Some? then [ExceptionFragment(thrown.value)] else [])
  {
    if |events| > 0 {
      assert NoRunFailure(events[1..]) by {
        forall i | 0 <= i < |events[1..]| ensures !events[1..][i].RunFailed? {
          assert events[1..][i] == events[i + 1];
        }
      }
      FragmentsWithoutRunFailure(events[1..], thrown);
    }
  }

  /** With a first failure event at `k`: the delta texts before it, then its
      one fragment; later events and any later exception yield nothing. */
  lemma {:induction false} FragmentsUpToRunFailure(events: seq<RunEvent>, thrown: Option<Thrown>, k: nat)
    requires k < |events| && events[k].RunFailed?
    requires NoRunFailure(events[..k])
    ensures EventFragments(events, thrown) == DeltaTexts(events[..k]) + [RunFailedFragment(events[k].lastError)]
  {
    if k > 0 {
      assert !events[0].RunFailed? by { assert events[..k][0] == events[0]; }
      var rest := events[1..][..k - 1];
      assert rest == events[..k][1..];
      assert NoRunFailure(rest) by {
        forall i | 0 <= i < |rest| ensures !rest[i].RunFailed? {
          assert rest[i] == events[..k][i + 1];
        }
      }
      FragmentsUpToRunFailure(events[1..], thrown, k - 1);
    } else {
      assert events[..k] == [];
    }
  }

  datatype Response = Response(calls: seq<RemoteCall>, fragments: seq<string>)

  /** `streamAssistantResponse`: appends the user message to the remote
      thread, starts the run only once that append succeeded, and turns the
      run's events into fragments. It never throws: an exception from the
      append or from the event stream becomes one last error fragment. */
  function StreamResponse(threadId: string, assistantId: string, text: string,
                          append: Outcome, events: seq<RunEvent>, thrown: Option<Thrown>): (r: Response)
    ensures |r.calls| >= 1 && r.calls[0] == AppendUserMessage(threadId, text)
    ensures append.Raised? ==> r.calls == [AppendUserMessage(threadId, text)]
    ensures append.Raised? ==> r.fragments == [ExceptionFragment(append.error)]
    ensures append.Completed? ==> r.calls == [AppendUserMessage(threadId, text), StartRun(threadId, assistantId)]
    ensures append.Completed? ==> r.fragments == EventFragments(events, thrown)
  {
    match append
    case Raised(e) => Response([AppendUserMessage(threadId, text)], [ExceptionFragment(e)])
    case Completed =>
      Response([AppendUserMessage(threadId, text), StartRun(threadId, assistantId)], EventFragments(events, thrown))
  }

  // ---------------------------------------------------------------------
  // Sandbox (code interpreter) file-id lists

  /** The sandbox file ids after an upload: the existing ids (none when the
      assistant has no code-interpreter resources) and then the new one. */
  function UploadIds(existing: Option<seq<string>>, newId: string): (r: seq<string>)
    ensures |r| == |existing.GetOr([])| + 1
    ensures r[..|r| - 1] == existing.GetOr([]) && r[|r| - 1] == newId
  {
    existing.GetOr([]) + [newId]
  }

  /** The sandbox file ids after a delete: every occurrence of `fileId`
      removed, the rest kept in order. */
  function RemoveIds(ids: seq<string>, fileId: string): (r: seq<string>)
    ensures fileId !in r
    ensures forall x :: x != fileId ==> multiset(r)[x] == multiset(ids)[x]
    ensures |r| == |ids| - multiset(ids)[fileId]
  {
    WithoutMembers(ids, (x: string) => x == fileId);
    RemoveIdsLength(ids, fileId);
    Without(ids, (x: string) => x == fileId)
  }

  /** One id fewer for every occurrence removed. */
  lemma {:induction false} RemoveIdsLength(ids: seq<string>, fileId: string)
    ensures |Without(ids, (x: string) => x == fileId)| == |ids| - multiset(ids)[fileId]
  {
    if |ids| > 0 {
      RemoveIdsLength(ids[1..], fileId);
      assert ids == [ids[0]] + ids[1..];
      assert multiset(ids)[fileId] == multiset([ids[0]])[fileId] + multiset(ids[1..])[fileId];
    }
  }

  lemma RemoveIdsAppend(a: seq<string>, b: seq<string>, fileId: string)
    ensures RemoveIds(a + b, fileId) == RemoveIds(a, fileId) + RemoveIds(b, fileId)
  {
    WithoutAppend(a, b, (x: string) => x == fileId);
  }

  /** Ids other than `fileId` are kept in their original order, so removing
      an id that is absent changes nothing. */
  lemma RemoveAbsentId(ids: seq<string>, fileId: string)
    requires fileId !in ids
    ensures RemoveIds(ids, fileId) == ids
  {
    WithoutNothingDropped(ids, (x: string) => x == fileId);
  }

  /** Deleting a just-uploaded file leaves the other ids as they were. */
  lemma UploadThenDelete(existing: Option<seq<string>>, fileId: string)
    ensures RemoveIds(UploadIds(existing, fileId), fileId) == RemoveIds(existing.GetOr([]), fileId)
    ensures fileId !in existing.GetOr([]) ==> RemoveIds(UploadIds(existing, fileId), fileId) == existing.GetOr([])
  {
    RemoveIdsAppend(existing.GetOr([]), [fileId], fileId);
    if fileId !in existing.GetOr([]) {
      RemoveAbsentId(existing.GetOr([]), fileId);
    }
  }
}

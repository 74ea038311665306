/** The chat-backend adapter (services/geminiService.ts): the local assistant
    record, the history conversion, and the fragment stream produced from the
    backend's chunks. The SDK session itself is not modelled; its chunks and
    its failure are the input. */
module GeminiService {
  import opened Common
  import opened Text
  import opened Types

  const ErrorPrefix: string := "An error occurred while getting a response. Details: "

  /** The local record of a chat-backend assistant created at time `now`. */
  function CreateAssistant(name: string, instructions: string, model: string, now: nat): (a: Assistant)
    ensures a.provider == Gemini
    ensures a.name == name && a.instructions == instructions && a.model == model
    ensures a.id == "asst_gemini_" + Decimal(now) && a.createdAt == now
  {
    Assistant("asst_gemini_" + Decimal(now), name, instructions, model, now, Gemini)
  }

  /** Assistants created at different times get different ids. */
  lemma CreatedIdsDistinct(n1: string, i1: string, m1: string, t1: nat,
                           n2: string, i2: string, m2: string, t2: nat)
    requires t1 != t2
    ensures CreateAssistant(n1, i1, m1, t1).id != CreateAssistant(n2, i2, m2, t2).id
  {
    PrefixedDecimalInjective("asst_gemini_", t1, t2);
  }

  /** One history entry of the chat session. */
  datatype Part = Part(text: string)
  datatype Content = Content(role: string, parts: seq<Part>)

  function HistoryRole(r: Role): string
  {
    if r == AssistantRole then "model" else "user"
  }

  /** Replays the stored messages as session history. */
  function ToHistory(ms: seq<Message>): (h: seq<Content>)
    ensures |h| == |ms|
    ensures forall i :: 0 <= i < |ms| ==> h[i].parts == [Part(ms[i].content)]
    ensures forall i :: 0 <= i < |ms| ==> (h[i].role == "model" <==> ms[i].role == AssistantRole)
    ensures forall i :: 0 <= i < |ms| ==> (h[i].role == "user" <==> ms[i].role != AssistantRole)
  {
    seq(|ms|, i requires 0 <= i < |ms| => Content(HistoryRole(ms[i].role), [Part(ms[i].content)]))
  }

  /** Reads a history entry back as a role and a text. */
  function FromHistory(h: seq<Content>): seq<(Role, string)>
  {
    seq(|h|, i requires 0 <= i < |h| =>
      (if h[i].role == "model" then AssistantRole else UserRole,
       if |h[i].parts| > 0 then h[i].parts[0].text else ""))
  }

  /** The history keeps every message's role and content, in order. */
  lemma HistoryRoundTrip(ms: seq<Message>)
    ensures FromHistory(ToHistory(ms)) == seq(|ms|, i requires 0 <= i < |ms| => (ms[i].role, ms[i].content))
  {
  }

  /** A streamed chunk; its `text` may be undefined. */
  datatype Chunk = Chunk(text: Option<string>)

  /** Whether a chunk's text is truthy, i.e. present and non-empty. */
  predicate HasText(c: Chunk)
  {
    c.text.Some? && c.text.value != ""
  }

  /** The truthy chunk texts, in arrival order. */
  function NonEmptyTexts(chunks: seq<Chunk>): (r: seq<string>)
    ensures |r| <= |chunks|
    ensures forall i :: 0 <= i < |r| ==> r[i] != ""
  {
    if |chunks| == 0 then []
    else (if HasText(chunks[0]) then [chunks[0].text.value] else []) + NonEmptyTexts(chunks[1..])
  }

  /** Every chunk's text, with an undefined text read as empty. */
  function AllTexts(chunks: seq<Chunk>): seq<string>
  {
    seq(|chunks|, i requires 0 <= i < |chunks| => chunks[i].text.GetOr(""))
  }

  /** Filtering is compositional, so it keeps arrival order. */
  lemma {:induction false} NonEmptyTextsAppend(a: seq<Chunk>, b: seq<Chunk>)
    ensures NonEmptyTexts(a + b) == NonEmptyTexts(a) + NonEmptyTexts(b)
  {
    if |a| == 0 {
      assert a + b == b;
    } else {
      assert (a + b)[1..] == a[1..] + b;
      NonEmptyTextsAppend(a[1..], b);
    }
  }

  /** Dropping empty or missing chunk texts does not change what they spell. */
  lemma {:induction false} NonEmptyTextsSpellAll(chunks: seq<Chunk>)
    ensures Concat(NonEmptyTexts(chunks)) == Concat(AllTexts(chunks))
  {
    if |chunks| > 0 {
      NonEmptyTextsSpellAll(chunks[1..]);
      assert AllTexts(chunks)[1..] == AllTexts(chunks[1..]);
      var head := if HasText(chunks[0]) then [chunks[0].text.value] else [];
      ConcatAppend(head, NonEmptyTexts(chunks[1..]));
    }
  }

  /** The fragments of `streamAssistantResponse`: the truthy chunk texts in
      arrival order, then, if the backend threw, one error fragment. The
      generator itself never throws. */
  function StreamFragments(chunks: seq<Chunk>, thrown: Option<Thrown>): (r: seq<string>)
    ensures thrown.None? ==> r == NonEmptyTexts(chunks)
    ensures thrown.Some? ==> |r| == |NonEmptyTexts(chunks)| + 1
    ensures thrown.Some? ==> r[..|r| - 1] == NonEmptyTexts(chunks)
    ensures thrown.Some? ==> r[|r| - 1] == ErrorPrefix + Details(thrown.value)
    ensures forall i :: 0 <= i < |r| ==> r[i] != ""
  {
    NonEmptyTexts(chunks) + (if thrown.Some? then [ErrorPrefix + Details(thrown.value)] else [])
  }

  /** What the consumer accumulates from the stream: every chunk text, then
      the error fragment when the backend threw. */
  lemma StreamSpells(chunks: seq<Chunk>, thrown: Option<Thrown>)
    ensures Concat(StreamFragments(chunks, thrown))
         == Concat(AllTexts(chunks)) + (if thrown.Some? then ErrorPrefix + Details(thrown.value) else "")
  {
    var tail := if thrown.Some? then [ErrorPrefix + Details(thrown.value)] else [];
    ConcatAppend(NonEmptyTexts(chunks), tail);
    NonEmptyTextsSpellAll(chunks);
  }
}

/** The generation service: the tone resolver, the request it sends, and the
    loop that folds the response stream into the full text while forwarding
    each non-empty chunk to the caller's callback. The SDK stream is an input
    (`Upstream`), and the callback is modelled by the log of its calls. */
module GeminiService {
  import opened Wrappers
  import opened Types
  import opened Text

  const ModelName: string := "gemini-2.5-flash"
  const TopK: int := 64

  /** The tone a `switch (tone)` case selects for a string value: the tone
      with that value, and the serious tone (the `default` case) for any
      value that names no tone. */
  function ResolveTone(tone: string): Tone
  {
    if tone == "Humorous" then Humorous
    else if tone == "Dramatic" then Dramatic
    else if tone == "Whimsical" then Whimsical
    else if tone == "Suspenseful" then Suspenseful
    else Serious
  }

  /** The instruction text of each tone. Every instruction opens with
      "You are a " and a word naming the persona; the rest characterises the
      tone. */
  function InstructionText(tone: Tone): string
  {
    InstructionOpening + Persona(tone) + Characterization(tone)
  }

  const InstructionOpening: string := "You are a "

  function Persona(tone: Tone): (r: string)
    ensures |r| >= 2
  {
    match tone
    case Humorous => "witty"
    case Dramatic => "dramatic"
    case Whimsical => "whimsical"
    case Suspenseful => "master"
    case Serious => "serious"
  }

  function Characterization(tone: Tone): string
  {
    match tone
    case Humorous =>
      " and humorous writer. Your tone should be lighthearted, clever, and entertaining."
    case Dramatic =>
      " storyteller. Your tone should be serious, evocative, and emotionally resonant. Build tension and use powerful imagery."
    case Whimsical =>
      " and imaginative author. Your style is playful, magical, and charming, reminiscent of fairy tales."
    case Suspenseful =>
      " of suspense. Your writing should be tense, mysterious, and keep the reader on the edge of their seat. Use foreshadowing and create an atmosphere of unease."
    case Serious =>
      " and thoughtful author. Your tone should be formal, profound, and literary. Focus on deep themes and sophisticated language."
  }

  /** The system instruction for a tone, given by its string value. */
  function SystemInstruction(tone: string): string
  {
    InstructionText(ResolveTone(tone))
  }

  /** The sampling settings the request carries (the two floating-point
      settings are not modelled). */
  datatype GenerationConfig = GenerationConfig(systemInstruction: string, topK: int)

  /** The streaming request: model, contents, and configuration. */
  datatype Request = Request(model: string, contents: string, config: GenerationConfig)

  /** What the SDK reports on failure: the error's `message`, when it has one. */
  datatype ApiError = ApiError(message: Option<string>)

  /** The response stream as the service sees it: the chunk texts it yields
      (`None` for a chunk without text), in arrival order, then either the
      end of the stream or a failure. A failure while opening the stream is a
      failure after no chunks. Only failures inside the `try` are covered: a
      throw while constructing the SDK client, before the `try`, would reach
      the caller unwrapped and is not modelled. */
  datatype Upstream = Upstream(chunks: seq<Option<string>>, failure: Option<ApiError>)

  /** A chunk text passes the `if (chunkText)` test: it is present and non-empty. */
  predicate IsForwarded(chunk: Option<string>)
  {
    chunk.Some? && chunk.value != ""
  }

  /** The text a chunk contributes; a missing text contributes nothing. */
  function ChunkText(chunk: Option<string>): string
  {
    if chunk.Some? then chunk.value else ""
  }

  /** The chunk texts forwarded to the callback, in arrival order. */
  function Forwarded(chunks: seq<Option<string>>): (r: seq<string>)
    ensures |r| <= |chunks|
    ensures forall i :: 0 <= i < |r| ==> r[i] != ""
  {
    if chunks == [] then []
    else
      var last := chunks[|chunks| - 1];
      Forwarded(chunks[..|chunks| - 1]) + (if IsForwarded(last) then [last.value] else [])
  }

  /** The in-order concatenation of every chunk's text. */
  function AllText(chunks: seq<Option<string>>): string
  {
    if chunks == [] then "" else ChunkText(chunks[0]) + AllText(chunks[1..])
  }

  const FailurePrefix: string := "Failed to generate content: "
  const UnknownApiError: string := "An unknown API error occurred."

  /** The message of the error the service rethrows: the upstream message,
      or the fallback when that is absent or empty. */
  function FailureMessage(message: Option<string>): string
  {
    FailurePrefix + (if message.Some? && message.value != "" then message.value else UnknownApiError)
  }

  /** The request the service sends for a prompt and a tone. */
  function RequestFor(prompt: string, tone: Tone): Request
  {
    Request(ModelName, prompt, GenerationConfig(SystemInstruction(tone.Value()), TopK))
  }

  /** The `for await` loop: appends every non-empty chunk text to the full
      text and hands it to the callback; `onChunkCalls` is the sequence of
      arguments the callback receives. */
  method AccumulateChunks(chunks: seq<Option<string>>) returns (fullText: string, onChunkCalls: seq<string>)
    ensures onChunkCalls == Forwarded(chunks)
    ensures fullText == Concat(onChunkCalls)
  {
    fullText := "";
    onChunkCalls := [];
    var i := 0;
    while i < |chunks|
      invariant 0 <= i <= |chunks|
      invariant onChunkCalls == Forwarded(chunks[..i])
      invariant fullText == Concat(onChunkCalls)
    {
      var chunkText := chunks[i];
      assert chunks[..i + 1][..i] == chunks[..i];
      if IsForwarded(chunkText) {
        ConcatSnoc(onChunkCalls, chunkText.value);
        fullText := fullText + chunkText.value;
        onChunkCalls := onChunkCalls + [chunkText.value];
      }
      i := i + 1;
    }
    assert chunks[..i] == chunks;
  }

  /** Sends the request and reads the stream; on a failure, at the start or
      part-way, the result is the wrapped message, and the callback has seen
      the chunks that arrived before it. */
  method GenerateContent(prompt: string, tone: Tone, upstream: Upstream)
    returns (request: Request, outcome: Result<string, string>, onChunkCalls: seq<string>)
    ensures request == RequestFor(prompt, tone)
    ensures request.model == ModelName && request.contents == prompt && request.config.topK == TopK
    ensures request.config.systemInstruction == SystemInstruction(tone.Value())
    ensures onChunkCalls == Forwarded(upstream.chunks)
    ensures upstream.failure.None? ==> outcome == Ok(AllText(upstream.chunks))
    ensures upstream.failure.Some? ==> outcome == Err(FailureMessage(upstream.failure.value.message))
  {
    request := RequestFor(prompt, tone);
    assert request.config.systemInstruction == SystemInstruction(tone.Value());
    var fullText;
    fullText, onChunkCalls := AccumulateChunks(upstream.chunks);
    if upstream.failure.Some? {
      outcome := Err(FailureMessage(upstream.failure.value.message));
    } else {
      ForwardedConcat(upstream.chunks);
      outcome := Ok(fullText);
    }
  }

  // ---- Properties ----

  /** The string value of every tone selects that tone. */
  lemma ResolveToneOfValue(tone: Tone)
    ensures ResolveTone(tone.Value()) == tone
  {
  }

  /** A value that is none of the five tones selects the serious tone, so its
      instruction is the serious one. */
  lemma UnknownToneIsSerious(tone: string)
    requires forall t: Tone :: tone != t.Value()
    ensures ResolveTone(tone) == Serious
    ensures SystemInstruction(tone) == SystemInstruction(Serious.Value())
  {
    assert tone != Humorous.Value() && tone != Dramatic.Value();
    assert tone != Whimsical.Value() && tone != Suspenseful.Value();
    ResolveToneOfValue(Serious);
  }

  /** The persona words differ already in their second letter. */
  lemma PersonaKeyDistinct(t1: Tone, t2: Tone)
    ensures Persona(t1)[1] == Persona(t2)[1] ==> t1 == t2
  {
  }

  /** The twelfth character after the opening is the persona's second letter. */
  lemma OpeningKey(persona: string)
    requires |persona| >= 2
    ensures 11 < |InstructionOpening + persona|
    ensures (InstructionOpening + persona)[11] == persona[1]
  {
  }

  /** Equal strings with long enough heads agree on the heads' twelfth
      character. */
  lemma SameKey(a1: string, x: string, a2: string, y: string)
    requires a1 + x == a2 + y && 11 < |a1| && 11 < |a2|
    ensures a1[11] == a2[11]
  {
    assert a1[11] == (a1 + x)[11];
    assert a2[11] == (a2 + y)[11];
  }

  /** The five tones get five different instructions. */
  lemma ToneInstructionsDistinct(t1: Tone, t2: Tone)
    ensures SystemInstruction(t1.Value()) == SystemInstruction(t2.Value()) <==> t1 == t2
  {
    ResolveToneOfValue(t1);
    ResolveToneOfValue(t2);
    if InstructionText(t1) == InstructionText(t2) {
      OpeningKey(Persona(t1));
      OpeningKey(Persona(t2));
      SameKey(InstructionOpening + Persona(t1), Characterization(t1),
              InstructionOpening + Persona(t2), Characterization(t2));
      PersonaKeyDistinct(t1, t2);
    }
  }

  /** The request determines both the prompt and the tone: the prompt is
      sent unchanged as the contents, and the five tones have five different
      system instructions. */
  lemma RequestForInjective(prompt1: string, tone1: Tone, prompt2: string, tone2: Tone)
    ensures RequestFor(prompt1, tone1) == RequestFor(prompt2, tone2) <==> prompt1 == prompt2 && tone1 == tone2
  {
    if RequestFor(prompt1, tone1) == RequestFor(prompt2, tone2) {
      ToneInstructionsDistinct(tone1, tone2);
    }
  }

  /** Forwarding distributes over splitting the stream: the callback sees the
      chunks of the first part, then those of the second. */
  lemma {:induction false} ForwardedAppend(xs: seq<Option<string>>, ys: seq<Option<string>>)
    ensures Forwarded(xs + ys) == Forwarded(xs) + Forwarded(ys)
    decreases |ys|
  {
    if ys == [] {
      assert xs + ys == xs;
    } else {
      var init := ys[..|ys| - 1];
      assert (xs + ys)[..|xs + ys| - 1] == xs + init;
      assert (xs + ys)[|xs + ys| - 1] == ys[|ys| - 1];
      ForwardedAppend(xs, init);
    }
  }

  /** A single chunk is forwarded exactly when its text is present and non-empty. */
  lemma ForwardedSingle(chunk: Option<string>)
    ensures Forwarded([chunk]) == (if IsForwarded(chunk) then [chunk.value] else [])
  {
    assert [chunk][..0] == [];
  }

  /** The concatenated forwarded chunks are the concatenation of all chunk
      texts: skipped chunks contribute nothing. */
  lemma {:induction false} ForwardedConcat(chunks: seq<Option<string>>)
    ensures Concat(Forwarded(chunks)) == AllText(chunks)
  {
    if chunks != [] {
      ForwardedAppend([chunks[0]], chunks[1..]);
      assert [chunks[0]] + chunks[1..] == chunks;
      ForwardedSingle(chunks[0]);
      ConcatAppend(Forwarded([chunks[0]]), Forwarded(chunks[1..]));
      ForwardedConcat(chunks[1..]);
      if IsForwarded(chunks[0]) {
        assert Concat([chunks[0].value]) == chunks[0].value + Concat([]);
      }
    }
  }

  /** The rethrown message always starts with the fixed prefix, followed by
      the upstream message when it is non-empty and by the fallback otherwise;
      so it is never empty. */
  lemma FailureMessageShape(message: Option<string>)
    ensures |FailureMessage(message)| > |FailurePrefix|
    ensures FailureMessage(message)[..|FailurePrefix|] == FailurePrefix
    ensures message.Some? && message.value != "" ==> FailureMessage(message)[|FailurePrefix|..] == message.value
    ensures !(message.Some? && message.value != "") ==> FailureMessage(message)[|FailurePrefix|..] == UnknownApiError
  {
  }
}

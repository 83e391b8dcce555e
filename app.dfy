/** The application state machine: generation, result packaging, the capped
    history, and the history panel's two actions. Clock readings, the ISO
    timestamp and the response stream are parameters of `HandleGenerate`. */
module App {
  import opened Wrappers
  import opened Types
  import opened Text
  import opened Catalog
  import opened GeminiService

  // ---- Fence cleanup ----

  const MarkdownFence: string := "```markdown\n"
  const ClosingFence: string := "```"

  predicate StartsWithFence(s: string)
  {
    |MarkdownFence| <= |s| && s[..|MarkdownFence|] == MarkdownFence
  }

  predicate EndsWithFence(s: string)
  {
    |ClosingFence| <= |s| && s[|s| - |ClosingFence|..] == ClosingFence
  }

  /** The length of the match of `/^```markdown\n|```$/` starting at index `i`
      of `s`, or 0 when there is none. Without the `m` flag `^` holds only at
      index 0 and `$` only at the end; the first alternative is tried first. */
  function MatchLength(s: string, i: nat): nat
    requires i <= |s|
  {
    if i == 0 && StartsWithFence(s) then |MarkdownFence|
    else if i + |ClosingFence| == |s| && s[i..] == ClosingFence then |ClosingFence|
    else 0
  }

  /** A global `replace(regex, "")` from index `i` on: scanning left to right,
      each match is dropped and the scan resumes after it; every other
      character is kept. */
  function ReplaceFrom(s: string, i: nat): (r: string)
    requires i <= |s|
    ensures |r| <= |s| - i
    decreases |s| - i
  {
    if i == |s| then ""
    else if MatchLength(s, i) > 0 then ReplaceFrom(s, i + MatchLength(s, i))
    else [s[i]] + ReplaceFrom(s, i + 1)
  }

  /** `text.replace(/^```markdown\n|```$/g, "")`. */
  function ReplaceFences(s: string): (r: string)
    ensures |r| <= |s|
  {
    ReplaceFrom(s, 0)
  }

  function StripOpeningFence(s: string): string
  {
    if StartsWithFence(s) then s[|MarkdownFence|..] else s
  }

  function StripClosingFence(s: string): string
  {
    if EndsWithFence(s) then s[..|s| - |ClosingFence|] else s
  }

  /** The cleanup applied to the model's full text; it never lengthens it. */
  function CleanOutput(raw: string): (r: string)
    ensures |r| <= |raw|
  {
    TrimSpec(ReplaceFences(raw));
    Trim(ReplaceFences(raw))
  }

  /** Putting one character in front does not change whether, or which,
      closing fence is stripped, unless the result is the fence itself. */
  lemma StripClosingCons(c: char, t: string)
    requires !(|t| == 2 && [c] + t == ClosingFence)
    ensures StripClosingFence([c] + t) == [c] + StripClosingFence(t)
  {
    var s := [c] + t;
    if |t| >= 3 {
      assert s[|s| - 3..] == t[|t| - 3..];
      if EndsWithFence(t) {
        assert s[..|s| - 3] == [c] + t[..|t| - 3];
      }
    }
  }

  /** Past index 0 the scan can only meet the closing fence. */
  lemma {:induction false} ReplaceFromTail(s: string, i: nat)
    requires 0 < i <= |s|
    ensures ReplaceFrom(s, i) == StripClosingFence(s[i..])
    decreases |s| - i
  {
    if i == |s| {
      assert s[i..] == [];
    } else if MatchLength(s, i) > 0 {
      assert s[i..] == ClosingFence;
    } else {
      ReplaceFromTail(s, i + 1);
      assert s[i..] == [s[i]] + s[i + 1..];
      StripClosingCons(s[i], s[i + 1..]);
    }
  }

  /** The regex removes a leading "```markdown\n" if there is one and then a
      trailing "```" if there is one, each at most once. */
  lemma FenceRemoval(s: string)
    ensures ReplaceFences(s) == StripClosingFence(StripOpeningFence(s))
  {
    if s == [] {
    } else if StartsWithFence(s) {
      ReplaceFromTail(s, |MarkdownFence|);
    } else if MatchLength(s, 0) > 0 {
      assert s == ClosingFence;
    } else {
      ReplaceFromTail(s, 1);
      assert s == [s[0]] + s[1..];
      StripClosingCons(s[0], s[1..]);
    }
  }

  /** Text with neither fence is only trimmed. */
  lemma CleanUnfenced(s: string)
    requires !StartsWithFence(s) && !EndsWithFence(s)
    ensures CleanOutput(s) == Trim(s)
  {
    FenceRemoval(s);
  }

  /** Cleaning a cleaned text changes nothing when the cleaned text carries
      no fence. */
  lemma CleanStable(s: string)
    requires !StartsWithFence(CleanOutput(s)) && !EndsWithFence(CleanOutput(s))
    ensures CleanOutput(CleanOutput(s)) == CleanOutput(s)
  {
    CleanUnfenced(CleanOutput(s));
    TrimIdempotent(ReplaceFences(s));
  }

  /** A reply wrapped in an opening and a closing fence is reduced to its
      trimmed body. */
  lemma CleanFenced(body: string)
    ensures CleanOutput(MarkdownFence + body + ClosingFence) == Trim(body)
  {
    var s := MarkdownFence + body + ClosingFence;
    FenceRemoval(s);
    assert s[..|MarkdownFence|] == MarkdownFence;
    assert s[|MarkdownFence|..] == body + ClosingFence;
    var t := body + ClosingFence;
    assert t[|t| - |ClosingFence|..] == ClosingFence;
    assert t[..|t| - |ClosingFence|] == body;
  }

  /** A fenced reply whose body is a text and a line break, such as
      "```markdown\nHello\n```", is cleaned to that text when the text
      neither starts nor ends with whitespace. */
  lemma CleanFencedLine(text: string)
    requires text != [] && !IsWhitespace(text[0]) && !IsWhitespace(text[|text| - 1])
    ensures CleanOutput(MarkdownFence + text + "\n" + ClosingFence) == text
  {
    var body := text + "\n";
    assert MarkdownFence + text + "\n" + ClosingFence == MarkdownFence + body + ClosingFence;
    CleanFenced(body);
    assert body[0] == text[0];
    assert LeadingWhitespace(body) == 0;
    assert body[..|body| - 1] == text;
    assert TrailingWhitespace(body[..|body| - 1]) == 0;
    assert TrailingWhitespace(body) == 1;
  }

  /** A body after a single opening fence ends in a closing fence only if the
      body itself does. */
  lemma FenceSuffix(body: string)
    requires body != [] && !EndsWithFence(body)
    ensures !EndsWithFence(MarkdownFence + body)
  {
    var s := MarkdownFence + body;
    if |body| >= |ClosingFence| {
      assert s[|s| - |ClosingFence|..] == body[|body| - |ClosingFence|..];
    } else {
      assert s[|s| - |ClosingFence|] == MarkdownFence[|MarkdownFence| + |body| - |ClosingFence|];
    }
  }

  /** A reply with one opening fence, whose body is already trimmed and has
      no closing fence, is cleaned to its body. */
  lemma CleanOneFence(body: string)
    requires Trim(body) == body && !EndsWithFence(body)
    ensures CleanOutput(MarkdownFence + body) == body
  {
    var s := MarkdownFence + body;
    FenceRemoval(s);
    assert s[..|MarkdownFence|] == MarkdownFence;
    assert s[|MarkdownFence|..] == body;
  }

  /** Putting an opening fence before a trimmed body without a closing fence
      gives again a trimmed text without a closing fence. */
  lemma FencedStaysTrimmed(body: string)
    requires body != [] && Trim(body) == body && !EndsWithFence(body)
    ensures Trim(MarkdownFence + body) == MarkdownFence + body
    ensures !EndsWithFence(MarkdownFence + body)
  {
    var once := MarkdownFence + body;
    FenceSuffix(body);
    TrimSpec(body);
    assert once[0] == '`';
    assert once[|once| - 1] == body[|body| - 1];
    TrimOfTrimmed(once);
  }

  /** The cleanup is not idempotent: a reply opening with two fences loses
      only one of them per pass, so a second pass changes the text again. */
  lemma CleanNotIdempotent(body: string)
    requires body != [] && Trim(body) == body && !EndsWithFence(body)
    ensures CleanOutput(MarkdownFence + MarkdownFence + body) == MarkdownFence + body
    ensures CleanOutput(CleanOutput(MarkdownFence + MarkdownFence + body)) == body
    ensures CleanOutput(CleanOutput(MarkdownFence + MarkdownFence + body)) != CleanOutput(MarkdownFence + MarkdownFence + body)
  {
    var once := MarkdownFence + body;
    assert MarkdownFence + MarkdownFence + body == MarkdownFence + once;
    FencedStaysTrimmed(body);
    CleanOneFence(once);
    CleanOneFence(body);
    assert |once| > |body|;
  }

  // ---- History ----

  const HistoryLimit: nat := 50

  /** `[newResult, ...prev.slice(0, 49)]`. */
  function PrependCapped(result: GenerationResult, prev: seq<GenerationResult>): (r: seq<GenerationResult>)
    ensures |r| <= HistoryLimit && r != [] && r[0] == result
    ensures |prev| < HistoryLimit ==> r[1..] == prev
    ensures |prev| >= HistoryLimit ==> r[1..] == prev[..HistoryLimit - 1]
  {
    [result] + prev[..if |prev| < HistoryLimit - 1 then |prev| else HistoryLimit - 1]
  }

  /** The first `n` elements, or all of them when there are fewer. */
  function Take<T>(s: seq<T>, n: nat): seq<T>
  {
    if |s| <= n then s else s[..n]
  }

  /** The elements of `s`, last first. */
  function Reverse<T>(s: seq<T>): (r: seq<T>)
    ensures |r| == |s|
    ensures forall i :: 0 <= i < |s| ==> r[i] == s[|s| - 1 - i]
  {
    if s == [] then [] else Reverse(s[1..]) + [s[0]]
  }

  /** The history after recording `results`, oldest first. */
  function RecordAll(results: seq<GenerationResult>, prev: seq<GenerationResult>): seq<GenerationResult>
  {
    if results == [] then prev else RecordAll(results[1..], PrependCapped(results[0], prev))
  }

  lemma TakeAppendTake<T>(a: seq<T>, b: seq<T>, n: nat)
    ensures Take(a + Take(b, n), n) == Take(a + b, n)
  {
    if |b| > n && |a| + |b| > n {
      assert (a + b)[..n] == (a + b[..n])[..n];
    }
  }

  lemma AppendAssoc<T>(a: seq<T>, b: seq<T>, c: seq<T>)
    ensures a + (b + c) == (a + b) + c
  {
  }

  lemma PrependCappedIsTake(result: GenerationResult, prev: seq<GenerationResult>)
    ensures PrependCapped(result, prev) == Take([result] + prev, HistoryLimit)
  {
    if |prev| >= HistoryLimit {
      assert ([result] + prev)[..HistoryLimit] == [result] + prev[..HistoryLimit - 1];
    }
  }

  /** Recording results one after another keeps the 50 most recent, newest
      first, followed by what is left of the earlier history. */
  lemma {:induction false} RecordAllKeepsNewest(results: seq<GenerationResult>, prev: seq<GenerationResult>)
    requires results != []
    ensures RecordAll(results, prev) == Take(Reverse(results) + prev, HistoryLimit)
  {
    var head := PrependCapped(results[0], prev);
    PrependCappedIsTake(results[0], prev);
    if |results| == 1 {
      assert results[1..] == [];
      assert Reverse(results) == [results[0]];
    } else {
      RecordAllKeepsNewest(results[1..], head);
      TakeAppendTake(Reverse(results[1..]), [results[0]] + prev, HistoryLimit);
      AppendAssoc(Reverse(results[1..]), [results[0]], prev);
    }
  }

  // ---- Errors ----

  const UnknownAppError: string := "An unknown error occurred. Please check the console."

  /** `err.message || 'An unknown error occurred. Please check the console.'`. */
  function AppErrorMessage(message: Option<string>): (r: string)
    ensures r != ""
    ensures r != UnknownAppError ==> message == Some(r)
  {
    if message.Some? && message.value != "" then message.value else UnknownAppError
  }

  /** The service always throws a non-empty message, so the application's
      fallback never shows for a failed generation. */
  lemma ServiceErrorShown(message: Option<string>)
    ensures AppErrorMessage(Some(FailureMessage(message))) == FailureMessage(message)
  {
    FailureMessageShape(message);
  }

  // ---- The application state ----

  /** The id of a result created when the clock read `idTime` milliseconds. */
  function ResultId(idTime: nat): (id: string)
    ensures |id| > 4 && id[..4] == "res-"
  {
    "res-" + DecimalString(idTime)
  }

  /** Ids made at different clock readings differ, and each one reads back
      as its clock reading. */
  lemma ResultIdsDistinct(t1: nat, t2: nat)
    ensures ResultId(t1) == ResultId(t2) <==> t1 == t2
  {
    if ResultId(t1) == ResultId(t2) {
      assert ResultId(t1)[4..] == DecimalString(t1);
      assert ResultId(t2)[4..] == DecimalString(t2);
      DecimalRoundTrip(t1);
      DecimalRoundTrip(t2);
    }
  }

  /** The result a successful generation records. */
  function NewResult(params: GenerationParams, fullText: string, startTime: int, endTime: int,
                     idTime: nat, timestamp: string): GenerationResult
  {
    GenerationResult(ResultId(idTime), params, CleanOutput(fullText), timestamp,
      Performance(endTime - startTime))
  }

  /** `PROMPT_TEMPLATES[params.contentType].prompt(params.promptText, params.genre)`:
      the chosen template's builder applied to the idea and the genre. */
  function TemplatePromptFor(params: GenerationParams): (prompt: string)
    ensures prompt == BuildPrompt(params.contentType, params.promptText, params.genre)
  {
    var template := Template(params.contentType);
    TemplatePrompt(params.contentType, params.promptText, params.genre);
    template.prompt(params.promptText, params.genre)
  }

  class AppState {
    var isLoading: bool
    var error: Option<string>
    var currentResult: Option<GenerationResult>
    var history: seq<GenerationResult>
    var streamingOutput: string

    /** The initial state; `storedHistory` is what the persisted history
        yields on load. */
    constructor (storedHistory: seq<GenerationResult>)
      ensures !isLoading && error == None && currentResult == None
      ensures history == storedHistory && streamingOutput == ""
    {
      isLoading := false;
      error := None;
      currentResult := None;
      history := storedHistory;
      streamingOutput := "";
    }

    /** The resets at the start of a generation. */
    method BeginGeneration()
      modifies this
      ensures isLoading && error == None && currentResult == None && streamingOutput == ""
      ensures history == old(history)
    {
      isLoading := true;
      error := None;
      currentResult := None;
      streamingOutput := "";
    }

    /** The callback handed to the service: `prev => prev + chunk`. */
    method OnChunk(chunk: string)
      modifies this
      ensures streamingOutput == old(streamingOutput) + chunk
      ensures isLoading == old(isLoading) && error == old(error)
      ensures currentResult == old(currentResult) && history == old(history)
    {
      streamingOutput := streamingOutput + chunk;
    }

    /** Delivers the callback calls in order. */
    method DeliverChunks(calls: seq<string>)
      modifies this
      ensures streamingOutput == old(streamingOutput) + Concat(calls)
      ensures isLoading == old(isLoading) && error == old(error)
      ensures currentResult == old(currentResult) && history == old(history)
    {
      var i := 0;
      while i < |calls|
        invariant 0 <= i <= |calls|
        invariant streamingOutput == old(streamingOutput) + Concat(calls[..i])
        invariant isLoading == old(isLoading) && error == old(error)
        invariant currentResult == old(currentResult) && history == old(history)
      {
        ConcatSnoc(calls[..i], calls[i]);
        assert calls[..i + 1] == calls[..i] + [calls[i]];
        OnChunk(calls[i]);
        i := i + 1;
      }
      assert calls[..i] == calls;
    }

    /** `handleGenerate`: resets the state, builds the prompt from the chosen
        template, runs the service, then records the cleaned result or the
        error. */
    method HandleGenerate(params: GenerationParams, upstream: Upstream, startTime: int, endTime: int,
                          idTime: nat, timestamp: string)
      returns (request: Request)
      modifies this
      ensures request == RequestFor(BuildPrompt(params.contentType, params.promptText, params.genre), params.tone)
      ensures streamingOutput == AllText(upstream.chunks)
      ensures !isLoading
      ensures upstream.failure.None? ==>
        var result := NewResult(params, AllText(upstream.chunks), startTime, endTime, idTime, timestamp);
        error == None && currentResult == Some(result) && history == PrependCapped(result, old(history))
      ensures upstream.failure.Some? ==>
        error == Some(FailureMessage(upstream.failure.value.message))
        && currentResult == None && history == old(history)
    {
      BeginGeneration();
      var prompt := TemplatePromptFor(params);
      request := Generate(params, prompt, upstream, startTime, endTime, idTime, timestamp);
    }

    /** The `try`/`catch`/`finally` of `handleGenerate` for a built prompt. */
    method Generate(params: GenerationParams, prompt: string, upstream: Upstream, startTime: int, endTime: int,
                    idTime: nat, timestamp: string)
      returns (request: Request)
      modifies this
      ensures request == RequestFor(prompt, params.tone)
      ensures streamingOutput == old(streamingOutput) + AllText(upstream.chunks)
      ensures !isLoading
      ensures upstream.failure.None? ==>
        var result := NewResult(params, AllText(upstream.chunks), startTime, endTime, idTime, timestamp);
        error == old(error) && currentResult == Some(result) && history == PrependCapped(result, old(history))
      ensures upstream.failure.Some? ==>
        error == Some(FailureMessage(upstream.failure.value.message))
        && currentResult == old(currentResult) && history == old(history)
    {
      var outcome, calls;
      request, outcome, calls := GenerateContent(prompt, params.tone, upstream);
      DeliverChunks(calls);
      ForwardedConcat(upstream.chunks);
      if outcome.Err? {
        ServiceErrorShown(upstream.failure.value.message);
      }
      Settle(params, outcome, startTime, endTime, idTime, timestamp);
    }

    /** The end of `handleGenerate`: records the cleaned result, or shows the
        error's message, and clears the loading flag. */
    method Settle(params: GenerationParams, outcome: Result<string, string>, startTime: int, endTime: int,
                  idTime: nat, timestamp: string)
      modifies this
      ensures !isLoading && streamingOutput == old(streamingOutput)
      ensures outcome.Ok? ==>
        var result := NewResult(params, outcome.value, startTime, endTime, idTime, timestamp);
        error == old(error) && currentResult == Some(result) && history == PrependCapped(result, old(history))
      ensures outcome.Err? ==>
        error == Some(AppErrorMessage(Some(outcome.error)))
        && currentResult == old(currentResult) && history == old(history)
    {
      match outcome {
        case Ok(resultText) =>
          var result := NewResult(params, resultText, startTime, endTime, idTime, timestamp);
          currentResult := Some(result);
          history := PrependCapped(result, history);
        case Err(message) =>
          error := Some(AppErrorMessage(Some(message)));
      }
      isLoading := false;
    }

    /** `handleSelectHistory`: shows a past result and clears the stream. */
    method HandleSelectHistory(result: GenerationResult)
      modifies this
      ensures currentResult == Some(result) && streamingOutput == ""
      ensures history == old(history) && isLoading == old(isLoading) && error == old(error)
    {
      currentResult := Some(result);
      streamingOutput := "";
    }

    /** `handleClearHistory`: empties the history and nothing else. */
    method HandleClearHistory()
      modifies this
      ensures history == []
      ensures currentResult == old(currentResult) && streamingOutput == old(streamingOutput)
      ensures isLoading == old(isLoading) && error == old(error)
    {
      history := [];
    }
  }
}

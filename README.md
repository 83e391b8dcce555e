# Creative writer's assistant: a verified model of its core

The application lets a writer pick a content type (short story, haiku,
sonnet, character backstory, world-building snippet), a genre, a tone and an
idea. It builds a prompt from a fixed template, streams a generated text
from a language-model service, cleans the text and keeps it in a
history capped at 50 entries. This project models that core in Dafny and
proves what the code promises about it:

- `types.dfy` (module `Types`): the two closed enumerations with their
  string values, and the parameter, result and template records.
- `catalog.dfy` (module `Catalog`): the template table. Each builder is its
  template literal written as a list of segments: verbatim text with line
  breaks and indentation exactly as in the source, `${promptText}` and
  `${genre}`. A literal is rendered by concatenating its segments. The file
  also holds the two option lists the form offers.
- `gemini_service.dfy` (module `GeminiService`): the tone switch, the
  streaming request, the loop that accumulates the chunk texts and forwards
  them to the callback, and the error wrapping.
- `app.dfy` (module `App`): the fence cleanup, written as the exact
  left-to-right semantics of the global regular expression, the capped
  history, and the application state as a class whose methods are the
  three handlers.
- `generator_form.dfy` (module `GeneratorForm`): the form state as a class,
  its initial values, the content-type effect, the field handlers, and the
  submit validation.
- `text.dfy` and `wrappers.dfy`: JavaScript's `trim`, substring search,
  concatenation, decimal rendering, and `Option`/`Result`.

Outside inputs become parameters:
- The service's response stream is an `Upstream` value: the chunk texts in
  arrival order, each possibly missing, then either the end or a failure.
- The chunk callback is modelled as the sequence of its arguments
  (`onChunkCalls`), which the application then delivers to its streaming
  buffer.
- The two clock readings, the id's clock reading and the ISO timestamp are
  arguments of `HandleGenerate`.

## Model

| member | source | states |
|---|---|---|
| Types.EnumerationsClosed | types.ts:2-16 | each enumeration has exactly five members, all listed once |
| Types.ToneValuesDistinct | types.ts:10-16 | two tones have the same string value exactly when they are the same tone |
| Types.ContentTypeValuesDistinct | types.ts:2-8 | two content types have the same string value exactly when they are equal |
| Text.Trim | App.tsx:45 | `s.trim()`: the text without its leading and its trailing JavaScript whitespace |
| Text.TrimSpec | App.tsx:45 | `trim` yields the stretch between an all-whitespace prefix and an all-whitespace suffix, and the result neither starts nor ends with whitespace |
| Text.TrimIdempotent | App.tsx:45 | trimming twice is the same as trimming once |
| Text.TrimEmptyIffAllWhitespace | components/GeneratorForm.tsx:25 | the trimmed text is empty exactly when the text is all whitespace |
| Text.DecimalRoundTrip | App.tsx:48 | reading back the decimal rendering of a clock value gives that value |
| Catalog.Template | constants.ts:14-107 | `PROMPT_TEMPLATES`: each content type's name, description, placeholder and prompt builder |
| Catalog.BuildPrompt | constants.ts:19-105 | each content type's template literal with the idea and the genre interpolated |
| Catalog.ContentTypeOptions | constants.ts:4-10 | `CONTENT_TYPE_OPTIONS`: the five content types with their captions |
| Catalog.TemplateNamesDistinct | constants.ts:16-90 | two content types share a template name exactly when they are equal |
| Catalog.ContentTypeOptionsExact | constants.ts:4-10 | the drop-down lists the five content types once each, in order, each captioned with its template's name |
| Catalog.ToneOptionsExact | constants.ts:12 | the tone list is the five tones once each, in declaration order |
| Catalog.PromptTextSlotUnique | constants.ts:19-105 | every literal holds exactly one `${promptText}` |
| Catalog.PromptInsertsTextVerbatim | constants.ts:19-105 | every prompt is a head, the user text unchanged, and a tail; head and tail depend on content type and genre only |
| Catalog.PromptContainsText | constants.ts:19-105 | every prompt contains the user text |
| Catalog.PromptContainsGenre | constants.ts:20-94 | short-story, backstory and world-building prompts contain the genre |
| Catalog.PoemsIgnoreGenre | constants.ts:36-68 | the haiku and sonnet prompts are the same for any two genres |
| Catalog.HaikuConstraints | constants.ts:45-48 | every haiku prompt contains "5-7-5" and "ONLY the three lines" |
| Catalog.SonnetConstraints | constants.ts:62-67 | every sonnet prompt contains "exactly 14 lines" and "ABAB CDCD EFEF GG" |
| Catalog.ShortStoryWordLimit | constants.ts:31 | every short-story prompt contains "no more than 200 words" |
| GeminiService.ResolveTone | services/geminiService.ts:12-26 | which case of the tone switch a string value reaches, `default` for one that names no tone |
| GeminiService.SystemInstruction | services/geminiService.ts:12-26 | `getSystemInstruction`: the instruction text of the case reached |
| GeminiService.ResolveToneOfValue | services/geminiService.ts:12-26 | the switch maps each tone's string value to that tone's case |
| GeminiService.UnknownToneIsSerious | services/geminiService.ts:22-24 | a value naming no tone falls to the default and gets the serious instruction |
| GeminiService.ToneInstructionsDistinct | services/geminiService.ts:14-24 | the five tones get five pairwise different instructions |
| GeminiService.RequestFor | services/geminiService.ts:37-45 | the streaming request for a prompt and a tone |
| GeminiService.RequestForInjective | services/geminiService.ts:37-45 | two requests are equal exactly when their prompts and their tones are: the prompt is sent unchanged and each tone has its own instruction |
| GeminiService.FailureMessage | services/geminiService.ts:61-63 | the message of the error the service rethrows |
| GeminiService.Forwarded | services/geminiService.ts:50-54 | the callback is called at most once per chunk and never with an empty text |
| GeminiService.ForwardedSingle | services/geminiService.ts:50-54 | one chunk is forwarded exactly when its text is present and non-empty |
| GeminiService.ForwardedAppend | services/geminiService.ts:49-55 | the callback sees the chunks of an earlier part of the stream before those of a later part |
| GeminiService.ForwardedConcat | services/geminiService.ts:48-57 | the forwarded texts concatenate to all chunk texts in order; missing and empty chunks add nothing |
| GeminiService.AccumulateChunks | services/geminiService.ts:48-55 | the loop forwards exactly the non-empty chunk texts in arrival order, and the full text is their concatenation |
| GeminiService.GenerateContent | services/geminiService.ts:28-65 | the request sent has the fixed model and topK, the prompt unchanged as contents and the tone's instruction as system instruction; on success the result is every chunk text in order; on failure the result is the wrapped message; in both cases the callback saw the chunks that arrived |
| GeminiService.FailureMessageShape | services/geminiService.ts:59-63 | the rethrown message is the fixed prefix and then the upstream message, or the fallback when that is missing or empty |
| App.ReplaceFences | App.tsx:45 | the global regex replace; it never lengthens the text |
| App.CleanOutput | App.tsx:45 | the replace followed by `trim`; it never lengthens the text |
| App.ReplaceFromTail | App.tsx:45 | after index 0 the regex can only match the closing fence at the very end |
| App.FenceRemoval | App.tsx:45 | the regex removes the opening fence (three backticks, "markdown", a line feed) at the start and three backticks at the end, each at most once, and nothing else |
| App.CleanUnfenced | App.tsx:45 | for text with neither fence, cleanup is just trimming |
| App.CleanStable | App.tsx:45 | cleaning a cleaned text again changes nothing when the cleaned text has no fence |
| App.CleanFenced | App.tsx:45 | a body between an opening and a closing fence is cleaned to the trimmed body |
| App.CleanFencedLine | App.tsx:45 | the opening fence, a text, a line feed and the closing fence are cleaned to the text, as a fenced "Hello" is cleaned to "Hello" |
| App.CleanNotIdempotent | App.tsx:45 | a reply starting with two opening fences changes again on a second cleanup |
| App.PrependCapped | App.tsx:58 | the new result comes first, the history has at most 50 entries, and the old entries follow in their order, all of them when there were fewer than 50 and all but the oldest when there were 50 |
| App.PrependCappedIsTake | App.tsx:58 | one history update keeps the first 50 of the new result followed by the old history |
| App.RecordAllKeepsNewest | App.tsx:58 | after any run of generations the history is the 50 most recent results, newest first, then what fits of the earlier history |
| App.AppErrorMessage | App.tsx:61 | the message shown is never empty, and unless it is the fallback it is the error's own message |
| App.ServiceErrorShown | App.tsx:61 | the service's message is never empty, so the application shows it and never its own fallback |
| App.ResultId | App.tsx:48 | every id is "res-" followed by at least one character |
| App.NewResult | App.tsx:47-55 | the result record: id, the parameters, the cleaned text, the timestamp and the elapsed time |
| App.TemplatePromptFor | App.tsx:35-36 | looking up the chosen template and calling its builder gives that content type's prompt |
| App.ResultIdsDistinct | App.tsx:48 | ids made at different clock readings differ |
| App.AppState.constructor | App.tsx:14-20 | not loading, no error, no result, an empty stream, and the stored history |
| App.AppState.BeginGeneration | App.tsx:29-32 | loading, no error, no result, an empty stream; history untouched |
| App.AppState.OnChunk | App.tsx:39-41 | the chunk is appended to the stream, nothing else changes |
| App.AppState.DeliverChunks | App.tsx:39-41 | after the callback calls the stream gains their concatenation, in order |
| App.AppState.HandleGenerate | App.tsx:28-65 | the request carries the prompt built by the chosen template; the stream ends up as all chunk texts; on success the cleaned result with id, params, timestamp and elapsed time is current and first in the capped history; on failure the error is the service's message, no result is current and the history is unchanged; loading ends in both cases |
| App.AppState.Generate | App.tsx:38-64 | the same for an already built prompt, relative to the state at the start of the `try` |
| App.AppState.Settle | App.tsx:42-64 | success records the cleaned result and prepends it to the history; failure sets the error only; loading ends |
| App.AppState.HandleSelectHistory | App.tsx:67-70 | the chosen result becomes current and the stream is cleared; history, loading and error are unchanged |
| App.AppState.HandleClearHistory | App.tsx:72-74 | the history becomes empty and nothing else changes |
| GeneratorForm.BlankIffWhitespace | components/GeneratorForm.tsx:25 | a prompt counts as blank exactly when it is all whitespace |
| GeneratorForm.FormState.constructor | components/GeneratorForm.tsx:11-15 | short story, "Fantasy", dramatic, an empty prompt and an empty placeholder |
| GeneratorForm.FormState.ContentTypeEffect | components/GeneratorForm.tsx:17-21 | the placeholder read from the chosen template becomes that content type's placeholder and the prompt is cleared; the other fields stay |
| GeneratorForm.FormState.SelectContentType | components/GeneratorForm.tsx:17-41 | a different content type resets placeholder and prompt; the same one changes nothing |
| GeneratorForm.FormState.SetGenre | components/GeneratorForm.tsx:57 | only the genre changes |
| GeneratorForm.FormState.SetTone | components/GeneratorForm.tsx:67 | only the tone changes |
| GeneratorForm.FormState.SetPromptText | components/GeneratorForm.tsx:82 | only the prompt text changes |
| GeneratorForm.FormState.Submit | components/GeneratorForm.tsx:23-30 | nothing while loading; the alert for a blank prompt; otherwise one `onGenerate` with the current fields and the prompt untrimmed |
| GeneratorForm.Mount | components/GeneratorForm.tsx:11-21 | after mounting: short story, "Fantasy", dramatic, an empty prompt and the short story's placeholder |

The record shapes are the datatypes themselves:
- `GenerationResult` has exactly `id`, `params`, `output`, `timestamp` and `performance.generationTime` (types.ts:25-33).
- `PromptTemplate.prompt` has type `(string, string) -> string` (types.ts:35-40).

Notes on behaviour:
- The cleanup is not idempotent in general. The regular expression has no
  `m` flag, so it removes one leading fence per pass.
  `App.CleanNotIdempotent` exhibits a reply that changes on a second pass.
  `App.CleanStable` gives the condition under which a second pass changes
  nothing.
- On failure the code does not clear the streaming buffer. The chunks that
  arrived before the failure stay in it, and `HandleGenerate` states exactly
  that. Whether the page shows them is decided by rendering code outside
  this model.

## Left out

- The SDK client, the network, `async`/`await` and the API key check: the stream is the `Upstream` parameter.
- The `temperature` and `topP` sampling settings: they are floating-point constants with no behaviour to verify.
- `useLocalStorage` (hooks/useLocalStorage is not part of this model): the history is an in-memory field, and the constructor takes the stored history as a parameter.
- `Date.now()` and `toISOString()`: clock readings and the timestamp are parameters, and id uniqueness over time is not claimed.
- The `sessionStorage` welcome flag and the welcome animation.
- The history panel and documentation modal toggles, and all rendering.
- `alert` and `console.error`: the alert is the `Rejected` outcome's message, and logging has no effect on the model.
- App.AppState.DeliverChunks: the callback's calls are returned by `GenerateContent` as a log and delivered to the streaming buffer after the stream ends. The interleaving of buffer updates with chunk arrival is not modelled; the final buffer is the same.
- Text.IsWhitespace: `trim` strips JavaScript's whitespace and line terminators, listed explicitly as the Unicode space separators known to the model. A newer Unicode version's additions are not modelled.
- App.AppState.HandleGenerate: the generation is treated as one atomic step. `handleGenerate` waits for the stream (App.tsx:39), and the history panel stays usable meanwhile (components/HistoryPanel.tsx:18, 45-48), so `handleSelectHistory` or `handleClearHistory` can run while chunks arrive. Those interleavings are not modelled, and the contract describes a generation during which neither runs. With a selection after the first chunks, the buffer would hold only the later chunks; with a clear, the new result would be prepended to the emptied history.
- App.AppState.Generate: it spans the same `await`, and the same interleavings are not modelled. Each handler method is stated against the current state, so such a run is the sequence of `BeginGeneration`, `OnChunk`, `HandleSelectHistory` or `HandleClearHistory`, and `Settle` in arrival order. No contract here covers that sequence as a whole.
- Cancellation and overlapping generations: there is no cancellation, and the disabled submit button keeps a second submission from starting while one runs (`Submit` returns `Blocked`).

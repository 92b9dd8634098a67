# Image generation through the Gemini REST API, and the App state around it

This project models two pieces of a browser front end for image generation.

- `generateImage` in `services/geminiService.ts`:
  - It builds the REST request: endpoint, API key and JSON payload.
  - It sends the request through a transport function.
  - It normalises any of three response shapes into one candidates value plus a prompt-feedback value. The shapes are a JSON object, a streamed JSON array of chunks, and a Server-Sent-Events text stream. The candidates value is an array for the array and event-stream forms. For an object body it is whatever `data.candidates` holds (`[]` when that is falsy), so it can be a string, a number or an object; reading the finish reasons of such a value raises "candidates.map is not a function".
  - It extracts the first inline image from the candidates, or throws a descriptive error, and classifies HTTP and network failures.
- The parts of `App.tsx` that own state around it:
  - the check on the reference-image upload (5 MB limit, then the `^data:(.+);base64,(.+)$` split);
  - `clearRefImage`;
  - `handleGenerate`: its guards, its call to the service, and the history and selection updated from the result.

Modules:

| module | file | what it holds |
|---|---|---|
| `Wrappers` | `wrappers.dfy` | `Option` and `Result` |
| `Seqs` | `seqs.dfy` | small generic sequence facts |
| `Js` | `js.dfy` | JavaScript values as a `Json` datatype |
| `JsText` | `jstext.dfy` | the string built-ins the code calls |
| `Request` | `request.dfy` | endpoint and payload |
| `Normalize` | `normalize.dfy` | the three response shapes |
| `Extract` | `extract.dfy` | the candidate scan and the failure chain |
| `GeminiService` | `service.dfy` | `generateImage` itself |
| `AppState` | `app.dfy` | the App's state as a class |

`Js` covers truthiness, property reads that raise `TypeError` on `null`, `for…of` and spread over iterables, and `String(v)`. `JsText` covers `trim`, `startsWith`, `endsWith`, `includes`, one-character `split`, `join` and decimal rendering.

How the model is built:

- **Functions as the specification.** Each step of `generateImage` is specified as a function:
  - `RequestFor`;
  - `Streamed` and `Standard`;
  - `ScanCandidates`;
  - `Outcome`;
  - `Attempted`, the whole `try` block;
  - `Caught`, the `catch` block;
  - `Generate`, the whole call.
- **Methods that follow the code.** The code's loops become methods proved equal to those functions:
  - `ReadBody`, the reader loop;
  - `NormalizeStreamed`, the array, object and event-stream strategies;
  - `ExtractImage`, the nested candidate and part loops with their `break`s;
  - `Attempt` and `GenerateImage`.
- **The candidate scan as events.** `ScanCandidates` flattens the candidates into one sequence of events, one per part: image, text, raised error or nothing. The first image or raised error decides the result; otherwise the result is the concatenated text.
- **The App as a class.** The App is a class whose fields are its React state. Each handler is a method that states the whole new state.

Behaviours of the code that the model keeps:

- The safety-block check applies whenever `promptFeedback.blockReason` is truthy, even when candidates exist. `OutcomeBlocked` shows that the candidates do not matter then.
- The feedback kept from a stream is the last truthy `promptFeedback`.
- A text that trims to nothing counts as no text, so the finish reasons decide.
- A chunk of a streamed JSON array that is `null`, or whose truthy `candidates` cannot be spread, makes the array strategy raise. The inner `catch` then reads the whole text as an event stream (`StreamedArrayRaises`). The event-stream loop skips such a chunk and goes on, so the two forms can disagree once a chunk raises: for `[{candidates: 5}, {candidates: ["c"]}]` the array form ends with no candidates and the event-stream form with `["c"]` (`StreamFormsDiffer`).
- The `catch` rewrites every error whose message contains "Failed to fetch" into the network hint. That includes a provider message or a refusal text.
- A plain body keeps `promptFeedback` as it stands, falsy or not. An object body still gives the same result streamed or not (`PlainObjectLikeStreamed`).
- App.tsx builds its settings with `referenceImage` and `referenceImageMimeType`, while the service reads `referenceImages` and `useStream`. So every request the App sends carries the prompt as its only part, on the non-streaming endpoint (`AppRequestCarriesPromptOnly`).
- Building a request is deterministic: `RequestFor` is a function of the settings, the base URL and the key.

## Model

| member | source | states |
|---|---|---|
| Js.Prop | services/geminiService.ts:146-153 | a property read on a non-null value finds something exactly when the value is an object holding that key |
| Js.Read | services/geminiService.ts:205 | reading a property raises exactly when the value is `null` |
| Js.Iterate | services/geminiService.ts:204-206 | `for…of` yields an array's items, one one-character string per code point of a string (the ensures give the count), and raises on anything else |
| JsText.TrimStartDrops | services/geminiService.ts:161-163 | `trimStart` removes exactly a run of leading white space and stops at the first other character |
| JsText.TrimEndDrops | services/geminiService.ts:161-163 | `trimEnd` removes exactly a run of trailing white space and stops at the last other character |
| JsText.TrimmedEnds | services/geminiService.ts:163 | a string `trim` leaves alone starts and ends with a non-white character |
| JsText.TrimDropsLeadingSpace | services/geminiService.ts:163 | the space after "data:" is dropped by `trim` from an already trimmed payload |
| JsText.BlankIsTrimmedEmpty | App.tsx:107 | `prompt.trim()` is empty exactly when every character of the prompt is white space |
| JsText.ContainsMiddle | services/geminiService.ts:247 | `includes` finds any piece placed between a prefix and a suffix |
| JsText.ContainsAfter | services/geminiService.ts:239 | `includes` still finds a piece after text is put in front |
| JsText.JoinContains | services/geminiService.ts:239 | a `join` of pieces contains each piece |
| JsText.SplitPrefix | services/geminiService.ts:159 | splitting a separator-free piece followed by more text joins it to the first piece of the rest |
| JsText.SplitJoin | services/geminiService.ts:159 | `split('\n')` recovers the lines of a text joined with newlines when no line holds a newline |
| Request.ApiBaseChoice | services/geminiService.ts:17-22 | a missing or empty base URL gives the default origin; otherwise exactly one trailing slash is removed, and a URL without one is kept |
| Request.DefaultHasNoTrailingSlash | services/geminiService.ts:17 | the default origin has no trailing slash, so it is used unchanged |
| Request.ApiBase | services/geminiService.ts:17-22 | the base the endpoint is built on; `ApiBaseChoice` states its three cases |
| Request.Endpoint | services/geminiService.ts:27-31 | the endpoint template; `EndpointShape` and `StreamFlagOnlySelectsMethod` state its shape |
| Request.MethodSegment | services/geminiService.ts:27-31 | after the model, the method segment is the streaming one exactly when the stream flag is set |
| Request.EndpointShape | services/geminiService.ts:27-31 | the endpoint starts with base + "/v1beta/models/" + model + ":", ends with "?key=" + key, and names `streamGenerateContent` exactly when streaming |
| Request.PartsForShape | services/geminiService.ts:36-53 | the parts are every reference image in order as inline data, then exactly one text part with the prompt |
| Request.PartsFor | services/geminiService.ts:36-53 | the `parts` list; `PartsForShape` states its order and contents, and `BuildParts` builds it by pushing |
| Request.PayloadFor | services/geminiService.ts:55-80 | the payload object; `PayloadShape` states its contents and the Pro-only `imageSize` |
| Request.RequestFor | services/geminiService.ts:27-80 | the endpoint and payload handed to `fetch`; `BuildRequest` computes it step by step |
| Request.PayloadShape | services/geminiService.ts:36-80 | one content holding those parts; `aspectRatio` always set; `imageSize` present exactly for the Pro model and then equal to the setting |
| Request.StreamFlagOnlySelectsMethod | services/geminiService.ts:27-80 | the stream flag changes the endpoint's method segment and leaves the payload identical |
| Request.BuildParts | services/geminiService.ts:36-53 | the loop that pushes the parts produces the image parts in order followed by the prompt part |
| Request.BuildRequest | services/geminiService.ts:17-80 | the imperative construction produces exactly the specified request |
| Normalize.LastFeedback | services/geminiService.ts:149 | the feedback kept from a run of chunks is always truthy |
| Normalize.LastFeedbackCons | services/geminiService.ts:147-150 | a later chunk's truthy feedback overrides an earlier one; an earlier one survives only when no later chunk has one |
| Normalize.ApplyWellFormed | services/geminiService.ts:148-149 | a well-formed chunk (not `null`, and any truthy `candidates` can be spread) appends its candidates and updates the feedback only when its own is truthy |
| Normalize.UpdatedCons | services/geminiService.ts:149 | folding the feedback over a list is folding its head and then its tail |
| Normalize.AllCandidatesCons | services/geminiService.ts:148 | the candidates pushed from the first chunk and then the rest are those of the whole list |
| Normalize.ArrayFoldCollects | services/geminiService.ts:146-150 | over well-formed chunks (not `null`, and any truthy `candidates` can be spread), the array strategy concatenates every chunk's candidates in order and keeps the last truthy feedback, raising nothing |
| Normalize.ArrayFoldStopsAtRaise | services/geminiService.ts:146-150 | the array strategy raises at the first chunk that is `null` or has truthy `candidates` that cannot be spread, after collecting from the chunks before it |
| Normalize.StreamedArray | services/geminiService.ts:143-150 | a body that parses to an array of well-formed chunks (not `null`, and any truthy `candidates` can be spread) normalises to their concatenated candidates and last truthy feedback |
| Normalize.StreamedObject | services/geminiService.ts:151-154 | a body that parses to an object takes its truthy `candidates` (else none) and its truthy `promptFeedback` (else none) |
| Normalize.StreamedArrayRaises | services/geminiService.ts:143-177 | when the array strategy raises, the event-stream strategy reads the whole text, starting from what the array strategy had already pushed |
| Normalize.SseFoldIsSkipFold | services/geminiService.ts:159-176 | the line loop equals collecting from the parsed payload chunks of its data lines, skipping every chunk that raises (`null`, or truthy `candidates` that cannot be spread) |
| Normalize.SkipFoldWellFormed | services/geminiService.ts:166-170 | on well-formed chunks (not `null`, and any truthy `candidates` can be spread), the per-line collection is the array strategy's collection |
| Normalize.SseAccumulatesLikeArray | services/geminiService.ts:159-176 | an event stream whose chunks are well-formed chunks (not `null`, and any truthy `candidates` can be spread) gathers their candidates in order and their last truthy feedback |
| Normalize.SseFoldAppend | services/geminiService.ts:160-176 | the line loop over two runs of lines is the loop over the second, started from the state after the first |
| Normalize.SseSkipsMalformedLine | services/geminiService.ts:166-173 | a data line whose payload does not parse changes nothing |
| Normalize.DataLinePayload | services/geminiService.ts:161-165 | "data: " + a trimmed non-empty payload yields that payload, except the `[DONE]` sentinel, which yields nothing |
| Normalize.DoneLinePayload | services/geminiService.ts:164 | "data: [DONE]" yields nothing |
| Normalize.ClosingLinesCarryNothing | services/geminiService.ts:164 | the closing sentinel line and the empty last line contribute no chunk |
| Normalize.DataLinesChunks | services/geminiService.ts:159-176 | data lines built from chunk encodings yield exactly those chunks, in order |
| Normalize.SseChunksAppend | services/geminiService.ts:160-176 | the chunks of two runs of lines are the chunks of each run, concatenated |
| Normalize.LinesFreeOfNewline | services/geminiService.ts:159 | the lines of a built event stream hold no newline |
| Normalize.EventStreamLines | services/geminiService.ts:159 | splitting a built event stream at newlines gives back its lines |
| Normalize.EventStreamChunks | services/geminiService.ts:159-176 | an event stream of data lines and the closing sentinel yields exactly the encoded chunks |
| Normalize.EventStreamMatchesArray | services/geminiService.ts:143-177 | an event stream and a JSON array of the same well-formed chunks (not `null`, and any truthy `candidates` can be spread) normalise to the same candidates and feedback |
| Normalize.EventStreamSkips | services/geminiService.ts:157-176 | a body that only reads as an event stream collects its chunks in order, skipping every chunk that raises |
| Normalize.UnspreadableArray | services/geminiService.ts:143-176 | the one-line JSON array `[{candidates: 5}, {candidates: ["c"]}]` raises at its first chunk, and the fallback finds no data line: no candidates |
| Normalize.UnspreadableSkipped | services/geminiService.ts:157-176 | the event stream of the same two chunks skips the first and keeps `["c"]` |
| Normalize.StreamFormsDiffer | services/geminiService.ts:143-177 | so the array and event-stream forms of the same chunks can normalise differently when a chunk raises without being `null` |
| Normalize.NormalizeStreamed | services/geminiService.ts:143-177 | the two-strategy parse with its nested try and catch computes the specified normalisation |
| Normalize.ApplyChunk | services/geminiService.ts:147-149 | one chunk's effect, or the raise of a `null` chunk or unspreadable candidates; `ApplyWellFormed` states the non-raising case |
| Normalize.ArrayFold | services/geminiService.ts:146-150 | `forEach` over the parsed array; `ArrayFoldCollects` and `ArrayFoldStopsAtRaise` state what it gathers |
| Normalize.DataPayload | services/geminiService.ts:161-165 | the JSON text a line carries after trimming and the "data:" test; `DataLinePayload` and `DoneLinePayload` state it on built lines |
| Normalize.SseStep | services/geminiService.ts:161-174 | one line of the event-stream loop; `SseSkipsMalformedLine` states that a line that does not parse changes nothing |
| Normalize.SseFold | services/geminiService.ts:159-176 | the loop over all lines; `SseFoldIsSkipFold`, `SseAccumulatesLikeArray` and `SseFoldAppend` state what it gathers |
| Normalize.Streamed | services/geminiService.ts:143-177 | the streamed normalisation; `StreamedArray`, `StreamedObject`, `StreamedArrayRaises` and `EventStreamMatchesArray` state its cases, and `NormalizeStreamed` computes it |
| Normalize.Standard | services/geminiService.ts:179-184 | the plain normalisation; `StandardCases` states its cases |
| Normalize.StandardCases | services/geminiService.ts:179-184 | a plain body that does not parse raises its SyntaxError; `null` raises on `.candidates`; an object gives its truthy `candidates` (else none) and its `promptFeedback` unchanged |
| Extract.DecideGathersAllText | services/geminiService.ts:204-221 | with no image and no raised error, the scan concatenates the text of every part |
| Extract.DecideFirstStop | services/geminiService.ts:204-221 | the first image or raised error decides the scan, whatever follows it |
| Extract.EventsAppend | services/geminiService.ts:204 | the events of two runs of candidates are the events of each run, concatenated |
| Extract.EarlierCandidateWins | services/geminiService.ts:204-221 | an image in an earlier candidate wins over anything in later candidates |
| Extract.SingleInlinePart | services/geminiService.ts:208-211 | one candidate with one inline part gives `data:<mime>;base64,<data>` |
| Extract.InlineMimeDefault | services/geminiService.ts:208-211 | an inline part's image URL takes its `mimeType` when that is truthy and "image/png" otherwise |
| Extract.SingleInlinePartDefaultMime | services/geminiService.ts:204-211 | one candidate with one inline part whose `mimeType` is missing or falsy gives `data:image/png;base64,<data>` |
| Extract.MapFinishReason | services/geminiService.ts:237 | `map(c => c.finishReason)` reads each candidate's reason in order, or raises when some candidate is `null` |
| Extract.AbnormalReasons | services/geminiService.ts:237 | every kept value is truthy and not "STOP", and nothing is kept exactly when every reason is absent or "STOP" |
| Extract.AbnormalReasonsMembers | services/geminiService.ts:237 | the filter keeps exactly the truthy reasons other than "STOP" |
| Extract.AbnormalReasonsAppend | services/geminiService.ts:237 | the filter keeps the order: the kept reasons of consecutive runs concatenate |
| Extract.StoppedMessageNamesReasons | services/geminiService.ts:238-239 | the stop message contains the rendering of every abnormal reason |
| Extract.OutcomeNoCandidates | services/geminiService.ts:187-189 | no candidates and no feedback fail with "API returned no candidates." |
| Extract.OutcomeBlocked | services/geminiService.ts:192-194 | a block reason fails with "Generation blocked: " + the reason, whatever the candidates are |
| Extract.OutcomeIgnoresFalsyFeedback | services/geminiService.ts:187-194 | a falsy feedback value behaves like no feedback |
| Extract.OutcomeFirstImage | services/geminiService.ts:199-226 | the first image event, with no raised error before it, is the result |
| Extract.OutcomeWithoutStop | services/geminiService.ts:199-229 | with no image and no raised error, the outcome is decided from the concatenated text alone |
| Extract.OutcomeRefusal | services/geminiService.ts:229-233 | a non-blank text without an image fails with a message that quotes the trimmed text |
| Extract.OutcomeNoImage | services/geminiService.ts:228-242 | with no image and blank text, the failure names the abnormal finish reasons when there are some, else gives the generic no-image message |
| Extract.AfterBlankScan | services/geminiService.ts:229-242 | a blank text goes on to the finish reasons |
| Extract.NoNullCandidate | services/geminiService.ts:204-237 | a scan that raised nothing saw no `null` candidate, so reading the finish reasons cannot raise |
| Extract.DecideStep | services/geminiService.ts:206-218 | one step of the part loop: an image or an error ends the scan; a text is appended; anything else is skipped |
| Extract.PartEventsAppend | services/geminiService.ts:206 | the parts are read one by one: the events of consecutive runs of parts concatenate |
| Extract.PartEvent | services/geminiService.ts:206-218 | what one part contributes; `DecideStep` and `ExtractImage` state how the loop acts on it |
| Extract.CandidateEvents | services/geminiService.ts:204-206 | what one candidate contributes, or the raise of a `null` candidate or unreadable parts; `EventsStep` and `EventsAppend` state how candidates combine |
| Extract.Decide | services/geminiService.ts:204-221 | the scan over the events; `DecideFirstStop` and `DecideGathersAllText` state its result |
| Extract.ScanCandidates | services/geminiService.ts:199-221 | the whole scan; `ExtractImage` computes it and `EarlierCandidateWins` and `SingleInlinePart` state its result |
| Extract.FinishReasons | services/geminiService.ts:237 | the kept finish reasons; `MapFinishReason`, `AbnormalReasons` and `NoNullCandidate` state what they hold |
| Extract.StoppedMessage | services/geminiService.ts:239 | the stop message; `StoppedMessageNamesReasons` states that it names every reason |
| Extract.AfterScan | services/geminiService.ts:228-242 | the failure chain after a scan without an image; `AfterBlankScan` and `OutcomeRefusal` state its cases |
| Extract.Outcome | services/geminiService.ts:186-242 | the result after normalisation; the `Outcome…` lemmas state each of its cases |
| Extract.EventsStep | services/geminiService.ts:204-205 | the events from one candidate onwards are that candidate's events, then the rest |
| Extract.ExtractImage | services/geminiService.ts:199-221 | the nested loops with their `break`s compute the specified scan |
| GeminiService.ConcatSnoc | services/geminiService.ts:130-137 | appending one more decoded chunk appends it to the text read so far |
| GeminiService.ReadBody | services/geminiService.ts:125-141 | the reader loop, or `text()` without a reader, yields every body chunk concatenated in arrival order |
| GeminiService.ContainsHasChar | services/geminiService.ts:247 | a message that contains a piece contains each character of that piece |
| GeminiService.CaughtPreserves | services/geminiService.ts:244-253 | the catch keeps a success as it is; it rewrites an error mentioning "Failed to fetch" into the network hint naming the base URL, rethrows any other error unchanged, and replaces a thrown non-Error by "An unexpected error occurred." |
| GeminiService.MissingKeyFailsFirst | services/geminiService.ts:11-13 | a missing or empty key fails with the key message, whatever the transport would do |
| GeminiService.FetchRejectionHint | services/geminiService.ts:244-248 | a fetch rejected with "Failed to fetch" fails with the network hint, which names the base URL in use |
| GeminiService.NonErrorRejection | services/geminiService.ts:252 | a fetch rejected with something other than an `Error` fails with "An unexpected error occurred." |
| GeminiService.HttpFailureClassified | services/geminiService.ts:93-114 | a non-2xx status raises the proxy hint for 404, the permission hint for 401 and 403, and the status or provider message otherwise |
| GeminiService.HintsLackCapitalF | services/geminiService.ts:107-110 | neither the 404 hint nor the 401/403 hint holds a capital F |
| GeminiService.NotFetchFailure | services/geminiService.ts:247 | a message without a capital F never counts as a failed fetch |
| GeminiService.HttpFailureReported | services/geminiService.ts:93-250 | through the catch, a 404 gives the proxy hint and a 401 or 403 the permission hint unchanged; any other status gives the provider or status message, or the network hint when that message mentions a failed fetch |
| GeminiService.HttpErrorMessageSource | services/geminiService.ts:94-103 | the HTTP error message quotes the provider's `error.message` when it is truthy, else it holds the status code and status text |
| GeminiService.HttpFailureIgnoresStreamFlag | services/geminiService.ts:93-120 | an HTTP failure does not depend on the stream flag |
| GeminiService.StreamedFormsAgree | services/geminiService.ts:120-177 | two successful streamed responses whose bodies normalise alike give the same attempt result |
| GeminiService.PlainObjectLikeStreamed | services/geminiService.ts:143-184 | an object body gives the same attempt result whether the call streams or not |
| GeminiService.PlainSingleImage | services/geminiService.ts:179-226 | a plain response with one candidate holding one inline part gives `data:<mime>;base64,<data>` through the whole call |
| GeminiService.ProviderMessage | services/geminiService.ts:95-103 | the provider's `error.message` of an error body; `HttpErrorMessageSource` states how it is used |
| GeminiService.HttpErrorMessage | services/geminiService.ts:94-103 | the unclassified message; `HttpErrorMessageSource` states what it holds |
| GeminiService.HttpFailure | services/geminiService.ts:105-113 | the error a non-ok status raises; `HttpFailureClassified` and `HttpFailureReported` state its cases |
| GeminiService.NormalizedBody | services/geminiService.ts:116-184 | the body normalised as the stream flag selects; `StreamedFormsAgree` and `PlainObjectLikeStreamed` state how the flag matters |
| GeminiService.Attempted | services/geminiService.ts:83-242 | the `try` block; `Attempt` computes it, and the lemmas above state its cases |
| GeminiService.Caught | services/geminiService.ts:244-253 | the `catch`; `CaughtPreserves` states its cases |
| GeminiService.Generate | services/geminiService.ts:10-254 | the whole call; `GenerateImage` computes it, and the lemmas above state its results |
| GeminiService.ChunkOfWellFormed | services/geminiService.ts:147-149 | a chunk built around one candidate is well-formed, contributes that candidate and carries no feedback |
| GeminiService.TextCandidateEvents | services/geminiService.ts:215-217 | a candidate with one text part yields one text event |
| GeminiService.ImageCandidateEvents | services/geminiService.ts:208-211 | a candidate with one inline part yields one image event with its data URL |
| GeminiService.TwoChunksCollected | services/geminiService.ts:146-150 | two one-candidate chunks are collected into both candidates, in order |
| GeminiService.TextThenImage | services/geminiService.ts:204-226 | a text candidate followed by an image candidate gives the image |
| GeminiService.OkResponseBody | services/geminiService.ts:125-141 | a one-chunk body reads as that chunk |
| GeminiService.TwoChunkArray | services/geminiService.ts:143-226 | a streamed JSON array of a text chunk and an image chunk gives `data:<mime>;base64,<data>` |
| GeminiService.TwoChunkStreamBody | services/geminiService.ts:155-177 | the same two chunks as "data: " lines closed by "data: [DONE]" normalise like the array |
| GeminiService.SameStreamedBody | services/geminiService.ts:120-177 | two successful streamed responses whose bodies normalise alike give the same result from the whole call |
| GeminiService.TwoChunkEventStream | services/geminiService.ts:143-226 | the event-stream form of the two chunks gives the same image as the array form |
| GeminiService.BlockReasonNamed | services/geminiService.ts:192-194 | a "SAFETY"-style block reason with no candidates fails with a message containing that reason |
| GeminiService.RefusalTextQuoted | services/geminiService.ts:229-233 | a lone refusal text fails with a message containing that exact text |
| GeminiService.Attempt | services/geminiService.ts:83-242 | the `try` block (fetch, HTTP check, body strategies, guards, scan and failure chain) computes the specified attempt |
| GeminiService.GenerateImage | services/geminiService.ts:10-254 | a request is sent exactly when a key is given, it is the specified request, and the result is the specified one |
| AppState.LastMarker | App.tsx:85 | the position found holds ";base64," with non-empty groups around it, and no later position up to the bound does |
| AppState.SplitDataUrl | App.tsx:85-86 | the regex split; `SplitSound`, `SplitComplete` and `SplitRoundTrip` state that it accepts exactly the strings of the pattern and returns the greedy groups |
| AppState.DataUrlLayout | App.tsx:85 | a data URL is "data:", the media type, ";base64," and the payload, at these positions |
| AppState.SplitSound | App.tsx:85-86 | whatever the split returns re-assembles into the input with non-empty, single-line groups |
| AppState.LineFreeAfterPrefix | App.tsx:85 | single-line groups give a data URL with no line terminator after "data:" |
| AppState.SplitComplete | App.tsx:85-86 | every string of the accepted form is split, with a first group at least as long as any other reading of it |
| AppState.MarkerStartsWithSemicolon | App.tsx:85 | the marker begins with ";" |
| AppState.SemicolonOnlyInMarker | App.tsx:85 | with a payload free of ";", no ";" follows the marker's own |
| AppState.SplitRoundTrip | App.tsx:85-88 | a data URL built from a single-line media type and a ";"-free single-line payload splits back into exactly those two |
| AppState.App.constructor | App.tsx:19-45 | the initial state: the stored base URL and key, an empty prompt, the Pro model, 1:1, 1K, no reference image, no error, an empty history and no selection |
| AppState.App.HandleImageUpload | App.tsx:70-96 | no file changes nothing; a file over 5 MB only sets the size error; otherwise the preview is set and the split sets the media type and data and clears the error, or sets the processing error and keeps the previous data and media type |
| AppState.App.ClearRefImage | App.tsx:98-103 | the preview, the raw data and the media type are cleared and nothing else changes |
| AppState.App.HandleGenerate | App.tsx:105-154 | a blank prompt without reference data changes nothing; no key shows the key error and opens the settings; otherwise the specified request is sent once, and the history, selection and error settle by the result |
| AppState.App.Submit | App.tsx:114-153 | with a key, the form's settings are sent, and the state settles by the specified result |
| AppState.App.Begin | App.tsx:114-116 | the spinner is on and the error and the selection are cleared, nothing else changing |
| AppState.App.Settle | App.tsx:130-153 | an image becomes the new first history entry with the prompt and settings used and is selected; an error is shown with the history kept and nothing selected; the spinner is off |
| AppState.AppRequestCarriesPromptOnly | App.tsx:118-128 | the request the App sends has the prompt as its only part and never uses the streaming endpoint, whatever reference image is loaded |

## Left out

- `fetch`, the network and `async`/`await` are modelled by a transport function passed in. It maps the request to a rejection or to a response carrying a status, a status text and the body's chunks.
- `JSON.parse` and `response.json()` are modelled by a parser function passed in. `JSON.stringify` of the payload is not modelled; the payload is kept as a datatype.
- `TextDecoder` is modelled as the identity on already decoded text chunks. Multi-byte sequences split across reads are not modelled.
- Console logging and the key redaction in the log line are left out. They have no effect on the result.
- Numbers are integers: the status, the file size and the timestamp. JSON numbers are kept as integers, and `String(n)` is modelled for integers only. `IntToString` writes every decimal digit, while JavaScript writes integers from 10^21 up in exponent form ("1e+21"), and `JSON.parse` rounds integers beyond 2^53 to the nearest double. The difference shows only when a block reason, a finish reason or a text is a number that large.
- The wording of the engine's `TypeError` messages is assumed, as V8 words them.
- React rendering, `localStorage`, the settings modal, the language toggle, `handleDownload`, the success notification and its timer, and the reset of the file input are left out. They are UI and do not change the generation state modelled here.
- `FileReader` is left out: the upload method receives the file's data URL directly. `crypto.randomUUID()` and `Date.now()` are parameters of `HandleGenerate`.
- The localised error strings are modelled as `AppError` keys, not as text.
- The maximum number of reference images is not enforced. The service accepts any number, and the App never sends any.

/**
 * `generateImage` of services/geminiService.ts end to end: the key check,
 * the request, the HTTP status classification, the reading of the body,
 * normalisation, the outcome chain, and the outer `catch` that rewrites
 * network failures. `fetch` and `JSON.parse` are parameters.
 */
module GeminiService {
  import opened Wrappers
  import opened JsText
  import opened Js
  import opened Request
  import opened Normalize
  import opened Extract

  const MissingKeyMessage: string := "API Key is missing. Please configure it in Settings."
  /** The 404 hint, written a sentence at a time (see `HintsLackCapitalF`). */
  const ProxyNotFoundMessage: string :=
    "Proxy Error (404): " + "The endpoint was not found. " + "Please check your Proxy URL setting. "
    + "It should usually be just the domain " + "(e.g., https://your-worker.dev) " + "without path suffixes."
  const PermissionMessage: string := "Permission Error: " + "Invalid API Key " + "or access denied by proxy."
  const UnexpectedMessage: string := "An unexpected error occurred."
  const FetchFailure: string := "Failed to fetch"

  function NetworkMessage(apiBase: string): string {
    "Network Error: Could not connect to " + apiBase + ". Please check your Proxy URL and CORS settings."
  }

  /**
   * A response: its status, its status text, and its body as the text chunks
   * the reader delivers in arrival order, already decoded; `hasReader` is
   * whether `response.body` offers a reader.
   */
  datatype Response = Response(status: nat, statusText: string, body: seq<string>, hasReader: bool)

  /** What `fetch` settles to: a rejection with what it throws, or a response. */
  datatype FetchOutcome = Rejected(thrown: Thrown) | Responded(response: Response)

  /** The network, which the model leaves abstract. */
  type Fetch = Request -> FetchOutcome

  /** `response.ok`. */
  predicate Ok(status: nat) {
    200 <= status <= 299
  }

  /** The whole body: the chunks, in order, joined. */
  function Concat(chunks: seq<string>): string {
    if chunks == [] then "" else chunks[0] + Concat(chunks[1..])
  }

  lemma {:induction false} ConcatSnoc(chunks: seq<string>, last: string)
    ensures Concat(chunks + [last]) == Concat(chunks) + last
  {
    if chunks == [] {
      assert chunks + [last] == [last];
      assert Concat([last]) == last + Concat([]);
    } else {
      assert (chunks + [last])[0] == chunks[0];
      assert (chunks + [last])[1..] == chunks[1..] + [last];
      ConcatSnoc(chunks[1..], last);
    }
  }

  // ---------------------------------------------------------------------------
  // HTTP failures.

  /** `errorData.error.message` of an error body, when it is truthy; a body that does not parse or is `null` has none. */
  function ProviderMessage(text: string, parse: Parser): Option<Json> {
    match parse(text)
    case Failure(_) => None
    case Success(data) =>
      if data == JNull then None
      else
        var e := Prop(data, "error");
        if Present(e) && Present(Prop(e.value, "message")) then Prop(e.value, "message") else None
  }

  function HttpErrorMessage(response: Response, parse: Parser): string {
    match ProviderMessage(Concat(response.body), parse)
    case Some(m) => "API Error: " + ToStr(m)
    case None => "HTTP Error: " + NatToString(response.status) + " " + response.statusText
  }

  /** The error a non-ok response raises: 404 and 401/403 are classified before the provider's message is used. */
  function HttpFailure(response: Response, parse: Parser): ErrorValue {
    if response.status == 404 then Error(ProxyNotFoundMessage)
    else if response.status == 403 || response.status == 401 then Error(PermissionMessage)
    else Error(HttpErrorMessage(response, parse))
  }

  // ---------------------------------------------------------------------------
  // The specification of one call.

  /** Steps 5 and the start of 6: the body normalised, or the error `response.json()` raises. */
  function NormalizedBody(response: Response, useStream: bool, parse: Parser): Result<Normalized, ErrorValue> {
    var text := Concat(response.body);
    if useStream then Success(Streamed(text, parse)) else Standard(text, parse)
  }

  /** The body of the `try`: the URL, or what it throws. */
  function Attempted(req: Request, useStream: bool, fetch: Fetch, parse: Parser): Result<string, Thrown> {
    match fetch(req)
    case Rejected(t) => Failure(t)
    case Responded(response) =>
      if !Ok(response.status) then Failure(Raised(HttpFailure(response, parse)))
      else
        match NormalizedBody(response, useStream, parse)
        case Failure(e) => Failure(Raised(e))
        case Success(n) =>
          match Outcome(n)
          case Success(url) => Success(url)
          case Failure(e) => Failure(Raised(e))
  }

  /** The `catch`: a failure to fetch gets the proxy hint, other errors pass, anything else is replaced. */
  function Caught(apiBase: string, r: Result<string, Thrown>): Result<string, ErrorValue> {
    match r
    case Success(url) => Success(url)
    case Failure(RaisedNonError) => Failure(Error(UnexpectedMessage))
    case Failure(Raised(e)) =>
      if Contains(e.message, FetchFailure) then Failure(Error(NetworkMessage(apiBase))) else Failure(e)
  }

  predicate KeyMissing(apiKey: Option<string>) {
    apiKey.None? || apiKey.value == ""
  }

  /** `generateImage({settings, baseUrl, apiKey})`: the data URL, or the error it rejects with. */
  function Generate(settings: Settings, baseUrl: Option<string>, apiKey: Option<string>, fetch: Fetch, parse: Parser)
    : Result<string, ErrorValue>
  {
    if KeyMissing(apiKey) then Failure(Error(MissingKeyMessage))
    else
      Caught(ApiBase(baseUrl),
        Attempted(RequestFor(settings, baseUrl, apiKey.value), settings.useStream, fetch, parse))
  }

  // ---------------------------------------------------------------------------
  // Properties of a call.

  /** `includes` needs every character of the piece it looks for. */
  lemma {:induction false} ContainsHasChar(s: string, sub: string, i: nat)
    ensures Contains(s, sub) && i < |sub| ==> sub[i] in s
  {
    if Contains(s, sub) && i < |sub| {
      if StartsWith(s, sub) {
        assert s[i] == sub[i];
      } else {
        ContainsHasChar(s[1..], sub, i);
        assert sub[i] in s[1..];
      }
    }
  }

  /** The catch keeps every error that does not mention a failed fetch, and never invents a success. */
  lemma CaughtPreserves(apiBase: string, r: Result<string, Thrown>)
    ensures Caught(apiBase, r).Success? <==> r.Success?
    ensures r.Success? ==> Caught(apiBase, r).value == r.value
    ensures r.Failure? && r.error.Raised? && !Contains(r.error.error.message, FetchFailure) ==>
      Caught(apiBase, r) == Failure(r.error.error)
    ensures r.Failure? && r.error.Raised? && Contains(r.error.error.message, FetchFailure) ==>
      Caught(apiBase, r) == Failure(Error(NetworkMessage(apiBase)))
        && Contains(Caught(apiBase, r).error.message, apiBase)
    ensures r == Failure(RaisedNonError) ==> Caught(apiBase, r) == Failure(Error(UnexpectedMessage))
  {
    if r.Failure? && r.error.Raised? && Contains(r.error.error.message, FetchFailure) {
      ContainsMiddle("Network Error: Could not connect to ", apiBase,
        ". Please check your Proxy URL and CORS settings.");
    }
  }

  /** A missing or empty key fails with the configuration error whatever the network would do. */
  lemma MissingKeyFailsFirst(settings: Settings, baseUrl: Option<string>, apiKey: Option<string>,
                             fetch: Fetch, fetch': Fetch, parse: Parser)
    requires KeyMissing(apiKey)
    ensures Generate(settings, baseUrl, apiKey, fetch, parse) == Failure(Error(MissingKeyMessage))
    ensures Generate(settings, baseUrl, apiKey, fetch, parse) == Generate(settings, baseUrl, apiKey, fetch', parse)
  {
  }

  /** A fetch that rejects with "Failed to fetch" is reported as a connection problem naming the base URL. */
  lemma FetchRejectionHint(settings: Settings, baseUrl: Option<string>, apiKey: string, fetch: Fetch,
                           parse: Parser, e: ErrorValue)
    requires apiKey != ""
    requires fetch(RequestFor(settings, baseUrl, apiKey)) == Rejected(Raised(e))
    requires Contains(e.message, FetchFailure)
    ensures Generate(settings, baseUrl, Some(apiKey), fetch, parse) == Failure(Error(NetworkMessage(ApiBase(baseUrl))))
    ensures Contains(Generate(settings, baseUrl, Some(apiKey), fetch, parse).error.message, ApiBase(baseUrl))
  {
    CaughtPreserves(ApiBase(baseUrl), Failure(Raised(e)));
  }

  /**
   * A non-ok status always fails, streamed or not, before the body is
   * normalised: 404 first, then 401/403, then the provider's message or the
   * raw status line.
   */
  lemma HttpFailureClassified(req: Request, useStream: bool, fetch: Fetch, parse: Parser, response: Response)
    requires fetch(req) == Responded(response) && !Ok(response.status)
    ensures var r := Attempted(req, useStream, fetch, parse);
      && (response.status == 404 ==> r == Failure(Raised(Error(ProxyNotFoundMessage))))
      && (response.status == 401 || response.status == 403 ==> r == Failure(Raised(Error(PermissionMessage))))
      && (response.status != 404 && response.status != 401 && response.status != 403 ==>
            r == Failure(Raised(Error(HttpErrorMessage(response, parse)))))
  {
  }

  /** A fetch that rejects with something other than an `Error` is reported as the unexpected error. */
  lemma NonErrorRejection(settings: Settings, baseUrl: Option<string>, apiKey: string, fetch: Fetch, parse: Parser)
    requires apiKey != ""
    requires fetch(RequestFor(settings, baseUrl, apiKey)) == Rejected(RaisedNonError)
    ensures Generate(settings, baseUrl, Some(apiKey), fetch, parse) == Failure(Error(UnexpectedMessage))
  {
    CaughtPreserves(ApiBase(baseUrl), Failure(RaisedNonError));
  }

  // The verifier reads a short literal character by character, so the hints
  // are checked for a capital F one sentence at a time.

  lemma ProxySentence1() ensures 'F' !in "Proxy Error (404): " {}
  lemma ProxySentence2() ensures 'F' !in "The endpoint was not found. " {}
  lemma ProxySentence3() ensures 'F' !in "Please check your Proxy URL setting. " {}
  lemma ProxySentence4() ensures 'F' !in "It should usually be just the domain " {}
  lemma ProxySentence5() ensures 'F' !in "(e.g., https://your-worker.dev) " {}
  lemma ProxySentence6() ensures 'F' !in "without path suffixes." {}

  /** Neither hint holds the first letter of "Failed to fetch". */
  lemma HintsLackCapitalF()
    ensures 'F' !in ProxyNotFoundMessage && 'F' !in PermissionMessage
  {
    ProxySentence1();
    ProxySentence2();
    ProxySentence3();
    ProxySentence4();
    ProxySentence5();
    ProxySentence6();
  }

  /** A message without a capital F is never taken for a failed fetch. */
  lemma NotFetchFailure(message: string)
    requires 'F' !in message
    ensures !Contains(message, FetchFailure)
  {
    ContainsHasChar(message, FetchFailure, 0);
  }

  /**
   * What the caller sees for a non-ok status: the 404 and 401/403 hints pass
   * the `catch` unchanged, and so does the unclassified message unless it
   * mentions a failed fetch.
   */
  lemma HttpFailureReported(settings: Settings, baseUrl: Option<string>, apiKey: string, fetch: Fetch,
                            parse: Parser, response: Response)
    requires apiKey != ""
    requires fetch(RequestFor(settings, baseUrl, apiKey)) == Responded(response) && !Ok(response.status)
    ensures var g := Generate(settings, baseUrl, Some(apiKey), fetch, parse);
      && (response.status == 404 ==> g == Failure(Error(ProxyNotFoundMessage)))
      && (response.status == 401 || response.status == 403 ==> g == Failure(Error(PermissionMessage)))
      && (response.status != 404 && response.status != 401 && response.status != 403 ==>
            var m := HttpErrorMessage(response, parse);
            g == if Contains(m, FetchFailure) then Failure(Error(NetworkMessage(ApiBase(baseUrl))))
                 else Failure(Error(m)))
  {
    var req := RequestFor(settings, baseUrl, apiKey);
    HttpFailureClassified(req, settings.useStream, fetch, parse, response);
    HintsLackCapitalF();
    NotFetchFailure(ProxyNotFoundMessage);
    NotFetchFailure(PermissionMessage);
    CaughtPreserves(ApiBase(baseUrl), Attempted(req, settings.useStream, fetch, parse));
  }

  /** The unclassified message: the provider's `error.message` when the body has one, else the status line. */
  lemma HttpErrorMessageSource(response: Response, parse: Parser)
    ensures var m := ProviderMessage(Concat(response.body), parse);
      && (m.Some? ==> Truthy(m.value) && HttpErrorMessage(response, parse) == "API Error: " + ToStr(m.value))
      && (m.None? ==> Contains(HttpErrorMessage(response, parse), NatToString(response.status) + " " + response.statusText))
  {
    var m := ProviderMessage(Concat(response.body), parse);
    if m.None? {
      ContainsMiddle("HTTP Error: ", NatToString(response.status) + " " + response.statusText, "");
      assert "HTTP Error: " + (NatToString(response.status) + " " + response.statusText) + ""
          == HttpErrorMessage(response, parse);
    }
  }

  /** The stream flag does not change how a non-ok response is reported. */
  lemma HttpFailureIgnoresStreamFlag(req: Request, fetch: Fetch, parse: Parser)
    requires fetch(req).Responded? && !Ok(fetch(req).response.status)
    ensures Attempted(req, true, fetch, parse) == Attempted(req, false, fetch, parse)
  {
  }

  /** A streamed body is decided only by its normalisation: two bodies normalising alike give the same result. */
  lemma StreamedFormsAgree(req: Request, fetch: Fetch, fetch': Fetch, parse: Parser)
    requires fetch(req).Responded? && fetch'(req).Responded?
    requires fetch(req).response.status == fetch'(req).response.status && Ok(fetch(req).response.status)
    requires Streamed(Concat(fetch(req).response.body), parse) == Streamed(Concat(fetch'(req).response.body), parse)
    ensures Attempted(req, true, fetch, parse) == Attempted(req, true, fetch', parse)
  {
  }

  // ---------------------------------------------------------------------------
  // Worked examples.

  function TextCandidate(text: string): Json {
    JObj(map["content" := JObj(map["parts" := JArr([JObj(map["text" := JStr(text)])])])])
  }

  function ImageCandidate(data: string, mimeType: string): Json {
    var inline := JObj(map["data" := JStr(data), "mimeType" := JStr(mimeType)]);
    JObj(map["content" := JObj(map["parts" := JArr([JObj(map["inlineData" := inline])])])])
  }

  /** A stream chunk carrying one candidate. */
  function ChunkOf(candidate: Json): Json {
    JObj(map["candidates" := JArr([candidate])])
  }

  lemma ChunkOfWellFormed(candidate: Json)
    ensures WellFormedChunk(ChunkOf(candidate)) && ChunkCandidates(ChunkOf(candidate)) == [candidate]
    ensures LastFeedback([ChunkOf(candidate)]) == None
  {
    assert Prop(ChunkOf(candidate), "promptFeedback") == None;
  }

  lemma TextCandidateEvents(text: string)
    requires text != ""
    ensures CandidateEvents(TextCandidate(text)) == [Text(text)]
  {
    var part := JObj(map["text" := JStr(text)]);
    assert PartEvent(part) == Text(text);
    assert PartEvents([part]) == [Text(text)];
  }

  lemma ImageCandidateEvents(data: string, mimeType: string)
    requires data != "" && mimeType != ""
    ensures CandidateEvents(ImageCandidate(data, mimeType)) == [Image(DataUrl(mimeType, data))]
  {
    var inline := JObj(map["data" := JStr(data), "mimeType" := JStr(mimeType)]);
    var part := JObj(map["inlineData" := inline]);
    assert PartEvent(part) == Image(DataUrl(mimeType, data));
    assert PartEvents([part]) == [Image(DataUrl(mimeType, data))];
  }

  /** The two chunks collected in order, with no feedback. */
  lemma TwoChunksCollected(c1: Json, c2: Json)
    ensures var chunks := [ChunkOf(c1), ChunkOf(c2)];
      WellFormed(chunks) && AllCandidates(chunks) == [c1, c2] && LastFeedback(chunks) == None
  {
    var chunks := [ChunkOf(c1), ChunkOf(c2)];
    ChunkOfWellFormed(c1);
    ChunkOfWellFormed(c2);
    assert chunks[1..] == [ChunkOf(c2)];
    assert AllCandidates(chunks) == [c1] + AllCandidates(chunks[1..]);
    assert AllCandidates([ChunkOf(c2)]) == [c2] + AllCandidates([]);
    LastFeedbackCons(ChunkOf(c1), [ChunkOf(c2)]);
  }

  /** A text candidate followed by an image candidate: the image is found. */
  lemma TextThenImage(refusal: string, data: string, mimeType: string)
    requires refusal != "" && data != "" && mimeType != ""
    ensures Outcome(Normalized(JArr([TextCandidate(refusal), ImageCandidate(data, mimeType)]), None))
         == Success(DataUrl(mimeType, data))
  {
    var c1, c2 := TextCandidate(refusal), ImageCandidate(data, mimeType);
    var url := DataUrl(mimeType, data);
    TextCandidateEvents(refusal);
    ImageCandidateEvents(data, mimeType);
    assert [c1, c2][1..] == [c2];
    assert Events([c2]) == CandidateEvents(c2) + Events([]);
    assert Events([c1, c2]) == [Text(refusal), Image(url)];
    DecideFirstStop([Text(refusal), Image(url)], "", 1);
    assert ScanCandidates(JArr([c1, c2])) == Found(url);
  }

  /** A response whose one chunk of body is the given text. */
  function OkResponse(text: string, statusText: string, hasReader: bool): Response {
    Response(200, statusText, [text], hasReader)
  }

  lemma OkResponseBody(text: string, statusText: string, hasReader: bool)
    ensures Concat(OkResponse(text, statusText, hasReader).body) == text
  {
    assert Concat([text]) == text + Concat([]);
  }

  /**
   * A streamed JSON array of two chunks, the first with a text candidate and
   * the second with an image candidate: both candidates are collected and the
   * image of the second is returned.
   */
  lemma TwoChunkArray(settings: Settings, baseUrl: Option<string>, apiKey: string, fetch: Fetch,
                      parse: Parser, text: string, statusText: string, hasReader: bool,
                      refusal: string, data: string, mimeType: string)
    requires apiKey != "" && settings.useStream
    requires refusal != "" && data != "" && mimeType != ""
    requires fetch(RequestFor(settings, baseUrl, apiKey)) == Responded(OkResponse(text, statusText, hasReader))
    requires parse(text) == Success(JArr([ChunkOf(TextCandidate(refusal)), ChunkOf(ImageCandidate(data, mimeType))]))
    ensures Generate(settings, baseUrl, Some(apiKey), fetch, parse) == Success(DataUrl(mimeType, data))
  {
    var c1, c2 := TextCandidate(refusal), ImageCandidate(data, mimeType);
    TwoChunksCollected(c1, c2);
    OkResponseBody(text, statusText, hasReader);
    StreamedArray(text, parse, [ChunkOf(c1), ChunkOf(c2)]);
    TextThenImage(refusal, data, mimeType);
  }

  /** A plain object body is read to the same result whether or not the call streams. */
  lemma PlainObjectLikeStreamed(req: Request, fetch: Fetch, parse: Parser, fields: map<string, Json>)
    requires fetch(req).Responded? && Ok(fetch(req).response.status)
    requires parse(Concat(fetch(req).response.body)) == Success(JObj(fields))
    ensures Attempted(req, false, fetch, parse) == Attempted(req, true, fetch, parse)
  {
    var text := Concat(fetch(req).response.body);
    StandardCases(text, parse);
    StreamedObject(text, parse, fields);
    var n := Standard(text, parse).value;
    OutcomeIgnoresFalsyFeedback(n.candidates, n.feedback);
  }

  /** A plain response with one candidate holding one inline part gives that image's data URL. */
  lemma PlainSingleImage(settings: Settings, baseUrl: Option<string>, apiKey: string, fetch: Fetch,
                         parse: Parser, text: string, statusText: string, hasReader: bool,
                         data: string, mimeType: string)
    requires apiKey != "" && !settings.useStream
    requires data != "" && mimeType != ""
    requires fetch(RequestFor(settings, baseUrl, apiKey)) == Responded(OkResponse(text, statusText, hasReader))
    requires parse(text) == Success(JObj(map["candidates" := JArr([ImageCandidate(data, mimeType)])]))
    ensures Generate(settings, baseUrl, Some(apiKey), fetch, parse) == Success(DataUrl(mimeType, data))
  {
    var c := ImageCandidate(data, mimeType);
    OkResponseBody(text, statusText, hasReader);
    StandardCases(text, parse);
    ImageCandidateEvents(data, mimeType);
    assert Events([c]) == CandidateEvents(c) + Events([]);
    assert ScanCandidates(JArr([c])) == Found(DataUrl(mimeType, data));
    assert Outcome(Normalized(JArr([c]), None)) == Success(DataUrl(mimeType, data));
  }

  /**
   * The same two chunks as an event stream ("data: " lines, then "data: [DONE]"
   * and a final newline): the result is the same image.
   */
  lemma TwoChunkEventStream(settings: Settings, baseUrl: Option<string>, apiKey: string,
                            fetchArray: Fetch, fetchStream: Fetch, parse: Parser,
                            first: string, second: string, arrayText: string, statusText: string,
                            refusal: string, data: string, mimeType: string)
    requires apiKey != "" && settings.useStream
    requires refusal != "" && data != "" && mimeType != ""
    requires LineSafe(first) && LineSafe(second)
    requires parse(first) == Success(ChunkOf(TextCandidate(refusal)))
    requires parse(second) == Success(ChunkOf(ImageCandidate(data, mimeType)))
    requires var sseText := Join(DataLines([first, second]) + ClosingLines, "\n");
      && parse(sseText).Failure?
      && fetchStream(RequestFor(settings, baseUrl, apiKey)) == Responded(OkResponse(sseText, statusText, true))
    requires parse(arrayText) == Success(JArr([ChunkOf(TextCandidate(refusal)), ChunkOf(ImageCandidate(data, mimeType))]))
    requires fetchArray(RequestFor(settings, baseUrl, apiKey)) == Responded(OkResponse(arrayText, statusText, true))
    ensures Generate(settings, baseUrl, Some(apiKey), fetchStream, parse)
         == Generate(settings, baseUrl, Some(apiKey), fetchArray, parse)
         == Success(DataUrl(mimeType, data))
  {
    var sseText := Join(DataLines([first, second]) + ClosingLines, "\n");
    TwoChunkStreamBody(first, second, sseText, arrayText, parse, TextCandidate(refusal), ImageCandidate(data, mimeType));
    TwoChunkArray(settings, baseUrl, apiKey, fetchArray, parse, arrayText, statusText, true, refusal, data, mimeType);
    SameStreamedBody(settings, baseUrl, apiKey, fetchArray, fetchStream, parse, sseText, arrayText, statusText);
  }

  /** The event stream of two chunks normalises like the JSON array of the same two chunks. */
  lemma TwoChunkStreamBody(first: string, second: string, sseText: string, arrayText: string,
                           parse: Parser, c1: Json, c2: Json)
    requires LineSafe(first) && LineSafe(second)
    requires parse(first) == Success(ChunkOf(c1)) && parse(second) == Success(ChunkOf(c2))
    requires sseText == Join(DataLines([first, second]) + ClosingLines, "\n") && parse(sseText).Failure?
    requires parse(arrayText) == Success(JArr([ChunkOf(c1), ChunkOf(c2)]))
    ensures Streamed(sseText, parse) == Streamed(arrayText, parse)
  {
    TwoChunksCollected(c1, c2);
    EventStreamMatchesArray([first, second], [ChunkOf(c1), ChunkOf(c2)], sseText, arrayText, parse);
  }

  /** Two streamed responses whose bodies normalise alike give the same result. */
  lemma SameStreamedBody(settings: Settings, baseUrl: Option<string>, apiKey: string,
                         fetchArray: Fetch, fetchStream: Fetch, parse: Parser,
                         sseText: string, arrayText: string, statusText: string)
    requires apiKey != "" && settings.useStream
    requires Streamed(sseText, parse) == Streamed(arrayText, parse)
    requires fetchStream(RequestFor(settings, baseUrl, apiKey)) == Responded(OkResponse(sseText, statusText, true))
    requires fetchArray(RequestFor(settings, baseUrl, apiKey)) == Responded(OkResponse(arrayText, statusText, true))
    ensures Generate(settings, baseUrl, Some(apiKey), fetchStream, parse)
         == Generate(settings, baseUrl, Some(apiKey), fetchArray, parse)
  {
    OkResponseBody(sseText, statusText, true);
    OkResponseBody(arrayText, statusText, true);
    StreamedFormsAgree(RequestFor(settings, baseUrl, apiKey), fetchStream, fetchArray, parse);
  }

  /** A block reason with no candidates: the error names the reason. */
  lemma BlockReasonNamed(reason: string)
    requires reason != ""
    ensures var n := Normalized(JArr([]), Some(JObj(map["blockReason" := JStr(reason)])));
      && Outcome(n) == Failure(Error(BlockedPrefix + reason))
      && Contains(Outcome(n).error.message, reason)
  {
    ContainsMiddle(BlockedPrefix, reason, "");
    assert BlockedPrefix + reason + "" == BlockedPrefix + reason;
  }

  /** A candidate with only a refusal text: the error holds that text verbatim. */
  lemma RefusalTextQuoted(refusal: string)
    requires refusal != "" && Trim(refusal) == refusal
    ensures var n := Normalized(JArr([TextCandidate(refusal)]), None);
      && Outcome(n) == Failure(Error(RefusalMessage(refusal)))
      && Contains(Outcome(n).error.message, refusal)
  {
    var n := Normalized(JArr([TextCandidate(refusal)]), None);
    TextCandidateEvents(refusal);
    assert Events([TextCandidate(refusal)]) == [Text(refusal)] + Events([]);
    assert Texts([Text(refusal)]) == refusal + Texts([]) == refusal;
    OutcomeRefusal(n);
  }

  // ---------------------------------------------------------------------------
  // The imperative call.

  /**
   * `responseText`: the reader loop appends each chunk in arrival order until
   * the reader reports done; without a reader, `response.text()` gives the
   * same text at once.
   */
  method ReadBody(response: Response) returns (responseText: string)
    ensures responseText == Concat(response.body)
  {
    if response.hasReader {
      responseText := "";
      var i := 0;
      while true
        invariant 0 <= i <= |response.body|
        invariant responseText == Concat(response.body[..i])
        decreases |response.body| - i
      {
        var done := i == |response.body|;
        if done {
          break;
        }
        ConcatSnoc(response.body[..i], response.body[i]);
        assert response.body[..i + 1] == response.body[..i] + [response.body[i]];
        responseText := responseText + response.body[i];
        i := i + 1;
      }
      assert response.body[..i] == response.body;
    } else {
      responseText := Concat(response.body);
    }
  }

  /** The body of the `try`, step by step; a `throw` is a returned failure. */
  method Attempt(req: Request, useStream: bool, fetch: Fetch, parse: Parser) returns (r: Result<string, Thrown>)
    ensures r == Attempted(req, useStream, fetch, parse)
  {
    var outcome := fetch(req);
    if outcome.Rejected? {
      return Failure(outcome.thrown);
    }
    var response := outcome.response;

    if !(200 <= response.status <= 299) {
      var errorMsg := "HTTP Error: " + NatToString(response.status) + " " + response.statusText;
      var errorData := parse(Concat(response.body));
      if errorData.Success? && errorData.value != JNull {
        var e := Prop(errorData.value, "error");
        if Present(e) && Present(Prop(e.value, "message")) {
          errorMsg := "API Error: " + ToStr(Prop(e.value, "message").value);
        }
      }
      if response.status == 404 {
        return Failure(Raised(Error(ProxyNotFoundMessage)));
      }
      if response.status == 403 || response.status == 401 {
        return Failure(Raised(Error(PermissionMessage)));
      }
      return Failure(Raised(Error(errorMsg)));
    }

    var normalized: Normalized;
    if useStream {
      var responseText := ReadBody(response);
      normalized := NormalizeStreamed(responseText, parse);
    } else {
      var data := Standard(Concat(response.body), parse);
      if data.Failure? {
        return Failure(Raised(data.error));
      }
      normalized := data.value;
    }
    assert NormalizedBody(response, useStream, parse) == Success(normalized);

    var candidates, promptFeedback := normalized.candidates, normalized.feedback;
    if NoCandidates(candidates) && !Present(promptFeedback) {
      return Failure(Raised(Error(NoCandidatesMessage)));
    }
    if Blocked(promptFeedback) {
      return Failure(Raised(Error(BlockedPrefix + ToStr(BlockReason(promptFeedback)))));
    }

    var scan := ExtractImage(candidates);
    match scan {
      case Found(generatedImage) =>
        return Success(generatedImage);
      case Threw(e) =>
        return Failure(Raised(e));
      case NotFound(generatedText) =>
        if generatedText != "" {
          var cleanText := Trim(generatedText);
          if |cleanText| > 0 {
            return Failure(Raised(Error(RefusalMessage(cleanText))));
          }
        }
        var finishReasons := FinishReasons(candidates);
        if finishReasons.Failure? {
          return Failure(Raised(finishReasons.error));
        }
        if |finishReasons.value| > 0 {
          return Failure(Raised(Error(StoppedMessage(finishReasons.value))));
        }
        return Failure(Raised(Error(NoImageMessage)));
    }
  }

  /**
   * `generateImage`: the request is built and handed to `fetch` exactly when
   * a key is given, and the result is the specified one.
   */
  method GenerateImage(settings: Settings, baseUrl: Option<string>, apiKey: Option<string>,
                       fetch: Fetch, parse: Parser)
    returns (sent: Option<Request>, result: Result<string, ErrorValue>)
    ensures result == Generate(settings, baseUrl, apiKey, fetch, parse)
    ensures sent.None? <==> KeyMissing(apiKey)
    ensures sent.Some? ==> sent.value == RequestFor(settings, baseUrl, apiKey.value)
  {
    if apiKey.None? || apiKey.value == "" {
      return None, Failure(Error(MissingKeyMessage));
    }
    var apiBase := ApiBase(baseUrl);
    var req := BuildRequest(settings, baseUrl, apiKey.value);
    sent := Some(req);

    var attempt := Attempt(req, settings.useStream, fetch, parse);
    match attempt {
      case Success(url) =>
        result := Success(url);
      case Failure(RaisedNonError) =>
        result := Failure(Error(UnexpectedMessage));
      case Failure(Raised(error)) =>
        if Contains(error.message, FetchFailure) {
          result := Failure(Error(NetworkMessage(apiBase)));
        } else {
          result := Failure(error);
        }
    }
  }
}

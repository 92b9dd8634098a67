/**
 * How services/geminiService.ts turns a response body into `candidates` and
 * `promptFeedback`. A streamed body is first parsed whole: an array is read
 * chunk by chunk, any other value as one object. When that parse (or the
 * reading of the value) raises, the text is read as an event stream: every
 * "data:" line carries one JSON chunk, "[DONE]" and empty payloads are
 * skipped, and a line that does not parse is skipped without aborting.
 * A plain body is parsed once.
 */
module Normalize {
  import opened Wrappers
  import opened JsText
  import opened Js
  import opened Seqs

  /** What the resolver has gathered: the candidates pushed so far, in order, and the feedback. */
  datatype Acc = Acc(candidates: seq<Json>, feedback: Option<Json>)

  /** `let candidates = []; let promptFeedback = null`. */
  const Start: Acc := Acc([], None)

  /** The result of normalisation: `candidates` as a value (not always an array) and `promptFeedback`. */
  datatype Normalized = Normalized(candidates: Json, feedback: Option<Json>)

  /**
   * One chunk: `if (chunk.candidates) candidates.push(...chunk.candidates);
   * if (chunk.promptFeedback) promptFeedback = chunk.promptFeedback`.
   * None when the chunk raises: it is `null`, or its candidates cannot be spread.
   */
  function ApplyChunk(st: Acc, chunk: Json): Option<Acc> {
    if chunk == JNull then None
    else
      var c := Prop(chunk, "candidates");
      if Present(c) && Iterate(c.value).None? then None
      else
        var cands := if Present(c) then st.candidates + Iterate(c.value).value else st.candidates;
        var fb := Prop(chunk, "promptFeedback");
        Some(Acc(cands, if Present(fb) then fb else st.feedback))
  }

  /**
   * `data.forEach(chunk => ...)` over a parsed array. The flag is true when a
   * chunk raised; the state is then what the chunks before it left.
   */
  function ArrayFold(st: Acc, chunks: seq<Json>): (Acc, bool)
    decreases chunks
  {
    if chunks == [] then (st, false)
    else
      match ApplyChunk(st, chunks[0])
      case None => (st, true)
      case Some(next) => ArrayFold(next, chunks[1..])
  }

  /** The JSON text an event-stream line carries; None for a line skipped before parsing. */
  function DataPayload(line: string): Option<string> {
    var trimmed := Trim(line);
    if !StartsWith(trimmed, "data:") then None
    else
      var jsonStr := Trim(trimmed[5..]);
      if jsonStr == "[DONE]" || jsonStr == "" then None else Some(jsonStr)
  }

  /** One event-stream line; a line whose chunk does not parse, or raises, changes nothing. */
  function SseStep(st: Acc, line: string, parse: Parser): Acc {
    match DataPayload(line)
    case None => st
    case Some(text) =>
      match parse(text)
      case Failure(_) => st
      case Success(chunk) =>
        match ApplyChunk(st, chunk)
        case None => st
        case Some(next) => next
  }

  function SseFold(st: Acc, lines: seq<string>, parse: Parser): Acc
    decreases lines
  {
    if lines == [] then st else SseFold(SseStep(st, lines[0], parse), lines[1..], parse)
  }

  function Finish(st: Acc): Normalized {
    Normalized(JArr(st.candidates), st.feedback)
  }

  /** Normalisation of a streamed body (strategy A, then the event-stream fallback). */
  function Streamed(text: string, parse: Parser): Normalized {
    var lines := Split(text, '\n');
    match parse(text)
    case Failure(_) => Finish(SseFold(Start, lines, parse))
    case Success(data) =>
      if data == JNull then Finish(SseFold(Start, lines, parse))
      else if data.JArr? then
        var (st, raised) := ArrayFold(Start, data.items);
        if raised then Finish(SseFold(st, lines, parse)) else Finish(st)
      else
        var c := Prop(data, "candidates");
        var fb := Prop(data, "promptFeedback");
        Normalized(if Present(c) then c.value else JArr([]), if Present(fb) then fb else None)
  }

  /**
   * Normalisation of a plain body: `data.candidates || []` and
   * `data.promptFeedback`; a body that does not parse raises its SyntaxError.
   */
  function Standard(text: string, parse: Parser): Result<Normalized, ErrorValue> {
    match parse(text)
    case Failure(message) => Failure(ErrorValue("SyntaxError", message))
    case Success(data) =>
      if data == JNull then Failure(NullRead("candidates"))
      else
        var c := Prop(data, "candidates");
        Success(Normalized(if Present(c) then c.value else JArr([]), Prop(data, "promptFeedback")))
  }

  /**
   * A plain body: a parse error raises, `null` raises on `.candidates`, and an
   * object gives its truthy `candidates` (else none) and its `promptFeedback`
   * as it stands, falsy or not.
   */
  lemma StandardCases(text: string, parse: Parser)
    ensures parse(text).Failure? ==> Standard(text, parse) == Failure(ErrorValue("SyntaxError", parse(text).error))
    ensures parse(text) == Success(JNull) ==> Standard(text, parse) == Failure(NullRead("candidates"))
    ensures parse(text).Success? && parse(text).value.JObj? ==>
      var f := parse(text).value.fields;
      Standard(text, parse) == Success(Normalized(
        if "candidates" in f && Truthy(f["candidates"]) then f["candidates"] else JArr([]),
        if "promptFeedback" in f then Some(f["promptFeedback"]) else None))
  {
  }

  // ---------------------------------------------------------------------------
  // Reference definitions: what a sequence of well-formed chunks contributes.

  /** A chunk that does not raise: not `null`, and its candidates, if any, can be spread. */
  predicate WellFormedChunk(chunk: Json) {
    chunk != JNull
    && var c := Prop(chunk, "candidates");
       (Present(c) ==> Iterate(c.value).Some?)
  }

  predicate WellFormed(chunks: seq<Json>) {
    forall i :: 0 <= i < |chunks| ==> WellFormedChunk(chunks[i])
  }

  function ChunkCandidates(chunk: Json): seq<Json>
    requires WellFormedChunk(chunk)
  {
    var c := Prop(chunk, "candidates");
    if Present(c) then Iterate(c.value).value else []
  }

  /** The order-preserving concatenation of every chunk's candidates. */
  function AllCandidates(chunks: seq<Json>): seq<Json>
    requires WellFormed(chunks)
  {
    if chunks == [] then [] else ChunkCandidates(chunks[0]) + AllCandidates(chunks[1..])
  }

  /** The feedback of the last chunk whose feedback is truthy, looked for from the end. */
  function LastFeedback(chunks: seq<Json>): (r: Option<Json>)
    ensures r.Some? ==> Truthy(r.value)
  {
    if chunks == [] then None
    else
      var last := chunks[|chunks| - 1];
      var fb := if last == JNull then None else Prop(last, "promptFeedback");
      if Present(fb) then fb else LastFeedback(chunks[..|chunks| - 1])
  }

  /** The feedback after the chunks, starting from `prior`. */
  function Updated(prior: Option<Json>, chunks: seq<Json>): Option<Json> {
    if LastFeedback(chunks).Some? then LastFeedback(chunks) else prior
  }

  lemma {:induction false} LastFeedbackCons(chunk: Json, rest: seq<Json>)
    requires chunk != JNull
    ensures LastFeedback([chunk] + rest) ==
      if LastFeedback(rest).Some? then LastFeedback(rest)
      else if Present(Prop(chunk, "promptFeedback")) then Prop(chunk, "promptFeedback")
      else None
  {
    var all := [chunk] + rest;
    if rest == [] {
      assert all == [chunk];
      assert all[..0] == [];
    } else {
      assert all[|all| - 1] == rest[|rest| - 1];
      assert all[..|all| - 1] == [chunk] + rest[..|rest| - 1];
      LastFeedbackCons(chunk, rest[..|rest| - 1]);
    }
  }

  /** The feedback after one chunk that is not `null`. */
  function FeedbackAfter(prior: Option<Json>, chunk: Json): Option<Json>
    requires chunk != JNull
  {
    var fb := Prop(chunk, "promptFeedback");
    if Present(fb) then fb else prior
  }

  /** A well-formed chunk does not raise: it pushes its candidates and updates the feedback. */
  lemma ApplyWellFormed(st: Acc, chunk: Json)
    requires WellFormedChunk(chunk)
    ensures ApplyChunk(st, chunk) == Some(Acc(st.candidates + ChunkCandidates(chunk), FeedbackAfter(st.feedback, chunk)))
  {
    var c := Prop(chunk, "candidates");
    if Present(c) {
      assert ChunkCandidates(chunk) == Iterate(c.value).value;
    } else {
      assert ChunkCandidates(chunk) == [] && st.candidates + [] == st.candidates;
    }
  }

  /** The feedback after a chunk and the ones after it. */
  lemma UpdatedCons(prior: Option<Json>, head: Json, rest: seq<Json>)
    requires head != JNull
    ensures Updated(prior, [head] + rest) == Updated(FeedbackAfter(prior, head), rest)
  {
    LastFeedbackCons(head, rest);
  }

  lemma WellFormedTail(chunks: seq<Json>)
    requires WellFormed(chunks) && chunks != []
    ensures WellFormedChunk(chunks[0]) && WellFormed(chunks[1..])
  {
    assert forall i :: 0 <= i < |chunks| - 1 ==> chunks[1..][i] == chunks[i + 1];
  }

  /** What a well-formed first chunk contributes, ahead of the rest. */
  lemma AllCandidatesCons(st: seq<Json>, chunks: seq<Json>)
    requires WellFormed(chunks) && chunks != []
    ensures WellFormed(chunks[1..])
    ensures st + ChunkCandidates(chunks[0]) + AllCandidates(chunks[1..]) == st + AllCandidates(chunks)
  {
    WellFormedTail(chunks);
    AppendAssociates(st, ChunkCandidates(chunks[0]), AllCandidates(chunks[1..]));
  }

  /**
   * Reading an array of well-formed chunks pushes all their candidates in
   * order, keeps the last truthy feedback and does not raise.
   */
  lemma {:induction false} ArrayFoldCollects(st: Acc, chunks: seq<Json>)
    requires WellFormed(chunks)
    decreases chunks
    ensures ArrayFold(st, chunks) ==
      (Acc(st.candidates + AllCandidates(chunks), Updated(st.feedback, chunks)), false)
  {
    if chunks == [] {
      assert st.candidates + [] == st.candidates;
    } else {
      var head, rest := chunks[0], chunks[1..];
      WellFormedTail(chunks);
      ApplyWellFormed(st, head);
      var next := Acc(st.candidates + ChunkCandidates(head), FeedbackAfter(st.feedback, head));
      assert ArrayFold(st, chunks) == ArrayFold(next, rest);
      ArrayFoldCollects(next, rest);
      assert chunks == [head] + rest;
      UpdatedCons(st.feedback, head, rest);
      AllCandidatesCons(st.candidates, chunks);
    }
  }

  /**
   * A chunk that raises stops the array: the chunks before it have been
   * pushed, the chunks after it are not read, and the flag is set.
   */
  lemma {:induction false} ArrayFoldStopsAtRaise(st: Acc, chunks: seq<Json>, k: nat)
    requires k < |chunks|
    requires WellFormed(chunks[..k]) && !WellFormedChunk(chunks[k])
    decreases k
    ensures ArrayFold(st, chunks) ==
      (Acc(st.candidates + AllCandidates(chunks[..k]), Updated(st.feedback, chunks[..k])), true)
  {
    if k == 0 {
      assert chunks[..0] == [];
      assert st.candidates + [] == st.candidates;
    } else {
      var pre, head, rest := chunks[..k], chunks[0], chunks[1..];
      assert pre[0] == head && pre[1..] == rest[..k - 1];
      WellFormedTail(pre);
      ApplyWellFormed(st, head);
      var next := Acc(st.candidates + ChunkCandidates(head), FeedbackAfter(st.feedback, head));
      assert ArrayFold(st, chunks) == ArrayFold(next, rest);
      assert rest[k - 1] == chunks[k];
      ArrayFoldStopsAtRaise(next, rest, k - 1);
      assert pre == [head] + rest[..k - 1];
      UpdatedCons(st.feedback, head, rest[..k - 1]);
      AllCandidatesCons(st.candidates, pre);
    }
  }

  /** A streamed body that is one JSON array of well-formed chunks. */
  lemma StreamedArray(text: string, parse: Parser, chunks: seq<Json>)
    requires parse(text) == Success(JArr(chunks)) && WellFormed(chunks)
    ensures Streamed(text, parse) == Normalized(JArr(AllCandidates(chunks)), LastFeedback(chunks))
  {
    ArrayFoldCollects(Start, chunks);
    assert [] + AllCandidates(chunks) == AllCandidates(chunks);
  }

  /** A streamed body that is one JSON object gives its own candidates and truthy feedback. */
  lemma StreamedObject(text: string, parse: Parser, fields: map<string, Json>)
    requires parse(text) == Success(JObj(fields))
    ensures var n := Streamed(text, parse);
      && n.candidates == (if "candidates" in fields && Truthy(fields["candidates"])
                          then fields["candidates"] else JArr([]))
      && n.feedback == (if "promptFeedback" in fields && Truthy(fields["promptFeedback"])
                        then Some(fields["promptFeedback"]) else None)
  {
  }

  /**
   * A streamed array whose chunk k raises: what the earlier chunks pushed is
   * kept and the event-stream reading of the same text goes on from there.
   */
  lemma StreamedArrayRaises(text: string, parse: Parser, chunks: seq<Json>, k: nat)
    requires parse(text) == Success(JArr(chunks))
    requires k < |chunks| && WellFormed(chunks[..k]) && !WellFormedChunk(chunks[k])
    ensures Streamed(text, parse) ==
      Finish(SseFold(Acc(AllCandidates(chunks[..k]), LastFeedback(chunks[..k])), Split(text, '\n'), parse))
  {
    ArrayFoldStopsAtRaise(Start, chunks, k);
    assert [] + AllCandidates(chunks[..k]) == AllCandidates(chunks[..k]);
  }

  // ---------------------------------------------------------------------------
  // The event-stream fallback.

  /** The chunk a line contributes: the parse of its payload, when it has one that parses. */
  function LineChunk(line: string, parse: Parser): seq<Json> {
    match DataPayload(line)
    case None => []
    case Some(text) =>
      match parse(text)
      case Failure(_) => []
      case Success(chunk) => [chunk]
  }

  /** The chunks an event stream carries, in line order. */
  function SseChunks(lines: seq<string>, parse: Parser): seq<Json> {
    if lines == [] then [] else LineChunk(lines[0], parse) + SseChunks(lines[1..], parse)
  }

  /** Applying chunks one after another, skipping those that raise. */
  function SkipFold(st: Acc, chunks: seq<Json>): Acc
    decreases chunks
  {
    if chunks == [] then st
    else
      var next := match ApplyChunk(st, chunks[0]) case None => st case Some(n) => n;
      SkipFold(next, chunks[1..])
  }

  lemma {:induction false} SseFoldIsSkipFold(st: Acc, lines: seq<string>, parse: Parser)
    decreases lines
    ensures SseFold(st, lines, parse) == SkipFold(st, SseChunks(lines, parse))
  {
    if lines != [] {
      var head := LineChunk(lines[0], parse);
      var rest := SseChunks(lines[1..], parse);
      SseFoldIsSkipFold(SseStep(st, lines[0], parse), lines[1..], parse);
      if head != [] {
        assert (head + rest)[0] == head[0];
        assert (head + rest)[1..] == rest;
      } else {
        assert head + rest == rest;
      }
    }
  }

  lemma {:induction false} SkipFoldWellFormed(st: Acc, chunks: seq<Json>)
    requires WellFormed(chunks)
    decreases chunks
    ensures SkipFold(st, chunks) == ArrayFold(st, chunks).0
  {
    if chunks != [] {
      assert WellFormed(chunks[1..]) by {
        forall i | 0 <= i < |chunks[1..]| ensures WellFormedChunk(chunks[1..][i]) {
          assert chunks[1..][i] == chunks[i + 1];
        }
      }
      SkipFoldWellFormed(ApplyChunk(st, chunks[0]).value, chunks[1..]);
    }
  }

  /**
   * When every chunk of an event stream is well formed, the stream accumulates
   * exactly as a JSON array of the same chunks would.
   */
  lemma SseAccumulatesLikeArray(st: Acc, lines: seq<string>, parse: Parser)
    requires WellFormed(SseChunks(lines, parse))
    ensures SseFold(st, lines, parse) ==
      Acc(st.candidates + AllCandidates(SseChunks(lines, parse)),
          Updated(st.feedback, SseChunks(lines, parse)))
  {
    SseFoldIsSkipFold(st, lines, parse);
    SkipFoldWellFormed(st, SseChunks(lines, parse));
    ArrayFoldCollects(st, SseChunks(lines, parse));
  }

  lemma {:induction false} SseFoldAppend(st: Acc, a: seq<string>, b: seq<string>, parse: Parser)
    decreases a
    ensures SseFold(st, a + b, parse) == SseFold(SseFold(st, a, parse), b, parse)
  {
    if a == [] {
      assert a + b == b;
    } else {
      assert (a + b)[0] == a[0];
      assert (a + b)[1..] == a[1..] + b;
      SseFoldAppend(SseStep(st, a[0], parse), a[1..], b, parse);
    }
  }

  /** A data line whose payload does not parse is skipped; the lines around it are read as before. */
  lemma SseSkipsMalformedLine(st: Acc, a: seq<string>, bad: string, b: seq<string>, parse: Parser)
    requires DataPayload(bad).Some? && parse(DataPayload(bad).value).Failure?
    ensures SseFold(st, a + [bad] + b, parse) == SseFold(st, a + b, parse)
  {
    SseFoldAppend(st, a + [bad], b, parse);
    SseFoldAppend(st, a, [bad], parse);
    SseFoldAppend(st, a, b, parse);
    assert [bad][1..] == [];
  }

  /** The "data: <chunk>" lines of an event stream carrying the given chunk texts. */
  function DataLines(encodings: seq<string>): (r: seq<string>)
    ensures |r| == |encodings|
    ensures forall i :: 0 <= i < |r| ==> r[i] == "data: " + encodings[i]
  {
    if encodings == [] then [] else ["data: " + encodings[0]] + DataLines(encodings[1..])
  }

  /** A chunk text the event stream can carry unchanged on one line. */
  predicate LineSafe(e: string) {
    '\n' !in e && Trim(e) == e && e != "" && e != "[DONE]"
  }

  /** A data line whose text `trim` leaves alone yields that text, unless it is the sentinel. */
  lemma DataLinePayload(e: string)
    requires Trim(e) == e && e != ""
    ensures DataPayload("data: " + e) == if e == "[DONE]" then None else Some(e)
  {
    TrimmedEnds(e);
    var line := "data: " + e;
    assert line[|line| - 1] == e[|e| - 1];
    assert Trim(line) == line by {
      assert TrimStart(line) == line;
    }
    assert StartsWith(line, "data:");
    assert line[5..] == " " + e;
    TrimDropsLeadingSpace(e);
  }

  lemma {:induction false} DataLinesChunks(encodings: seq<string>, chunks: seq<Json>, parse: Parser)
    requires |encodings| == |chunks|
    requires forall i :: 0 <= i < |encodings| ==> LineSafe(encodings[i])
    requires forall i :: 0 <= i < |encodings| ==> parse(encodings[i]) == Success(chunks[i])
    ensures SseChunks(DataLines(encodings), parse) == chunks
  {
    if encodings != [] {
      assert LineSafe(encodings[0]);
      DataLinePayload(encodings[0]);
      var lines := DataLines(encodings);
      assert lines[1..] == DataLines(encodings[1..]);
      DataLinesChunks(encodings[1..], chunks[1..], parse);
    }
  }

  lemma SseChunksAppend(a: seq<string>, b: seq<string>, parse: Parser)
    ensures SseChunks(a + b, parse) == SseChunks(a, parse) + SseChunks(b, parse)
  {
    if a == [] {
      assert a + b == b;
    } else {
      assert (a + b)[1..] == a[1..] + b;
      SseChunksAppend(a[1..], b, parse);
    }
  }

  /** The two lines that close the stream: the "[DONE]" sentinel and the empty piece after the last newline. */
  const ClosingLines: seq<string> := ["data: [DONE]", ""]

  lemma DoneLinePayload()
    ensures DataPayload("data: [DONE]") == None
  {
    var done := "[DONE]";
    assert done[0] == '[' && done[|done| - 1] == ']';
    assert TrimStart(done) == done;
    DataLinePayload(done);
    assert "data: " + done == "data: [DONE]";
  }

  lemma ClosingLinesCarryNothing(parse: Parser)
    ensures SseChunks(ClosingLines, parse) == []
  {
    DoneLinePayload();
    var done, empty := ClosingLines[0], ClosingLines[1];
    assert LineChunk(done, parse) == [];
    assert LineChunk(empty, parse) == [];
    assert ClosingLines[1..] == [empty];
    assert SseChunks([empty], parse) == LineChunk(empty, parse) + SseChunks([], parse);
  }

  lemma LinesFreeOfNewline(encodings: seq<string>)
    requires forall i :: 0 <= i < |encodings| ==> '\n' !in encodings[i]
    ensures forall i :: 0 <= i < |DataLines(encodings) + ClosingLines| ==>
      '\n' !in (DataLines(encodings) + ClosingLines)[i]
  {
    var lines := DataLines(encodings) + ClosingLines;
    forall i | 0 <= i < |lines| ensures '\n' !in lines[i] {
      if i < |encodings| {
        assert lines[i] == "data: " + encodings[i];
      }
    }
  }

  /** Splitting the stream text on newlines gives back its lines. */
  lemma EventStreamLines(encodings: seq<string>)
    requires forall i :: 0 <= i < |encodings| ==> '\n' !in encodings[i]
    ensures Split(Join(DataLines(encodings) + ClosingLines, "\n"), '\n') == DataLines(encodings) + ClosingLines
  {
    LinesFreeOfNewline(encodings);
    SplitJoin(DataLines(encodings) + ClosingLines, '\n');
  }

  /** The stream's lines carry exactly the given chunks. */
  lemma EventStreamChunks(encodings: seq<string>, chunks: seq<Json>, parse: Parser)
    requires |encodings| == |chunks|
    requires forall i :: 0 <= i < |encodings| ==> LineSafe(encodings[i])
    requires forall i :: 0 <= i < |encodings| ==> parse(encodings[i]) == Success(chunks[i])
    ensures SseChunks(DataLines(encodings) + ClosingLines, parse) == chunks
  {
    DataLinesChunks(encodings, chunks, parse);
    ClosingLinesCarryNothing(parse);
    SseChunksAppend(DataLines(encodings), ClosingLines, parse);
  }

  /**
   * An event stream "data: c1\n...data: cn\ndata: [DONE]\n" is normalised
   * exactly like the JSON array [c1, ..., cn] of the same well-formed chunks.
   */
  lemma EventStreamMatchesArray(
    encodings: seq<string>, chunks: seq<Json>, sseText: string, arrayText: string, parse: Parser)
    requires |encodings| == |chunks| && WellFormed(chunks)
    requires forall i :: 0 <= i < |encodings| ==> LineSafe(encodings[i])
    requires forall i :: 0 <= i < |encodings| ==> parse(encodings[i]) == Success(chunks[i])
    requires sseText == Join(DataLines(encodings) + ClosingLines, "\n")
    requires parse(sseText).Failure?
    requires parse(arrayText) == Success(JArr(chunks))
    ensures Streamed(sseText, parse) == Streamed(arrayText, parse)
  {
    var lines := DataLines(encodings) + ClosingLines;
    assert forall i :: 0 <= i < |encodings| ==> '\n' !in encodings[i];
    EventStreamLines(encodings);
    EventStreamChunks(encodings, chunks, parse);
    assert Streamed(sseText, parse) == Finish(SseFold(Start, lines, parse));
    SseAccumulatesLikeArray(Start, lines, parse);
    assert [] + AllCandidates(chunks) == AllCandidates(chunks);
    StreamedArray(arrayText, parse, chunks);
  }

  /** `{candidates: 5}`: not `null`, but its truthy candidates cannot be spread. */
  const UnspreadableChunk: Json := JObj(map["candidates" := JNum(5)])

  /** `{candidates: ["c"]}`. */
  const OneCandidateChunk: Json := JObj(map["candidates" := JArr([JStr("c")])])

  /** The array form: the first chunk raises, and a one-line body has no data line to fall back on. */
  lemma UnspreadableArray(arrayText: string, parse: Parser)
    requires '\n' !in arrayText && DataPayload(arrayText).None?
    requires parse(arrayText) == Success(JArr([UnspreadableChunk, OneCandidateChunk]))
    ensures Streamed(arrayText, parse) == Normalized(JArr([]), None)
  {
    assert ApplyChunk(Start, UnspreadableChunk) == None;
    assert ArrayFold(Start, [UnspreadableChunk, OneCandidateChunk]) == (Start, true);
    SplitJoin([arrayText], '\n');
    assert SseFold(Start, [arrayText], parse) == Start;
  }

  /** A body that only reads as an event stream collects its chunks one by one, skipping those that raise. */
  lemma EventStreamSkips(encodings: seq<string>, chunks: seq<Json>, sseText: string, parse: Parser)
    requires |encodings| == |chunks|
    requires forall i :: 0 <= i < |encodings| ==> LineSafe(encodings[i])
    requires forall i :: 0 <= i < |encodings| ==> parse(encodings[i]) == Success(chunks[i])
    requires sseText == Join(DataLines(encodings) + ClosingLines, "\n")
    requires parse(sseText).Failure?
    ensures Streamed(sseText, parse) == Finish(SkipFold(Start, chunks))
  {
    var lines := DataLines(encodings) + ClosingLines;
    assert forall i :: 0 <= i < |encodings| ==> '\n' !in encodings[i];
    EventStreamLines(encodings);
    EventStreamChunks(encodings, chunks, parse);
    SseFoldIsSkipFold(Start, lines, parse);
  }

  /** The event-stream form: the raising chunk is skipped and the next one is kept. */
  lemma UnspreadableSkipped(a: string, b: string, sseText: string, parse: Parser)
    requires LineSafe(a) && LineSafe(b)
    requires parse(a) == Success(UnspreadableChunk) && parse(b) == Success(OneCandidateChunk)
    requires sseText == Join(DataLines([a, b]) + ClosingLines, "\n")
    requires parse(sseText).Failure?
    ensures Streamed(sseText, parse) == Normalized(JArr([JStr("c")]), None)
  {
    EventStreamSkips([a, b], [UnspreadableChunk, OneCandidateChunk], sseText, parse);
    assert ApplyChunk(Start, UnspreadableChunk) == None;
    var c := Prop(OneCandidateChunk, "candidates");
    assert c == Some(JArr([JStr("c")])) && Present(c);
    assert Prop(OneCandidateChunk, "promptFeedback") == None;
    assert [] + [JStr("c")] == [JStr("c")];
    var kept := Acc([JStr("c")], None);
    assert ApplyChunk(Start, OneCandidateChunk) == Some(kept);
    assert [UnspreadableChunk, OneCandidateChunk][1..] == [OneCandidateChunk];
    assert SkipFold(Start, [UnspreadableChunk, OneCandidateChunk]) == SkipFold(Start, [OneCandidateChunk]);
    assert SkipFold(Start, [OneCandidateChunk]) == SkipFold(kept, []);
  }

  /**
   * The two streamed forms part ways on a chunk that raises without being
   * `null`: the array [{candidates: 5}, {candidates: ["c"]}] normalises to no
   * candidates, the event stream of the same chunks to ["c"].
   */
  lemma StreamFormsDiffer(a: string, b: string, sseText: string, arrayText: string, parse: Parser)
    requires LineSafe(a) && LineSafe(b)
    requires parse(a) == Success(UnspreadableChunk) && parse(b) == Success(OneCandidateChunk)
    requires sseText == Join(DataLines([a, b]) + ClosingLines, "\n")
    requires parse(sseText).Failure?
    requires '\n' !in arrayText && DataPayload(arrayText).None?
    requires parse(arrayText) == Success(JArr([UnspreadableChunk, OneCandidateChunk]))
    ensures Streamed(arrayText, parse) != Streamed(sseText, parse)
  {
    UnspreadableArray(arrayText, parse);
    UnspreadableSkipped(a, b, sseText, parse);
    assert JArr([]) != JArr([JStr("c")]);
  }

  // ---------------------------------------------------------------------------
  // The imperative reading of a streamed body.

  /** Strategy A, then the event-stream fallback, in the order services/geminiService.ts tries them. */
  method NormalizeStreamed(text: string, parse: Parser) returns (n: Normalized)
    ensures n == Streamed(text, parse)
  {
    var candidates: seq<Json> := [];
    var promptFeedback: Option<Json> := None;
    var raised := false;

    var parsed := parse(text);
    if parsed.Failure? || parsed.value == JNull {
      raised := true;
    } else if parsed.value.JArr? {
      var chunks := parsed.value.items;
      var i := 0;
      while i < |chunks|
        invariant 0 <= i <= |chunks|
        invariant ArrayFold(Start, chunks) == ArrayFold(Acc(candidates, promptFeedback), chunks[i..])
      {
        var chunk := chunks[i];
        assert chunks[i..][0] == chunk && chunks[i..][1..] == chunks[i + 1..];
        if chunk == JNull {
          raised := true;
          break;
        }
        var c := Prop(chunk, "candidates");
        if Present(c) {
          var spread := Iterate(c.value);
          if spread.None? {
            raised := true;
            break;
          }
          candidates := candidates + spread.value;
        }
        var fb := Prop(chunk, "promptFeedback");
        if Present(fb) {
          promptFeedback := fb;
        }
        i := i + 1;
      }
      assert ArrayFold(Start, chunks) == (Acc(candidates, promptFeedback), raised);
      if !raised {
        return Normalized(JArr(candidates), promptFeedback);
      }
    } else {
      var data := parsed.value;
      var result: Json := JArr([]);
      var c := Prop(data, "candidates");
      if Present(c) {
        result := c.value;
      }
      var fb := Prop(data, "promptFeedback");
      if Present(fb) {
        promptFeedback := fb;
      }
      return Normalized(result, promptFeedback);
    }

    var lines := Split(text, '\n');
    ghost var from := Acc(candidates, promptFeedback);
    assert Streamed(text, parse) == Finish(SseFold(from, lines, parse));
    for j := 0 to |lines|
      invariant SseFold(from, lines, parse) == SseFold(Acc(candidates, promptFeedback), lines[j..], parse)
    {
      assert lines[j..][0] == lines[j] && lines[j..][1..] == lines[j + 1..];
      ghost var before := Acc(candidates, promptFeedback);
      var trimmed := Trim(lines[j]);
      if StartsWith(trimmed, "data:") {
        var jsonStr := Trim(trimmed[5..]);
        if jsonStr == "[DONE]" {
          continue;
        }
        if jsonStr != "" {
          var chunkText := parse(jsonStr);
          if chunkText.Success? {
            var chunk := chunkText.value;
            if chunk != JNull {
              var c := Prop(chunk, "candidates");
              if !Present(c) || Iterate(c.value).Some? {
                if Present(c) {
                  candidates := candidates + Iterate(c.value).value;
                }
                var fb := Prop(chunk, "promptFeedback");
                if Present(fb) {
                  promptFeedback := fb;
                }
              }
            }
          }
        }
      }
      assert Acc(candidates, promptFeedback) == SseStep(before, lines[j], parse);
    }
    n := Normalized(JArr(candidates), promptFeedback);
  }
}

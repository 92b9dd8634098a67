/**
 * How services/geminiService.ts finds the image in the normalised
 * candidates: candidates in order, parts in order, the first part with
 * truthy `inlineData.data` wins and stops both loops, text parts are
 * appended to a refusal buffer until then; and the fixed chain of checks
 * that turns what was found into one data URL or one error.
 *
 * The scan is specified by flattening the candidates into a sequence of
 * events (one per part, or one fault for a value the loops cannot read)
 * and deciding on the first event that stops the scan.
 */
module Extract {
  import opened Wrappers
  import opened JsText
  import opened Js
  import opened Normalize
  import opened Seqs

  const DefaultMime: string := "image/png"
  const NoCandidatesMessage: string := "API returned no candidates."
  const BlockedPrefix: string := "Generation blocked: "
  const RefusalPrefix: string := "Model returned text instead of image: \""
  const StoppedPrefix: string := "Generation stopped. Reason: "
  const NoImageMessage: string := "No image data found in the response. The model might have been blocked."

  /** The data URL of a base64 payload with its media type. */
  function DataUrl(mime: string, data: string): string {
    "data:" + mime + ";base64," + data
  }

  function RefusalMessage(cleanText: string): string {
    RefusalPrefix + cleanText + "\""
  }

  /** What one step of the scan sees. */
  datatype Event =
    | Image(url: string)       // a part with truthy `inlineData.data`
    | Text(text: string)       // a part with truthy `text`
    | Fault(error: ErrorValue) // a value the loops cannot read raises
    | Skip                     // a part with neither

  /** What the scan ends with: an image URL, the text gathered, or the error raised. */
  datatype Scan = Found(url: string) | NotFound(text: string) | Threw(error: ErrorValue)

  /** One part of a candidate's `content.parts`. */
  function PartEvent(part: Json): Event {
    if part == JNull then Fault(NullRead("inlineData"))
    else
      var inline := Prop(part, "inlineData");
      if Present(inline) && Present(Prop(inline.value, "data")) then
        var mime := Prop(inline.value, "mimeType");
        Image(DataUrl(
          if Present(mime) then ToStr(mime.value) else DefaultMime,
          ToStr(Prop(inline.value, "data").value)))
      else
        var text := Prop(part, "text");
        if Present(text) then Text(ToStr(text.value)) else Skip
  }

  function PartEvents(parts: seq<Json>): seq<Event> {
    seq(|parts|, j requires 0 <= j < |parts| => PartEvent(parts[j]))
  }

  /** The parts are read one by one, so the events of consecutive runs of parts concatenate. */
  lemma PartEventsAppend(a: seq<Json>, b: seq<Json>)
    ensures PartEvents(a + b) == PartEvents(a) + PartEvents(b)
  {
    assert forall j :: 0 <= j < |b| ==> (a + b)[|a| + j] == b[j];
  }

  /** One candidate: its parts when `content.parts` is truthy, nothing otherwise. */
  function CandidateEvents(candidate: Json): seq<Event> {
    if candidate == JNull then [Fault(NullRead("content"))]
    else
      var content := Prop(candidate, "content");
      if !Present(content) then []
      else
        var parts := Prop(content.value, "parts");
        if !Present(parts) then []
        else
          match Iterate(parts.value)
          case None => [Fault(NotIterable("candidate.content.parts"))]
          case Some(ps) => PartEvents(ps)
  }

  function Events(candidates: seq<Json>): seq<Event> {
    if candidates == [] then []
    else CandidateEvents(candidates[0]) + Events(candidates[1..])
  }

  /** The scan over the events, with the text gathered so far. */
  function Decide(evs: seq<Event>, text: string): Scan {
    if evs == [] then NotFound(text)
    else
      match evs[0]
      case Image(url) => Found(url)
      case Fault(e) => Threw(e)
      case Text(t) => Decide(evs[1..], text + t)
      case Skip => Decide(evs[1..], text)
  }

  /** `for (const candidate of candidates)`: a value that cannot be iterated raises. */
  function ScanCandidates(candidates: Json): Scan {
    match Iterate(candidates)
    case None => Threw(NotIterable("candidates"))
    case Some(cs) => Decide(Events(cs), "")
  }

  // ---------------------------------------------------------------------------
  // Reference definitions: the first event that stops the scan decides it.

  predicate Stops(e: Event) {
    e.Image? || e.Fault?
  }

  /** The text parts' contents in order. */
  function Texts(evs: seq<Event>): string {
    if evs == [] then "" else (if evs[0].Text? then evs[0].text else "") + Texts(evs[1..])
  }

  /** Without a stopping event the scan gathers every text, in order. */
  lemma {:induction false} DecideGathersAllText(evs: seq<Event>, text: string)
    requires forall i :: 0 <= i < |evs| ==> !Stops(evs[i])
    ensures Decide(evs, text) == NotFound(text + Texts(evs))
  {
    if evs != [] {
      var head := if evs[0].Text? then evs[0].text else "";
      assert !Stops(evs[0]);
      assert evs[0].Skip? ==> text + head == text;
      assert Decide(evs, text) == Decide(evs[1..], text + head);
      DecideGathersAllText(evs[1..], text + head);
      assert text + head + Texts(evs[1..]) == text + (head + Texts(evs[1..]));
    }
  }

  /** The first image or fault decides the scan; nothing after it is looked at. */
  lemma {:induction false} DecideFirstStop(evs: seq<Event>, text: string, k: nat)
    requires k < |evs| && Stops(evs[k])
    requires forall i :: 0 <= i < k ==> !Stops(evs[i])
    ensures Decide(evs, text) == if evs[k].Image? then Found(evs[k].url) else Threw(evs[k].error)
  {
    if k == 0 {
      assert evs[0].Image? || evs[0].Fault?;
    } else {
      var head := if evs[0].Text? then evs[0].text else "";
      assert !Stops(evs[0]);
      assert evs[0].Skip? ==> text + head == text;
      assert Decide(evs, text) == Decide(evs[1..], text + head);
      DecideFirstStop(evs[1..], text + head, k - 1);
    }
  }

  /** The events of consecutive candidates follow one another. */
  lemma {:induction false} EventsAppend(a: seq<Json>, b: seq<Json>)
    ensures Events(a + b) == Events(a) + Events(b)
  {
    if a == [] {
      assert a + b == b;
    } else {
      assert (a + b)[0] == a[0] && (a + b)[1..] == a[1..] + b;
      EventsAppend(a[1..], b);
    }
  }

  /**
   * The first candidate that carries an image decides over every later
   * candidate: when the first stop lies within the first k candidates'
   * events, the candidates after them do not matter.
   */
  lemma EarlierCandidateWins(a: seq<Json>, b: seq<Json>, b': seq<Json>, k: nat)
    requires k < |Events(a)| && Events(a)[k].Image?
    requires forall i :: 0 <= i < k ==> !Stops(Events(a)[i])
    ensures Decide(Events(a + b), "") == Decide(Events(a + b'), "") == Found(Events(a)[k].url)
  {
    EventsAppend(a, b);
    EventsAppend(a, b');
    DecideFirstStop(Events(a + b), "", k);
    DecideFirstStop(Events(a + b'), "", k);
  }

  /** A candidate with one inline-data part gives `data:<mimeType>;base64,<data>`. */
  lemma SingleInlinePart(mime: string, data: string)
    requires mime != "" && data != ""
    ensures var inline := JObj(map["data" := JStr(data), "mimeType" := JStr(mime)]);
      var part := JObj(map["inlineData" := inline]);
      var candidate := JObj(map["content" := JObj(map["parts" := JArr([part])])]);
      ScanCandidates(JArr([candidate])) == Found(DataUrl(mime, data))
  {
    var inline := JObj(map["data" := JStr(data), "mimeType" := JStr(mime)]);
    var part := JObj(map["inlineData" := inline]);
    var content := JObj(map["parts" := JArr([part])]);
    var candidate := JObj(map["content" := content]);
    assert PartEvent(part) == Image(DataUrl(mime, data));
    assert CandidateEvents(candidate) == [Image(DataUrl(mime, data))];
    assert Events([candidate]) == CandidateEvents(candidate) + Events([]);
  }

  /**
   * An inline part's image takes its `mimeType` when that is truthy and
   * "image/png" otherwise, whatever else the part holds.
   */
  lemma InlineMimeDefault(part: Json, inline: Json)
    requires part.JObj? && "inlineData" in part.fields && part.fields["inlineData"] == inline
    requires inline.JObj? && "data" in inline.fields && Truthy(inline.fields["data"])
    ensures var mime := if "mimeType" in inline.fields && Truthy(inline.fields["mimeType"])
        then ToStr(inline.fields["mimeType"]) else "image/png";
      PartEvent(part) == Image(DataUrl(mime, ToStr(inline.fields["data"])))
  {
  }

  /**
   * A candidate with one inline-data part whose `mimeType` is missing or falsy
   * gives `data:image/png;base64,<data>`.
   */
  lemma SingleInlinePartDefaultMime(data: string, mimeType: Option<Json>)
    requires data != "" && !Present(mimeType)
    ensures var inline := JObj(if mimeType.Some? then map["data" := JStr(data), "mimeType" := mimeType.value]
        else map["data" := JStr(data)]);
      var part := JObj(map["inlineData" := inline]);
      var candidate := JObj(map["content" := JObj(map["parts" := JArr([part])])]);
      ScanCandidates(JArr([candidate])) == Found(DataUrl("image/png", data))
  {
    var inline := JObj(if mimeType.Some? then map["data" := JStr(data), "mimeType" := mimeType.value]
      else map["data" := JStr(data)]);
    var part := JObj(map["inlineData" := inline]);
    var content := JObj(map["parts" := JArr([part])]);
    var candidate := JObj(map["content" := content]);
    InlineMimeDefault(part, inline);
    assert PartEvent(part) == Image(DataUrl("image/png", data));
    assert CandidateEvents(candidate) == [Image(DataUrl("image/png", data))];
    assert Events([candidate]) == CandidateEvents(candidate) + Events([]);
  }

  // ---------------------------------------------------------------------------
  // The outcome chain after normalisation.

  /** `candidates.map(c => c.finishReason)`; a `null` candidate raises. */
  function MapFinishReason(cs: seq<Json>): (r: Result<seq<Option<Json>>, ErrorValue>)
    ensures r.Success? ==> |r.value| == |cs|
    ensures r.Success? ==> forall i :: 0 <= i < |cs| ==> cs[i] != JNull && r.value[i] == Prop(cs[i], "finishReason")
    ensures r.Failure? ==> r.error == NullRead("finishReason") && JNull in cs
  {
    if cs == [] then Success([])
    else match Read(cs[0], "finishReason")
      case Failure(e) => Failure(e)
      case Success(head) =>
        match MapFinishReason(cs[1..])
        case Failure(e) => assert cs[1..][0] in cs[1..]; Failure(e)
        case Success(tail) => Success([head] + tail)
  }

  /** `.filter(r => r && r !== "STOP")`: the reasons that report an abnormal stop, in order. */
  function AbnormalReasons(rs: seq<Option<Json>>): (r: seq<Json>)
    ensures forall i :: 0 <= i < |r| ==> Truthy(r[i]) && r[i] != JStr("STOP")
    ensures r == [] <==> forall i :: 0 <= i < |rs| ==> !Present(rs[i]) || rs[i].value == JStr("STOP")
  {
    if rs == [] then []
    else
      var tail := AbnormalReasons(rs[1..]);
      assert tail == [] <==> forall i :: 1 <= i < |rs| ==> !Present(rs[i]) || rs[i].value == JStr("STOP") by {
        assert forall i :: 1 <= i < |rs| ==> rs[i] == rs[1..][i - 1];
      }
      if Present(rs[0]) && rs[0].value != JStr("STOP") then [rs[0].value] + tail else tail
  }

  /** The finish reasons other than normal completion; reading them needs an array of non-null candidates. */
  function FinishReasons(candidates: Json): Result<seq<Json>, ErrorValue> {
    if !candidates.JArr? then Failure(ErrorValue("TypeError", "candidates.map is not a function"))
    else
      match MapFinishReason(candidates.items)
      case Failure(e) => Failure(e)
      case Success(rs) => Success(AbnormalReasons(rs))
  }

  function ReasonStrings(reasons: seq<Json>): seq<string> {
    seq(|reasons|, i requires 0 <= i < |reasons| => ToStr(reasons[i]))
  }

  function StoppedMessage(reasons: seq<Json>): string {
    StoppedPrefix + Join(ReasonStrings(reasons), ", ")
  }

  /** The filter keeps order: the reasons of consecutive runs concatenate. */
  lemma {:induction false} AbnormalReasonsAppend(a: seq<Option<Json>>, b: seq<Option<Json>>)
    ensures AbnormalReasons(a + b) == AbnormalReasons(a) + AbnormalReasons(b)
  {
    if a == [] {
      assert a + b == b;
    } else {
      assert (a + b)[0] == a[0];
      assert (a + b)[1..] == a[1..] + b;
      AbnormalReasonsAppend(a[1..], b);
    }
  }

  /** The filter keeps exactly the truthy reasons other than "STOP". */
  lemma {:induction false} AbnormalReasonsMembers(rs: seq<Option<Json>>)
    ensures forall x :: x in AbnormalReasons(rs) <==>
      exists i :: 0 <= i < |rs| && Present(rs[i]) && rs[i].value == x && x != JStr("STOP")
  {
    if rs != [] {
      AbnormalReasonsMembers(rs[1..]);
      var keep := Present(rs[0]) && rs[0].value != JStr("STOP");
      assert AbnormalReasons(rs) == (if keep then [rs[0].value] else []) + AbnormalReasons(rs[1..]);
      forall x
        ensures x in AbnormalReasons(rs) <==>
          exists i :: 0 <= i < |rs| && Present(rs[i]) && rs[i].value == x && x != JStr("STOP")
      {
        if x in AbnormalReasons(rs) {
          if keep && x == rs[0].value {
            assert Present(rs[0]) && rs[0].value == x && x != JStr("STOP");
          } else {
            assert x in AbnormalReasons(rs[1..]);
            var j :| 0 <= j < |rs[1..]| && Present(rs[1..][j]) && rs[1..][j].value == x && x != JStr("STOP");
            assert rs[1..][j] == rs[j + 1];
          }
        }
        if exists i :: 0 <= i < |rs| && Present(rs[i]) && rs[i].value == x && x != JStr("STOP") {
          var i :| 0 <= i < |rs| && Present(rs[i]) && rs[i].value == x && x != JStr("STOP");
          if i > 0 {
            assert rs[1..][i - 1] == rs[i];
            assert x in AbnormalReasons(rs[1..]);
          }
        }
      }
    }
  }

  /** The stop message names every abnormal reason. */
  lemma StoppedMessageNamesReasons(reasons: seq<Json>, i: nat)
    requires i < |reasons|
    ensures Contains(StoppedMessage(reasons), ToStr(reasons[i]))
  {
    JoinContains(ReasonStrings(reasons), ", ", i);
    ContainsAfter(StoppedPrefix, Join(ReasonStrings(reasons), ", "), ToStr(reasons[i]));
  }

  /** `!candidates || candidates.length === 0`. */
  predicate NoCandidates(candidates: Json) {
    !Truthy(candidates) || LengthIsZero(candidates)
  }

  /** `promptFeedback && promptFeedback.blockReason`. */
  predicate Blocked(feedback: Option<Json>) {
    Present(feedback) && Present(Prop(feedback.value, "blockReason"))
  }

  function BlockReason(feedback: Option<Json>): Json
    requires Blocked(feedback)
  {
    Prop(feedback.value, "blockReason").value
  }

  /** What follows a scan that found no image: refusal text, abnormal finish reasons, or the generic error. */
  function AfterScan(candidates: Json, text: string): Result<string, ErrorValue> {
    if text != "" && |Trim(text)| > 0 then Failure(Error(RefusalMessage(Trim(text))))
    else
      match FinishReasons(candidates)
      case Failure(e) => Failure(e)
      case Success(reasons) =>
        if |reasons| > 0 then Failure(Error(StoppedMessage(reasons)))
        else Failure(Error(NoImageMessage))
  }

  /** From the normalised `candidates` and `promptFeedback` to the data URL or the error. */
  function Outcome(n: Normalized): Result<string, ErrorValue> {
    if NoCandidates(n.candidates) && !Present(n.feedback) then Failure(Error(NoCandidatesMessage))
    else if Blocked(n.feedback) then Failure(Error(BlockedPrefix + ToStr(BlockReason(n.feedback))))
    else
      match ScanCandidates(n.candidates)
      case Found(url) => Success(url)
      case Threw(e) => Failure(e)
      case NotFound(text) => AfterScan(n.candidates, text)
  }

  /** 1. No candidates and no feedback: the first check fails, whatever else holds. */
  lemma OutcomeNoCandidates(n: Normalized)
    requires NoCandidates(n.candidates) && !Present(n.feedback)
    ensures Outcome(n) == Failure(Error(NoCandidatesMessage))
  {
  }

  /** 2. A block reason is reported before any candidate is looked at, even when candidates exist. */
  lemma OutcomeBlocked(n: Normalized, candidates: Json)
    requires Blocked(n.feedback)
    ensures Outcome(n) == Outcome(n.(candidates := candidates))
    ensures Outcome(n) == Failure(Error(BlockedPrefix + ToStr(BlockReason(n.feedback))))
  {
  }

  /** Only a truthy `promptFeedback` takes part in the decision. */
  lemma OutcomeIgnoresFalsyFeedback(candidates: Json, feedback: Option<Json>)
    ensures Outcome(Normalized(candidates, feedback))
         == Outcome(Normalized(candidates, if Present(feedback) then feedback else None))
  {
  }

  /** The outcome when the checks before the scan pass and the candidates are a list. */
  predicate Scanned(n: Normalized) {
    !(NoCandidates(n.candidates) && !Present(n.feedback)) && !Blocked(n.feedback) && n.candidates.JArr?
  }

  /** 3. The first part with image data is returned, whatever follows it. */
  lemma OutcomeFirstImage(n: Normalized, k: nat)
    requires Scanned(n)
    requires var evs := Events(n.candidates.items);
      k < |evs| && evs[k].Image? && forall i :: 0 <= i < k ==> !Stops(evs[i])
    ensures Outcome(n) == Success(Events(n.candidates.items)[k].url)
  {
    DecideFirstStop(Events(n.candidates.items), "", k);
  }

  /** Without an image or a fault, what follows depends only on the text gathered. */
  lemma OutcomeWithoutStop(n: Normalized)
    requires Scanned(n)
    requires forall i :: 0 <= i < |Events(n.candidates.items)| ==> !Stops(Events(n.candidates.items)[i])
    ensures Outcome(n) == AfterScan(n.candidates, Texts(Events(n.candidates.items)))
  {
    var evs := Events(n.candidates.items);
    DecideGathersAllText(evs, "");
    assert "" + Texts(evs) == Texts(evs);
    assert ScanCandidates(n.candidates) == NotFound(Texts(evs));
  }

  /** 4. With no image, non-blank text becomes the error, and the message holds it verbatim. */
  lemma OutcomeRefusal(n: Normalized)
    requires Scanned(n)
    requires var evs := Events(n.candidates.items);
      (forall i :: 0 <= i < |evs| ==> !Stops(evs[i])) && Trim(Texts(evs)) != ""
    ensures var clean := Trim(Texts(Events(n.candidates.items)));
      && Outcome(n) == Failure(Error(RefusalMessage(clean)))
      && Contains(Outcome(n).error.message, clean)
  {
    OutcomeWithoutStop(n);
    var clean := Trim(Texts(Events(n.candidates.items)));
    ContainsMiddle(RefusalPrefix, clean, "\"");
  }

  /** 5 and 6. With no image and blank text, abnormal finish reasons are reported, else the generic error. */
  lemma OutcomeNoImage(n: Normalized)
    requires Scanned(n)
    requires var evs := Events(n.candidates.items);
      (forall i :: 0 <= i < |evs| ==> !Stops(evs[i])) && Trim(Texts(evs)) == ""
    ensures FinishReasons(n.candidates).Success?
    ensures var reasons := FinishReasons(n.candidates).value;
      Outcome(n) == Failure(Error(if |reasons| > 0 then StoppedMessage(reasons) else NoImageMessage))
  {
    OutcomeWithoutStop(n);
    NoNullCandidate(n.candidates.items);
    AfterBlankScan(n.candidates, Texts(Events(n.candidates.items)));
  }

  lemma AfterBlankScan(candidates: Json, text: string)
    requires Trim(text) == "" && FinishReasons(candidates).Success?
    ensures var reasons := FinishReasons(candidates).value;
      AfterScan(candidates, text) == Failure(Error(if |reasons| > 0 then StoppedMessage(reasons) else NoImageMessage))
  {
    assert |Trim(text)| == 0;
  }

  /** A scan that meets no fault has read `content` on every candidate, so none is `null`. */
  lemma {:induction false} NoNullCandidate(cs: seq<Json>)
    requires forall i :: 0 <= i < |Events(cs)| ==> !Stops(Events(cs)[i])
    ensures MapFinishReason(cs).Success?
  {
    if cs != [] {
      var head := CandidateEvents(cs[0]);
      EventsAppend([cs[0]], cs[1..]);
      assert [cs[0]] + cs[1..] == cs;
      assert Events([cs[0]]) == head + Events([]);
      assert Events(cs) == head + Events(cs[1..]);
      assert CandidateEvents(JNull) == [Fault(NullRead("content"))];
      assert |Events(cs)| > 0 ==> !Stops(Events(cs)[0]);
      assert cs[0] != JNull;
      assert forall i :: 0 <= i < |Events(cs[1..])| ==> Events(cs[1..])[i] == Events(cs)[|head| + i];
      NoNullCandidate(cs[1..]);
      assert Read(cs[0], "finishReason").Success?;
    }
  }

  // ---------------------------------------------------------------------------
  // The imperative scan.

  /** One step of the scan over the events from j on, followed by `rest`. */
  lemma DecideStep(evs: seq<Event>, rest: seq<Event>, j: nat, text: string)
    requires j < |evs|
    ensures evs[j].Image? ==> Decide(evs[j..] + rest, text) == Found(evs[j].url)
    ensures evs[j].Fault? ==> Decide(evs[j..] + rest, text) == Threw(evs[j].error)
    ensures evs[j].Text? ==> Decide(evs[j..] + rest, text) == Decide(evs[j + 1..] + rest, text + evs[j].text)
    ensures evs[j].Skip? ==> Decide(evs[j..] + rest, text) == Decide(evs[j + 1..] + rest, text)
  {
    SuffixAppendUncons(evs, rest, j);
  }

  /** The events from candidate i on: those of candidate i, then those of the candidates after it. */
  lemma EventsStep(cs: seq<Json>, i: nat)
    requires i < |cs|
    ensures Events(cs[i..]) == CandidateEvents(cs[i]) + Events(cs[i + 1..])
  {
    SuffixUncons(cs, i);
  }

  /** The nested loops with their two `break`s; a fault returns the error the loop raises. */
  method ExtractImage(candidates: Json) returns (r: Scan)
    ensures r == ScanCandidates(candidates)
  {
    var items := Iterate(candidates);
    if items.None? {
      return Threw(NotIterable("candidates"));
    }
    var cs := items.value;
    var generatedImage: Option<string> := None;
    var generatedText := "";
    var i := 0;
    while i < |cs|
      invariant 0 <= i <= |cs|
      invariant generatedImage.None?
      invariant Decide(Events(cs), "") == Decide(Events(cs[i..]), generatedText)
    {
      var candidate := cs[i];
      EventsStep(cs, i);
      ghost var rest := Events(cs[i + 1..]);
      if candidate == JNull {
        assert Events(cs[i..]) == [Fault(NullRead("content"))] + rest;
        return Threw(NullRead("content"));
      }
      var content := Prop(candidate, "content");
      if !Present(content) {
        assert CandidateEvents(candidate) == [];
        assert Events(cs[i..]) == rest;
      } else {
        var parts := Prop(content.value, "parts");
        if !Present(parts) {
          assert CandidateEvents(candidate) == [];
          assert Events(cs[i..]) == rest;
        } else {
          var ps := Iterate(parts.value);
          if ps.None? {
            assert Events(cs[i..]) == [Fault(NotIterable("candidate.content.parts"))] + rest;
            return Threw(NotIterable("candidate.content.parts"));
          }
          ghost var evs := PartEvents(ps.value);
          assert |evs| == |ps.value|;
          assert evs[0..] + rest == Events(cs[i..]);
          var j := 0;
          while j < |ps.value|
            invariant 0 <= j <= |ps.value|
            invariant generatedImage.None?
            invariant Decide(Events(cs), "") == Decide(evs[j..] + rest, generatedText)
          {
            var part := ps.value[j];
            DecideStep(evs, rest, j, generatedText);
            assert evs[j] == PartEvent(part);
            if part == JNull {
              return Threw(NullRead("inlineData"));
            }
            var inline := Prop(part, "inlineData");
            if Present(inline) && Present(Prop(inline.value, "data")) {
              var data := Prop(inline.value, "data").value;
              var mime := Prop(inline.value, "mimeType");
              var mimeType := if Present(mime) then ToStr(mime.value) else DefaultMime;
              generatedImage := Some(DataUrl(mimeType, ToStr(data)));
              break;
            }
            var text := Prop(part, "text");
            if Present(text) {
              generatedText := generatedText + ToStr(text.value);
            }
            j := j + 1;
          }
          if generatedImage.Some? {
            return Found(generatedImage.value);
          }
          assert evs[|ps.value|..] + rest == rest;
          assert Decide(Events(cs), "") == Decide(rest, generatedText);
        }
      }
      i := i + 1;
    }
    r := NotFound(generatedText);
  }
}

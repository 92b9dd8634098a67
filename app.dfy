/**
 * The state App.tsx keeps around a generation: the reference image picked
 * by the user (checked for size, then split into media type and base64
 * payload by `^data:(.+);base64,(.+)$`), the submit guards, and the history
 * and selection updated with the service's result.
 */
module AppState {
  import opened Wrappers
  import opened JsText
  import opened Js
  import opened Request
  import opened Extract
  import opened GeminiService

  // ---------------------------------------------------------------------------
  // The data-URL splitter.

  const Marker: string := ";base64,"

  /** ";base64," at k, with at least one character for each group around it. */
  predicate MarkerAt(s: string, k: int) {
    6 <= k && k + 8 < |s| && s[k..k + 8] == Marker
  }

  /** The last position at most k where the marker sits; -1 when there is none. */
  function LastMarker(s: string, k: int): (r: int)
    ensures r == -1 || (r <= k && MarkerAt(s, r))
    ensures forall j :: r < j <= k ==> !MarkerAt(s, j)
    decreases k
  {
    if k < 6 then -1 else if MarkerAt(s, k) then k else LastMarker(s, k - 1)
  }

  /** The two groups of a data URL. */
  datatype DataUrlParts = DataUrlParts(mime: string, data: string)

  /**
   * `s.match(/^data:(.+);base64,(.+)$/)`: the greedy first group runs to the
   * last marker that leaves a non-empty second group; `.` matches no line
   * terminator, so none may occur after "data:".
   */
  function SplitDataUrl(s: string): Option<DataUrlParts> {
    if !StartsWith(s, "data:") || !NoLineTerminator(s[5..]) then None
    else
      var k := LastMarker(s, |s| - 9);
      if k == -1 then None else Some(DataUrlParts(s[5..k], s[k + 8..]))
  }

  /** What the pattern accepts: "data:" + mime + ";base64," + data with non-empty groups on one line. */
  predicate Matches(s: string, mime: string, data: string) {
    s == DataUrl(mime, data) && mime != "" && data != "" && NoLineTerminator(mime) && NoLineTerminator(data)
  }

  lemma DataUrlLayout(mime: string, data: string)
    ensures var s := DataUrl(mime, data);
      && |s| == |mime| + |data| + 13
      && s[..5] == "data:" && s[5..5 + |mime|] == mime
      && s[5 + |mime|..13 + |mime|] == Marker && s[13 + |mime|..] == data
  {
  }

  /** Soundness: a split gives back groups that rebuild the string. */
  lemma SplitSound(s: string)
    requires SplitDataUrl(s).Some?
    ensures var p := SplitDataUrl(s).value; Matches(s, p.mime, p.data)
  {
    var p := SplitDataUrl(s).value;
    var k := LastMarker(s, |s| - 9);
    assert s == s[..5] + s[5..k] + s[k..k + 8] + s[k + 8..];
    assert forall i :: 0 <= i < |p.mime| ==> p.mime[i] == s[5..][i];
    assert forall i :: 0 <= i < |p.data| ==> p.data[i] == s[5..][k + 3 + i];
  }

  /** A data URL built from line-free groups is line-free after "data:". */
  lemma LineFreeAfterPrefix(mime: string, data: string)
    requires NoLineTerminator(mime) && NoLineTerminator(data)
    ensures NoLineTerminator(DataUrl(mime, data)[5..])
  {
    var s := DataUrl(mime, data);
    DataUrlLayout(mime, data);
    assert s[5..] == mime + Marker + data;
    forall i | 0 <= i < |s[5..]| ensures !IsLineTerminator(s[5..][i]) {
      if i < |mime| {
        assert s[5..][i] == mime[i];
      } else if i < |mime| + 8 {
        assert s[5..][i] == Marker[i - |mime|];
      } else {
        assert s[5..][i] == data[i - |mime| - 8];
      }
    }
  }

  /** Completeness: whatever the pattern accepts is split, and the media type found is the longest one. */
  lemma SplitComplete(s: string, mime: string, data: string)
    requires Matches(s, mime, data)
    ensures SplitDataUrl(s).Some?
    ensures |SplitDataUrl(s).value.mime| >= |mime|
    ensures LastMarker(s, |s| - 9) >= 5 + |mime|
  {
    DataUrlLayout(mime, data);
    LineFreeAfterPrefix(mime, data);
    assert MarkerAt(s, 5 + |mime|);
    var k := LastMarker(s, |s| - 9);
    assert k != -1;
  }

  lemma MarkerStartsWithSemicolon(s: string, k: int)
    requires MarkerAt(s, k)
    ensures s[k] == ';'
  {
    assert s[k..k + 8][0] == s[k];
  }

  /** After the media type, only the marker's own first character is a ';' when the payload has none. */
  lemma SemicolonOnlyInMarker(mime: string, data: string)
    requires ';' !in data
    ensures var s := DataUrl(mime, data);
      forall j :: 5 + |mime| < j < |s| ==> s[j] != ';'
  {
    var s := DataUrl(mime, data);
    var m := 5 + |mime|;
    DataUrlLayout(mime, data);
    forall j | m < j < |s|
      ensures s[j] != ';'
    {
      if j < m + 8 {
        assert s[j] == Marker[j - m];
      } else {
        assert s[j] == data[j - m - 8];
      }
    }
  }

  /** Round trip: a payload without ';' (base64 has none) is split back into the media type and payload. */
  lemma SplitRoundTrip(mime: string, data: string)
    requires mime != "" && data != "" && NoLineTerminator(mime) && NoLineTerminator(data)
    requires ';' !in data
    ensures SplitDataUrl(DataUrl(mime, data)) == Some(DataUrlParts(mime, data))
  {
    var s := DataUrl(mime, data);
    SplitComplete(s, mime, data);
    var k := LastMarker(s, |s| - 9);
    SemicolonOnlyInMarker(mime, data);
    MarkerStartsWithSemicolon(s, k);
    assert k == 5 + |mime|;
    DataUrlLayout(mime, data);
  }

  // ---------------------------------------------------------------------------
  // The component state.

  /** The user-visible errors; their wording comes from the locale tables. */
  datatype AppError =
    | ImageTooLarge
    | ProcessImageFailed
    | ApiKeyMissing
    | GenerationFailed
    | Message(text: string)

  datatype ImageSettings = ImageSettings(
    model: ModelType, aspectRatio: AspectRatio, imageSize: ImageSize, hasReferenceImage: bool)

  /** A history entry. */
  datatype GeneratedImage = GeneratedImage(
    id: string, url: string, prompt: string, timestamp: int, settings: ImageSettings)

  /** A picked file: its size in bytes and what `readAsDataURL` yields for it. */
  datatype PickedFile = PickedFile(size: nat, dataUrl: string)

  const MaxUploadBytes: nat := 5 * 1024 * 1024

  /**
   * `!prompt.trim() && !refImageRaw`: a submit with nothing to send. The trimmed
   * prompt is empty exactly when the prompt is all white space (`BlankIsTrimmedEmpty`).
   */
  predicate NothingToSubmit(prompt: string, refImageRaw: Option<string>) {
    Blank(prompt) && !Filled(refImageRaw)
  }

  /** `err.message || t.errorGenFailed`: the error shown for a failed generation. */
  function Shown(e: ErrorValue): AppError {
    if e.message != "" then Message(e.message) else GenerationFailed
  }

  /** `!!s` on the string-or-null state fields. */
  predicate Filled(s: Option<string>) {
    s.Some? && s.value != ""
  }

  class App {
    var prompt: string
    var model: ModelType
    var aspectRatio: AspectRatio
    var imageSize: ImageSize
    var baseUrl: string
    var apiKey: string

    var refImage: Option<string>
    var refImageRaw: Option<string>
    var refImageMime: Option<string>

    var isGenerating: bool
    var error: Option<AppError>
    var history: seq<GeneratedImage>
    var selectedImage: Option<GeneratedImage>
    var isSettingsOpen: bool

    /**
     * Between events: the raw data and its media type are set together, the
     * selection is an image of the history, and no generation is running.
     */
    predicate Valid()
      reads this
    {
      && (refImageRaw.Some? <==> refImageMime.Some?)
      && (selectedImage.Some? ==> selectedImage.value in history)
      && !isGenerating
    }

    /** The initial state, with the stored base URL and key. */
    constructor(baseUrl: string, apiKey: string)
      ensures Valid()
      ensures this.baseUrl == baseUrl && this.apiKey == apiKey
      ensures prompt == "" && model == NanoBananaPro && aspectRatio == Square && imageSize == OneK
      ensures refImage.None? && refImageRaw.None? && refImageMime.None?
      ensures error.None? && history == [] && selectedImage.None? && !isSettingsOpen
    {
      prompt := "";
      model := NanoBananaPro;
      aspectRatio := Square;
      imageSize := OneK;
      this.baseUrl := baseUrl;
      this.apiKey := apiKey;
      refImage, refImageRaw, refImageMime := None, None, None;
      isGenerating := false;
      error := None;
      history := [];
      selectedImage := None;
      isSettingsOpen := false;
    }

    /**
     * `handleImageUpload`: a file over 5 MB only sets the size error; a file
     * within the limit becomes the preview, and its split sets the raw data
     * and media type and clears the error, or sets the processing error and
     * leaves the previous raw data and media type in place.
     */
    method HandleImageUpload(file: Option<PickedFile>)
      requires Valid()
      modifies this
      ensures Valid()
      ensures file.None? ==> unchanged(this)
      ensures file.Some? && file.value.size > MaxUploadBytes ==>
        error == Some(ImageTooLarge)
        && refImage == old(refImage) && refImageRaw == old(refImageRaw) && refImageMime == old(refImageMime)
      ensures file.Some? && file.value.size <= MaxUploadBytes ==>
        refImage == Some(file.value.dataUrl)
        && match SplitDataUrl(file.value.dataUrl)
           case Some(p) =>
             refImageMime == Some(p.mime) && refImageRaw == Some(p.data) && error.None?
             && Matches(file.value.dataUrl, p.mime, p.data)
           case None =>
             refImageMime == old(refImageMime) && refImageRaw == old(refImageRaw)
             && error == Some(ProcessImageFailed)
      ensures prompt == old(prompt) && model == old(model) && aspectRatio == old(aspectRatio)
      ensures imageSize == old(imageSize) && baseUrl == old(baseUrl) && apiKey == old(apiKey)
      ensures isGenerating == old(isGenerating) && history == old(history)
      ensures selectedImage == old(selectedImage) && isSettingsOpen == old(isSettingsOpen)
    {
      if file.None? {
        return;
      }
      if file.value.size > MaxUploadBytes {
        error := Some(ImageTooLarge);
        return;
      }
      var result := file.value.dataUrl;
      refImage := Some(result);
      var matches := SplitDataUrl(result);
      if matches.Some? {
        SplitSound(result);
        refImageMime := Some(matches.value.mime);
        refImageRaw := Some(matches.value.data);
        error := None;
      } else {
        error := Some(ProcessImageFailed);
      }
    }

    /** `clearRefImage`: the preview, the raw data and the media type are all cleared. */
    method ClearRefImage()
      requires Valid()
      modifies this
      ensures Valid()
      ensures refImage.None? && refImageRaw.None? && refImageMime.None?
      ensures prompt == old(prompt) && model == old(model) && aspectRatio == old(aspectRatio)
      ensures imageSize == old(imageSize) && baseUrl == old(baseUrl) && apiKey == old(apiKey)
      ensures isGenerating == old(isGenerating) && error == old(error) && history == old(history)
      ensures selectedImage == old(selectedImage) && isSettingsOpen == old(isSettingsOpen)
    {
      refImage := None;
      refImageRaw := None;
      refImageMime := None;
    }

    /** The settings a history entry records: the form's choices and whether a reference image was attached. */
    function UsedSettings(): ImageSettings
      reads this
    {
      ImageSettings(model, aspectRatio, imageSize, Filled(refImageRaw))
    }

    /**
     * The state a generation leaves behind, given its outcome and the history
     * before it: a new entry first in the history and selected, or the error shown.
     */
    predicate Settled(r: Result<string, ErrorValue>, id: string, timestamp: int, entryPrompt: string,
                      used: ImageSettings, before: seq<GeneratedImage>)
      reads this
    {
      match r
      case Success(url) =>
        var newImage := GeneratedImage(id, url, entryPrompt, timestamp, used);
        history == [newImage] + before && selectedImage == Some(newImage) && error.None?
      case Failure(e) =>
        history == before && selectedImage.None? && error == Some(Shown(e))
    }

    /**
     * `handleGenerate`. Nothing happens for a blank prompt without reference
     * data; without a key the key error is shown and the settings opened; else
     * the service is called once and its image is put first in the history
     * and selected, or its error message (the generic one when empty) shown.
     * `id` and `timestamp` stand for `crypto.randomUUID()` and `Date.now()`.
     */
    method HandleGenerate(fetch: Fetch, parse: Parser, id: string, timestamp: int)
      returns (sent: Option<Request>, result: Option<Result<string, ErrorValue>>)
      requires Valid()
      modifies this
      ensures Valid()
      ensures unchanged(this`prompt, this`model, this`aspectRatio, this`imageSize, this`baseUrl, this`apiKey,
        this`refImage, this`refImageRaw, this`refImageMime)
      ensures NothingToSubmit(old(prompt), old(refImageRaw)) ==>
        sent.None? && result.None? && unchanged(this)
      ensures !NothingToSubmit(old(prompt), old(refImageRaw)) && old(apiKey) == "" ==>
        sent.None? && result.None? && error == Some(ApiKeyMissing) && isSettingsOpen
        && unchanged(this`history, this`selectedImage)
      ensures !NothingToSubmit(old(prompt), old(refImageRaw)) && old(apiKey) != "" ==>
        var settings := AppSettings(old(prompt), old(model), old(aspectRatio), old(imageSize));
        && sent == Some(RequestFor(settings, Some(old(baseUrl)), old(apiKey)))
        && result == Some(Generate(settings, Some(old(baseUrl)), Some(old(apiKey)), fetch, parse))
        && isSettingsOpen == old(isSettingsOpen)
      ensures result.Some? ==>
        Settled(result.value, id, timestamp, old(prompt), old(UsedSettings()), old(history))
    {
      if NothingToSubmit(prompt, refImageRaw) {
        return None, None;
      }
      if apiKey == "" {
        error := Some(ApiKeyMissing);
        isSettingsOpen := true;
        return None, None;
      }

      sent, result := Submit(fetch, parse, id, timestamp);
    }

    /**
     * The part of `handleGenerate` past its guards: the request is sent with
     * the App's settings, and the outcome is settled into the state.
     */
    method Submit(fetch: Fetch, parse: Parser, id: string, timestamp: int)
      returns (sent: Option<Request>, result: Option<Result<string, ErrorValue>>)
      requires Valid()
      requires apiKey != ""
      modifies this
      ensures Valid()
      ensures unchanged(this`prompt, this`model, this`aspectRatio, this`imageSize, this`baseUrl, this`apiKey,
        this`refImage, this`refImageRaw, this`refImageMime, this`isSettingsOpen)
      ensures
        var settings := AppSettings(old(prompt), old(model), old(aspectRatio), old(imageSize));
        && sent == Some(RequestFor(settings, Some(old(baseUrl)), old(apiKey)))
        && result == Some(Generate(settings, Some(old(baseUrl)), Some(old(apiKey)), fetch, parse))
      ensures result.Some? ==>
        Settled(result.value, id, timestamp, old(prompt), old(UsedSettings()), old(history))
    {
      // the App passes a single `referenceImage`, which the service does not read, and no stream flag
      var settings := AppSettings(prompt, model, aspectRatio, imageSize);
      var base, key := baseUrl, apiKey;

      Begin();

      var generated;
      sent, generated := GenerateImage(settings, Some(base), Some(key), fetch, parse);
      result := Some(generated);
      Settle(generated, id, timestamp);
    }

    /** The start of a generation: the spinner is on, and the error and the selection are cleared. */
    method Begin()
      modifies this
      ensures isGenerating && error.None? && selectedImage.None?
      ensures unchanged(this`prompt, this`model, this`aspectRatio, this`imageSize, this`baseUrl, this`apiKey,
        this`refImage, this`refImageRaw, this`refImageMime, this`isSettingsOpen, this`history)
    {
      isGenerating := true;
      error := None;
      selectedImage := None;
    }

    /**
     * The `try`/`catch`/`finally` around the call: the image goes first in the
     * history and is selected, or the error is shown; generation ends.
     */
    method Settle(result: Result<string, ErrorValue>, id: string, timestamp: int)
      requires refImageRaw.Some? <==> refImageMime.Some?
      requires isGenerating && selectedImage.None? && error.None?
      modifies this
      ensures Valid()
      ensures prompt == old(prompt) && model == old(model) && aspectRatio == old(aspectRatio)
      ensures imageSize == old(imageSize) && baseUrl == old(baseUrl) && apiKey == old(apiKey)
      ensures refImage == old(refImage) && refImageRaw == old(refImageRaw) && refImageMime == old(refImageMime)
      ensures isSettingsOpen == old(isSettingsOpen)
      ensures Settled(result, id, timestamp, prompt, UsedSettings(), old(history))
    {
      match result {
        case Success(imageUrl) =>
          var newImage := GeneratedImage(id, imageUrl, prompt, timestamp, UsedSettings());
          history := [newImage] + history;
          selectedImage := Some(newImage);
          assert history[0] == newImage;
        case Failure(err) =>
          error := Some(if err.message != "" then Message(err.message) else GenerationFailed);
      }
      isGenerating := false;
    }
  }

  /** The settings object App.tsx builds, as the service reads it. */
  function AppSettings(prompt: string, model: ModelType, aspectRatio: AspectRatio, imageSize: ImageSize): Settings {
    Settings(prompt, model, aspectRatio, imageSize, [], false)
  }

  /**
   * What the App sends: the prompt as the only part, on the non-streaming
   * endpoint, whatever reference image is loaded.
   */
  lemma AppRequestCarriesPromptOnly(prompt: string, model: ModelType, aspectRatio: AspectRatio,
                                    imageSize: ImageSize, baseUrl: string, apiKey: string)
    ensures var req := RequestFor(AppSettings(prompt, model, aspectRatio, imageSize), Some(baseUrl), apiKey);
      && req.payload.contents == [Content([TextPart(prompt)])]
      && !EndsWith(req.endpoint, ":" + StreamMethod + "?key=" + apiKey)
      && EndsWith(req.endpoint, "?key=" + apiKey)
  {
    PayloadShape(AppSettings(prompt, model, aspectRatio, imageSize));
    EndpointShape(ApiBase(Some(baseUrl)), model, false, apiKey);
  }
}

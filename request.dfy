/**
 * The request builder of services/geminiService.ts: the endpoint URL (base
 * URL fallback, one trailing slash trimmed, method chosen by the stream flag,
 * key in the query) and the JSON payload (reference images first, then the
 * prompt, and an image configuration whose size is sent only for the Pro
 * model).
 */
module Request {
  import opened Wrappers
  import opened Seqs
  import opened JsText

  datatype ModelType = NanoBanana | NanoBananaPro {
    function Token(): string {
      match this
      case NanoBanana => "gemini-2.5-flash-image"
      case NanoBananaPro => "gemini-3-pro-image-preview"
    }
  }

  datatype AspectRatio = Square | Portrait | Landscape | WidescreenPortrait | WidescreenLandscape {
    function Token(): string {
      match this
      case Square => "1:1"
      case Portrait => "3:4"
      case Landscape => "4:3"
      case WidescreenPortrait => "9:16"
      case WidescreenLandscape => "16:9"
    }
  }

  datatype ImageSize = OneK | TwoK | FourK {
    function Token(): string {
      match this
      case OneK => "1K"
      case TwoK => "2K"
      case FourK => "4K"
    }
  }

  datatype ReferenceImage = ReferenceImage(data: string, mimeType: string)

  /**
   * The generation settings as the service reads them. An absent
   * `referenceImages` is the empty sequence and an absent `useStream` is false.
   */
  datatype Settings = Settings(
    prompt: string,
    model: ModelType,
    aspectRatio: AspectRatio,
    imageSize: ImageSize,
    referenceImages: seq<ReferenceImage>,
    useStream: bool)

  datatype Part = InlineDataPart(data: string, mimeType: string) | TextPart(text: string)
  datatype Content = Content(parts: seq<Part>)
  datatype ImageConfig = ImageConfig(aspectRatio: AspectRatio, imageSize: Option<ImageSize>)
  datatype GenerationConfig = GenerationConfig(imageConfig: ImageConfig)
  datatype Payload = Payload(contents: seq<Content>, generationConfig: GenerationConfig)

  /** What is POSTed: the endpoint URL and the body before `JSON.stringify`. */
  datatype Request = Request(endpoint: string, payload: Payload)

  const DefaultBaseUrl: string := "https://generativelanguage.googleapis.com"
  const StreamMethod: string := "streamGenerateContent"
  const PlainMethod: string := "generateContent"

  /** The base the endpoint is built on: `baseUrl || default`, less one trailing "/" (`ApiBaseChoice`). */
  function ApiBase(baseUrl: Option<string>): string {
    var base := if baseUrl.Some? && baseUrl.value != "" then baseUrl.value else DefaultBaseUrl;
    if EndsWith(base, "/") then base[..|base| - 1] else base
  }

  /** An empty or missing base URL selects the public endpoint; one trailing "/" is dropped. */
  lemma ApiBaseChoice(baseUrl: Option<string>)
    ensures baseUrl.None? || baseUrl.value == "" ==> ApiBase(baseUrl) == DefaultBaseUrl
    ensures baseUrl.Some? && baseUrl.value != "" && EndsWith(baseUrl.value, "/") ==>
      ApiBase(baseUrl) + "/" == baseUrl.value
    ensures baseUrl.Some? && baseUrl.value != "" && !EndsWith(baseUrl.value, "/") ==>
      ApiBase(baseUrl) == baseUrl.value
  {
    var base := if baseUrl.Some? && baseUrl.value != "" then baseUrl.value else DefaultBaseUrl;
    if baseUrl.None? || baseUrl.value == "" {
      DefaultHasNoTrailingSlash();
    } else if EndsWith(base, "/") {
      assert base[..|base| - 1] + "/" == base;
    }
  }

  lemma DefaultHasNoTrailingSlash()
    ensures !EndsWith(DefaultBaseUrl, "/")
  {
    var d := DefaultBaseUrl;
    assert d[|d| - 1] == 'm';
  }

  function MethodName(useStream: bool): string {
    if useStream then StreamMethod else PlainMethod
  }

  /** `${apiBase}/v1beta/models/${model}:${method}?key=${apiKey}`. */
  function Endpoint(apiBase: string, model: ModelType, useStream: bool, apiKey: string): string {
    apiBase + "/v1beta/models/" + model.Token() + ":" + MethodName(useStream) + "?key=" + apiKey
  }

  /** The method segment between a prefix and a tail: the streaming name appears exactly when chosen. */
  lemma MethodSegment(pre: string, tail: string, useStream: bool)
    ensures var e := pre + ":" + MethodName(useStream) + tail;
      && StartsWith(e, pre + ":")
      && EndsWith(e, tail)
      && (useStream <==> EndsWith(e, ":" + StreamMethod + tail))
  {
    var head := pre + ":";
    var e := head + MethodName(useStream) + tail;
    assert e[..|head|] == head;
    assert e[|e| - |tail|..] == tail;
    if useStream {
      StreamSegment(pre, tail);
    } else {
      PlainSegment(pre, tail);
    }
  }

  lemma StreamSegment(pre: string, tail: string)
    ensures EndsWith(pre + ":" + StreamMethod + tail, ":" + StreamMethod + tail)
  {
    AppendAssociates(pre, ":", StreamMethod);
    AppendAssociates(pre, ":" + StreamMethod, tail);
    AppendAssociates(":", StreamMethod, tail);
    var e := pre + (":" + StreamMethod + tail);
    assert e[|e| - |":" + StreamMethod + tail|..] == ":" + StreamMethod + tail;
  }

  /** "generateContent" differs from "streamGenerateContent" in the letter before "enerateContent". */
  lemma PlainSegment(pre: string, tail: string)
    ensures !EndsWith(pre + ":" + PlainMethod + tail, ":" + StreamMethod + tail)
  {
    var e := pre + ":" + PlainMethod + tail;
    var s := ":" + StreamMethod + tail;
    var k := |tail| + 15;
    assert e[|e| - k] == 'g';
    assert s[|s| - k] == 'G';
    assert |s| <= |e| ==> e[|e| - |s|..][|s| - k] == e[|e| - k];
  }

  /**
   * The endpoint starts with the base, the version path and the model, ends
   * with the key, and names the streaming method exactly when streaming is on.
   */
  lemma EndpointShape(apiBase: string, model: ModelType, useStream: bool, apiKey: string)
    ensures var e := Endpoint(apiBase, model, useStream, apiKey);
      && StartsWith(e, apiBase + "/v1beta/models/" + model.Token() + ":")
      && EndsWith(e, "?key=" + apiKey)
      && (useStream <==> EndsWith(e, ":" + StreamMethod + "?key=" + apiKey))
  {
    var pre := apiBase + "/v1beta/models/" + model.Token();
    MethodSegment(pre, "?key=" + apiKey, useStream);
    AppendAssociates(pre + ":" + MethodName(useStream), "?key=", apiKey);
  }

  function InlinePart(image: ReferenceImage): Part {
    InlineDataPart(image.data, image.mimeType)
  }

  /** The `parts` list: one inline-data part per reference image, then the prompt. */
  function PartsFor(images: seq<ReferenceImage>, prompt: string): seq<Part> {
    if images == [] then [TextPart(prompt)]
    else [InlinePart(images[0])] + PartsFor(images[1..], prompt)
  }

  function ImageConfigFor(settings: Settings): ImageConfig {
    ImageConfig(
      settings.aspectRatio,
      if settings.model == NanoBananaPro then Some(settings.imageSize) else None)
  }

  function PayloadFor(settings: Settings): Payload {
    Payload(
      [Content(PartsFor(settings.referenceImages, settings.prompt))],
      GenerationConfig(ImageConfigFor(settings)))
  }

  function RequestFor(settings: Settings, baseUrl: Option<string>, apiKey: string): Request {
    Request(
      Endpoint(ApiBase(baseUrl), settings.model, settings.useStream, apiKey),
      PayloadFor(settings))
  }

  /** The N reference images in input order, then exactly one text part. */
  lemma {:induction false} PartsForShape(images: seq<ReferenceImage>, prompt: string)
    ensures |PartsFor(images, prompt)| == |images| + 1
    ensures forall i :: 0 <= i < |images| ==> PartsFor(images, prompt)[i] == InlinePart(images[i])
    ensures PartsFor(images, prompt)[|images|] == TextPart(prompt)
  {
    if images != [] {
      PartsForShape(images[1..], prompt);
    }
  }

  /**
   * The payload has one `contents` entry whose parts are the images then the
   * prompt; the aspect ratio is always sent and the size exactly for the Pro model.
   */
  lemma PayloadShape(settings: Settings)
    ensures var p := PayloadFor(settings);
      && |p.contents| == 1
      && |p.contents[0].parts| == |settings.referenceImages| + 1
      && (forall i :: 0 <= i < |settings.referenceImages| ==>
            p.contents[0].parts[i] == InlinePart(settings.referenceImages[i]))
      && p.contents[0].parts[|settings.referenceImages|] == TextPart(settings.prompt)
      && p.generationConfig.imageConfig.aspectRatio == settings.aspectRatio
      && (p.generationConfig.imageConfig.imageSize.Some? <==> settings.model == NanoBananaPro)
      && (p.generationConfig.imageConfig.imageSize.Some? ==>
            p.generationConfig.imageConfig.imageSize.value == settings.imageSize)
  {
    PartsForShape(settings.referenceImages, settings.prompt);
  }

  /** The stream flag changes the endpoint's method segment and nothing in the payload. */
  lemma StreamFlagOnlySelectsMethod(settings: Settings, baseUrl: Option<string>, apiKey: string)
    ensures var streamed := RequestFor(settings.(useStream := true), baseUrl, apiKey);
      var plain := RequestFor(settings.(useStream := false), baseUrl, apiKey);
      && streamed.payload == plain.payload
      && EndsWith(streamed.endpoint, ":" + StreamMethod + "?key=" + apiKey)
      && !EndsWith(plain.endpoint, ":" + StreamMethod + "?key=" + apiKey)
  {
    EndpointShape(ApiBase(baseUrl), settings.model, true, apiKey);
    EndpointShape(ApiBase(baseUrl), settings.model, false, apiKey);
  }

  /** Builds the `parts` list as services/geminiService.ts does, by pushing onto an empty list. */
  method BuildParts(images: seq<ReferenceImage>, prompt: string) returns (parts: seq<Part>)
    ensures |parts| == |images| + 1
    ensures forall i :: 0 <= i < |images| ==> parts[i] == InlinePart(images[i])
    ensures parts[|images|] == TextPart(prompt)
  {
    parts := [];
    if |images| > 0 {
      for i := 0 to |images|
        invariant |parts| == i
        invariant forall j :: 0 <= j < i ==> parts[j] == InlinePart(images[j])
      {
        parts := parts + [InlinePart(images[i])];
      }
    }
    parts := parts + [TextPart(prompt)];
  }

  /** Builds the endpoint and the payload step by step; equal inputs give equal requests. */
  method BuildRequest(settings: Settings, baseUrl: Option<string>, apiKey: string) returns (req: Request)
    ensures req == RequestFor(settings, baseUrl, apiKey)
  {
    var apiBase := if baseUrl.Some? && baseUrl.value != "" then baseUrl.value else DefaultBaseUrl;
    if EndsWith(apiBase, "/") {
      apiBase := apiBase[..|apiBase| - 1];
    }
    var methodName := if settings.useStream then StreamMethod else PlainMethod;
    var endpoint := apiBase + "/v1beta/models/" + settings.model.Token() + ":" + methodName + "?key=" + apiKey;

    var parts := BuildParts(settings.referenceImages, settings.prompt);
    var imageConfig := ImageConfig(settings.aspectRatio, None);
    if settings.model == NanoBananaPro {
      imageConfig := imageConfig.(imageSize := Some(settings.imageSize));
    }
    var payload := Payload([Content(parts)], GenerationConfig(imageConfig));

    assert apiBase == ApiBase(baseUrl);
    assert methodName == MethodName(settings.useStream);
    assert endpoint == Endpoint(ApiBase(baseUrl), settings.model, settings.useStream, apiKey);
    PartsForShape(settings.referenceImages, settings.prompt);
    assert parts == PartsFor(settings.referenceImages, settings.prompt);
    assert payload == PayloadFor(settings);
    req := Request(endpoint, payload);
  }
}

/**
 * What the three provider classes share (src/providers/types.ts and the
 * common body of their `generateAltText`): the parameters, the request each
 * backend call sends, and how the reply text becomes the alt text.
 */
module Vision {
  import opened Common
  import opened Text
  import opened Retry

  /** `{ apiKey?, model? }` given to a provider's constructor. */
  datatype ProviderOptions = ProviderOptions(apiKey: Option<string>, model: Option<string>)

  datatype ImageInput = ImageInput(base64Data: string, mediaType: string)

  datatype GenerateParams = GenerateParams(image: ImageInput, prompt: string, maxLength: nat)

  /** One `generateText` request: the key the client is made with, the model, the image data URL and the prompt. */
  datatype VisionCall = VisionCall(apiKey: Option<string>, model: string, image: string, prompt: string, maxOutputTokens: nat)

  /** `a ?? b` */
  function Coalesce(a: Option<string>, b: Option<string>): (r: Option<string>)
    ensures a.Some? ==> r == a
    ensures a.None? ==> r == b
  {
    if a.Some? then a else b
  }

  /** `data:${mediaType};base64,${base64Data}` */
  function DataUrl(image: ImageInput): string
  {
    "data:" + image.mediaType + ";base64," + image.base64Data
  }

  /** The request every attempt of one `generateAltText` call sends. */
  function CallFor(apiKey: Option<string>, envKey: Option<string>, model: string, params: GenerateParams): VisionCall
  {
    VisionCall(Coalesce(apiKey, envKey), model, DataUrl(params.image), params.prompt, 100)
  }

  /** `result.text.trim().slice(0, maxLength)` */
  function Shorten(text: string, maxLength: nat): (r: string)
    ensures |r| <= maxLength
    ensures |r| <= |Trim(text)| && r == Trim(text)[..|r|]
    ensures |Trim(text)| <= maxLength ==> r == Trim(text)
    ensures maxLength <= |Trim(text)| ==> |r| == maxLength
    ensures r != [] ==> !IsSpace(r[0])
  {
    Take(Trim(text), maxLength)
  }

  /** What `generateAltText` resolves to (`{ altText }`) or rejects with, given how the retry loop ended. */
  function AltTextOf(run: Run<string>, maxLength: nat): (r: Outcome<string>)
    ensures r.Ok? <==> run.result.Ok?
    ensures r.Err? ==> r == run.result
  {
    match run.result
    case Ok(text) => Ok(Shorten(text, maxLength))
    case Err(e) => Err(e)
  }

  /**
   * The retry/backoff body shared by the three providers: build the request,
   * run the loop, shorten the text.
   */
  method GenerateWith(apiKey: Option<string>, envKey: Option<string>, model: string, markers: seq<string>,
                      params: GenerateParams, backend: (VisionCall, nat) -> Outcome<string>)
    returns (r: Outcome<string>, waits: seq<nat>)
    ensures var run := RetryFrom(backend, CallFor(apiKey, envKey, model, params), markers, 0);
            r == AltTextOf(run, params.maxLength) && waits == run.waits
  {
    var result;
    result, waits := CallWithBackoff(backend, CallFor(apiKey, envKey, model, params), markers);
    r := AltTextOf(Run(result, waits), params.maxLength);
  }

  /**
   * A returned alt text is the trimmed text of the one backend call that
   * succeeded, cut to exactly `maxLength` characters when it is longer, and
   * that call was preceded only by rate-limited failures, at most three of them.
   */
  lemma AltTextComesFromSuccess(backend: (VisionCall, nat) -> Outcome<string>, call: VisionCall, markers: seq<string>, maxLength: nat)
    ensures var run := RetryFrom(backend, call, markers, 0);
            var r := AltTextOf(run, maxLength);
            r.Ok? ==>
              && |run.waits| <= MaxRetries
              && backend(call, |run.waits|).Ok?
              && |r.value| <= maxLength
              && |r.value| <= |Trim(backend(call, |run.waits|).value)|
              && r.value == Trim(backend(call, |run.waits|).value)[..|r.value|]
              && (|Trim(backend(call, |run.waits|).value)| <= maxLength ==> r.value == Trim(backend(call, |run.waits|).value))
              && (maxLength <= |Trim(backend(call, |run.waits|).value)| ==> |r.value| == maxLength)
              && (forall k :: 0 <= k < |run.waits| ==> backend(call, k).Err? && IsRateLimit(backend(call, k).error, markers))
  {
    RetryShape(backend, call, markers);
  }
}

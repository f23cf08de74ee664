/**
 * The bundled `POST /generate-alt` handler (dist/index.mjs): it adds an
 * extension check, a filename-only path for SVG files, re-encoding of large
 * images, and the rate-limit retry loop around the vision call. Errors are
 * reported with their `message` rather than `String(error)`.
 */
module GenerateAlt {
  import opened Common
  import opened Text
  import opened Http
  import opened Retry
  import opened Vision
  import opened Filenames
  import opened GenerationSteps

  /** Only messages holding "429" are retried by this handler. */
  const RateLimitMarkers: seq<string> := ["429"]

  /**
   * The extension the handler judges: the lower-cased last '.'-segment of the
   * filename, or, when that is empty, of the URL path before any '?'.
   */
  function RequestExtension(filename: Option<string>, imageUrl: string): string
  {
    var fromName := LastSegment(Lower(OrText(filename, "")), '.');
    if fromName != "" then fromName else LastSegment(Lower(FirstSegment(imageUrl, '?')), '.')
  }

  /** With a filename whose extension is non-empty, the handler judges it as the missing-alt list does. */
  lemma RequestExtensionAgrees(filename: string, imageUrl: string)
    requires filename != "" && Extension(filename) != ""
    ensures RequestExtension(Some(filename), imageUrl) == Extension(filename)
    ensures RequestExtension(Some(filename), imageUrl) in ImageExtensions <==> IsImageFile(filename)
  {
    LowerLastSegment(filename);
  }

  /** Every file the missing-alt list offers passes this handler's extension check. */
  lemma ListedFilesPass(filename: string, imageUrl: string)
    requires filename != "" && IsImageFile(filename)
    ensures RequestExtension(Some(filename), imageUrl) in ImageExtensions
  {
    RequestExtensionAgrees(filename, imageUrl);
  }

  /** The 400 reply for a file type outside the allow-list. */
  function NotAnImage(ext: string): Response
  {
    FailWith(400, "Not an image", "File type \"." + ext + "\" is not supported. Only images can have alt text generated.")
  }

  /** `Response.json({ error: 'Failed to generate alt text', details: error.message }, { status: 500 })` */
  function Failed(e: Thrown): Response
  {
    FailWith(500, "Failed to generate alt text", ErrorMessage(e))
  }

  /** How far the handler gets before the vision call: a finished response, or the call to make. */
  datatype Prepared = Answer(response: Response) | Ask(call: MessageCall)

  /** The vision call for a fetched image. */
  function CallFor(body: GenerateBody, options: PluginOptions, envKey: Option<string>, url: string, image: ImageReply): MessageCall
  {
    MessageCall(envKey, options.model, 100, url, NeedsResize(image), MediaTypeAfterResize(image),
                BuildPrompt(options.prompt, body.filename, options.maxLength, options.language))
  }

  /** Guards, extension check, SVG path, URL qualification and fetch. */
  function Prepare(authenticated: bool, body: GenerateBody, headers: Headers, options: PluginOptions,
                   envKey: Option<string>, fetch: string -> Outcome<ImageReply>): (r: Prepared)
    ensures !authenticated ==> r == Answer(Unauthorized)
    ensures authenticated && (body.imageUrl.None? || body.imageUrl.value == "") ==> r == Answer(Fail(400, "Image URL is required"))
  {
    if !authenticated then Answer(Unauthorized)
    else if body.imageUrl.None? || body.imageUrl.value == "" then Answer(Fail(400, "Image URL is required"))
    else
      var imageUrl := body.imageUrl.value;
      var ext := RequestExtension(body.filename, imageUrl);
      if ext !in ImageExtensions then Answer(NotAnImage(ext))
      else if ext == "svg" then
        Answer(Json(SuggestionBody(body.imageId, body.filename, DeriveAltFromFilename(OrText(body.filename, imageUrl)), imageUrl)))
      else
        var url := QualifyUrl(imageUrl, headers);
        match fetch(url)
        case Err(e) => Answer(Failed(e))
        case Ok(image) =>
          if !image.ok then Answer(Failed(NewError("Failed to fetch image: " + NatToString(image.status))))
          else Ask(CallFor(body, options, envKey, url, image))
  }

  /** The response once the retry loop has ended. */
  function Finish(body: GenerateBody, options: PluginOptions, result: Outcome<seq<ContentBlock>>): (r: Response)
    requires body.imageUrl.Some?
    ensures r.status == 200 || r.status == 500
    ensures r.status == 200 ==> result.Ok? && result.value != [] && r.body.SuggestionBody?
                                && r.body.suggestedAlt == SuggestionText(result.value, options.maxLength).value
                                && |r.body.suggestedAlt| <= options.maxLength
    ensures result.Err? ==> r == Failed(result.error)
  {
    match result
    case Err(e) => Failed(e)
    case Ok(content) =>
      match SuggestionText(content, options.maxLength)
      case Err(e) => Failed(e)
      case Ok(alt) => Json(SuggestionBody(body.imageId, body.filename, alt, body.imageUrl.value))
  }

  /**
   * The handler. It answers as `Prepare` decides, or, when a vision call is
   * due, as `Finish` decides on the outcome of the retry loop; `waits` are the
   * backoff delays it slept.
   */
  method HandleGenerateAlt(authenticated: bool, body: GenerateBody, headers: Headers, options: PluginOptions,
                           envKey: Option<string>, fetch: string -> Outcome<ImageReply>,
                           backend: (MessageCall, nat) -> Outcome<seq<ContentBlock>>)
    returns (r: Response, waits: seq<nat>)
    ensures match Prepare(authenticated, body, headers, options, envKey, fetch)
            case Answer(response) => r == response && waits == []
            case Ask(call) =>
              var run := RetryFrom(backend, call, RateLimitMarkers, 0);
              body.imageUrl.Some? && r == Finish(body, options, run.result) && waits == run.waits
  {
    var prepared := Prepare(authenticated, body, headers, options, envKey, fetch);
    match prepared {
      case Answer(response) =>
        return response, [];
      case Ask(call) =>
        var result;
        result, waits := CallWithBackoff(backend, call, RateLimitMarkers);
        r := Finish(body, options, result);
    }
  }

  /**
   * The checks run in order: no user gives 401, then a missing URL 400, then
   * an extension outside the allow-list 400 "Not an image" naming ".ext";
   * none of these fetches anything.
   */
  lemma GuardOrder(authenticated: bool, body: GenerateBody, headers: Headers, options: PluginOptions,
                   envKey: Option<string>, fetch: string -> Outcome<ImageReply>, otherFetch: string -> Outcome<ImageReply>)
    ensures var p := Prepare(authenticated, body, headers, options, envKey, fetch);
            && (!authenticated ==> p == Answer(Unauthorized))
            && (authenticated && (body.imageUrl.None? || body.imageUrl.value == "") ==> p == Answer(Fail(400, "Image URL is required")))
            && (authenticated && body.imageUrl.Some? && body.imageUrl.value != ""
                && RequestExtension(body.filename, body.imageUrl.value) !in ImageExtensions ==>
                  p == Answer(NotAnImage(RequestExtension(body.filename, body.imageUrl.value)))
                  && p == Prepare(authenticated, body, headers, options, envKey, otherFetch))
  {
  }

  /**
   * An SVG file is described from its name alone: the answer is 200 with
   * `deriveAltFromFilename(filename || imageUrl)`, the same whatever the
   * fetch would return, and no vision call is made.
   */
  lemma SvgUsesFilenameOnly(body: GenerateBody, headers: Headers, options: PluginOptions,
                            envKey: Option<string>, fetch: string -> Outcome<ImageReply>, otherFetch: string -> Outcome<ImageReply>)
    requires body.imageUrl.Some? && body.imageUrl.value != ""
    requires RequestExtension(body.filename, body.imageUrl.value) == "svg"
    ensures var p := Prepare(true, body, headers, options, envKey, fetch);
            && p.Answer?
            && p == Prepare(true, body, headers, options, envKey, otherFetch)
            && p.response.status == 200
            && p.response.body.suggestedAlt == DeriveAltFromFilename(OrText(body.filename, body.imageUrl.value))
  {
    assert "svg" in ImageExtensions;
  }

  /**
   * A vision call is made only for an authorised request naming a non-SVG
   * image whose fetch succeeded; it sends JPEG after re-encoding and the
   * content-type's media type otherwise, with the filled prompt and 100 tokens.
   */
  lemma AskShape(authenticated: bool, body: GenerateBody, headers: Headers, options: PluginOptions,
                 envKey: Option<string>, fetch: string -> Outcome<ImageReply>)
    requires Prepare(authenticated, body, headers, options, envKey, fetch).Ask?
    ensures var call := Prepare(authenticated, body, headers, options, envKey, fetch).call;
            var ext := RequestExtension(body.filename, body.imageUrl.value);
            var url := QualifyUrl(body.imageUrl.value, headers);
            && authenticated && body.imageUrl.Some? && body.imageUrl.value != ""
            && ext in ImageExtensions && ext != "svg"
            && fetch(url).Ok? && fetch(url).value.ok
            && call.imageUrl == url
            && call.resized == NeedsResize(fetch(url).value)
            && (call.resized ==> call.mediaType == "image/jpeg")
            && (!call.resized ==> call.mediaType == MediaTypeOf(fetch(url).value.contentType))
            && call.prompt == BuildPrompt(options.prompt, body.filename, options.maxLength, options.language)
            && call.model == options.model && call.maxTokens == 100 && call.apiKey == envKey
  {
  }

  /**
   * Once a call is due, the vision backend is asked at most four times, and
   * a 200 answer is built from the reply of the one attempt that succeeded,
   * after rate-limited failures only; a rethrown error is reported by its message.
   */
  lemma AnswerFromSuccessfulAttempt(body: GenerateBody, options: PluginOptions, call: MessageCall,
                                    backend: (MessageCall, nat) -> Outcome<seq<ContentBlock>>)
    requires body.imageUrl.Some?
    ensures var run := RetryFrom(backend, call, RateLimitMarkers, 0);
            var last := backend(call, |run.waits|);
            var r := Finish(body, options, run.result);
            && |run.waits| <= MaxRetries
            && (r.status == 200 ==> last.Ok? && r == Finish(body, options, last))
            && (r.status == 200 ==> forall k :: 0 <= k < |run.waits| ==> backend(call, k).Err? && IsRateLimit(backend(call, k).error, RateLimitMarkers))
            && (run.result.Err? ==> r == Failed(run.result.error))
  {
    RetryShape(backend, call, RateLimitMarkers);
  }
}

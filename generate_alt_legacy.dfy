/**
 * The `POST /generate-alt` handler of src/endpoints/generateAlt.ts: no
 * extension check, no re-encoding and a single vision call without retry.
 * The image fetch and the vision call are oracles; `envKey` is
 * `process.env.ANTHROPIC_API_KEY`.
 */
module GenerateAltLegacy {
  import opened Common
  import opened Text
  import opened Http
  import opened GenerationSteps
  import opened Vision

  /** The vision call this handler makes for a fetched image. */
  function LegacyCall(body: GenerateBody, options: PluginOptions, envKey: Option<string>, url: string, image: ImageReply): MessageCall
  {
    MessageCall(envKey, options.model, 300, url, false, MediaTypeOf(image.contentType),
                BuildPrompt(options.prompt, body.filename, options.maxLength, options.language))
  }

  /** `Response.json({ error: 'Failed to generate alt text', details: String(error) }, { status: 500 })` */
  function Failed(e: Thrown): Response
  {
    FailWith(500, "Failed to generate alt text", ErrorString(e))
  }

  /** The error a non-2xx image fetch raises. */
  function FetchFailure(status: nat): Thrown
  {
    NewError("Failed to fetch image: " + NatToString(status))
  }

  /** The whole handler, guards first, then the `try` block and its `catch`. */
  function GenerateAlt(authenticated: bool, body: GenerateBody, headers: Headers, options: PluginOptions,
                       envKey: Option<string>, fetch: string -> Outcome<ImageReply>,
                       backend: MessageCall -> Outcome<seq<ContentBlock>>): (r: Response)
    ensures !authenticated ==> r == Unauthorized
    ensures authenticated && (body.imageUrl.None? || body.imageUrl.value == "") ==> r == Fail(400, "Image URL is required")
    ensures r.status == 200 ==> r.body.SuggestionBody? && |r.body.suggestedAlt| <= options.maxLength
    ensures r.status in {200, 400, 401, 500}
  {
    if !authenticated then Unauthorized
    else if body.imageUrl.None? || body.imageUrl.value == "" then Fail(400, "Image URL is required")
    else
      var url := QualifyUrl(body.imageUrl.value, headers);
      match fetch(url)
      case Err(e) => Failed(e)
      case Ok(image) =>
        if !image.ok then Failed(FetchFailure(image.status))
        else
          match backend(LegacyCall(body, options, envKey, url, image))
          case Err(e) => Failed(e)
          case Ok(content) =>
            match SuggestionText(content, options.maxLength)
            case Err(e) => Failed(e)
            case Ok(alt) => Json(SuggestionBody(body.imageId, body.filename, alt, body.imageUrl.value))
  }

  /** The image is fetched from the qualified URL, and the call sends that image with its media type and the filled prompt. */
  lemma LegacyCallShape(body: GenerateBody, options: PluginOptions, envKey: Option<string>, headers: Headers, image: ImageReply)
    requires body.imageUrl.Some?
    ensures var c := LegacyCall(body, options, envKey, QualifyUrl(body.imageUrl.value, headers), image);
            && c.model == options.model && c.maxTokens == 300 && !c.resized
            && c.mediaType in MediaTypes && c.mediaType == MediaTypeOf(image.contentType)
            && c.prompt == BuildPrompt(options.prompt, body.filename, options.maxLength, options.language)
            && EndsWith(c.imageUrl, body.imageUrl.value)
  {
    var u := body.imageUrl.value;
    var q := QualifyUrl(u, headers);
    assert q[|q| - |u|..] == u;
  }

  /**
   * A successful reply echoes the request's `imageId`, `filename` and
   * `imageUrl` (not the qualified URL) and carries the trimmed first text
   * block cut to `maxLength`, or "" when the first block is not text.
   */
  lemma SuccessEchoesRequest(body: GenerateBody, headers: Headers, options: PluginOptions, envKey: Option<string>,
                             fetch: string -> Outcome<ImageReply>, backend: MessageCall -> Outcome<seq<ContentBlock>>)
    requires GenerateAlt(true, body, headers, options, envKey, fetch, backend).status == 200
    ensures var r := GenerateAlt(true, body, headers, options, envKey, fetch, backend);
            var url := QualifyUrl(body.imageUrl.value, headers);
            var content := backend(LegacyCall(body, options, envKey, url, fetch(url).value)).value;
            && fetch(url).Ok? && fetch(url).value.ok
            && content != []
            && r.body == SuggestionBody(body.imageId, body.filename,
                                        if content[0].TextBlock? then Shorten(content[0].text, options.maxLength) else "",
                                        body.imageUrl.value)
  {
  }

  /** A non-2xx image fetch answers 500 with details "Error: Failed to fetch image: <status>", and no vision call decides it. */
  lemma FetchFailureDetails(body: GenerateBody, headers: Headers, options: PluginOptions, envKey: Option<string>,
                            fetch: string -> Outcome<ImageReply>, backend: MessageCall -> Outcome<seq<ContentBlock>>,
                            other: MessageCall -> Outcome<seq<ContentBlock>>)
    requires body.imageUrl.Some? && body.imageUrl.value != ""
    requires var f := fetch(QualifyUrl(body.imageUrl.value, headers)); f.Ok? && !f.value.ok
    ensures var r := GenerateAlt(true, body, headers, options, envKey, fetch, backend);
            var status := fetch(QualifyUrl(body.imageUrl.value, headers)).value.status;
            && r == FailWith(500, "Failed to generate alt text", "Error: Failed to fetch image: " + NatToString(status))
            && r == GenerateAlt(true, body, headers, options, envKey, fetch, other)
  {
    var status := fetch(QualifyUrl(body.imageUrl.value, headers)).value.status;
    var m := "Failed to fetch image: " + NatToString(status);
    assert ErrorString(FetchFailure(status)) == "Error" + ": " + m;
    assert "Error" + ": " == "Error: ";
    assert "Error: " + "Failed to fetch image: " == "Error: Failed to fetch image: ";
    assert "Error: " + m == ("Error: " + "Failed to fetch image: ") + NatToString(status);
    assert GenerateAlt(true, body, headers, options, envKey, fetch, backend) == Failed(FetchFailure(status));
  }

  /** Every error thrown inside the `try` block, by the fetch or by the vision call, becomes a 500 whose details are `String(error)`. */
  lemma ThrownBecomes500(body: GenerateBody, headers: Headers, options: PluginOptions, envKey: Option<string>,
                         fetch: string -> Outcome<ImageReply>, backend: MessageCall -> Outcome<seq<ContentBlock>>)
    requires body.imageUrl.Some? && body.imageUrl.value != ""
    ensures var url := QualifyUrl(body.imageUrl.value, headers);
            var r := GenerateAlt(true, body, headers, options, envKey, fetch, backend);
            && (fetch(url).Err? ==> r == Failed(fetch(url).error))
            && (fetch(url).Ok? && fetch(url).value.ok ==>
                  var reply := backend(LegacyCall(body, options, envKey, url, fetch(url).value));
                  reply.Err? ==> r == FailWith(500, "Failed to generate alt text", ErrorString(reply.error)))
  {
  }
}

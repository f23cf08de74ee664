/** `GoogleProvider` (src/providers/google.ts). */
module Google {
  import opened Common
  import Text
  import opened Retry
  import opened Vision

  const DefaultModel: string := "gemini-1.5-flash"

  /** The messages `generateAltText` retries on. */
  const RateLimitMarkers: seq<string> := ["429", "rate limit", "RESOURCE_EXHAUSTED"]

  /**
   * A thrown `Error` counts as a rate limit exactly when its message holds
   * "429", "rate limit" or "RESOURCE_EXHAUSTED"; any other thrown value never does.
   */
  lemma RateLimitMeans(e: Thrown)
    ensures IsRateLimit(e, RateLimitMarkers) <==>
              e.ErrorObject? && (Text.Contains(e.message, "429") || Text.Contains(e.message, "rate limit")
                                 || Text.Contains(e.message, "RESOURCE_EXHAUSTED"))
  {
    if e.ErrorObject? && Text.Contains(e.message, "RESOURCE_EXHAUSTED") {
      assert RateLimitMarkers[2] == "RESOURCE_EXHAUSTED";
    }
    if e.ErrorObject? && Text.Contains(e.message, "rate limit") {
      assert RateLimitMarkers[1] == "rate limit";
    }
    if e.ErrorObject? && Text.Contains(e.message, "429") {
      assert RateLimitMarkers[0] == "429";
    }
  }

  class GoogleProvider {
    const name: string
    const apiKey: Option<string>
    const model: string

    /** The key is kept as given (possibly absent); the model defaults only when absent. */
    constructor(options: ProviderOptions)
      ensures name == "google"
      ensures apiKey == options.apiKey
      ensures options.model.Some? ==> model == options.model.value
      ensures options.model.None? ==> model == DefaultModel
    {
      name := "google";
      apiKey := options.apiKey;
      model := GetOr(options.model, DefaultModel);
    }

    /**
     * `generateAltText`: the configured key, else `GOOGLE_GENERATIVE_AI_API_KEY` (`envKey`),
     * is used for every attempt; the alt text is the shortened text of the
     * first successful attempt.
     */
    method GenerateAltText(params: GenerateParams, envKey: Option<string>, backend: (VisionCall, nat) -> Outcome<string>)
      returns (r: Outcome<string>, waits: seq<nat>)
      ensures var call := CallFor(apiKey, envKey, model, params);
              && call.apiKey == (if apiKey.Some? then apiKey else envKey)
              && call.model == model
              && r == AltTextOf(RetryFrom(backend, call, RateLimitMarkers, 0), params.maxLength)
              && waits == RetryFrom(backend, call, RateLimitMarkers, 0).waits
    {
      r, waits := GenerateWith(apiKey, envKey, model, RateLimitMarkers, params, backend);
    }
  }
}

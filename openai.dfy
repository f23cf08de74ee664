/** `OpenAIProvider` (src/providers/openai.ts). */
module OpenAI {
  import opened Common
  import Text
  import opened Retry
  import opened Vision

  const DefaultModel: string := "gpt-4o"

  /** The messages `generateAltText` retries on. */
  const RateLimitMarkers: seq<string> := ["429", "rate limit"]

  /**
   * A thrown `Error` counts as a rate limit exactly when its message holds
   * "429" or "rate limit"; any other thrown value never does.
   */
  lemma RateLimitMeans(e: Thrown)
    ensures IsRateLimit(e, RateLimitMarkers) <==>
              e.ErrorObject? && (Text.Contains(e.message, "429") || Text.Contains(e.message, "rate limit"))
  {
    if e.ErrorObject? && Text.Contains(e.message, "rate limit") {
      assert RateLimitMarkers[1] == "rate limit";
    }
    if e.ErrorObject? && Text.Contains(e.message, "429") {
      assert RateLimitMarkers[0] == "429";
    }
  }

  class OpenAIProvider {
    const name: string
    const apiKey: Option<string>
    const model: string

    /** The key is kept as given (possibly absent); the model defaults only when absent. */
    constructor(options: ProviderOptions)
      ensures name == "openai"
      ensures apiKey == options.apiKey
      ensures options.model.Some? ==> model == options.model.value
      ensures options.model.None? ==> model == DefaultModel
    {
      name := "openai";
      apiKey := options.apiKey;
      model := GetOr(options.model, DefaultModel);
    }

    /**
     * `generateAltText`: the configured key, else `OPENAI_API_KEY` (`envKey`),
     * is used for every attempt; the alt text is the shortened text of the
     * first successful attempt.
     */
    method GenerateAltText(params: GenerateParams, envKey: Option<string>, backend: (VisionCall, nat) -> Outcome<string>)
      returns (r: Outcome<string>, waits: seq<nat>)
      ensures var call := CallFor(apiKey, envKey, model, params);
              && call.apiKey == (if apiKey.Some? then apiKey else envKey)
              && call.model == model
              && r == AltTextOf(RetryFrom(backend, call, RateLimitMarkers, 0), params.maxLength)
              && waits == RetryFrom(backend, call, RateLimitMarkers, 0).waits
    {
      r, waits := GenerateWith(apiKey, envKey, model, RateLimitMarkers, params, backend);
    }
  }
}

/** `createProvider` (src/providers/index.ts): picks the provider class from the configuration's tag. */
module ProviderFactory {
  import opened Common
  import opened Vision
  import Anthropic
  import OpenAI
  import Google

  /** The provider `createProvider` returns: one of the three classes. */
  datatype Provider =
    | AnthropicBackend(anthropic: Anthropic.AnthropicProvider)
    | OpenAIBackend(openai: OpenAI.OpenAIProvider)
    | GoogleBackend(google: Google.GoogleProvider)

  function Name(p: Provider): string
  {
    match p
    case AnthropicBackend(a) => a.name
    case OpenAIBackend(o) => o.name
    case GoogleBackend(g) => g.name
  }

  function ApiKey(p: Provider): Option<string>
  {
    match p
    case AnthropicBackend(a) => a.apiKey
    case OpenAIBackend(o) => o.apiKey
    case GoogleBackend(g) => g.apiKey
  }

  function Model(p: Provider): string
  {
    match p
    case AnthropicBackend(a) => a.model
    case OpenAIBackend(o) => o.model
    case GoogleBackend(g) => g.model
  }

  /** The default model of the class a tag selects. */
  function DefaultModelFor(tag: string): string
  {
    if tag == "anthropic" then Anthropic.DefaultModel
    else if tag == "google" then Google.DefaultModel
    else OpenAI.DefaultModel
  }

  predicate KnownTag(tag: string)
  {
    tag == "anthropic" || tag == "openai" || tag == "google"
  }

  /**
   * No configuration gives an OpenAI provider with no key and the default
   * model; a known tag gives that class with the configuration's key and
   * model passed through (`model` defaulted when absent); any other tag
   * throws "Unknown provider: <tag>".
   */
  method CreateProvider(config: Option<ProviderConfig>) returns (r: Outcome<Provider>)
    ensures config.None? ==> r.Ok? && r.value.OpenAIBackend? && Name(r.value) == "openai" && ApiKey(r.value).None? && Model(r.value) == OpenAI.DefaultModel
    ensures config.Some? && !KnownTag(config.value.provider) ==>
              r == Err(NewError("Unknown provider: " + config.value.provider))
    ensures config.Some? && KnownTag(config.value.provider) ==>
              && r.Ok?
              && Name(r.value) == config.value.provider
              && ApiKey(r.value) == config.value.apiKey
              && Model(r.value) == GetOr(config.value.model, DefaultModelFor(config.value.provider))
    ensures r.Ok? && config.Some? ==>
              && (r.value.AnthropicBackend? <==> config.value.provider == "anthropic")
              && (r.value.OpenAIBackend? <==> config.value.provider == "openai")
              && (r.value.GoogleBackend? <==> config.value.provider == "google")
  {
    if config.None? {
      var p := new OpenAI.OpenAIProvider(ProviderOptions(None, None));
      return Ok(OpenAIBackend(p));
    }
    var c := config.value;
    var options := ProviderOptions(c.apiKey, c.model);
    if c.provider == "anthropic" {
      var p := new Anthropic.AnthropicProvider(options);
      r := Ok(AnthropicBackend(p));
    } else if c.provider == "openai" {
      var p := new OpenAI.OpenAIProvider(options);
      r := Ok(OpenAIBackend(p));
    } else if c.provider == "google" {
      var p := new Google.GoogleProvider(options);
      r := Ok(GoogleBackend(p));
    } else {
      r := Err(NewError("Unknown provider: " + c.provider));
    }
  }
}

/**
 * Values shared by every part of the plugin model: optional values, the
 * values JavaScript code throws, and the plugin's configuration records
 * (the types of src/types.ts and src/providers/types.ts).
 */
module Common {

  datatype Option<T> = None | Some(value: T)

  /** `x ?? d` / `x || d` for an optional value. */
  function GetOr<T>(o: Option<T>, d: T): T
  {
    match o
    case Some(v) => v
    case None => d
  }

  /**
   * A thrown JavaScript value: an `Error` object (with its `name` and
   * `message`) or any other value (with the text `String(value)` gives it).
   */
  datatype Thrown = ErrorObject(name: string, message: string) | NonError(text: string)

  /** What an awaited call produced: its value, or the value it threw. */
  datatype Outcome<T> = Ok(value: T) | Err(error: Thrown)

  /** `new Error(message)` */
  function NewError(message: string): (e: Thrown)
    ensures e.ErrorObject? && e.message == message
  {
    ErrorObject("Error", message)
  }

  /**
   * `String(e)`: for an Error object this is `Error.prototype.toString`,
   * which joins name and message with ": " and drops whichever is empty.
   */
  function ErrorString(e: Thrown): (r: string)
    ensures e.ErrorObject? && e.name != "" && e.message != "" ==> r == e.name + ": " + e.message
    ensures e.ErrorObject? && e.name == "" ==> r == e.message
    ensures e.ErrorObject? && e.message == "" ==> r == e.name
    ensures e.NonError? ==> r == e.text
  {
    match e
    case NonError(t) => t
    case ErrorObject(n, m) =>
      if n == "" then m else if m == "" then n else n + ": " + m
  }

  /**
   * `e instanceof Error ? e.message : String(e)`: the message alone, which
   * is what `String(e)` shows for a thrown non-Error and for an Error
   * without a name, and what follows "name: " otherwise.
   */
  function ErrorMessage(e: Thrown): (r: string)
    ensures e.NonError? || e.name == "" ==> r == ErrorString(e)
    ensures e.ErrorObject? && e.name != "" && r != "" ==> ErrorString(e) == e.name + ": " + r
  {
    match e
    case ErrorObject(_, m) => m
    case NonError(t) => t
  }

  /** The configuration that selects one vision backend (`ProviderConfig`). */
  datatype ProviderConfig = ProviderConfig(provider: string, apiKey: Option<string>, model: Option<string>)

  /**
   * `Required<AltTextGeneratorPluginOptions>`: the options every endpoint
   * receives once the caller's options are merged over the defaults.
   */
  datatype PluginOptions = PluginOptions(
    collections: seq<string>,
    prompt: string,
    maxLength: nat,
    batchSize: nat,
    model: string,
    altFieldName: string,
    language: string,
    provider: Option<ProviderConfig>)

  /** `options.collections[0]`, which is `undefined` for an empty list. */
  function FirstCollection(options: PluginOptions): (r: Option<string>)
    ensures r.Some? <==> |options.collections| > 0
    ensures r.Some? ==> r.value == options.collections[0]
  {
    if |options.collections| > 0 then Some(options.collections[0]) else None
  }

  /** `given || fallback` for an optional string: an empty string is falsy. */
  function OrElse(given: Option<string>, fallback: Option<string>): (r: Option<string>)
    ensures given.Some? && given.value != "" ==> r == given
    ensures (given.None? || given.value == "") ==> r == fallback
  {
    if given.Some? && given.value != "" then given else fallback
  }

  /** `s || fallback` for a text: an absent or empty string gives the fallback. */
  function OrText(s: Option<string>, fallback: string): string
  {
    GetOr(OrElse(s, Some(fallback)), fallback)
  }

  /** An image record lacking alt text, as the missing-alt endpoint lists it (`ImageWithoutAlt`). */
  datatype ImageWithoutAlt = ImageWithoutAlt(id: string, filename: string, url: Option<string>, alt: Option<string>)
}

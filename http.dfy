/**
 * The JSON responses the plugin's endpoints send (`Response.json(body, { status })`),
 * one constructor per body shape the endpoints use.
 */
module Http {
  import opened Common

  datatype Body =
    | ErrorBody(error: string, details: Option<string>)
      /** `{ totalDocs }` of the missing-alt count mode. */
    | CountBody(totalDocs: nat)
      /** `{ docs, totalDocs }` of the missing-alt list mode. */
    | ListBody(docs: seq<ImageWithoutAlt>, totalDocs: nat)
      /** `{ success: true, id }` of a single save. */
    | SavedBody(id: string)
      /** `{ success, failed }` of a bulk save. */
    | BulkBody(success: seq<string>, failed: seq<string>)
      /** `{ id, filename, suggestedAlt, imageUrl }` of a generation; `echoedId` is the `id` key. */
    | SuggestionBody(echoedId: Option<string>, filename: Option<string>, suggestedAlt: string, imageUrl: string)

  datatype Response = Response(status: nat, body: Body)

  /** `Response.json(body)`: status 200. */
  function Json(body: Body): (r: Response)
    ensures r.status == 200 && r.body == body
  {
    Response(200, body)
  }

  /** `Response.json({ error }, { status })` */
  function Fail(status: nat, error: string): (r: Response)
    ensures r.status == status && r.body == ErrorBody(error, None)
  {
    Response(status, ErrorBody(error, None))
  }

  /** `Response.json({ error, details }, { status })` */
  function FailWith(status: nat, error: string, details: string): (r: Response)
    ensures r.status == status && r.body == ErrorBody(error, Some(details))
  {
    Response(status, ErrorBody(error, Some(details)))
  }

  const Unauthorized: Response := Fail(401, "Unauthorized")
}

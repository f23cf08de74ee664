/**
 * The `POST /save-alt` endpoint (`saveAlt`): validates the body and writes one
 * document's alt field.
 */
module SaveAlt {
  import opened Common
  import opened Http
  import opened Store
  import MissingAlt

  /**
   * The JSON body `{ imageId?, altText?, collectionSlug? }`; `None` is an
   * absent key. `altText` may also be JSON `null`, which the handler does
   * not tell apart from a string.
   */
  datatype SaveAltBody = SaveAltBody(imageId: Option<string>, altText: Option<Value>, collectionSlug: Option<string>)

  /** `!imageId || altText === undefined`: an empty or `null` `altText` passes, an empty `imageId` does not. */
  predicate MissingInput(body: SaveAltBody)
  {
    body.imageId.None? || body.imageId.value == "" || body.altText.None?
  }

  /** The handler: the response and the store afterwards. */
  function SaveAlt(authenticated: bool, body: SaveAltBody, options: PluginOptions, store: Store): (r: (Response, Store))
    ensures !authenticated ==> r == (Unauthorized, store)
    ensures authenticated && MissingInput(body) ==> r == (Fail(400, "Image ID and alt text are required"), store)
    ensures r.0.status == 200 <==> authenticated && !MissingInput(body)
                                   && CanUpdate(store, MissingAlt.TargetCollection(body.collectionSlug, options), body.imageId.value)
    ensures r.0.status != 200 ==> r.1 == store
    ensures r.0.status == 500 ==> r.0 == Fail(500, "Failed to save alt text")
  {
    if !authenticated then (Unauthorized, store)
    else if MissingInput(body) then (Fail(400, "Image ID and alt text are required"), store)
    else
      var collection := MissingAlt.TargetCollection(body.collectionSlug, options);
      var id := body.imageId.value;
      match Update(store, collection, id, options.altFieldName, body.altText.value)
      case None => (Fail(500, "Failed to save alt text"), store)
      case Some(after) => (Json(SavedBody(id)), after)
  }

  /**
   * A successful save answers `{ success: true, id: imageId }` and sets the alt
   * field of exactly that document, in exactly the chosen collection, to
   * `altText`; every other document and collection is as it was.
   */
  lemma SaveAltWritesOnlyTheAlt(body: SaveAltBody, options: PluginOptions, store: Store)
    requires SaveAlt(true, body, options, store).0.status == 200
    ensures var (resp, after) := SaveAlt(true, body, options, store);
            var c := MissingAlt.TargetCollection(body.collectionSlug, options).value;
            var id := body.imageId.value;
            && resp.body == SavedBody(id)
            && after.collections.Keys == store.collections.Keys
            && (forall c' :: c' in store.collections && c' != c ==> after.collections[c'] == store.collections[c'])
            && |after.collections[c]| == |store.collections[c]|
            && (forall i :: 0 <= i < |store.collections[c]| ==>
                  var d := store.collections[c][i];
                  after.collections[c][i] == if d.id == id then d.(fields := d.fields[options.altFieldName := body.altText.value]) else d)
  {
  }

  /** Clearing the alt text is a valid save: `altText: ""` is accepted when the document can be updated. */
  lemma EmptyAltTextAccepted(id: string, collectionSlug: Option<string>, options: PluginOptions, store: Store)
    requires id != ""
    requires CanUpdate(store, MissingAlt.TargetCollection(collectionSlug, options), id)
    ensures SaveAlt(true, SaveAltBody(Some(id), Some(Str("")), collectionSlug), options, store).0 == Json(SavedBody(id))
  {
  }

  /**
   * `altText: null` passes the `=== undefined` test too: the save answers
   * 200 and stores `null`, so the document is listed as missing alt text
   * again.
   */
  lemma NullAltTextStored(id: string, collectionSlug: Option<string>, options: PluginOptions, store: Store)
    requires id != ""
    requires CanUpdate(store, MissingAlt.TargetCollection(collectionSlug, options), id)
    ensures var (resp, after) := SaveAlt(true, SaveAltBody(Some(id), Some(Null), collectionSlug), options, store);
            var c := MissingAlt.TargetCollection(collectionSlug, options).value;
            && resp == Json(SavedBody(id))
            && forall i :: 0 <= i < |after.collections[c]| && after.collections[c][i].id == id ==>
                 AltMissing(after.collections[c][i], options.altFieldName)
  {
    var body := SaveAltBody(Some(id), Some(Null), collectionSlug);
    SaveAltWritesOnlyTheAlt(body, options, store);
  }
}

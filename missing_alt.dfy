/**
 * The `GET /missing-alt` endpoint (`getMissingAlt`): lists, or only counts,
 * the image documents of a collection whose alt field is empty, null or absent.
 */
module MissingAlt {
  import opened Common
  import opened Http
  import opened Store
  import opened Filenames

  /** What the handler reads from the request: the user, the route parameter and `?countOnly=`. */
  datatype MissingAltRequest = MissingAltRequest(authenticated: bool, routeCollection: Option<string>, countOnly: Option<string>)

  /** `filename && isImageFile(filename)` */
  predicate IsImageDoc(doc: Doc)
  {
    doc.filename.Some? && doc.filename.value != "" && IsImageFile(doc.filename.value)
  }

  /** `docs.filter(...)` keeping the image documents. */
  function ImageDocs(docs: seq<Doc>): (r: seq<Doc>)
    ensures |r| <= |docs|
    ensures forall d :: d in r <==> d in docs && IsImageDoc(d)
  {
    if docs == [] then []
    else if IsImageDoc(docs[0]) then [docs[0]] + ImageDocs(docs[1..])
    else ImageDocs(docs[1..])
  }

  /** `(img[altFieldName] as string) || null` */
  function AltOrNull(doc: Doc, field: string): (r: Option<string>)
    ensures r.None? <==> AltMissing(doc, field)
    ensures r.Some? ==> field in doc.fields && doc.fields[field] == Str(r.value) && r.value != ""
  {
    if field in doc.fields && doc.fields[field].Str? && doc.fields[field].s != "" then Some(doc.fields[field].s) else None
  }

  /** The `{ id, filename, url, alt }` record listed for an image document. */
  function Listed(doc: Doc, field: string): ImageWithoutAlt
    requires IsImageDoc(doc)
  {
    ImageWithoutAlt(doc.id, doc.filename.value, doc.url, AltOrNull(doc, field))
  }

  /** `imageDocs.map(...)` */
  function ListAll(docs: seq<Doc>, field: string): (r: seq<ImageWithoutAlt>)
    requires forall d :: d in docs ==> IsImageDoc(d)
    ensures |r| == |docs|
    ensures forall i :: 0 <= i < |docs| ==> r[i] == Listed(docs[i], field)
  {
    seq(|docs|, i requires 0 <= i < |docs| => Listed(docs[i], field))
  }

  /** `collectionSlug || options.collections[0]` */
  function TargetCollection(given: Option<string>, options: PluginOptions): Option<string>
  {
    OrElse(given, FirstCollection(options))
  }

  /** The handler: guard, query, then the count or the list. */
  function GetMissingAlt(req: MissingAltRequest, options: PluginOptions, store: Store): (r: Response)
    ensures !req.authenticated ==> r == Unauthorized
    ensures req.authenticated && FindMissing(store, TargetCollection(req.routeCollection, options), options.altFieldName).None?
            ==> r == Fail(500, "Failed to fetch images")
    ensures r.status == 200 ==> req.authenticated
    ensures r.body.CountBody? ==> req.countOnly == Some("true")
    ensures r.body.ListBody? ==> req.countOnly != Some("true") && r.body.totalDocs == |r.body.docs|
  {
    if !req.authenticated then Unauthorized
    else
      var found := FindMissing(store, TargetCollection(req.routeCollection, options), options.altFieldName);
      if found.None? then Fail(500, "Failed to fetch images")
      else
        var images := ImageDocs(found.value);
        if req.countOnly == Some("true") then Json(CountBody(|images|))
        else
          var listed := ListAll(images, options.altFieldName);
          Json(ListBody(listed, |listed|))
  }

  /** Filtering distributes over concatenation, so the kept documents stay in their original order. */
  lemma {:induction false} ImageDocsAppend(a: seq<Doc>, b: seq<Doc>)
    ensures ImageDocs(a + b) == ImageDocs(a) + ImageDocs(b)
    decreases |a|
  {
    if a == [] {
      assert a + b == b;
    } else {
      var t := a[1..];
      ImageDocsAppend(t, b);
      ImageDocsCons(a, b);
      if IsImageDoc(a[0]) {
        ImageDocsHead(a);
        ConcatAssoc([a[0]], ImageDocs(t), ImageDocs(b));
      } else {
        ImageDocsSkip(a);
        assert [] + ImageDocs(t + b) == ImageDocs(t + b);
      }
    }
  }

  /** A kept first document leads the filtered list. */
  lemma ImageDocsHead(a: seq<Doc>)
    requires a != [] && IsImageDoc(a[0])
    ensures ImageDocs(a) == [a[0]] + ImageDocs(a[1..])
  {
  }

  /** A dropped first document leaves the filtered rest. */
  lemma ImageDocsSkip(a: seq<Doc>)
    requires a != [] && !IsImageDoc(a[0])
    ensures ImageDocs(a) == ImageDocs(a[1..])
  {
  }

  /** Concatenation regroups freely. */
  lemma ConcatAssoc(h: seq<Doc>, x: seq<Doc>, y: seq<Doc>)
    ensures h + (x + y) == (h + x) + y
  {
  }

  /** The first document of a non-empty `a` is kept or dropped in `a + b` as in `a`, and the filter goes on with the rest. */
  lemma ImageDocsCons(a: seq<Doc>, b: seq<Doc>)
    requires a != []
    ensures ImageDocs(a + b) == (if IsImageDoc(a[0]) then [a[0]] else []) + ImageDocs(a[1..] + b)
  {
    assert (a + b)[0] == a[0] && (a + b)[1..] == a[1..] + b;
  }

  /**
   * The list holds exactly the image documents the query found, in the
   * order found, each mapped to its record; every other found document is dropped.
   */
  lemma ListIsFoundImages(req: MissingAltRequest, options: PluginOptions, store: Store)
    requires req.authenticated && req.countOnly != Some("true")
    requires FindMissing(store, TargetCollection(req.routeCollection, options), options.altFieldName).Some?
    ensures var found := FindMissing(store, TargetCollection(req.routeCollection, options), options.altFieldName).value;
            var r := GetMissingAlt(req, options, store);
            && r.status == 200 && r.body.ListBody?
            && |r.body.docs| == |ImageDocs(found)| <= |found|
            && (forall i :: 0 <= i < |r.body.docs| ==> r.body.docs[i] == Listed(ImageDocs(found)[i], options.altFieldName))
            && (forall d :: d in found && IsImageDoc(d) <==> d in ImageDocs(found))
  {
  }

  /**
   * The query only finds documents whose alt field is empty, null or absent,
   * so every listed record has `alt: null`, and every listed record names an image file.
   */
  lemma ListedAltIsNull(req: MissingAltRequest, options: PluginOptions, store: Store)
    ensures var r := GetMissingAlt(req, options, store);
            r.body.ListBody? ==> forall i :: 0 <= i < |r.body.docs| ==>
              r.body.docs[i].alt.None? && IsImageFile(r.body.docs[i].filename)
  {
    var r := GetMissingAlt(req, options, store);
    if r.body.ListBody? {
      var found := FindMissing(store, TargetCollection(req.routeCollection, options), options.altFieldName).value;
      var images := ImageDocs(found);
      forall i | 0 <= i < |r.body.docs|
        ensures r.body.docs[i].alt.None? && IsImageFile(r.body.docs[i].filename)
      {
        assert images[i] in images;
        assert AltMissing(images[i], options.altFieldName);
      }
    }
  }

  /** The count mode reports the `totalDocs` the list mode would report for the same store. */
  lemma CountMatchesList(route: Option<string>, countParam: Option<string>, options: PluginOptions, store: Store)
    requires countParam != Some("true")
    ensures var counted := GetMissingAlt(MissingAltRequest(true, route, Some("true")), options, store);
            var listed := GetMissingAlt(MissingAltRequest(true, route, countParam), options, store);
            && counted.status == listed.status
            && (counted.status == 200 <==> FindMissing(store, TargetCollection(route, options), options.altFieldName).Some?)
            && (counted.status == 200 ==> counted.body.CountBody? && listed.body.ListBody?
                                          && counted.body.totalDocs == listed.body.totalDocs)
  {
  }

  /** The route parameter, when non-empty, picks the collection; otherwise the first configured one does. */
  lemma CollectionChoice(given: Option<string>, options: PluginOptions)
    ensures given.Some? && given.value != "" ==> TargetCollection(given, options) == given
    ensures (given.None? || given.value == "") && |options.collections| > 0 ==>
              TargetCollection(given, options) == Some(options.collections[0])
    ensures (given.None? || given.value == "") && |options.collections| == 0 ==>
              TargetCollection(given, options).None?
  {
  }
}

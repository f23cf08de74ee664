/**
 * The `POST /save-bulk-alt` endpoint (`saveBulkAlt`): one store update per
 * entry of `updates`, then a loop that sorts the ids into `success` and `failed`.
 */
module SaveBulkAlt {
  import opened Common
  import opened Http
  import opened Store
  import MissingAlt

  datatype AltUpdate = AltUpdate(id: string, alt: string)

  /** The JSON body; `updates` is `None` when it is absent or not an array. */
  datatype SaveBulkBody = SaveBulkBody(updates: Option<seq<AltUpdate>>, collectionSlug: Option<string>)

  /** What one settled update promise resolves to: `{ id, success }`. */
  datatype Settled = Settled(id: string, success: bool)

  /**
   * `updates.map(async update => ...)` awaited with `Promise.all`: each update
   * settles on its own; its failure is caught and recorded, never propagated.
   * The updates run one after the other here, in list order.
   */
  function SettleAll(store: Store, collection: Option<string>, field: string, updates: seq<AltUpdate>): (r: (seq<Settled>, Store))
    ensures |r.0| == |updates|
    ensures forall k :: 0 <= k < |updates| ==> r.0[k].id == updates[k].id
    decreases |updates|
  {
    if updates == [] then ([], store)
    else
      var u := updates[0];
      var (first, next) := match Update(store, collection, u.id, field, Str(u.alt))
        case Some(after) => (Settled(u.id, true), after)
        case None => (Settled(u.id, false), store);
      var (rest, last) := SettleAll(next, collection, field, updates[1..]);
      ([first] + rest, last)
  }

  /**
   * Whether one update succeeds depends only on the store before the batch
   * and its own id: another entry's failure (or success) does not affect it.
   */
  lemma {:induction false} SettledIndependently(store: Store, collection: Option<string>, field: string, updates: seq<AltUpdate>)
    ensures forall k :: 0 <= k < |updates| ==>
              SettleAll(store, collection, field, updates).0[k].success == CanUpdate(store, collection, updates[k].id)
    decreases |updates|
  {
    if updates != [] {
      var u := updates[0];
      var next := match Update(store, collection, u.id, field, Str(u.alt))
        case Some(after) => after
        case None => store;
      SettledIndependently(next, collection, field, updates[1..]);
      forall k | 1 <= k < |updates|
        ensures CanUpdate(next, collection, updates[k].id) == CanUpdate(store, collection, updates[k].id)
      {
        if CanUpdate(store, collection, u.id) {
          UpdateKeepsCanUpdate(store, collection, u.id, field, Str(u.alt), updates[k].id);
        }
      }
    }
  }

  /** The ids of the settled updates that succeeded, in order. */
  function SuccessIds(settled: seq<Settled>): seq<string>
  {
    if settled == [] then []
    else
      var last := settled[|settled| - 1];
      SuccessIds(settled[..|settled| - 1]) + (if last.success then [last.id] else [])
  }

  /** The ids of the settled updates that failed, in order. */
  function FailedIds(settled: seq<Settled>): seq<string>
  {
    if settled == [] then []
    else
      var last := settled[|settled| - 1];
      FailedIds(settled[..|settled| - 1]) + (if last.success then [] else [last.id])
  }

  /** The `for (const result of settled)` loop pushing each id into one of the two lists. */
  method Partition(settled: seq<Settled>) returns (success: seq<string>, failed: seq<string>)
    ensures success == SuccessIds(settled) && failed == FailedIds(settled)
  {
    success, failed := [], [];
    for i := 0 to |settled|
      invariant success == SuccessIds(settled[..i])
      invariant failed == FailedIds(settled[..i])
    {
      assert settled[..i + 1][..i] == settled[..i];
      if settled[i].success {
        success := success + [settled[i].id];
      } else {
        failed := failed + [settled[i].id];
      }
    }
    assert settled[..|settled|] == settled;
  }

  /** Every settled id lands in exactly one of the two lists: together they are the ids, counted with multiplicity. */
  lemma {:induction false} PartitionIsComplete(settled: seq<Settled>)
    ensures |SuccessIds(settled)| + |FailedIds(settled)| == |settled|
    ensures multiset(SuccessIds(settled)) + multiset(FailedIds(settled)) == multiset(Ids(settled))
    decreases |settled|
  {
    if settled != [] {
      var init := settled[..|settled| - 1];
      PartitionIsComplete(init);
      assert Ids(settled) == Ids(init) + [settled[|settled| - 1].id];
    }
  }

  /** An id is listed under `success` only for an update that succeeded, under `failed` only for one that failed. */
  lemma {:induction false} PartitionIsSound(settled: seq<Settled>)
    ensures forall x :: x in SuccessIds(settled) ==> Settled(x, true) in settled
    ensures forall x :: x in FailedIds(settled) ==> Settled(x, false) in settled
    decreases |settled|
  {
    if settled != [] {
      var init := settled[..|settled| - 1];
      PartitionIsSound(init);
      assert forall s :: s in init ==> s in settled;
    }
  }

  function Ids(settled: seq<Settled>): (r: seq<string>)
    ensures |r| == |settled| && forall k :: 0 <= k < |settled| ==> r[k] == settled[k].id
  {
    seq(|settled|, k requires 0 <= k < |settled| => settled[k].id)
  }

  /** Both lists keep the relative order of the updates: splitting the input splits each list. */
  lemma {:induction false} PartitionKeepsOrder(a: seq<Settled>, b: seq<Settled>)
    ensures SuccessIds(a + b) == SuccessIds(a) + SuccessIds(b)
    ensures FailedIds(a + b) == FailedIds(a) + FailedIds(b)
    decreases |b|
  {
    if b == [] {
      assert a + b == a;
    } else {
      var init := b[..|b| - 1];
      assert (a + b)[..|a + b| - 1] == a + init;
      assert (a + b)[|a + b| - 1] == b[|b| - 1];
      PartitionKeepsOrder(a, init);
    }
  }

  /** The handler: the response and the store afterwards. */
  method SaveBulkAlt(authenticated: bool, body: SaveBulkBody, options: PluginOptions, store: Store)
    returns (r: Response, after: Store)
    ensures !authenticated ==> r == Unauthorized && after == store
    ensures authenticated && body.updates.None? ==> r == Fail(400, "Updates array is required") && after == store
    ensures authenticated && body.updates.Some? ==>
              var collection := MissingAlt.TargetCollection(body.collectionSlug, options);
              var (settled, last) := SettleAll(store, collection, options.altFieldName, body.updates.value);
              && r == Json(BulkBody(SuccessIds(settled), FailedIds(settled)))
              && after == last
  {
    if !authenticated {
      return Unauthorized, store;
    }
    if body.updates.None? {
      return Fail(400, "Updates array is required"), store;
    }
    var collection := MissingAlt.TargetCollection(body.collectionSlug, options);
    var settled;
    settled, after := SettleAll(store, collection, options.altFieldName, body.updates.value).0,
                      SettleAll(store, collection, options.altFieldName, body.updates.value).1;
    var success, failed := Partition(settled);
    r := Json(BulkBody(success, failed));
  }

  /**
   * An authorised request with an update list always answers 200, and
   * update k's id is listed under `success` exactly when the store accepts
   * that update on its own, under `failed` otherwise.
   */
  lemma BulkOutcomePerId(body: SaveBulkBody, options: PluginOptions, store: Store, k: nat)
    requires body.updates.Some? && k < |body.updates.value|
    ensures var collection := MissingAlt.TargetCollection(body.collectionSlug, options);
            var settled := SettleAll(store, collection, options.altFieldName, body.updates.value).0;
            settled[k] == Settled(body.updates.value[k].id, CanUpdate(store, collection, body.updates.value[k].id))
  {
    SettledIndependently(store, MissingAlt.TargetCollection(body.collectionSlug, options), options.altFieldName, body.updates.value);
  }

  /** An empty update list answers `{ success: [], failed: [] }` and leaves the store alone. */
  lemma EmptyUpdates(collection: Option<string>, field: string, store: Store)
    ensures SettleAll(store, collection, field, []) == ([], store)
    ensures SuccessIds([]) == [] && FailedIds([]) == []
  {
  }
}

/**
 * The Payload document store the endpoints call, reduced to what they use:
 * `find` over one collection with a where-clause and a limit, and `update`
 * of one field of one document. Which updates the store refuses (access
 * control, validation hooks, a failing database) is an oracle: the set
 * `rejected` of document ids whose update throws.
 */
module Store {
  import opened Common

  /** A stored field value: `null` or a string. A field that does not exist is a missing map key. */
  datatype Value = Null | Str(s: string)

  datatype Doc = Doc(id: string, filename: Option<string>, url: Option<string>, fields: map<string, Value>)

  datatype Store = Store(collections: map<string, seq<Doc>>, rejected: set<string>)

  /** The most documents one `find` returns. */
  const FindLimit: nat := 500

  /**
   * The where-clause of the missing-alt query:
   * `{ or: [{ f: { equals: '' } }, { f: { equals: null } }, { f: { exists: false } }] }`.
   */
  predicate AltMissing(doc: Doc, field: string)
  {
    field !in doc.fields || doc.fields[field] == Null || doc.fields[field] == Str("")
  }

  /** The documents of `docs` the where-clause selects, in store order. */
  function Matching(docs: seq<Doc>, field: string): (r: seq<Doc>)
    ensures |r| <= |docs|
    ensures forall d :: d in r <==> d in docs && AltMissing(d, field)
  {
    if docs == [] then []
    else if AltMissing(docs[0], field) then [docs[0]] + Matching(docs[1..], field)
    else Matching(docs[1..], field)
  }

  /**
   * `payload.find({ collection, where, limit: 500 })`: the first 500 matching
   * documents, or `None` (the call throws) when the collection is undefined
   * or unknown.
   */
  function FindMissing(store: Store, collection: Option<string>, field: string): (r: Option<seq<Doc>>)
    ensures r.Some? <==> collection.Some? && collection.value in store.collections
    ensures r.Some? ==> |r.value| <= FindLimit
    ensures r.Some? ==> forall d :: d in r.value ==> d in store.collections[collection.value] && AltMissing(d, field)
    ensures r.Some? ==>
              var all := Matching(store.collections[collection.value], field);
              && |r.value| == (if |all| <= FindLimit then |all| else FindLimit)
              && r.value == all[..|r.value|]
  {
    if collection.Some? && collection.value in store.collections then
      var all := Matching(store.collections[collection.value], field);
      Some(if |all| <= FindLimit then all else all[..FindLimit])
    else None
  }

  /** `payload.update` of document `id` in `collection` succeeds. */
  predicate CanUpdate(store: Store, collection: Option<string>, id: string)
  {
    && collection.Some?
    && collection.value in store.collections
    && id !in store.rejected
    && exists i :: 0 <= i < |store.collections[collection.value]| && store.collections[collection.value][i].id == id
  }

  /** The document with `id` gets `field := v`; every other document is left alone. */
  function SetField(docs: seq<Doc>, id: string, field: string, v: Value): (r: seq<Doc>)
    ensures |r| == |docs|
    ensures forall i :: 0 <= i < |docs| && docs[i].id != id ==> r[i] == docs[i]
    ensures forall i :: 0 <= i < |docs| && docs[i].id == id ==>
              r[i] == docs[i].(fields := docs[i].fields[field := v])
  {
    seq(|docs|, i requires 0 <= i < |docs| =>
      if docs[i].id == id then docs[i].(fields := docs[i].fields[field := v]) else docs[i])
  }

  /**
   * `payload.update({ collection, id, data: { [field]: v } })`: the new store,
   * or `None` when the call throws.
   */
  function Update(store: Store, collection: Option<string>, id: string, field: string, v: Value): (r: Option<Store>)
    ensures r.Some? <==> CanUpdate(store, collection, id)
    ensures r.Some? ==>
              && r.value.rejected == store.rejected
              && r.value.collections.Keys == store.collections.Keys
              && (forall c :: c in store.collections && c != collection.value ==>
                    r.value.collections[c] == store.collections[c])
              && r.value.collections[collection.value] == SetField(store.collections[collection.value], id, field, v)
  {
    if CanUpdate(store, collection, id) then
      var c := collection.value;
      Some(store.(collections := store.collections[c := SetField(store.collections[c], id, field, v)]))
    else None
  }

  /** An update changes no id and no membership, so it does not change which later updates succeed. */
  lemma UpdateKeepsCanUpdate(store: Store, collection: Option<string>, id: string, field: string, v: Value, other: string)
    requires CanUpdate(store, collection, id)
    ensures CanUpdate(Update(store, collection, id, field, v).value, collection, other) == CanUpdate(store, collection, other)
  {
    var after := Update(store, collection, id, field, v).value;
    var docs, docs' := store.collections[collection.value], after.collections[collection.value];
    if CanUpdate(store, collection, other) {
      var i :| 0 <= i < |docs| && docs[i].id == other;
      assert docs'[i].id == other;
    }
    if CanUpdate(after, collection, other) {
      var i :| 0 <= i < |docs'| && docs'[i].id == other;
      assert docs[i].id == other;
    }
  }

  /** After a successful update, the updated document holds the value in the field. */
  lemma UpdateStoresValue(store: Store, collection: Option<string>, id: string, field: string, v: Value, i: nat)
    requires CanUpdate(store, collection, id)
    requires i < |store.collections[collection.value]| && store.collections[collection.value][i].id == id
    ensures var d := Update(store, collection, id, field, v).value.collections[collection.value][i];
            d.id == id && field in d.fields && d.fields[field] == v
  {
  }
}

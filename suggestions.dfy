/**
 * The modal's suggestion store: a map from image id to the suggestion for
 * that image (`Map<string, AltTextSuggestion>`), and the updates the modal
 * makes to it. Each update is copy-on-write (`new Map(prev)`, then one
 * `set`) and writes only the key it is about.
 */
module Suggestions {
  import opened Common
  import SaveBulkAlt

  datatype Status = Pending | Generating | Ready | Saved | Error

  datatype Suggestion = Suggestion(id: string, filename: string, imageUrl: Option<string>,
                                   suggestedAlt: string, status: Status, error: Option<string>)

  type SuggestionMap = map<string, Suggestion>

  /** The parsed JSON of a generate-alt reply: `suggestedAlt`, `details` and `error`, each possibly absent. */
  datatype GenerateData = GenerateData(suggestedAlt: string, details: Option<string>, error: Option<string>)

  /**
   * How `fetch` + `response.json()` for one image ended: a reply with its
   * `ok` flag and data, or a rejection (a network failure, a body that is
   * not JSON, or the abort after 120000 ms, an error named "AbortError").
   */
  datatype GenerateReply = Replied(ok: bool, data: GenerateData) | Rejected(thrown: Thrown)

  /** The timer after which a generate request is aborted. */
  const GenerateTimeoutMs: nat := 120000

  /** The rejection an aborted fetch produces. */
  function Aborted(): Thrown
  {
    ErrorObject("AbortError", "This operation was aborted")
  }

  /** The entry written when generation starts. */
  function Started(image: ImageWithoutAlt): (s: Suggestion)
    ensures s.id == image.id && s.status == Generating && s.suggestedAlt == "" && s.error.None?
  {
    Suggestion(image.id, image.filename, image.url, "", Generating, None)
  }

  /** `data.details || data.error || 'Failed to generate'` */
  function ReplyErrorMessage(data: GenerateData): (r: string)
    ensures data.details.Some? && data.details.value != "" ==> r == data.details.value
    ensures (data.details.None? || data.details.value == "") && data.error.Some? && data.error.value != "" ==> r == data.error.value
    ensures (data.details.None? || data.details.value == "") && (data.error.None? || data.error.value == "") ==> r == "Failed to generate"
  {
    if data.details.Some? && data.details.value != "" then data.details.value
    else if data.error.Some? && data.error.value != "" then data.error.value
    else "Failed to generate"
  }

  /** The text shown for a caught error: "Request timed out" for an abort, else its message (or `String(e)`). */
  function CaughtMessage(e: Thrown): string
  {
    match e
    case ErrorObject(name, message) => if name == "AbortError" then "Request timed out" else message
    case NonError(text) => text
  }

  /** An aborted request shows "Request timed out"; any other thrown value shows what the endpoint's own catch would report. */
  lemma CaughtMessageShown(e: Thrown)
    ensures e.ErrorObject? && e.name == "AbortError" ==> CaughtMessage(e) == "Request timed out"
    ensures !(e.ErrorObject? && e.name == "AbortError") ==> CaughtMessage(e) == ErrorMessage(e)
  {
  }

  /** The entry written when generation ends: `ready` with the reply's text, or `error` with "Error: …". */
  function Generated(image: ImageWithoutAlt, reply: GenerateReply): (s: Suggestion)
    ensures s.id == image.id && s.filename == image.filename && s.imageUrl == image.url
    ensures s.status == Ready <==> reply.Replied? && reply.ok
    ensures s.status == Ready ==> s.suggestedAlt == reply.data.suggestedAlt && s.error.None?
    ensures s.status != Ready ==> s.status == Error && s.suggestedAlt == "" && s.error.Some?
    ensures reply.Replied? && !reply.ok ==> s.error == Some("Error: " + ReplyErrorMessage(reply.data))
    ensures reply.Rejected? ==> s.error == Some("Error: " + CaughtMessage(reply.thrown))
  {
    match reply
    case Replied(ok, data) =>
      if ok then Suggestion(image.id, image.filename, image.url, data.suggestedAlt, Ready, None)
      else Suggestion(image.id, image.filename, image.url, "", Error, Some("Error: " + CaughtMessage(NewError(ReplyErrorMessage(data)))))
    case Rejected(e) =>
      Suggestion(image.id, image.filename, image.url, "", Error, Some("Error: " + CaughtMessage(e)))
  }

  /** `next.set(id, entry)` on a copy: one key written, all others kept. */
  function Put(m: SuggestionMap, s: Suggestion): (r: SuggestionMap)
    ensures r.Keys == m.Keys + {s.id} && r[s.id] == s
    ensures forall k :: k in m && k != s.id ==> r[k] == m[k]
  {
    m[s.id := s]
  }

  /** `handleUpdateSuggestion`: edits the text of an existing entry; its status stays; an absent id is ignored. */
  function UpdateText(m: SuggestionMap, id: string, newAlt: string): (r: SuggestionMap)
    ensures r.Keys == m.Keys
    ensures id in m ==> r[id] == m[id].(suggestedAlt := newAlt) && r[id].status == m[id].status
    ensures forall k :: k in m && k != id ==> r[k] == m[k]
    ensures id !in m ==> r == m
  {
    if id in m then m[id := m[id].(suggestedAlt := newAlt)] else m
  }

  /** `handleSaveAlt` once the single save settled: a 2xx reply makes an existing entry `saved` with the new text. */
  function ApplySingleSave(m: SuggestionMap, id: string, newAlt: string, ok: bool): (r: SuggestionMap)
    ensures r.Keys == m.Keys
    ensures ok && id in m ==> r[id] == m[id].(suggestedAlt := newAlt, status := Saved)
    ensures forall k :: k in m && k != id ==> r[k] == m[k]
    ensures !ok || id !in m ==> r == m
  {
    if ok && id in m then m[id := m[id].(suggestedAlt := newAlt, status := Saved)] else m
  }

  /** `results.filter(r => r.status === 'ready' && r.suggestedAlt)` */
  function ToSave(results: seq<Suggestion>): (r: seq<Suggestion>)
    ensures forall s :: s in r <==> s in results && s.status == Ready && s.suggestedAlt != ""
    ensures |r| <= |results|
    ensures multiset(r) <= multiset(results)
  {
    if results == [] then []
    else
      var rest := ToSave(results[1..]);
      assert multiset(results) == multiset([results[0]]) + multiset(results[1..]) by {
        assert results == [results[0]] + results[1..];
      }
      if results[0].status == Ready && results[0].suggestedAlt != "" then [results[0]] + rest else rest
  }

  /** The entries of the store that Save All submits: `ready` with non-empty text. */
  function ReadyEntries(m: SuggestionMap): (r: set<Suggestion>)
    ensures forall s :: s in r <==> s in m.Values && s.status == Ready && s.suggestedAlt != ""
  {
    set s | s in m.Values && s.status == Ready && s.suggestedAlt != ""
  }

  /** The map after marking the listed ids `saved`, as a specification: ids absent from the map are skipped. */
  function MarkedSaved(m: SuggestionMap, ids: seq<string>): SuggestionMap
  {
    if ids == [] then m
    else
      var prev := MarkedSaved(m, ids[..|ids| - 1]);
      var id := ids[|ids| - 1];
      if id in prev then prev[id := prev[id].(status := Saved)] else prev
  }

  /**
   * Marking changes no key set and no text: exactly the listed ids present
   * in the map become `saved`; every other entry is as it was.
   */
  lemma {:induction false} MarkedSavedMeans(m: SuggestionMap, ids: seq<string>)
    ensures MarkedSaved(m, ids).Keys == m.Keys
    ensures forall k :: k in m ==> MarkedSaved(m, ids)[k] == if k in ids then m[k].(status := Saved) else m[k]
    decreases |ids|
  {
    if ids != [] {
      var init := ids[..|ids| - 1];
      MarkedSavedMeans(m, init);
      forall k | k in m
        ensures MarkedSaved(m, ids)[k] == if k in ids then m[k].(status := Saved) else m[k]
      {
        assert k in ids <==> k in init || k == ids[|ids| - 1];
      }
    }
  }

  /** `for (const id of data.success || [])`: the loop marking each listed id present in the map as `saved`. */
  method MarkSaved(m: SuggestionMap, ids: seq<string>) returns (next: SuggestionMap)
    ensures next == MarkedSaved(m, ids)
  {
    next := m;
    for i := 0 to |ids|
      invariant next == MarkedSaved(m, ids[..i])
    {
      assert ids[..i + 1][..i] == ids[..i];
      var existing := if ids[i] in next then Some(next[ids[i]]) else None;
      if existing.Some? {
        next := next[ids[i] := existing.value.(status := Saved)];
      }
    }
    assert ids[..|ids|] == ids;
  }

  /** How the save-bulk-alt request ended: a reply with its `ok` flag and `data.success`, or a rejection. */
  datatype BulkReply = BulkReplied(ok: bool, success: Option<seq<string>>) | BulkRejected

  /** How the single save-alt request ended: a reply with its `ok` flag, or a rejection. */
  datatype SaveReply = SaveReplied(ok: bool) | SaveRejected

  /** The request body's `updates`: `toSave.map(s => ({ id: s.id, alt: s.suggestedAlt }))`. */
  function Updates(toSave: seq<Suggestion>): (r: seq<SaveBulkAlt.AltUpdate>)
    ensures |r| == |toSave|
    ensures forall k :: 0 <= k < |toSave| ==> r[k] == SaveBulkAlt.AltUpdate(toSave[k].id, toSave[k].suggestedAlt)
  {
    seq(|toSave|, k requires 0 <= k < |toSave| => SaveBulkAlt.AltUpdate(toSave[k].id, toSave[k].suggestedAlt))
  }

  /** The store once a bulk save settled: only a 2xx reply marks `data.success || []` as saved. */
  function AfterBulkReply(m: SuggestionMap, reply: BulkReply): SuggestionMap
  {
    match reply
    case BulkReplied(ok, success) => if ok then MarkedSaved(m, GetOr(success, [])) else m
    case BulkRejected => m
  }

  /** A reply that lists as saved only ids the request sent, as the save-bulk-alt endpoint does. */
  predicate ReplyWithin(reply: BulkReply, sent: seq<SaveBulkAlt.AltUpdate>)
  {
    reply.BulkReplied? && reply.success.Some? ==>
      forall id :: id in reply.success.value ==> exists k :: 0 <= k < |sent| && sent[k].id == id
  }

  /**
   * A bulk save changes only the status of entries it submitted, and only to
   * `saved`: text and every entry not submitted stay as they were.
   */
  lemma BulkSaveMarksOnlySubmitted(m: SuggestionMap, results: seq<Suggestion>, reply: BulkReply)
    requires ReplyWithin(reply, Updates(ToSave(results)))
    ensures AfterBulkReply(m, reply).Keys == m.Keys
    ensures forall k :: k in m ==> AfterBulkReply(m, reply)[k] == m[k] || AfterBulkReply(m, reply)[k] == m[k].(status := Saved)
    ensures forall k :: k in m && AfterBulkReply(m, reply)[k] != m[k] ==>
      exists s :: s in results && s.id == k && s.status == Ready && s.suggestedAlt != ""
  {
    if reply.BulkReplied? && reply.ok {
      var ids := GetOr(reply.success, []);
      MarkedSavedMeans(m, ids);
      var sent := Updates(ToSave(results));
      forall k | k in m && AfterBulkReply(m, reply)[k] != m[k]
        ensures exists s :: s in results && s.id == k && s.status == Ready && s.suggestedAlt != ""
      {
        assert k in ids;
        var j :| 0 <= j < |sent| && sent[j].id == k;
        assert ToSave(results)[j] in ToSave(results);
      }
    }
  }

  /**
   * Two completions for different images commute: since each writes only its
   * own key, the store after a chunk does not depend on the order in which
   * its requests finish.
   */
  lemma PutsCommute(m: SuggestionMap, a: Suggestion, b: Suggestion)
    requires a.id != b.id
    ensures Put(Put(m, a), b) == Put(Put(m, b), a)
  {
  }

  /** A request aborted by the 120-second timer shows "Error: Request timed out". */
  lemma AbortShowsTimedOut(image: ImageWithoutAlt)
    ensures Generated(image, Rejected(Aborted())).status == Error
    ensures Generated(image, Rejected(Aborted())).error == Some("Error: Request timed out")
  {
    assert CaughtMessage(Aborted()) == "Request timed out";
    assert "Error: " + "Request timed out" == "Error: Request timed out";
  }

  /** Writing a sequence of entries in order. */
  function PutAll(m: SuggestionMap, entries: seq<Suggestion>): SuggestionMap
    decreases |entries|
  {
    if entries == [] then m else PutAll(Put(m, entries[0]), entries[1..])
  }

  function Ids(entries: seq<Suggestion>): set<string>
    decreases |entries|
  {
    if entries == [] then {} else {entries[0].id} + Ids(entries[1..])
  }

  lemma {:induction false} IdsMeans(entries: seq<Suggestion>, k: string)
    ensures k in Ids(entries) <==> exists i :: 0 <= i < |entries| && entries[i].id == k
    decreases |entries|
  {
    if entries != [] {
      IdsMeans(entries[1..], k);
      if exists i :: 0 <= i < |entries[1..]| && entries[1..][i].id == k {
        var i :| 0 <= i < |entries[1..]| && entries[1..][i].id == k;
        assert entries[i + 1].id == k;
      }
      forall i | 1 <= i < |entries| && entries[i].id == k ensures k in Ids(entries[1..]) {
        assert entries[1..][i - 1].id == k;
      }
    }
  }

  predicate DistinctIds(entries: seq<Suggestion>)
  {
    forall i, j :: 0 <= i < j < |entries| ==> entries[i].id != entries[j].id
  }

  /** Writing entries adds exactly their ids to the key set. */
  lemma {:induction false} PutAllKeys(m: SuggestionMap, entries: seq<Suggestion>)
    ensures PutAll(m, entries).Keys == m.Keys + Ids(entries)
    decreases |entries|
  {
    if entries != [] {
      PutAllKeys(Put(m, entries[0]), entries[1..]);
    }
  }

  /** A key none of the entries is about keeps its value. */
  lemma {:induction false} PutAllMiss(m: SuggestionMap, entries: seq<Suggestion>, k: string)
    requires k in m && k !in Ids(entries)
    ensures k in PutAll(m, entries) && PutAll(m, entries)[k] == m[k]
    decreases |entries|
  {
    if entries != [] {
      PutAllMiss(Put(m, entries[0]), entries[1..], k);
    }
  }

  /** With distinct ids, each entry's id ends up holding that entry. */
  lemma {:induction false} PutAllHit(m: SuggestionMap, entries: seq<Suggestion>, i: nat)
    requires DistinctIds(entries) && i < |entries|
    ensures entries[i].id in PutAll(m, entries) && PutAll(m, entries)[entries[i].id] == entries[i]
    decreases |entries|
  {
    var rest := entries[1..];
    assert DistinctIds(rest) by {
      forall a, b | 0 <= a < b < |rest| ensures rest[a].id != rest[b].id {
        assert rest[a] == entries[a + 1] && rest[b] == entries[b + 1];
      }
    }
    if i == 0 {
      assert entries[0].id !in Ids(rest) by {
        IdsMeans(rest, entries[0].id);
        forall j | 0 <= j < |rest| ensures rest[j].id != entries[0].id {
          assert rest[j] == entries[j + 1];
        }
      }
      PutAllMiss(Put(m, entries[0]), rest, entries[0].id);
    } else {
      assert rest[i - 1] == entries[i];
      PutAllHit(Put(m, entries[0]), rest, i - 1);
    }
  }

  /** Two orders of the same entries have the same ids. */
  lemma SameIds(xs: seq<Suggestion>, ys: seq<Suggestion>)
    requires multiset(xs) == multiset(ys)
    ensures Ids(xs) == Ids(ys)
  {
    forall id ensures id in Ids(xs) <==> id in Ids(ys) {
      IdsMeans(xs, id);
      IdsMeans(ys, id);
      if i :| 0 <= i < |xs| && xs[i].id == id {
        assert xs[i] in multiset(ys);
        var j :| 0 <= j < |ys| && ys[j] == xs[i];
      }
      if j :| 0 <= j < |ys| && ys[j].id == id {
        assert ys[j] in multiset(xs);
        var i :| 0 <= i < |xs| && xs[i] == ys[j];
      }
    }
  }

  /** Both orders agree at one key. */
  lemma SameAt(m: SuggestionMap, xs: seq<Suggestion>, ys: seq<Suggestion>, k: string)
    requires DistinctIds(xs) && DistinctIds(ys) && multiset(xs) == multiset(ys)
    requires k in m || k in Ids(xs)
    ensures k in PutAll(m, xs) && k in PutAll(m, ys) && PutAll(m, xs)[k] == PutAll(m, ys)[k]
  {
    IdsMeans(xs, k);
    if i :| 0 <= i < |xs| && xs[i].id == k {
      assert xs[i] in multiset(ys);
      var j :| 0 <= j < |ys| && ys[j] == xs[i];
      PutAllHit(m, xs, i);
      PutAllHit(m, ys, j);
    } else {
      SameIds(xs, ys);
      IdsMeans(ys, k);
      PutAllMiss(m, xs, k);
      PutAllMiss(m, ys, k);
    }
  }

  /**
   * Completion order does not matter: the requests of one chunk write
   * entries with distinct ids, and any two orders of those writes leave the
   * same store.
   */
  lemma CompletionOrderIrrelevant(m: SuggestionMap, xs: seq<Suggestion>, ys: seq<Suggestion>)
    requires DistinctIds(xs) && DistinctIds(ys) && multiset(xs) == multiset(ys)
    ensures PutAll(m, xs) == PutAll(m, ys)
  {
    PutAllKeys(m, xs);
    PutAllKeys(m, ys);
    SameIds(xs, ys);
    forall k | k in PutAll(m, xs) ensures PutAll(m, xs)[k] == PutAll(m, ys)[k] {
      SameAt(m, xs, ys, k);
    }
  }
}

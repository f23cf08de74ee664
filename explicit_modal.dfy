/**
 * The bulk "Generate Alt Texts" modal in its review-then-save form
 * (src/components/AltTextModal.tsx, and the same component compiled into
 * dist/components/index.js): Generate All only fills in suggestions, which
 * the user edits and saves one by one or with Save All.
 *
 * Every network reply is an input: `replies` says how each image's
 * generate-alt request ends, `saver` how a save-bulk-alt request ends.
 */
module ExplicitSaveModal {
  import opened Common
  import opened Suggestions
  import opened Batches
  import SaveBulkAlt

  /** Each image's final entry when its generate request ends as `replies` says. */
  function GenerationFinal(replies: ImageWithoutAlt -> GenerateReply): ImageWithoutAlt -> Suggestion
  {
    img => Generated(img, replies(img))
  }

  lemma GenerationKeepsId(replies: ImageWithoutAlt -> GenerateReply)
    ensures KeepsId(GenerationFinal(replies))
  {
    forall img ensures GenerationFinal(replies)(img).id == img.id {
      assert GenerationFinal(replies)(img) == Generated(img, replies(img));
    }
  }

  /** The fields of the modal a Generate All run changes. */
  datatype RunState = RunState(suggestions: SuggestionMap, isGenerating: bool, isCancelling: bool,
                               progressCurrent: nat, progressTotal: nat, cancelRequested: bool, progressSeen: seq<nat>)

  /** The run's fields after `k` chunks from store `m0`. */
  function Expected(m0: SuggestionMap, images: seq<ImageWithoutAlt>, b: nat, replies: ImageWithoutAlt -> GenerateReply,
                    cancelAt: Option<nat>, k: nat): RunState
  {
    RunState(Run(m0, images, b, GenerationFinal(replies), k), true, CancelledBefore(cancelAt, k),
             Processed(|images|, b, k), |images|, CancelledBefore(cancelAt, k), ProgressTrail(|images|, b, k))
  }

  /** What one pass of the loop body does to the run's fields. */
  function Step(st: RunState, images: seq<ImageWithoutAlt>, b: nat, replies: ImageWithoutAlt -> GenerateReply,
                cancelAt: Option<nat>, k: nat): RunState
  {
    var i := ChunkStart(k, b);
    st.(suggestions := Chunk(st.suggestions, Slice(images, i, b), GenerationFinal(replies)),
        progressCurrent := Min(i + b, |images|),
        progressSeen := st.progressSeen + [Min(i + b, |images|)],
        cancelRequested := st.cancelRequested || cancelAt == Some(k),
        isCancelling := st.isCancelling || cancelAt == Some(k))
  }

  /** A pass of the loop body taken while chunks remain and no Cancel was seen moves the run from `k` chunks to `k + 1`. */
  lemma StepAdvances(m0: SuggestionMap, images: seq<ImageWithoutAlt>, b: nat, replies: ImageWithoutAlt -> GenerateReply,
                     cancelAt: Option<nat>, k: nat)
    requires b > 0 && ChunkStart(k, b) < |images| && CancelConsistent(|images|, b, cancelAt, k) && !CancelledBefore(cancelAt, k)
    ensures CancelConsistent(|images|, b, cancelAt, k + 1)
    ensures Step(Expected(m0, images, b, replies, cancelAt, k), images, b, replies, cancelAt, k)
            == Expected(m0, images, b, replies, cancelAt, k + 1)
  {
    ChunkAdvance(|images|, b, cancelAt, k);
    var next := Step(Expected(m0, images, b, replies, cancelAt, k), images, b, replies, cancelAt, k);
    assert next.suggestions == Expected(m0, images, b, replies, cancelAt, k + 1).suggestions;
  }

  class AltTextModal {
    const images: seq<ImageWithoutAlt>
    const batchSize: nat
    var suggestions: SuggestionMap
    var isGenerating: bool
    var isCancelling: bool
    var progressCurrent: nat
    var progressTotal: nat
    /** `cancelRef.current` */
    var cancelRequested: bool
    /** The progress counts shown since Generate All was last clicked. */
    ghost var progressSeen: seq<nat>

    /** Mounting the modal: `images ?? []`, an empty store, nothing running. */
    constructor(images: Option<seq<ImageWithoutAlt>>, batchSize: nat)
      ensures this.images == GetOr(images, []) && this.batchSize == batchSize
      ensures suggestions == map[] && !isGenerating && !isCancelling && !cancelRequested
      ensures progressCurrent == 0 && progressTotal == 0 && progressSeen == []
    {
      this.images := GetOr(images, []);
      this.batchSize := batchSize;
      suggestions := map[];
      isGenerating, isCancelling, cancelRequested := false, false, false;
      progressCurrent, progressTotal := 0, 0;
      progressSeen := [];
    }

    /**
     * `generateAltText` for one image (a row's Generate or Retry button):
     * the entry goes to `generating`, then to the outcome, which is returned.
     */
    method GenerateAltText(image: ImageWithoutAlt, reply: GenerateReply) returns (result: Suggestion)
      modifies this`suggestions
      ensures result == Generated(image, reply)
      ensures suggestions == Put(old(suggestions), result)
    {
      suggestions := Put(suggestions, Started(image));
      result := Generated(image, reply);
      suggestions := Put(suggestions, result);
    }

    /**
     * `await Promise.all(batch.map(generateAltText))`: every call first marks
     * its image `generating`, then each writes its outcome (taken here in list
     * order; `CompletionOrderIrrelevant` shows any order gives the same store).
     */
    method GenerateChunk(batch: seq<ImageWithoutAlt>, replies: ImageWithoutAlt -> GenerateReply)
      modifies this`suggestions
      ensures suggestions == Chunk(old(suggestions), batch, GenerationFinal(replies))
    {
      var started, finals := StartedEntries(batch), FinalEntries(batch, GenerationFinal(replies));
      var m0 := suggestions;
      for j := 0 to |batch|
        invariant suggestions == PutAll(m0, started[..j])
      {
        PutAllPrefix(m0, started, j);
        suggestions := Put(suggestions, Started(batch[j]));
      }
      assert started[..|batch|] == started;
      var m1 := suggestions;
      for j := 0 to |batch|
        invariant suggestions == PutAll(m1, finals[..j])
      {
        PutAllPrefix(m1, finals, j);
        var result := Generated(batch[j], replies(batch[j]));
        assert result == finals[j];
        suggestions := Put(suggestions, result);
      }
      assert finals[..|batch|] == finals;
    }

    /** The fields a Generate All run changes, as one value. */
    ghost function RunFields(): RunState
      reads this
    {
      RunState(suggestions, isGenerating, isCancelling, progressCurrent, progressTotal, cancelRequested, progressSeen)
    }

    /** The state of a Generate All run after `k` chunks, started from store `m0`. */
    ghost predicate AfterChunks(m0: SuggestionMap, replies: ImageWithoutAlt -> GenerateReply, cancelAt: Option<nat>, k: nat)
      reads this
      requires batchSize > 0
    {
      CancelConsistent(|images|, batchSize, cancelAt, k) && RunFields() == Expected(m0, images, batchSize, replies, cancelAt, k)
    }

    /** The state set before the first chunk: flags reset, progress 0 of the number of images. */
    method StartRun(replies: ImageWithoutAlt -> GenerateReply, cancelAt: Option<nat>)
      requires batchSize > 0
      modifies this
      ensures AfterChunks(old(suggestions), replies, cancelAt, 0)
    {
      cancelRequested := false;
      isCancelling := false;
      isGenerating := true;
      progressCurrent, progressTotal := 0, |images|;
      progressSeen := [0];
    }

    /** One pass of the loop body: the next chunk, the progress update, and a Cancel clicked meanwhile. */
    method NextChunk(replies: ImageWithoutAlt -> GenerateReply, cancelAt: Option<nat>, k: nat)
      modifies this
      ensures RunFields() == Step(old(RunFields()), images, batchSize, replies, cancelAt, k)
    {
      var i := ChunkStart(k, batchSize);
      GenerateChunk(Slice(images, i, batchSize), replies);
      progressCurrent := Min(i + batchSize, |images|);
      progressSeen := progressSeen + [progressCurrent];
      if cancelAt == Some(k) {
        HandleCancel();
      }
    }

    /**
     * `handleGenerateAll`: chunks of `batchSize` images, one after the other,
     * until the list is done or Cancel was clicked during a chunk
     * (`cancelAt`, counting chunks from 0); progress is reported per chunk.
     */
    method HandleGenerateAll(replies: ImageWithoutAlt -> GenerateReply, cancelAt: Option<nat>)
      requires batchSize > 0
      modifies this
      ensures suggestions == Run(old(suggestions), images, batchSize, GenerationFinal(replies), ChunksRun(|images|, batchSize, cancelAt))
      ensures progressTotal == |images|
      ensures progressCurrent == Processed(|images|, batchSize, ChunksRun(|images|, batchSize, cancelAt))
      ensures progressSeen == ProgressTrail(|images|, batchSize, ChunksRun(|images|, batchSize, cancelAt))
      ensures cancelRequested <==> cancelAt.Some? && cancelAt.value < ChunkCount(|images|, batchSize)
      ensures !isGenerating && !isCancelling
    {
      var m0 := suggestions;
      StartRun(replies, cancelAt);
      var i, k := 0, 0;
      while i < |images|
        invariant i == ChunkStart(k, batchSize) && AfterChunks(m0, replies, cancelAt, k)
        decreases |images| - i
      {
        if cancelRequested {
          break;
        }
        StepAdvances(m0, images, batchSize, replies, cancelAt, k);
        NextChunk(replies, cancelAt, k);
        i, k := i + batchSize, k + 1;
      }
      LoopExit(|images|, batchSize, cancelAt, k);
      isGenerating := false;
      isCancelling := false;
    }

    /** `handleCancel`: asks the running Generate All to stop before its next chunk. */
    method HandleCancel()
      modifies this`cancelRequested, this`isCancelling
      ensures cancelRequested && isCancelling
    {
      cancelRequested := true;
      isCancelling := true;
    }

    /**
     * `saveBatch`: submits the ready entries with text in one save-bulk-alt
     * request, and marks `saved` the ids a 2xx reply lists. Nothing is sent
     * when no entry qualifies; a failed or rejected request changes nothing.
     */
    method SaveBatch(results: seq<Suggestion>, saver: seq<SaveBulkAlt.AltUpdate> -> BulkReply) returns (sent: seq<SaveBulkAlt.AltUpdate>)
      modifies this`suggestions
      ensures sent == Updates(ToSave(results))
      ensures sent == [] ==> suggestions == old(suggestions)
      ensures sent != [] ==> suggestions == AfterBulkReply(old(suggestions), saver(sent))
    {
      var toSave := ToSave(results);
      sent := Updates(toSave);
      if toSave == [] {
        return;
      }
      var reply := saver(sent);
      if reply.BulkReplied? && reply.ok {
        suggestions := MarkSaved(suggestions, GetOr(reply.success, []));
      }
    }

    /** `handleSaveAll`: one bulk save of every ready entry with text, in the store's iteration order. */
    method HandleSaveAll(saver: seq<SaveBulkAlt.AltUpdate> -> BulkReply) returns (sent: seq<SaveBulkAlt.AltUpdate>)
      modifies this`suggestions
      ensures forall u :: u in sent <==> exists s :: s in ReadyEntries(old(suggestions)) && u == SaveBulkAlt.AltUpdate(s.id, s.suggestedAlt)
      ensures sent == [] ==> suggestions == old(suggestions)
      ensures sent != [] ==> suggestions == AfterBulkReply(old(suggestions), saver(sent))
    {
      var values := ListValues(suggestions);
      var ready := ToSave(values);
      if ready == [] {
        return [];
      }
      sent := SaveBatch(ready, saver);
      forall u | u in sent
        ensures exists s :: s in ReadyEntries(old(suggestions)) && u == SaveBulkAlt.AltUpdate(s.id, s.suggestedAlt)
      {
        var x :| 0 <= x < |sent| && sent[x] == u;
        assert ToSave(ready)[x] in ready;
      }
      forall s | s in ReadyEntries(old(suggestions))
        ensures SaveBulkAlt.AltUpdate(s.id, s.suggestedAlt) in sent
      {
        assert s in ToSave(ready);
        var x :| 0 <= x < |ToSave(ready)| && ToSave(ready)[x] == s;
        assert sent[x] == SaveBulkAlt.AltUpdate(s.id, s.suggestedAlt);
      }
    }

    /** `handleUpdateSuggestion`: the row's text box edits the entry's text. */
    method HandleUpdateSuggestion(id: string, newAlt: string)
      modifies this`suggestions
      ensures suggestions == UpdateText(old(suggestions), id, newAlt)
    {
      suggestions := UpdateText(suggestions, id, newAlt);
    }

    /**
     * `handleSaveAlt`: saves one row's text with save-alt; a 2xx reply marks
     * the entry `saved`. A rejected request is passed on to the caller.
     */
    method HandleSaveAlt(id: string, newAlt: string, reply: SaveReply) returns (rejected: bool)
      modifies this`suggestions
      ensures rejected <==> reply.SaveRejected?
      ensures suggestions == if rejected then old(suggestions) else ApplySingleSave(old(suggestions), id, newAlt, reply.ok)
    {
      if reply.SaveRejected? {
        return true;
      }
      suggestions := ApplySingleSave(suggestions, id, newAlt, reply.ok);
      return false;
    }
  }

  /** `Array.from(m.values())`: every entry once, in an order the model leaves open. */
  method ListValues(m: SuggestionMap) returns (values: seq<Suggestion>)
    ensures forall s :: s in values <==> s in m.Values
    ensures |values| == |m.Keys|
  {
    values := [];
    var left := m.Keys;
    while left != {}
      invariant left <= m.Keys
      invariant forall s :: s in values <==> exists k :: k in m.Keys - left && m[k] == s
      invariant |values| == |m.Keys - left|
      decreases left
    {
      var k :| k in left;
      assert m.Keys - (left - {k}) == (m.Keys - left) + {k};
      values := values + [m[k]];
      left := left - {k};
    }
  }

  /**
   * After Generate All, every image it reached holds the outcome of its own
   * request (`ready` with the reply's text, or `error`); without a Cancel it
   * reaches every image.
   */
  lemma GenerateAllOutcome(m: SuggestionMap, images: seq<ImageWithoutAlt>, b: nat, replies: ImageWithoutAlt -> GenerateReply, cancelAt: Option<nat>, j: nat)
    requires b > 0 && DistinctImages(images) && j < |images|
    ensures var after := Run(m, images, b, GenerationFinal(replies), ChunksRun(|images|, b, cancelAt));
      (j < Processed(|images|, b, ChunksRun(|images|, b, cancelAt)) ==>
        images[j].id in after && after[images[j].id] == Generated(images[j], replies(images[j]))
        && (after[images[j].id].status == Ready || after[images[j].id].status == Error))
      && (cancelAt.None? ==> images[j].id in after)
  {
    var c := ChunksRun(|images|, b, cancelAt);
    UncancelledRunCoversAll(|images|, b);
    GenerationKeepsId(replies);
    if j < Processed(|images|, b, c) {
      RunHit(m, images, b, GenerationFinal(replies), c, j);
    }
  }

  /** An entry whose id no reached image has is left as it was by Generate All. */
  lemma GenerateAllKeepsOthers(m: SuggestionMap, images: seq<ImageWithoutAlt>, b: nat, replies: ImageWithoutAlt -> GenerateReply,
                               cancelAt: Option<nat>, key: string)
    requires b > 0 && DistinctImages(images) && key in m
    requires forall j :: 0 <= j < Processed(|images|, b, ChunksRun(|images|, b, cancelAt)) ==> images[j].id != key
    ensures var after := Run(m, images, b, GenerationFinal(replies), ChunksRun(|images|, b, cancelAt));
      key in after && after[key] == m[key]
  {
    GenerationKeepsId(replies);
    RunMiss(m, images, b, GenerationFinal(replies), ChunksRun(|images|, b, cancelAt), key);
  }
}

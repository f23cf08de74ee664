/**
 * The bulk modal in its auto-save form (the component compiled into
 * dist/components/index.mjs): Generate All, and a row's Generate or Retry
 * button, save each suggestion as soon as it is ready; there is no Save All
 * and no "Cancelling…" state.
 */
module AutoSaveModal {
  import opened Common
  import opened Suggestions
  import opened Batches
  import SaveBulkAlt

  /** `generateAndSave` for one image, on the store: the outcome is written, then saved when ready with text. */
  function GenerateAndSaveSpec(m: SuggestionMap, image: ImageWithoutAlt, reply: GenerateReply, saver: seq<SaveBulkAlt.AltUpdate> -> BulkReply): SuggestionMap
  {
    var result := Generated(image, reply);
    var written := Put(m, result);
    if result.status == Ready && result.suggestedAlt != "" then AfterBulkReply(written, saver(Updates([result]))) else written
  }

  /** Outcomes of a chunk, written one after the other after every image of the chunk was marked `generating`. */
  function FinishAll(m: SuggestionMap, batch: seq<ImageWithoutAlt>, replies: ImageWithoutAlt -> GenerateReply, saver: seq<SaveBulkAlt.AltUpdate> -> BulkReply): SuggestionMap
  {
    if batch == [] then m
    else GenerateAndSaveSpec(FinishAll(m, batch[..|batch| - 1], replies, saver), batch[|batch| - 1], replies(batch[|batch| - 1]), saver)
  }

  function AutoChunk(m: SuggestionMap, batch: seq<ImageWithoutAlt>, replies: ImageWithoutAlt -> GenerateReply, saver: seq<SaveBulkAlt.AltUpdate> -> BulkReply): SuggestionMap
  {
    FinishAll(PutAll(m, StartedEntries(batch)), batch, replies, saver)
  }

  /** The store after the first `c` chunks of Generate All. */
  function AutoRun(m: SuggestionMap, images: seq<ImageWithoutAlt>, b: nat, replies: ImageWithoutAlt -> GenerateReply, saver: seq<SaveBulkAlt.AltUpdate> -> BulkReply, c: nat): SuggestionMap
  {
    if c == 0 then m else AutoChunk(AutoRun(m, images, b, replies, saver, c - 1), Slice(images, ChunkStart(c - 1, b), b), replies, saver)
  }

  /**
   * The entry an image ends with: its generation outcome, `saved` when the
   * outcome was ready with text and the save reply listed its id.
   */
  function AutoFinal(image: ImageWithoutAlt, reply: GenerateReply, saver: seq<SaveBulkAlt.AltUpdate> -> BulkReply): (s: Suggestion)
    ensures s.id == image.id && s.suggestedAlt == Generated(image, reply).suggestedAlt
    ensures s.status == Saved || s == Generated(image, reply)
    ensures s.status == Saved ==> Generated(image, reply).status == Ready && s.suggestedAlt != ""
  {
    var result := Generated(image, reply);
    var answer := saver(Updates([result]));
    if result.status == Ready && result.suggestedAlt != "" && answer.BulkReplied? && answer.ok && image.id in GetOr(answer.success, [])
    then result.(status := Saved) else result
  }

  function AutoFinalOf(replies: ImageWithoutAlt -> GenerateReply, saver: seq<SaveBulkAlt.AltUpdate> -> BulkReply): ImageWithoutAlt -> Suggestion
  {
    img => AutoFinal(img, replies(img), saver)
  }

  /** A save-bulk-alt endpoint that, asked to save one update, reports at most that id as saved. */
  ghost predicate SoundSaver(saver: seq<SaveBulkAlt.AltUpdate> -> BulkReply)
  {
    forall u: SaveBulkAlt.AltUpdate :: ReplyWithin(saver([u]), [u])
  }

  /** With a sound endpoint, generating and saving one image writes only that image's entry. */
  lemma GenerateAndSaveWritesOne(m: SuggestionMap, image: ImageWithoutAlt, replies: ImageWithoutAlt -> GenerateReply, saver: seq<SaveBulkAlt.AltUpdate> -> BulkReply)
    requires SoundSaver(saver)
    ensures GenerateAndSaveSpec(m, image, replies(image), saver) == Put(m, AutoFinalOf(replies, saver)(image))
  {
    var result := Generated(image, replies(image));
    var written := Put(m, result);
    var sent := Updates([result]);
    assert sent == [SaveBulkAlt.AltUpdate(image.id, result.suggestedAlt)];
    var answer := saver(sent);
    assert ReplyWithin(answer, sent);
    if result.status == Ready && result.suggestedAlt != "" && answer.BulkReplied? && answer.ok {
      var ids := GetOr(answer.success, []);
      MarkedSavedMeans(written, ids);
      forall id | id in ids ensures id == image.id {
        var k :| 0 <= k < |sent| && sent[k].id == id;
      }
    }
  }

  lemma AutoFinalKeepsId(replies: ImageWithoutAlt -> GenerateReply, saver: seq<SaveBulkAlt.AltUpdate> -> BulkReply)
    ensures KeepsId(AutoFinalOf(replies, saver))
  {
    forall img ensures AutoFinalOf(replies, saver)(img).id == img.id {
      assert AutoFinalOf(replies, saver)(img) == AutoFinal(img, replies(img), saver);
    }
  }

  /** With a sound endpoint, an auto-save chunk is a chunk whose images end with their `AutoFinal` entries. */
  lemma {:induction false} FinishAllIsPutAll(m: SuggestionMap, batch: seq<ImageWithoutAlt>, replies: ImageWithoutAlt -> GenerateReply, saver: seq<SaveBulkAlt.AltUpdate> -> BulkReply)
    requires SoundSaver(saver)
    ensures FinishAll(m, batch, replies, saver) == PutAll(m, FinalEntries(batch, AutoFinalOf(replies, saver)))
    decreases |batch|
  {
    var final := AutoFinalOf(replies, saver);
    if batch == [] {
      assert FinalEntries(batch, final) == [];
    } else {
      var init, last := batch[..|batch| - 1], batch[|batch| - 1];
      FinishAllIsPutAll(m, init, replies, saver);
      GenerateAndSaveWritesOne(FinishAll(m, init, replies, saver), last, replies, saver);
      PutAllSnoc(m, FinalEntries(init, final), final(last));
      assert FinalEntries(batch, final) == FinalEntries(init, final) + [final(last)];
    }
  }

  /** With a sound endpoint, auto-save Generate All is the generic run with `AutoFinal` entries. */
  lemma {:induction false} AutoRunIsRun(m: SuggestionMap, images: seq<ImageWithoutAlt>, b: nat, replies: ImageWithoutAlt -> GenerateReply, saver: seq<SaveBulkAlt.AltUpdate> -> BulkReply, c: nat)
    requires SoundSaver(saver)
    ensures AutoRun(m, images, b, replies, saver, c) == Run(m, images, b, AutoFinalOf(replies, saver), c)
  {
    var k := 0;
    while k < c
      invariant k <= c
      invariant AutoRun(m, images, b, replies, saver, k) == Run(m, images, b, AutoFinalOf(replies, saver), k)
    {
      AutoRunStep(m, images, b, replies, saver, k + 1);
      k := k + 1;
    }
  }

  /** One more chunk keeps the auto-save run equal to the generic run. */
  lemma AutoRunStep(m: SuggestionMap, images: seq<ImageWithoutAlt>, b: nat, replies: ImageWithoutAlt -> GenerateReply, saver: seq<SaveBulkAlt.AltUpdate> -> BulkReply, c: nat)
    requires SoundSaver(saver) && c > 0
    requires AutoRun(m, images, b, replies, saver, c - 1) == Run(m, images, b, AutoFinalOf(replies, saver), c - 1)
    ensures AutoRun(m, images, b, replies, saver, c) == Run(m, images, b, AutoFinalOf(replies, saver), c)
  {
    var prev, batch := AutoRun(m, images, b, replies, saver, c - 1), Slice(images, ChunkStart(c - 1, b), b);
    AutoChunkIsChunk(prev, batch, replies, saver);
  }

  /** With a sound endpoint, one auto-save chunk is the generic chunk with `AutoFinal` entries. */
  lemma AutoChunkIsChunk(prev: SuggestionMap, batch: seq<ImageWithoutAlt>, replies: ImageWithoutAlt -> GenerateReply, saver: seq<SaveBulkAlt.AltUpdate> -> BulkReply)
    requires SoundSaver(saver)
    ensures AutoChunk(prev, batch, replies, saver) == Chunk(prev, batch, AutoFinalOf(replies, saver))
  {
    FinishAllIsPutAll(PutAll(prev, StartedEntries(batch)), batch, replies, saver);
  }

  /**
   * After Generate All with auto-save, every image the run reached holds its
   * outcome, and it is `saved` exactly when generation gave text and the
   * endpoint acknowledged the save; nothing is left `generating`.
   */
  lemma GenerateAllOutcome(m: SuggestionMap, images: seq<ImageWithoutAlt>, b: nat, replies: ImageWithoutAlt -> GenerateReply,
                           saver: seq<SaveBulkAlt.AltUpdate> -> BulkReply, cancelAt: Option<nat>, j: nat)
    requires b > 0 && DistinctImages(images) && SoundSaver(saver)
    requires j < Processed(|images|, b, ChunksRun(|images|, b, cancelAt))
    ensures var after := AutoRun(m, images, b, replies, saver, ChunksRun(|images|, b, cancelAt));
      images[j].id in after && after[images[j].id] == AutoFinal(images[j], replies(images[j]), saver)
      && after[images[j].id].status != Generating && after[images[j].id].status != Pending
  {
    var c := ChunksRun(|images|, b, cancelAt);
    AutoRunIsRun(m, images, b, replies, saver, c);
    AutoFinalKeepsId(replies, saver);
    RunHit(m, images, b, AutoFinalOf(replies, saver), c, j);
  }

  /** The fields of the auto-save modal a Generate All run changes. */
  datatype RunState = RunState(suggestions: SuggestionMap, isGenerating: bool, progressCurrent: nat, progressTotal: nat,
                               cancelRequested: bool, progressSeen: seq<nat>)

  /** The run's fields after `k` chunks from store `m0`. */
  function Expected(m0: SuggestionMap, images: seq<ImageWithoutAlt>, b: nat, replies: ImageWithoutAlt -> GenerateReply,
                    saver: seq<SaveBulkAlt.AltUpdate> -> BulkReply, cancelAt: Option<nat>, k: nat): RunState
  {
    RunState(AutoRun(m0, images, b, replies, saver, k), true, Processed(|images|, b, k), |images|,
             CancelledBefore(cancelAt, k), ProgressTrail(|images|, b, k))
  }

  /** What one pass of the loop body does to the run's fields. */
  function Step(st: RunState, images: seq<ImageWithoutAlt>, b: nat, replies: ImageWithoutAlt -> GenerateReply,
                saver: seq<SaveBulkAlt.AltUpdate> -> BulkReply, cancelAt: Option<nat>, k: nat): RunState
  {
    var i := ChunkStart(k, b);
    st.(suggestions := AutoChunk(st.suggestions, Slice(images, i, b), replies, saver),
        progressCurrent := Min(i + b, |images|),
        progressSeen := st.progressSeen + [Min(i + b, |images|)],
        cancelRequested := st.cancelRequested || cancelAt == Some(k))
  }

  /** A pass of the loop body taken while chunks remain and no Cancel was seen moves the run from `k` chunks to `k + 1`. */
  lemma StepAdvances(m0: SuggestionMap, images: seq<ImageWithoutAlt>, b: nat, replies: ImageWithoutAlt -> GenerateReply,
                     saver: seq<SaveBulkAlt.AltUpdate> -> BulkReply, cancelAt: Option<nat>, k: nat)
    requires b > 0 && ChunkStart(k, b) < |images| && CancelConsistent(|images|, b, cancelAt, k) && !CancelledBefore(cancelAt, k)
    ensures CancelConsistent(|images|, b, cancelAt, k + 1)
    ensures Step(Expected(m0, images, b, replies, saver, cancelAt, k), images, b, replies, saver, cancelAt, k)
            == Expected(m0, images, b, replies, saver, cancelAt, k + 1)
  {
    ChunkAdvance(|images|, b, cancelAt, k);
    var next := Step(Expected(m0, images, b, replies, saver, cancelAt, k), images, b, replies, saver, cancelAt, k);
    assert next.suggestions == Expected(m0, images, b, replies, saver, cancelAt, k + 1).suggestions;
  }

  class AltTextModal {
    const images: seq<ImageWithoutAlt>
    const batchSize: nat
    var suggestions: SuggestionMap
    var isGenerating: bool
    var progressCurrent: nat
    var progressTotal: nat
    /** `cancelRef.current` */
    var cancelRequested: bool
    /** The progress counts shown since Generate All was last clicked. */
    ghost var progressSeen: seq<nat>

    /** Mounting the modal: `images ?? []`, an empty store, nothing running. */
    constructor(images: Option<seq<ImageWithoutAlt>>, batchSize: nat)
      ensures this.images == GetOr(images, []) && this.batchSize == batchSize
      ensures suggestions == map[] && !isGenerating && !cancelRequested
      ensures progressCurrent == 0 && progressTotal == 0 && progressSeen == []
    {
      this.images := GetOr(images, []);
      this.batchSize := batchSize;
      suggestions := map[];
      isGenerating, cancelRequested := false, false;
      progressCurrent, progressTotal := 0, 0;
      progressSeen := [];
    }

    /** `generateAltText`: the entry goes to `generating`, then to the outcome, which is returned. */
    method GenerateAltText(image: ImageWithoutAlt, reply: GenerateReply) returns (result: Suggestion)
      modifies this`suggestions
      ensures result == Generated(image, reply)
      ensures suggestions == Put(old(suggestions), result)
    {
      suggestions := Put(suggestions, Started(image));
      result := Generated(image, reply);
      suggestions := Put(suggestions, result);
    }

    /** `saveBatch`, as in the review-then-save modal. */
    method SaveBatch(results: seq<Suggestion>, saver: seq<SaveBulkAlt.AltUpdate> -> BulkReply) returns (sent: seq<SaveBulkAlt.AltUpdate>)
      modifies this`suggestions
      ensures sent == Updates(ToSave(results))
      ensures sent == [] ==> suggestions == old(suggestions)
      ensures sent != [] ==> suggestions == AfterBulkReply(old(suggestions), saver(sent))
    {
      var toSave := ToSave(results);
      sent := Updates(toSave);
      if toSave == [] {
        return;
      }
      var reply := saver(sent);
      if reply.BulkReplied? && reply.ok {
        suggestions := MarkSaved(suggestions, GetOr(reply.success, []));
      }
    }

    /**
     * `generateAndSave` (a row's Generate or Retry button): generation, then
     * a one-item bulk save when the outcome is ready with text.
     */
    method GenerateAndSave(image: ImageWithoutAlt, reply: GenerateReply, saver: seq<SaveBulkAlt.AltUpdate> -> BulkReply) returns (result: Suggestion)
      modifies this`suggestions
      ensures result == Generated(image, reply)
      ensures suggestions == GenerateAndSaveSpec(old(suggestions), image, reply, saver)
    {
      result := GenerateAltText(image, reply);
      if result.status == Ready && result.suggestedAlt != "" {
        assert ToSave([result]) == [result];
        var _ := SaveBatch([result], saver);
      }
    }

    /** `await Promise.all(batch.map(generateAndSave))`, completions taken in list order. */
    method GenerateChunk(batch: seq<ImageWithoutAlt>, replies: ImageWithoutAlt -> GenerateReply, saver: seq<SaveBulkAlt.AltUpdate> -> BulkReply)
      modifies this`suggestions
      ensures suggestions == AutoChunk(old(suggestions), batch, replies, saver)
    {
      var started := StartedEntries(batch);
      var m0 := suggestions;
      for j := 0 to |batch|
        invariant suggestions == PutAll(m0, started[..j])
      {
        PutAllPrefix(m0, started, j);
        suggestions := Put(suggestions, Started(batch[j]));
      }
      assert started[..|batch|] == started;
      var m1 := suggestions;
      for j := 0 to |batch|
        invariant suggestions == FinishAll(m1, batch[..j], replies, saver)
      {
        assert batch[..j + 1][..j] == batch[..j];
        var result := Generated(batch[j], replies(batch[j]));
        suggestions := Put(suggestions, result);
        if result.status == Ready && result.suggestedAlt != "" {
          assert ToSave([result]) == [result];
          var _ := SaveBatch([result], saver);
        }
      }
      assert batch[..|batch|] == batch;
    }

    /** The fields a Generate All run changes, as one value. */
    ghost function RunFields(): RunState
      reads this
    {
      RunState(suggestions, isGenerating, progressCurrent, progressTotal, cancelRequested, progressSeen)
    }

    /** The state of a Generate All run after `k` chunks, started from store `m0`. */
    ghost predicate AfterChunks(m0: SuggestionMap, replies: ImageWithoutAlt -> GenerateReply, saver: seq<SaveBulkAlt.AltUpdate> -> BulkReply, cancelAt: Option<nat>, k: nat)
      reads this
      requires batchSize > 0
    {
      CancelConsistent(|images|, batchSize, cancelAt, k) && RunFields() == Expected(m0, images, batchSize, replies, saver, cancelAt, k)
    }

    /** The state set before the first chunk: the cancel flag reset, progress 0 of the number of images. */
    method StartRun(replies: ImageWithoutAlt -> GenerateReply, saver: seq<SaveBulkAlt.AltUpdate> -> BulkReply, cancelAt: Option<nat>)
      requires batchSize > 0
      modifies this
      ensures AfterChunks(old(suggestions), replies, saver, cancelAt, 0)
    {
      cancelRequested := false;
      isGenerating := true;
      progressCurrent, progressTotal := 0, |images|;
      progressSeen := [0];
    }

    /** One pass of the loop body: the next chunk, the progress update, and a Cancel clicked meanwhile. */
    method NextChunk(replies: ImageWithoutAlt -> GenerateReply, saver: seq<SaveBulkAlt.AltUpdate> -> BulkReply, cancelAt: Option<nat>, k: nat)
      modifies this
      ensures RunFields() == Step(old(RunFields()), images, batchSize, replies, saver, cancelAt, k)
    {
      var i := ChunkStart(k, batchSize);
      GenerateChunk(Slice(images, i, batchSize), replies, saver);
      progressCurrent := Min(i + batchSize, |images|);
      progressSeen := progressSeen + [progressCurrent];
      if cancelAt == Some(k) {
        HandleCancel();
      }
    }

    /**
     * `handleGenerateAll`: chunks of `batchSize` images, each image saved as
     * soon as its text is ready, until the list is done or Cancel was
     * clicked during a chunk (`cancelAt`, counting chunks from 0).
     */
    method HandleGenerateAll(replies: ImageWithoutAlt -> GenerateReply, saver: seq<SaveBulkAlt.AltUpdate> -> BulkReply, cancelAt: Option<nat>)
      requires batchSize > 0
      modifies this
      ensures suggestions == AutoRun(old(suggestions), images, batchSize, replies, saver, ChunksRun(|images|, batchSize, cancelAt))
      ensures progressTotal == |images|
      ensures progressCurrent == Processed(|images|, batchSize, ChunksRun(|images|, batchSize, cancelAt))
      ensures progressSeen == ProgressTrail(|images|, batchSize, ChunksRun(|images|, batchSize, cancelAt))
      ensures cancelRequested <==> cancelAt.Some? && cancelAt.value < ChunkCount(|images|, batchSize)
      ensures !isGenerating
    {
      var m0 := suggestions;
      StartRun(replies, saver, cancelAt);
      var i, k := 0, 0;
      while i < |images|
        invariant i == ChunkStart(k, batchSize) && AfterChunks(m0, replies, saver, cancelAt, k)
        decreases |images| - i
      {
        if cancelRequested {
          break;
        }
        StepAdvances(m0, images, batchSize, replies, saver, cancelAt, k);
        NextChunk(replies, saver, cancelAt, k);
        i, k := i + batchSize, k + 1;
      }
      LoopExit(|images|, batchSize, cancelAt, k);
      isGenerating := false;
    }

    /** `handleCancel`: only raises the flag the loop checks before each chunk. */
    method HandleCancel()
      modifies this`cancelRequested
      ensures cancelRequested
    {
      cancelRequested := true;
    }

    /** `handleUpdateSuggestion`: the row's text box edits the entry's text. */
    method HandleUpdateSuggestion(id: string, newAlt: string)
      modifies this`suggestions
      ensures suggestions == UpdateText(old(suggestions), id, newAlt)
    {
      suggestions := UpdateText(suggestions, id, newAlt);
    }

    /** `handleSaveAlt`: saves one row's text; a 2xx reply marks the entry `saved`; a rejection is passed on. */
    method HandleSaveAlt(id: string, newAlt: string, reply: SaveReply) returns (rejected: bool)
      modifies this`suggestions
      ensures rejected <==> reply.SaveRejected?
      ensures suggestions == if rejected then old(suggestions) else ApplySingleSave(old(suggestions), id, newAlt, reply.ok)
    {
      if reply.SaveRejected? {
        return true;
      }
      suggestions := ApplySingleSave(suggestions, id, newAlt, reply.ok);
      return false;
    }
  }
}

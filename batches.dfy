/**
 * What "Generate All" does to the suggestion store, as a specification:
 * the image list is cut into chunks of `batchSize`; each chunk first marks
 * all its images `generating`, then writes each image's final entry. The
 * user may click Cancel while a chunk is in flight; the chunk completes and
 * no further chunk starts.
 */
module Batches {
  import opened Common
  import opened Suggestions

  function Min(a: int, b: int): int { if a <= b then a else b }

  /** `images.slice(i, i + b)` for a non-negative start. */
  function Slice(images: seq<ImageWithoutAlt>, i: nat, b: nat): (r: seq<ImageWithoutAlt>)
    ensures i <= |images| ==> r == images[i..Min(i + b, |images|)]
    ensures i >= |images| ==> r == []
  {
    if i >= |images| then [] else images[i..Min(i + b, |images|)]
  }

  /** Where chunk `k` starts: the loop variable `i` after `k` steps of `i += b`. */
  function ChunkStart(k: nat, b: nat): nat
  {
    if k == 0 then 0 else ChunkStart(k - 1, b) + b
  }

  /** `i` after `k` steps is `k * b`. */
  lemma {:induction false} ChunkStartIsProduct(k: nat, b: nat)
    ensures ChunkStart(k, b) == k * b
  {
    if k > 0 {
      ChunkStartIsProduct(k - 1, b);
      assert (k - 1) * b + b == k * b;
    }
  }

  /** How many chunks `for (i = 0; i < n; i += b)` visits: the least `c` with `c * b >= n`. */
  function ChunkCount(n: nat, b: nat): nat
    requires b > 0
    decreases n
  {
    if n == 0 then 0 else if n <= b then 1 else 1 + ChunkCount(n - b, b)
  }

  /** Chunks run when Cancel is clicked during chunk `cancelAt` (counting from 0), if at all. */
  function ChunksRun(n: nat, b: nat, cancelAt: Option<nat>): (c: nat)
    requires b > 0
    ensures c <= ChunkCount(n, b)
    ensures cancelAt.None? ==> c == ChunkCount(n, b)
  {
    if cancelAt.Some? && cancelAt.value + 1 < ChunkCount(n, b) then cancelAt.value + 1 else ChunkCount(n, b)
  }

  /** `Math.min(i + batchSize, images.length)` after `c` chunks: how many images have been through generation. */
  function Processed(n: nat, b: nat, c: nat): nat
  {
    Min(ChunkStart(c, b), n)
  }

  function StartedEntries(batch: seq<ImageWithoutAlt>): (r: seq<Suggestion>)
    ensures |r| == |batch| && forall j :: 0 <= j < |batch| ==> r[j] == Started(batch[j])
  {
    seq(|batch|, j requires 0 <= j < |batch| => Started(batch[j]))
  }

  function FinalEntries(batch: seq<ImageWithoutAlt>, final: ImageWithoutAlt -> Suggestion): (r: seq<Suggestion>)
    ensures |r| == |batch| && forall j :: 0 <= j < |batch| ==> r[j] == final(batch[j])
  {
    seq(|batch|, j requires 0 <= j < |batch| => final(batch[j]))
  }

  /** One chunk: every image set to `generating`, then every image's final entry written. */
  function Chunk(m: SuggestionMap, batch: seq<ImageWithoutAlt>, final: ImageWithoutAlt -> Suggestion): SuggestionMap
  {
    PutAll(PutAll(m, StartedEntries(batch)), FinalEntries(batch, final))
  }

  /** The store after the first `c` chunks. */
  function Run(m: SuggestionMap, images: seq<ImageWithoutAlt>, b: nat, final: ImageWithoutAlt -> Suggestion, c: nat): SuggestionMap
  {
    if c == 0 then m else Chunk(Run(m, images, b, final, c - 1), Slice(images, ChunkStart(c - 1, b), b), final)
  }

  predicate DistinctImages(images: seq<ImageWithoutAlt>)
  {
    forall i, j :: 0 <= i < j < |images| ==> images[i].id != images[j].id
  }

  /** A final entry is about the image it was computed for. */
  ghost predicate KeepsId(final: ImageWithoutAlt -> Suggestion)
  {
    forall img :: final(img).id == img.id
  }

  /** Writing one more entry at the end. */
  lemma {:induction false} PutAllSnoc(m: SuggestionMap, entries: seq<Suggestion>, x: Suggestion)
    ensures PutAll(m, entries + [x]) == Put(PutAll(m, entries), x)
    decreases |entries|
  {
    if entries == [] {
      assert entries + [x] == [x];
    } else {
      assert (entries + [x])[1..] == entries[1..] + [x];
      PutAllSnoc(Put(m, entries[0]), entries[1..], x);
    }
  }

  /** Within one chunk, each image ends with its final entry. */
  lemma ChunkHit(m: SuggestionMap, batch: seq<ImageWithoutAlt>, final: ImageWithoutAlt -> Suggestion, j: nat)
    requires DistinctImages(batch) && KeepsId(final) && j < |batch|
    ensures batch[j].id in Chunk(m, batch, final) && Chunk(m, batch, final)[batch[j].id] == final(batch[j])
  {
    var finals := FinalEntries(batch, final);
    assert DistinctIds(finals);
    PutAllHit(PutAll(m, StartedEntries(batch)), finals, j);
  }

  /** A key no image of the chunk has is untouched by it. */
  lemma ChunkMiss(m: SuggestionMap, batch: seq<ImageWithoutAlt>, final: ImageWithoutAlt -> Suggestion, k: string)
    requires KeepsId(final) && k in m && forall j :: 0 <= j < |batch| ==> batch[j].id != k
    ensures k in Chunk(m, batch, final) && Chunk(m, batch, final)[k] == m[k]
  {
    var started, finals := StartedEntries(batch), FinalEntries(batch, final);
    IdsMeans(started, k);
    IdsMeans(finals, k);
    PutAllMiss(m, started, k);
    PutAllMiss(PutAll(m, started), finals, k);
  }

  /** The chunk started after `c` chunks holds exactly the images between the two progress counts. */
  lemma SliceIsNext(images: seq<ImageWithoutAlt>, b: nat, c: nat)
    ensures Processed(|images|, b, c) <= Processed(|images|, b, c + 1)
    ensures Slice(images, ChunkStart(c, b), b) == images[Processed(|images|, b, c)..Processed(|images|, b, c + 1)]
  {
  }

  /** The images of one chunk, when the whole list has distinct ids, have distinct ids. */
  lemma NextChunk(images: seq<ImageWithoutAlt>, b: nat, c: nat)
    requires DistinctImages(images)
    ensures Processed(|images|, b, c) <= Processed(|images|, b, c + 1)
    ensures Slice(images, ChunkStart(c, b), b) == images[Processed(|images|, b, c)..Processed(|images|, b, c + 1)]
    ensures DistinctImages(Slice(images, ChunkStart(c, b), b))
  {
    SliceIsNext(images, b, c);
    var lo := Processed(|images|, b, c);
    var batch := Slice(images, ChunkStart(c, b), b);
    forall x, y | 0 <= x < y < |batch| ensures batch[x].id != batch[y].id {
      assert batch[x] == images[lo + x] && batch[y] == images[lo + y];
    }
  }

  /** Image `j` lies in the chunk that follows `c` chunks exactly when it has not been processed yet and will be. */
  lemma Position(images: seq<ImageWithoutAlt>, b: nat, c: nat, j: nat)
    requires DistinctImages(images) && j < |images|
    ensures var lo := Processed(|images|, b, c);
      var batch := Slice(images, ChunkStart(c, b), b);
      (lo <= j < Processed(|images|, b, c + 1) ==> batch[j - lo] == images[j])
      && (j < lo ==> forall x :: 0 <= x < |batch| ==> batch[x].id != images[j].id)
  {
    SliceIsNext(images, b, c);
    var lo := Processed(|images|, b, c);
    var batch := Slice(images, ChunkStart(c, b), b);
    if j < lo {
      forall x | 0 <= x < |batch| ensures batch[x].id != images[j].id {
        assert batch[x] == images[lo + x];
      }
    }
  }

  /** After `c` chunks, every image generation has reached holds its final entry: none is left `generating`. */
  lemma {:induction false} RunHit(m: SuggestionMap, images: seq<ImageWithoutAlt>, b: nat, final: ImageWithoutAlt -> Suggestion, c: nat, j: nat)
    requires DistinctImages(images) && KeepsId(final) && j < Processed(|images|, b, c)
    ensures images[j].id in Run(m, images, b, final, c) && Run(m, images, b, final, c)[images[j].id] == final(images[j])
    decreases c
  {
    assert c != 0;
    var c' := c - 1;
    NextChunk(images, b, c');
    Position(images, b, c', j);
    var lo := Processed(|images|, b, c');
    var batch := Slice(images, ChunkStart(c', b), b);
    var prev := Run(m, images, b, final, c');
    if j < lo {
      RunHit(m, images, b, final, c', j);
      ChunkMiss(prev, batch, final, images[j].id);
    } else {
      ChunkHit(prev, batch, final, j - lo);
    }
  }

  /** Keys of images generation has not reached, and keys of no listed image, are as before the run. */
  lemma {:induction false} RunMiss(m: SuggestionMap, images: seq<ImageWithoutAlt>, b: nat, final: ImageWithoutAlt -> Suggestion, c: nat, k: string)
    requires DistinctImages(images) && KeepsId(final) && k in m
    requires forall j :: 0 <= j < Processed(|images|, b, c) ==> images[j].id != k
    ensures k in Run(m, images, b, final, c) && Run(m, images, b, final, c)[k] == m[k]
    decreases c
  {
    if c > 0 {
      ChunkAvoids(images, b, c, Slice(images, ChunkStart(c - 1, b), b), k);
      RunMiss(m, images, b, final, c - 1, k);
      ChunkMiss(Run(m, images, b, final, c - 1), Slice(images, ChunkStart(c - 1, b), b), final, k);
    }
  }

  /** A key no image up to chunk `c` has is missing from chunk `c - 1` and from every image before it. */
  lemma ChunkAvoids(images: seq<ImageWithoutAlt>, b: nat, c: nat, batch: seq<ImageWithoutAlt>, k: string)
    requires DistinctImages(images) && c > 0 && batch == Slice(images, ChunkStart(c - 1, b), b)
    requires forall j :: 0 <= j < Processed(|images|, b, c) ==> images[j].id != k
    ensures forall j :: 0 <= j < Processed(|images|, b, c - 1) ==> images[j].id != k
    ensures forall x :: 0 <= x < |batch| ==> batch[x].id != k
  {
    NextChunk(images, b, c - 1);
    var lo := Processed(|images|, b, c - 1);
    forall x | 0 <= x < |batch| ensures batch[x].id != k {
      assert batch[x] == images[lo + x];
    }
  }

  /** The loop test `i < n` at `i = k * b` holds exactly while chunks remain. */
  lemma {:induction false} ChunksLeft(n: nat, b: nat, k: nat)
    requires b > 0
    ensures ChunkStart(k, b) < n <==> k < ChunkCount(n, b)
    decreases k
  {
    if k > 0 {
      StartShift(k - 1, b);
      if n > b {
        ChunksLeft(n - b, b, k - 1);
      } else {
        StartGrows(k - 1, k, b);
      }
    }
  }

  /** Starting one chunk later is starting `b` later. */
  lemma {:induction false} StartShift(k: nat, b: nat)
    ensures ChunkStart(k + 1, b) == b + ChunkStart(k, b)
  {
  }

  /** Later chunks start no earlier, and chunk 1 onwards start at `b` or later. */
  lemma {:induction false} StartGrows(x: nat, y: nat, b: nat)
    requires x <= y
    ensures ChunkStart(x, b) <= ChunkStart(y, b)
    ensures y > 0 ==> b <= ChunkStart(y, b)
    decreases y
  {
    if x < y {
      StartGrows(x, y - 1, b);
    } else if y > 0 {
      StartGrows(y - 1, y - 1, b);
    }
  }

  /** Entry `j` then entry `j + 1`: writing a prefix one entry longer. */
  lemma PutAllPrefix(m: SuggestionMap, entries: seq<Suggestion>, j: nat)
    requires j < |entries|
    ensures PutAll(m, entries[..j + 1]) == Put(PutAll(m, entries[..j]), entries[j])
  {
    PutAllSnoc(m, entries[..j], entries[j]);
    assert entries[..j + 1] == entries[..j] + [entries[j]];
  }

  /**
   * Where the loop stops: when the list is done, or at the check after the
   * chunk during which Cancel was clicked, whichever comes first.
   */
  lemma LoopExit(n: nat, b: nat, cancelAt: Option<nat>, k: nat)
    requires b > 0 && k <= ChunkCount(n, b)
    requires cancelAt.Some? && cancelAt.value < k ==> k == cancelAt.value + 1
    requires ChunkStart(k, b) >= n || (cancelAt.Some? && cancelAt.value < k)
    ensures k == ChunksRun(n, b, cancelAt)
    ensures cancelAt.Some? && cancelAt.value < k <==> cancelAt.Some? && cancelAt.value < ChunkCount(n, b)
  {
    ChunksLeft(n, b, k);
  }

  /** Whether Cancel was clicked during one of the first `k` chunks. */
  predicate CancelledBefore(cancelAt: Option<nat>, k: nat)
  {
    cancelAt.Some? && cancelAt.value < k
  }

  /** After `k` chunks the loop is still within the list, and a Cancel seen so far came during the last chunk. */
  predicate CancelConsistent(n: nat, b: nat, cancelAt: Option<nat>, k: nat)
    requires b > 0
  {
    k <= ChunkCount(n, b) && (CancelledBefore(cancelAt, k) ==> k == cancelAt.value + 1)
  }

  /** The progress counts shown during a run of `c` chunks: 0, then one count per chunk. */
  function ProgressTrail(n: nat, b: nat, c: nat): seq<nat>
  {
    if c == 0 then [0] else ProgressTrail(n, b, c - 1) + [Processed(n, b, c)]
  }

  /** One more chunk, taken while images remain and before any Cancel: what the run's counters become. */
  lemma ChunkAdvance(n: nat, b: nat, cancelAt: Option<nat>, k: nat)
    requires b > 0 && ChunkStart(k, b) < n && CancelConsistent(n, b, cancelAt, k) && !CancelledBefore(cancelAt, k)
    ensures CancelConsistent(n, b, cancelAt, k + 1)
    ensures CancelledBefore(cancelAt, k + 1) == (cancelAt == Some(k))
    ensures Processed(n, b, k + 1) == Min(ChunkStart(k, b) + b, n)
    ensures ProgressTrail(n, b, k + 1) == ProgressTrail(n, b, k) + [Min(ChunkStart(k, b) + b, n)]
  {
    ChunksLeft(n, b, k);
  }

  /** The trail lists the progress count after each chunk, from 0 chunks to `c`. */
  lemma {:induction false} ProgressTrailLists(n: nat, b: nat, c: nat)
    ensures |ProgressTrail(n, b, c)| == c + 1
    ensures forall k :: 0 <= k <= c ==> ProgressTrail(n, b, c)[k] == Processed(n, b, k)
    decreases c
  {
    if c > 0 {
      ProgressTrailLists(n, b, c - 1);
    }
  }

  /** The progress shown never goes backwards and never exceeds the number of images. */
  lemma ProgressNeverDecreases(n: nat, b: nat, c: nat)
    ensures |ProgressTrail(n, b, c)| == c + 1
    ensures forall x, y :: 0 <= x <= y <= c ==> ProgressTrail(n, b, c)[x] <= ProgressTrail(n, b, c)[y] <= n
  {
    ProgressTrailLists(n, b, c);
    forall x, y | 0 <= x <= y <= c ensures Processed(n, b, x) <= Processed(n, b, y) {
      StartGrows(x, y, b);
    }
  }

  /** Without a cancel, the run reaches every image and the progress count ends at the number of images. */
  lemma UncancelledRunCoversAll(n: nat, b: nat)
    requires b > 0
    ensures Processed(n, b, ChunksRun(n, b, None)) == n
  {
    ChunksLeft(n, b, ChunkCount(n, b));
  }

  /** A cancel during chunk `c` still lets that chunk finish: `min((c + 1) * b, n)` images are processed. */
  lemma CancelFinishesChunkInFlight(n: nat, b: nat, c: nat)
    requires b > 0
    ensures Processed(n, b, ChunksRun(n, b, Some(c))) == Min(ChunkStart(c + 1, b), n)
  {
    ChunksLeft(n, b, c + 1);
    ChunksLeft(n, b, ChunkCount(n, b));
  }

}

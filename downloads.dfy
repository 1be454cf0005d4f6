/** The download loops of `src/utils.ts`: `downloadMediaFiles`, which names,
    places and fetches the descriptors batch by batch, and
    `initiateDownloadMediaFiles`, which counts how many descriptors were
    saved. The HTTP fetches are an oracle: for one call of
    `downloadMediaFiles`, `failures` holds the positions in the list of the
    descriptors whose fetch fails. */
module Downloads {
  import opened Model
  import opened Seqs
  import opened Arith
  import opened Naming
  import opened Batches
  import Media

  /** A descriptor whose fetch is attempted and fails. A descriptor with an
      empty URL is skipped, so it never fails. */
  predicate Fails(files: seq<MediaFile>, failures: set<nat>, k: nat)
  {
    k < |files| && files[k].mediaUrl != "" && k in failures
  }

  /** A descriptor that is fetched and written. */
  predicate Saved(files: seq<MediaFile>, failures: set<nat>, k: nat)
  {
    k < |files| && files[k].mediaUrl != "" && k !in failures
  }

  // ---------------------------------------------------------------------------
  // One batch
  // ---------------------------------------------------------------------------

  /** The callback `downloadMediaFiles` maps over a batch, for descriptor
      `index` of the list: it names the file (raising the count of its date),
      places it under its year and month, and, unless the URL is empty,
      fetches it. The outputs are the path, whether the file was written and
      whether the fetch failed. */
  method DownloadItem(media: MediaFile, index: nat, mediaCounts: MediaCounts, outputDir: string, failures: set<nat>)
    returns (mediaPath: MediaPath, written: bool, failed: bool)
    modifies mediaCounts
    ensures var count := CountOf(old(mediaCounts.counts), media.sentAt) + 1;
            && mediaCounts.counts == old(mediaCounts.counts)[media.sentAt := count]
            && mediaPath == MediaPathFor(media, Filename(media.sentAt, count, media.mediaExt), outputDir)
    ensures written == (media.mediaUrl != "" && index !in failures)
    ensures failed == (media.mediaUrl != "" && index in failures)
  {
    var mediaFilename := CreateFilename(media, mediaCounts);
    mediaPath := MediaPathFor(media, mediaFilename, outputDir);
    written, failed := false, false;
    if media.mediaUrl != "" {
      if index !in failures {
        written := true;
      } else {
        failed := true;
      }
    }
  }

  /** Which of the first `j` items of `batch` are written: item `i`,
      descriptor `start + i` of the list, is written unless its URL is empty
      or its fetch fails. */
  function WrittenFlags(batch: seq<MediaFile>, start: nat, failures: set<nat>, j: nat): (w: seq<bool>)
    requires j <= |batch|
    ensures |w| == j
  {
    if j == 0 then []
    else WrittenFlags(batch, start, failures, j - 1) + [batch[j - 1].mediaUrl != "" && start + j - 1 !in failures]
  }

  lemma {:induction false} WrittenFlagsAt(batch: seq<MediaFile>, start: nat, failures: set<nat>, j: nat, i: nat)
    requires i < j <= |batch|
    ensures WrittenFlags(batch, start, failures, j)[i] == (batch[i].mediaUrl != "" && start + i !in failures)
  {
    if i < j - 1 {
      WrittenFlagsAt(batch, start, failures, j - 1, i);
    }
  }

  /** Whether the fetch of one of the first `j` items of `batch` fails. */
  function AnyFailed(batch: seq<MediaFile>, start: nat, failures: set<nat>, j: nat): bool
    requires j <= |batch|
  {
    j > 0 && (AnyFailed(batch, start, failures, j - 1) || (batch[j - 1].mediaUrl != "" && start + j - 1 in failures))
  }

  lemma {:induction false} AnyFailedIff(batch: seq<MediaFile>, start: nat, failures: set<nat>, j: nat)
    requires j <= |batch|
    ensures AnyFailed(batch, start, failures, j) <==>
            exists i :: 0 <= i < j && batch[i].mediaUrl != "" && start + i in failures
  {
    if j > 0 {
      AnyFailedIff(batch, start, failures, j - 1);
    }
  }

  /** One batch of `downloadMediaFiles`: the callbacks of its `Promise.all`,
      run in order over a fresh count dictionary. Item `j` of the batch is
      descriptor `start + j` of the list. The outputs are whether a fetch
      failed, which makes the `Promise.all` reject, the paths of the batch,
      and which of its items were written. */
  method DownloadBatch(batch: seq<MediaFile>, start: nat, outputDir: string, failures: set<nat>)
    returns (failed: bool, batchPaths: seq<MediaPath>, batchWritten: seq<bool>)
    ensures failed == AnyFailed(batch, start, failures, |batch|)
    ensures batchPaths == BatchPaths(batch, |batch|, outputDir)
    ensures batchWritten == WrittenFlags(batch, start, failures, |batch|)
  {
    var mediaCounts := new MediaCounts();
    failed, batchPaths, batchWritten := false, [], [];
    var j := 0;
    while j < |batch|
      invariant j <= |batch|
      invariant forall d :: CountOf(mediaCounts.counts, d) == Occurrences(batch, j, d)
      invariant batchPaths == BatchPaths(batch, j, outputDir)
      invariant batchWritten == WrittenFlags(batch, start, failures, j)
      invariant failed == AnyFailed(batch, start, failures, j)
    {
      ghost var before := mediaCounts.counts;
      var mediaPath, ok, itemFailed := DownloadItem(batch[j], start + j, mediaCounts, outputDir, failures);
      CountsStep(before, mediaCounts.counts, batch, j + 1);
      batchPaths := batchPaths + [mediaPath];
      batchWritten := batchWritten + [ok];
      failed := failed || itemFailed;
      j := j + 1;
    }
  }

  // ---------------------------------------------------------------------------
  // downloadMediaFiles
  // ---------------------------------------------------------------------------

  /** Whether batch `b` has a failed fetch. */
  predicate BatchFails(files: seq<MediaFile>, size: nat, failures: set<nat>, b: nat)
  {
    var batch := Batch(files, size, b);
    AnyFailed(batch, BatchStart(|files|, size, b), failures, |batch|)
  }

  /** Whether one of the first `b` batches has a failed fetch. */
  predicate Threw(files: seq<MediaFile>, size: nat, failures: set<nat>, b: nat)
  {
    b > 0 && (Threw(files, size, failures, b - 1) || BatchFails(files, size, failures, b - 1))
  }

  /** How many of the first `t` batches are started: none after the first
      batch with a failed fetch. */
  function BatchesRun(files: seq<MediaFile>, size: nat, failures: set<nat>, t: nat): nat
  {
    if t == 0 then 0
    else if Threw(files, size, failures, t - 1) then BatchesRun(files, size, failures, t - 1)
    else t
  }

  /** The paths the first `b` batches give their descriptors. */
  function PathsUpTo(files: seq<MediaFile>, outputDir: string, size: nat, b: nat): (r: seq<MediaPath>)
    ensures |r| == BatchStart(|files|, size, b)
  {
    if b == 0 then []
    else
      var batch := Batch(files, size, b - 1);
      PathsUpTo(files, outputDir, size, b - 1) + BatchPaths(batch, |batch|, outputDir)
  }

  /** Which descriptors of the first `b` batches are written. */
  function WrittenUpTo(files: seq<MediaFile>, size: nat, failures: set<nat>, b: nat): (r: seq<bool>)
    ensures |r| == BatchStart(|files|, size, b)
  {
    if b == 0 then []
    else
      var batch := Batch(files, size, b - 1);
      WrittenUpTo(files, size, failures, b - 1) + WrittenFlags(batch, BatchStart(|files|, size, b - 1), failures, |batch|)
  }

  /** `downloadMediaFiles`: runs the `Math.ceil(n / batchSize)` batches
      `mediaFiles.slice(b * batchSize, (b + 1) * batchSize)` in order and
      throws once the first batch with a failed fetch has settled: the model
      lets every fetch of that batch finish, and those that succeed are
      written. (`Promise.all` rejects as soon as one fetch fails; the rest of
      the batch may still be in flight.) The outputs are whether it
      threw, the path of every descriptor it named, which of them were
      written, and how many batches it started. */
  method DownloadMediaFiles(mediaFiles: seq<MediaFile>, outputDir: string, batchSize: nat, failures: set<nat>)
    returns (threw: bool, paths: seq<MediaPath>, written: seq<bool>, batchesRun: nat)
    requires batchSize >= 1
    ensures var total := CeilDiv(|mediaFiles|, batchSize);
            && threw == Threw(mediaFiles, batchSize, failures, total)
            && batchesRun == BatchesRun(mediaFiles, batchSize, failures, total)
    ensures paths == PathsUpTo(mediaFiles, outputDir, batchSize, batchesRun)
    ensures written == WrittenUpTo(mediaFiles, batchSize, failures, batchesRun)
  {
    var totalBatches := CeilDiv(|mediaFiles|, batchSize);
    threw, paths, written, batchesRun := false, [], [], 0;
    while batchesRun < totalBatches
      invariant batchesRun <= totalBatches && !threw
      invariant !Threw(mediaFiles, batchSize, failures, batchesRun)
      invariant BatchesRun(mediaFiles, batchSize, failures, batchesRun) == batchesRun
      invariant paths == PathsUpTo(mediaFiles, outputDir, batchSize, batchesRun)
      invariant written == WrittenUpTo(mediaFiles, batchSize, failures, batchesRun)
    {
      var failed, batchPaths, batchWritten := DownloadRound(mediaFiles, outputDir, batchSize, failures, batchesRun);
      BatchDone(mediaFiles, outputDir, batchSize, failures, batchesRun);
      paths := paths + batchPaths;
      written := written + batchWritten;
      batchesRun := batchesRun + 1;
      if failed {
        threw := true;
        ThrewStays(mediaFiles, batchSize, failures, batchesRun, totalBatches);
        return;
      }
    }
  }

  /** Round `i` of the loop of `downloadMediaFiles`: takes
      `mediaFiles.slice(i * batchSize, (i + 1) * batchSize)` and runs it. */
  method DownloadRound(mediaFiles: seq<MediaFile>, outputDir: string, batchSize: nat, failures: set<nat>, i: nat)
    returns (failed: bool, batchPaths: seq<MediaPath>, batchWritten: seq<bool>)
    requires batchSize >= 1 && i < CeilDiv(|mediaFiles|, batchSize)
    ensures var batch := Batch(mediaFiles, batchSize, i);
            var start := BatchStart(|mediaFiles|, batchSize, i);
            && failed == AnyFailed(batch, start, failures, |batch|)
            && batchPaths == BatchPaths(batch, |batch|, outputDir)
            && batchWritten == WrittenFlags(batch, start, failures, |batch|)
  {
    var start := i * batchSize;
    NextBatch(mediaFiles, batchSize, i);
    var batch := mediaFiles[start..Min(start + batchSize, |mediaFiles|)];
    failed, batchPaths, batchWritten := DownloadBatch(batch, start, outputDir, failures);
  }

  /** The slice the loop takes in round `b` is batch `b`. */
  lemma NextBatch(files: seq<MediaFile>, size: nat, b: nat)
    requires size >= 1 && b < CeilDiv(|files|, size)
    ensures b * size < |files|
    ensures files[b * size..Min(b * size + size, |files|)] == Batch(files, size, b)
    ensures BatchStart(|files|, size, b) == b * size
  {
    BatchCountBounds(|files|, size, b);
  }

  /** The outputs after batch `b`, when no earlier batch failed. */
  lemma BatchDone(files: seq<MediaFile>, outputDir: string, size: nat, failures: set<nat>, b: nat)
    requires !Threw(files, size, failures, b)
    ensures var batch := Batch(files, size, b);
            var start := BatchStart(|files|, size, b);
            && PathsUpTo(files, outputDir, size, b + 1) == PathsUpTo(files, outputDir, size, b) + BatchPaths(batch, |batch|, outputDir)
            && WrittenUpTo(files, size, failures, b + 1) == WrittenUpTo(files, size, failures, b) + WrittenFlags(batch, start, failures, |batch|)
            && Threw(files, size, failures, b + 1) == AnyFailed(batch, start, failures, |batch|)
            && BatchesRun(files, size, failures, b + 1) == b + 1
  {
  }

  /** Once a batch has failed, no later batch is started. */
  lemma {:induction false} ThrewStays(files: seq<MediaFile>, size: nat, failures: set<nat>, b: nat, t: nat)
    requires Threw(files, size, failures, b) && b <= t
    ensures Threw(files, size, failures, t)
    ensures BatchesRun(files, size, failures, t) == BatchesRun(files, size, failures, b)
    decreases t
  {
    if t > b {
      ThrewStays(files, size, failures, b, t - 1);
    }
  }

  // ---------------------------------------------------------------------------
  // What a call of downloadMediaFiles does
  // ---------------------------------------------------------------------------

  /** A call throws exactly when one of its batches has a failed fetch. */
  lemma {:induction false} ThrewIff(files: seq<MediaFile>, size: nat, failures: set<nat>, t: nat)
    ensures Threw(files, size, failures, t) <==> exists b :: 0 <= b < t && BatchFails(files, size, failures, b)
  {
    if t > 0 {
      ThrewIff(files, size, failures, t - 1);
    }
  }

  /** A batch fails exactly when the fetch of one of its descriptors fails. */
  lemma BatchFailsIff(files: seq<MediaFile>, size: nat, failures: set<nat>, b: nat)
    ensures BatchFails(files, size, failures, b) <==>
            exists k :: BatchStart(|files|, size, b) <= k < BatchStart(|files|, size, b + 1) && Fails(files, failures, k)
  {
    var start := BatchStart(|files|, size, b);
    var batch := Batch(files, size, b);
    AnyFailedIff(batch, start, failures, |batch|);
    if BatchFails(files, size, failures, b) {
      var i :| 0 <= i < |batch| && batch[i].mediaUrl != "" && start + i in failures;
      assert Fails(files, failures, start + i);
    }
    if k :| start <= k < BatchStart(|files|, size, b + 1) && Fails(files, failures, k) {
      assert batch[k - start] == files[k];
    }
  }

  /** The batches started are all of them unless one fails, and then they end
      with the first failing batch. */
  lemma {:induction false} BatchesRunShape(files: seq<MediaFile>, size: nat, failures: set<nat>, t: nat)
    ensures var br := BatchesRun(files, size, failures, t);
            && br <= t
            && (!Threw(files, size, failures, t) ==> br == t)
            && (Threw(files, size, failures, t) ==>
                  br >= 1 && BatchFails(files, size, failures, br - 1) && !Threw(files, size, failures, br - 1))
  {
    if t > 0 {
      BatchesRunShape(files, size, failures, t - 1);
    }
  }

  /** Every written flag says whether that descriptor is saved. */
  lemma {:induction false} WrittenUpToAt(files: seq<MediaFile>, size: nat, failures: set<nat>, b: nat, k: nat)
    requires k < BatchStart(|files|, size, b)
    ensures WrittenUpTo(files, size, failures, b)[k] == Saved(files, failures, k)
  {
    if k < BatchStart(|files|, size, b - 1) {
      WrittenUpToAt(files, size, failures, b - 1, k);
      WrittenUpToKeeps(files, size, failures, b, k);
    } else {
      WrittenUpToLast(files, size, failures, b, k);
    }
  }

  /** A flag of an earlier batch stays where it is. */
  lemma WrittenUpToKeeps(files: seq<MediaFile>, size: nat, failures: set<nat>, b: nat, k: nat)
    requires b > 0 && k < BatchStart(|files|, size, b - 1)
    ensures WrittenUpTo(files, size, failures, b)[k] == WrittenUpTo(files, size, failures, b - 1)[k]
  {
  }

  /** The flags of the last batch. */
  lemma WrittenUpToLast(files: seq<MediaFile>, size: nat, failures: set<nat>, b: nat, k: nat)
    requires b > 0 && BatchStart(|files|, size, b - 1) <= k < BatchStart(|files|, size, b)
    ensures WrittenUpTo(files, size, failures, b)[k] == Saved(files, failures, k)
  {
    var start := BatchStart(|files|, size, b - 1);
    var batch := Batch(files, size, b - 1);
    WrittenFlagsAt(batch, start, failures, |batch|, k - start);
    assert batch[k - start] == files[k];
  }

  /** Descriptor `j` of batch `c` gets the path that batch gives it. */
  lemma {:induction false} PathsUpToAt(files: seq<MediaFile>, outputDir: string, size: nat, b: nat, c: nat, j: nat)
    requires c < b && BatchStart(|files|, size, c) + j < BatchStart(|files|, size, c + 1)
    ensures BatchStart(|files|, size, c) + j < |PathsUpTo(files, outputDir, size, b)|
    ensures var batch := Batch(files, size, c);
            PathsUpTo(files, outputDir, size, b)[BatchStart(|files|, size, c) + j] == BatchPaths(batch, |batch|, outputDir)[j]
    decreases b
  {
    if c < b - 1 {
      PathsUpToAt(files, outputDir, size, b - 1, c, j);
      BatchStartMono(|files|, size, c + 1, b - 1);
      PathsUpToKeeps(files, outputDir, size, b, BatchStart(|files|, size, c) + j);
    } else {
      PathsUpToLast(files, outputDir, size, b, j);
    }
  }

  /** A path of an earlier batch stays where it is. */
  lemma PathsUpToKeeps(files: seq<MediaFile>, outputDir: string, size: nat, b: nat, k: nat)
    requires b > 0 && k < BatchStart(|files|, size, b - 1)
    ensures PathsUpTo(files, outputDir, size, b)[k] == PathsUpTo(files, outputDir, size, b - 1)[k]
  {
  }

  /** The paths of the last batch. */
  lemma PathsUpToLast(files: seq<MediaFile>, outputDir: string, size: nat, b: nat, j: nat)
    requires b > 0 && BatchStart(|files|, size, b - 1) + j < BatchStart(|files|, size, b)
    ensures var batch := Batch(files, size, b - 1);
            PathsUpTo(files, outputDir, size, b)[BatchStart(|files|, size, b - 1) + j] == BatchPaths(batch, |batch|, outputDir)[j]
  {
  }

  /** No descriptor of a batch before the first failing one has a failed
      fetch. */
  lemma {:induction false} NoFailureBefore(files: seq<MediaFile>, size: nat, failures: set<nat>, t: nat)
    requires !Threw(files, size, failures, t)
    ensures forall k :: 0 <= k < BatchStart(|files|, size, t) ==> !Fails(files, failures, k)
  {
    if t > 0 {
      NoFailureBefore(files, size, failures, t - 1);
      BatchFailsIff(files, size, failures, t - 1);
    }
  }

  // ---------------------------------------------------------------------------
  // A call of downloadMediaFiles, on the outputs of DownloadMediaFiles
  // ---------------------------------------------------------------------------

  /** A call throws exactly when the fetch of some descriptor with a URL
      fails. */
  lemma DownloadThrowsIff(files: seq<MediaFile>, size: nat, failures: set<nat>)
    requires size >= 1
    ensures Threw(files, size, failures, CeilDiv(|files|, size))
            <==> exists k :: 0 <= k < |files| && Fails(files, failures, k)
  {
    var total := CeilDiv(|files|, size);
    BatchCountBounds(|files|, size, 0);
    if Threw(files, size, failures, total) {
      ThrewIff(files, size, failures, total);
      var b :| 0 <= b < total && BatchFails(files, size, failures, b);
      BatchFailsIff(files, size, failures, b);
      var k :| BatchStart(|files|, size, b) <= k < BatchStart(|files|, size, b + 1) && Fails(files, failures, k);
      assert 0 <= k < |files|;
    } else {
      NoFailureBefore(files, size, failures, total);
    }
  }

  /** A call that does not throw runs every batch and names every
      descriptor; in every case the descriptors named are the first
      `Math.min(batchesRun * size, n)`. */
  lemma DownloadNamed(files: seq<MediaFile>, size: nat, failures: set<nat>)
    requires size >= 1
    ensures var total := CeilDiv(|files|, size);
            var br := BatchesRun(files, size, failures, total);
            && br <= total
            && BatchStart(|files|, size, br) == Min(br * size, |files|)
            && (!Threw(files, size, failures, total) ==> br == total && BatchStart(|files|, size, br) == |files|)
  {
    var total := CeilDiv(|files|, size);
    BatchesRunShape(files, size, failures, total);
    BatchStartIs(|files|, size, BatchesRun(files, size, failures, total));
    BatchCountBounds(|files|, size, 0);
  }

  /** A call that throws stops after the first batch with a failed fetch:
      that batch has one, and no descriptor before it does. */
  lemma DownloadStopsAtFirstFailure(files: seq<MediaFile>, size: nat, failures: set<nat>)
    requires size >= 1 && Threw(files, size, failures, CeilDiv(|files|, size))
    ensures var br := BatchesRun(files, size, failures, CeilDiv(|files|, size));
            && br >= 1
            && (exists k :: BatchStart(|files|, size, br - 1) <= k < BatchStart(|files|, size, br) && Fails(files, failures, k))
            && (forall k :: 0 <= k < BatchStart(|files|, size, br - 1) ==> !Fails(files, failures, k))
  {
    BatchesRunShape(files, size, failures, CeilDiv(|files|, size));
    LastBatchFails(files, size, failures, BatchesRun(files, size, failures, CeilDiv(|files|, size)));
  }

  lemma LastBatchFails(files: seq<MediaFile>, size: nat, failures: set<nat>, br: nat)
    requires br >= 1 && BatchFails(files, size, failures, br - 1) && !Threw(files, size, failures, br - 1)
    ensures exists k :: BatchStart(|files|, size, br - 1) <= k < BatchStart(|files|, size, br) && Fails(files, failures, k)
    ensures forall k :: 0 <= k < BatchStart(|files|, size, br - 1) ==> !Fails(files, failures, k)
  {
    BatchFailsIff(files, size, failures, br - 1);
    NoFailureBefore(files, size, failures, br - 1);
  }

  /** Item `j` of batch `c` is written to the path that batch names it by;
      with the first `b` batches run, its path sits at the item's own index
      (`BatchCountBounds`: batch `c` starts at `c * size`). */
  lemma PathInBatch(files: seq<MediaFile>, outputDir: string, size: nat, b: nat, c: nat, j: nat, k: nat)
    requires c < b && j < |Batch(files, size, c)| && k == BatchStart(|files|, size, c) + j
    ensures && k < |PathsUpTo(files, outputDir, size, b)| && k < |files|
            && PathsUpTo(files, outputDir, size, b)[k] == MediaPathFor(files[k], BatchFilename(Batch(files, size, c), j), outputDir)
  {
    var batch := Batch(files, size, c);
    BatchAt(files, size, c, j);
    PathsUpToAt(files, outputDir, size, b, c, j);
    BatchPathsAt(batch, |batch|, outputDir, j);
  }

  lemma NameInBatch(files: seq<MediaFile>, outputDir: string, size: nat, b: nat, c: nat, j: nat, k: nat)
    requires c < b && j < |Batch(files, size, c)| && k == BatchStart(|files|, size, c) + j
    ensures && k < |PathsUpTo(files, outputDir, size, b)| && k < |files|
            && PathsUpTo(files, outputDir, size, b)[k].filename == BatchFilename(Batch(files, size, c), j)
  {
    PathInBatch(files, outputDir, size, b, c, j, k);
  }

  /** Within a batch no two descriptors get the same file name, so no two
      are written to the same path (`FilenameTextInjective` carries this
      from the names to their text). */
  lemma NamesInBatch(files: seq<MediaFile>, outputDir: string, size: nat, b: nat, c: nat, i: nat, j: nat)
    requires c < b && i < j < |Batch(files, size, c)|
    ensures var paths := PathsUpTo(files, outputDir, size, b);
            var start := BatchStart(|files|, size, c);
            && start + i < start + j < |paths|
            && paths[start + i].filename != paths[start + j].filename
  {
    var start := BatchStart(|files|, size, c);
    var batch := Batch(files, size, c);
    var paths := PathsUpTo(files, outputDir, size, b);
    var ki, kj := start + i, start + j;
    NameInBatch(files, outputDir, size, b, c, i, ki);
    NameInBatch(files, outputDir, size, b, c, j, kj);
    BatchFilenamesDiffer(batch, i, j);
    assert paths[ki].filename != paths[kj].filename;
  }

  /** The numbering restarts in each batch: the first descriptor of every
      batch gets count 1, whatever earlier batches named. */
  lemma BatchRestarts(files: seq<MediaFile>, outputDir: string, size: nat, b: nat, c: nat)
    requires c < b && 0 < |Batch(files, size, c)|
    ensures var paths := PathsUpTo(files, outputDir, size, b);
            var k := BatchStart(|files|, size, c);
            && k < |paths| && k < |files|
            && paths[k].filename == Filename(files[k].sentAt, 1, files[k].mediaExt)
  {
    var k := BatchStart(|files|, size, c);
    NameInBatch(files, outputDir, size, b, c, 0, k);
    var batch := Batch(files, size, c);
    assert batch[0] == files[k];
    assert BatchFilename(batch, 0) == Filename(batch[0].sentAt, 1, batch[0].mediaExt);
  }

  // ---------------------------------------------------------------------------
  // initiateDownloadMediaFiles
  // ---------------------------------------------------------------------------

  /** The batch size `initiateDownloadMediaFiles` uses. */
  const BatchSize: nat := 10

  /** Whether a call of `downloadMediaFiles` over `files` throws: some
      descriptor with a URL has a failed fetch (`DownloadThrowsIff`). */
  predicate CallFails(files: seq<MediaFile>, failures: set<nat>)
  {
    exists k :: 0 <= k < |files| && Fails(files, failures, k)
  }

  /** What the first `j` iterations of `initiateDownloadMediaFiles` add to
      `successfulDownloads`: iteration `j` calls `downloadMediaFiles` on the
      whole list, with `failures(j)` failing, and counts its own chunk when
      that call does not throw. */
  function Tally(chunks: seq<seq<MediaFile>>, files: seq<MediaFile>, failures: nat -> set<nat>, j: nat): nat
    requires j <= |chunks|
  {
    if j == 0 then 0
    else Tally(chunks, files, failures, j - 1) + (if CallFails(files, failures(j - 1)) then 0 else |chunks[j - 1]|)
  }

  /** `initiateDownloadMediaFiles`: cuts the descriptors into chunks of ten
      and, for each chunk, runs `downloadMediaFiles` over all descriptors;
      the outputs are `successfulDownloads` and `totalDownloads`. Call `j`
      fails the fetches in `failures(j)`. */
  method InitiateDownloadMediaFiles(allMessages: seq<Message>, mediaMessageIds: seq<string>, outputDir: string,
                                    localDate: LocalDate, failures: nat -> set<nat>)
    returns (successfulDownloads: nat, totalDownloads: nat)
    ensures var mediaFiles := Media.GetMediaFiles(mediaMessageIds, allMessages, localDate);
            && totalDownloads == |mediaFiles|
            && successfulDownloads == Tally(Chunks(mediaFiles, BatchSize), mediaFiles, failures, |Chunks(mediaFiles, BatchSize)|)
  {
    var mediaFiles := Media.GetMediaFiles(mediaMessageIds, allMessages, localDate);
    var batches := ChunkArray(mediaFiles, BatchSize);
    successfulDownloads, totalDownloads := 0, 0;
    for j := 0 to |batches|
      invariant totalDownloads == SumLengths(batches[..j])
      invariant successfulDownloads == Tally(batches, mediaFiles, failures, j)
    {
      var threw, paths, written, batchesRun := DownloadMediaFiles(mediaFiles, outputDir, BatchSize, failures(j));
      DownloadThrowsIff(mediaFiles, BatchSize, failures(j));
      RoundCounts(batches, mediaFiles, failures, j);
      if !threw {
        successfulDownloads := successfulDownloads + |batches[j]|;
      }
      totalDownloads := totalDownloads + |batches[j]|;
    }
    ChunksTotal(mediaFiles, BatchSize);
  }

  /** One iteration of the counting loop. */
  lemma RoundCounts(chunks: seq<seq<MediaFile>>, files: seq<MediaFile>, failures: nat -> set<nat>, j: nat)
    requires j < |chunks|
    ensures SumLengths(chunks[..j + 1]) == SumLengths(chunks[..j]) + |chunks[j]|
    ensures Tally(chunks, files, failures, j + 1)
            == Tally(chunks, files, failures, j) + (if CallFails(files, failures(j)) then 0 else |chunks[j]|)
  {
    assert chunks[..j + 1] == chunks[..j] + [chunks[j]];
    SumLengthsAppend(chunks[..j], chunks[j]);
  }

  /** The chunk sizes add up to the number of descriptors. */
  lemma ChunksTotal(files: seq<MediaFile>, size: nat)
    requires size >= 1
    ensures var chunks := Chunks(files, size);
            SumLengths(chunks[..|chunks|]) == |files|
  {
    var chunks := Chunks(files, size);
    ChunksFlatten(files, size);
    FlattenLength(chunks);
    assert chunks[..|chunks|] == chunks;
  }

  /** `successfulDownloads` never exceeds the chunk sizes counted so far. */
  lemma {:induction false} TallyBound(chunks: seq<seq<MediaFile>>, files: seq<MediaFile>, failures: nat -> set<nat>, j: nat)
    requires j <= |chunks|
    ensures Tally(chunks, files, failures, j) <= SumLengths(chunks[..j])
  {
    if j > 0 {
      TallyBound(chunks, files, failures, j - 1);
      assert chunks[..j] == chunks[..j - 1] + [chunks[j - 1]];
      SumLengthsAppend(chunks[..j - 1], chunks[j - 1]);
    }
  }

  /** When every call fails the same fetches, every call has the same fate:
      all chunks count or none does. */
  lemma {:induction false} TallySameFailures(chunks: seq<seq<MediaFile>>, files: seq<MediaFile>, failures: nat -> set<nat>, fs: set<nat>, j: nat)
    requires j <= |chunks|
    requires forall i :: 0 <= i < j ==> failures(i) == fs
    ensures Tally(chunks, files, failures, j) == if CallFails(files, fs) then 0 else SumLengths(chunks[..j])
  {
    if j > 0 {
      TallySameFailures(chunks, files, failures, fs, j - 1);
      assert chunks[..j] == chunks[..j - 1] + [chunks[j - 1]];
      SumLengthsAppend(chunks[..j - 1], chunks[j - 1]);
    }
  }

  /** With every call failing the same fetches, `successfulDownloads` is
      either zero or the number of descriptors. */
  lemma InitiateAllOrNothing(files: seq<MediaFile>, failures: nat -> set<nat>, fs: set<nat>)
    requires forall i :: 0 <= i < |Chunks(files, BatchSize)| ==> failures(i) == fs
    ensures var chunks := Chunks(files, BatchSize);
            Tally(chunks, files, failures, |chunks|) == if CallFails(files, fs) then 0 else |files|
  {
    var chunks := Chunks(files, BatchSize);
    TallySameFailures(chunks, files, failures, fs, |chunks|);
    ChunksTotal(files, BatchSize);
  }
}

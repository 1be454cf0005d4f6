/** `chunkArray` of `src/utils.ts` and the partition it computes. */
module Batches {
  import opened Seqs
  import opened Arith

  /** The partition of `arr` into runs of `size` items, the last run holding
      what is left. */
  function Chunks<T>(arr: seq<T>, size: nat): seq<seq<T>>
    requires size >= 1
    decreases |arr|
  {
    if |arr| <= size then (if arr == [] then [] else [arr])
    else [arr[..size]] + Chunks(arr[size..], size)
  }

  /** The chunks concatenate back to the list. */
  lemma {:induction false} ChunksFlatten<T>(arr: seq<T>, size: nat)
    requires size >= 1
    ensures Flatten(Chunks(arr, size)) == arr
    decreases |arr|
  {
    if |arr| > size {
      ChunksFlatten(arr[size..], size);
      FlattenCons(arr[..size], Chunks(arr[size..], size));
      assert arr == arr[..size] + arr[size..];
    } else if arr != [] {
      assert [arr][..0] == [];
    }
  }

  /** There are `Math.ceil(n / size)` chunks. */
  lemma {:induction false} ChunksCount<T>(arr: seq<T>, size: nat)
    requires size >= 1
    ensures |Chunks(arr, size)| == CeilDiv(|arr|, size)
    decreases |arr|
  {
    if |arr| > size {
      ChunksCount(arr[size..], size);
    }
  }

  /** No chunk is empty or longer than `size`, and every chunk but the last
      holds exactly `size` items. */
  lemma {:induction false} ChunksSizes<T>(arr: seq<T>, size: nat, b: nat)
    requires size >= 1 && b < |Chunks(arr, size)|
    ensures 0 < |Chunks(arr, size)[b]| <= size
    ensures b < |Chunks(arr, size)| - 1 ==> |Chunks(arr, size)[b]| == size
    decreases |arr|
  {
    if b > 0 {
      ChunksSizes(arr[size..], size, b - 1);
    }
  }

  /** Where batch `b` of `downloadMediaFiles` starts, `Math.min(b * size, n)`,
      counted one batch at a time. */
  function BatchStart(n: nat, size: nat, b: nat): (s: nat)
    ensures s <= n
  {
    if b == 0 then 0 else Min(BatchStart(n, size, b - 1) + size, n)
  }

  lemma {:induction false} BatchStartIs(n: nat, size: nat, b: nat)
    ensures BatchStart(n, size, b) == Min(b * size, n)
  {
    if b > 0 {
      BatchStartIs(n, size, b - 1);
      MulPred(b, size);
    }
  }

  lemma {:induction false} BatchStartMono(n: nat, size: nat, b: nat, c: nat)
    requires b <= c
    ensures BatchStart(n, size, b) <= BatchStart(n, size, c)
    decreases c
  {
    if b < c {
      BatchStartMono(n, size, b, c - 1);
    }
  }

  /** Batch `b` of `downloadMediaFiles`, `arr.slice(b * size, (b + 1) * size)`. */
  function Batch<T>(arr: seq<T>, size: nat, b: nat): seq<T>
  {
    arr[BatchStart(|arr|, size, b)..BatchStart(|arr|, size, b + 1)]
  }

  /** Item `j` of batch `b` is item `BatchStart(b) + j` of the list. */
  lemma BatchAt<T>(arr: seq<T>, size: nat, b: nat, j: nat)
    requires j < |Batch(arr, size, b)|
    ensures BatchStart(|arr|, size, b) + j < BatchStart(|arr|, size, b + 1)
    ensures Batch(arr, size, b)[j] == arr[BatchStart(|arr|, size, b) + j]
  {
  }

  /** The `Math.ceil(n / size)` batches end at the end of the list, and each
      of them starts before it. */
  lemma BatchCountBounds(n: nat, size: nat, b: nat)
    requires size >= 1
    ensures BatchStart(n, size, CeilDiv(n, size)) == n
    ensures b < CeilDiv(n, size) ==> BatchStart(n, size, b) == b * size < n
  {
    CeilDivCovers(n, size);
    BatchStartIs(n, size, CeilDiv(n, size));
    BatchStartIs(n, size, b);
    if b < CeilDiv(n, size) {
      MulMonotone(b, CeilDiv(n, size) - 1, size);
    }
  }

  /** Chunk `b` is batch `b`: `chunkArray` computes the partition that the
      slicing loop of `downloadMediaFiles` walks. */
  lemma {:induction false} ChunkAt<T>(arr: seq<T>, size: nat, b: nat)
    requires size >= 1 && b < |Chunks(arr, size)|
    ensures Chunks(arr, size)[b] == Batch(arr, size, b)
    decreases |arr|
  {
    if b > 0 {
      ChunkAt(arr[size..], size, b - 1);
      BatchShift(arr, size, b);
    }
  }

  /** Batch `b` of a list is batch `b - 1` of the list without its first
      batch. */
  lemma BatchShift<T>(arr: seq<T>, size: nat, b: nat)
    requires size >= 1 && b >= 1 && |arr| > size
    ensures Batch(arr[size..], size, b - 1) == Batch(arr, size, b)
  {
    BatchStartShift(arr, size, b);
    BatchStartShift(arr, size, b + 1);
  }

  /** Dropping the first batch moves every later batch one place down. */
  lemma {:induction false} BatchStartShift<T>(arr: seq<T>, size: nat, b: nat)
    requires size >= 1 && b >= 1 && |arr| > size
    ensures BatchStart(|arr|, size, b) == size + BatchStart(|arr| - size, size, b - 1)
  {
    if b > 1 {
      BatchStartShift(arr, size, b - 1);
    }
  }

  /** `chunkArray`: pushes items into a chunk and moves the chunk to the
      result when it reaches `chunkSize`. For a size below one the comparison
      never holds and the whole non-empty list is one chunk. */
  method ChunkArray<T>(arr: seq<T>, chunkSize: int) returns (result: seq<seq<T>>)
    ensures chunkSize >= 1 ==> result == Chunks(arr, chunkSize)
    ensures chunkSize < 1 ==> result == (if arr == [] then [] else [arr])
  {
    result := [];
    var chunk: seq<T> := [];
    ghost var start := 0;
    for i := 0 to |arr|
      invariant start + |chunk| == i && chunk == arr[start..i]
      invariant chunkSize < 1 ==> result == [] && start == 0
      invariant chunkSize >= 1 ==> |chunk| < chunkSize && result + Chunks(arr[start..], chunkSize) == Chunks(arr, chunkSize)
    {
      chunk := chunk + [arr[i]];
      if |chunk| == chunkSize {
        assert chunk == arr[start..i + 1];
        FullChunk(arr, chunkSize, result, start, i + 1);
        result := result + [chunk];
        chunk := [];
        start := i + 1;
      }
    }
    if chunkSize >= 1 {
      assert chunk == arr[start..];
      LastChunk(arr, chunkSize, result, start);
    } else {
      assert chunk == arr;
    }
    if |chunk| > 0 {
      result := result + [chunk];
    }
  }

  /** The chunk left at the end, if any, is the last one. */
  lemma LastChunk<T>(arr: seq<T>, size: nat, result: seq<seq<T>>, start: nat)
    requires size >= 1 && start <= |arr| && |arr| - start < size
    requires result + Chunks(arr[start..], size) == Chunks(arr, size)
    ensures (if start < |arr| then result + [arr[start..]] else result) == Chunks(arr, size)
  {
    if start == |arr| {
      assert arr[start..] == [];
      assert result + [] == result;
    }
  }

  /** A chunk that has just filled up, from `start` to `end`, is the first
      chunk of the rest of the list from `start`. */
  lemma FullChunk<T>(arr: seq<T>, size: nat, result: seq<seq<T>>, start: nat, end: nat)
    requires size >= 1 && start + size == end <= |arr|
    requires result + Chunks(arr[start..], size) == Chunks(arr, size)
    ensures (result + [arr[start..end]]) + Chunks(arr[end..], size) == Chunks(arr, size)
  {
    FirstChunk(arr, size, start, end);
    assert (result + [arr[start..end]]) + Chunks(arr[end..], size) == result + ([arr[start..end]] + Chunks(arr[end..], size));
  }

  lemma FirstChunk<T>(arr: seq<T>, size: nat, start: nat, end: nat)
    requires size >= 1 && start + size == end <= |arr|
    ensures Chunks(arr[start..], size) == [arr[start..end]] + Chunks(arr[end..], size)
  {
    var rest := arr[start..];
    if |rest| > size {
      assert rest[..size] == arr[start..end] && rest[size..] == arr[end..];
    } else {
      assert arr[end..] == [];
      assert rest == arr[start..end];
    }
  }
}

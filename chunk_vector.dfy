/**
 * Splitting a vector into consecutive chunks of a fixed size (lab1/ChunkVector.h).
 * The loop is a do-while, so an empty input still yields one (empty) chunk.
 */
module Chunking {
  import opened Arith

  /** The chunks laid end to end. */
  function Flatten<T>(chunks: seq<seq<T>>): seq<T>
    decreases |chunks|
  {
    if chunks == [] then [] else Flatten(chunks[..|chunks| - 1]) + chunks[|chunks| - 1]
  }

  lemma FlattenSnoc<T>(chunks: seq<seq<T>>, c: seq<T>)
    ensures Flatten(chunks + [c]) == Flatten(chunks) + c
  {
    assert (chunks + [c])[..|chunks|] == chunks;
  }

  lemma FlattenNext<T>(v: seq<T>, chunks: seq<seq<T>>, b: nat, e: nat)
    requires b <= e <= |v| && Flatten(chunks) == v[..b]
    ensures Flatten(chunks + [v[b..e]]) == v[..e]
  {
    FlattenSnoc(chunks, v[b..e]);
    assert v[..b] + v[b..e] == v[..e];
  }

  /** Chunks of one size `size` hold `|chunks| * size` elements. */
  lemma {:induction false} UniformLength<T>(chunks: seq<seq<T>>, size: nat)
    requires forall i :: 0 <= i < |chunks| ==> |chunks[i]| == size
    ensures |Flatten(chunks)| == |chunks| * size
    decreases |chunks|
  {
    if chunks != [] {
      var n := |chunks| - 1;
      UniformLength(chunks[..n], size);
      assert (n + 1) * size == n * size + size;
    }
  }

  /** With all chunks full but the last, which holds 1 to `size` elements, the count is the rounded-up quotient. */
  lemma ChunkCount(total: nat, count: nat, size: nat, last: nat)
    requires size >= 1 && count >= 1 && 1 <= last <= size
    requires total == (count - 1) * size + last
    ensures count == (total + size - 1) / size
  {
    assert total + size - 1 == (last - 1) + count * size;
    ModOfShift(last - 1, size, count);
  }

  lemma CountOfChunks<T>(v: seq<T>, chunks: seq<seq<T>>, size: nat)
    requires size >= 1 && |chunks| >= 1 && Flatten(chunks) == v
    requires forall i :: 0 <= i < |chunks| - 1 ==> |chunks[i]| == size
    requires 1 <= |chunks[|chunks| - 1]| <= size
    ensures |chunks| == (|v| + size - 1) / size
  {
    var n := |chunks| - 1;
    UniformLength(chunks[..n], size);
    FlattenSnoc(chunks[..n], chunks[n]);
    assert chunks[..n] + [chunks[n]] == chunks;
    ChunkCount(|v|, |chunks|, size, |chunks[n]|);
  }

  /**
   * Cuts `v` into chunks of `chunkSize`: laid end to end they give `v` back;
   * every chunk but the last is full, the last holds 1 to `chunkSize`
   * elements, and there are `ceil(|v| / chunkSize)` of them, except that an
   * empty input gives a single empty chunk.
   */
  method ChunkVector<T>(v: seq<T>, chunkSize: nat) returns (chunks: seq<seq<T>>)
    requires chunkSize >= 1
    ensures Flatten(chunks) == v
    ensures |chunks| >= 1
    ensures forall i :: 0 <= i < |chunks| - 1 ==> |chunks[i]| == chunkSize
    ensures v != [] ==> 1 <= |chunks[|chunks| - 1]| <= chunkSize
    ensures v == [] ==> chunks == [[]]
    ensures |chunks| == if v == [] then 1 else (|v| + chunkSize - 1) / chunkSize
  {
    var chunkBegin, chunkEnd := 0, 0;
    chunks := [];
    var running := true;
    while running
      invariant chunkBegin == chunkEnd <= |v|
      invariant Flatten(chunks) == v[..chunkBegin]
      invariant forall i :: 0 <= i < |chunks| - 1 ==> |chunks[i]| == chunkSize
      invariant running ==> chunkBegin < |v| || (v == [] && chunks == [])
      invariant running && chunks != [] ==> |chunks[|chunks| - 1]| == chunkSize
      invariant !running ==> chunkBegin == |v| && |chunks| >= 1
      invariant v != [] && chunks != [] ==> 1 <= |chunks[|chunks| - 1]| <= chunkSize
      invariant v == [] && chunks != [] ==> chunks == [[]]
      decreases |v| - chunkBegin + (if running then 1 else 0)
    {
      if |v| - chunkEnd < chunkSize {
        chunkEnd := |v|;
      } else {
        chunkEnd := chunkEnd + chunkSize;
      }
      FlattenNext(v, chunks, chunkBegin, chunkEnd);
      chunks := chunks + [v[chunkBegin..chunkEnd]];
      chunkBegin := chunkEnd;
      running := chunkBegin < |v|;
    }
    assert v[..chunkBegin] == v;
    if v != [] {
      CountOfChunks(v, chunks, chunkSize);
    }
  }
}

/**
 * How the pipeline's buffer of pairs is cut into `write_many` calls: full
 * batches of `FlushSize` while running, then one final call for a
 * non-empty remainder.
 */
module Batching {

  /** The buffer size that triggers a flush (main.py:73). */
  const FlushSize: nat := 100

  /** The batches a sequence of pairs is written in, front to back. */
  function Chunks<T>(s: seq<T>): seq<seq<T>>
    decreases |s|
  {
    if |s| < FlushSize then (if s == [] then [] else [s])
    else [s[..FlushSize]] + Chunks(s[FlushSize..])
  }

  /** The batches laid end to end. */
  function Concat<T>(batches: seq<seq<T>>): seq<T>
  {
    if batches == [] then [] else batches[0] + Concat(batches[1..])
  }

  /** The part of `s` that full batches cover: what has been flushed while running. */
  function Flushed<T>(s: seq<T>): (r: seq<T>)
    ensures |r| % FlushSize == 0 && |s| - |r| < FlushSize
    ensures |r| <= |s| && r == s[..|r|]
  {
    s[..|s| / FlushSize * FlushSize]
  }

  /** Writing the batches loses, duplicates and reorders nothing. */
  lemma {:induction false} ConcatChunks<T>(s: seq<T>)
    ensures Concat(Chunks(s)) == s
    decreases |s|
  {
    if |s| >= FlushSize {
      ConcatChunks(s[FlushSize..]);
      assert Chunks(s)[1..] == Chunks(s[FlushSize..]);
      assert s == s[..FlushSize] + s[FlushSize..];
    } else if s != [] {
      assert Concat(Chunks(s)[1..]) == [];
    }
  }

  /**
   * Every batch holds exactly `FlushSize` items except possibly the last,
   * which then holds between 1 and `FlushSize - 1`; that last short batch
   * exists exactly when `FlushSize` does not divide the length.
   */
  lemma {:induction false} ChunkSizes<T>(s: seq<T>)
    ensures |Chunks(s)| == (|s| + FlushSize - 1) / FlushSize
    ensures forall j :: 0 <= j < |Chunks(s)| ==>
      |Chunks(s)[j]| == FlushSize || (j == |Chunks(s)| - 1 && 0 < |Chunks(s)[j]| < FlushSize)
    ensures |s| % FlushSize != 0 <==> Chunks(s) != [] && |Chunks(s)[|Chunks(s)| - 1]| < FlushSize
    decreases |s|
  {
    if |s| >= FlushSize {
      var rest := s[FlushSize..];
      ChunkSizes(rest);
      assert Chunks(s) == [s[..FlushSize]] + Chunks(rest);
      assert forall j :: 0 < j < |Chunks(s)| ==> Chunks(s)[j] == Chunks(rest)[j - 1];
    }
  }

  /** Appending one more batch of at most `FlushSize` after full batches appends one chunk. */
  lemma {:induction false} ChunksAppend<T>(s: seq<T>, batch: seq<T>)
    requires |s| % FlushSize == 0 && 0 < |batch| <= FlushSize
    ensures Chunks(s + batch) == Chunks(s) + [batch]
    decreases |s|
  {
    if s == [] {
      assert s + batch == batch;
      if |batch| == FlushSize {
        assert batch[..FlushSize] == batch && batch[FlushSize..] == [];
        assert Chunks(batch) == [batch] + Chunks<T>([]);
      }
    } else {
      var rest := s[FlushSize..];
      ChunksAppend(rest, batch);
      assert (s + batch)[..FlushSize] == s[..FlushSize];
      assert (s + batch)[FlushSize..] == rest + batch;
    }
  }

  /** Full batches followed by a short buffer: only the full batches count as flushed. */
  lemma FlushedOfBuffered<T>(full: seq<T>, buffer: seq<T>)
    requires |full| % FlushSize == 0 && |buffer| < FlushSize
    ensures Flushed(full + buffer) == full
  {
    var r := Flushed(full + buffer);
    assert |r| == |full|;
    assert r == (full + buffer)[..|full|];
  }

  /**
   * Solver hint, not a property of the source: appending in two steps is
   * appending once. Stated apart so that callers with large contexts need
   * not rediscover associativity.
   */
  lemma AppendAssoc<T>(a: seq<T>, b: seq<T>, c: seq<T>)
    ensures a + b + c == a + (b + c)
  {
  }

  /**
   * A flush of a full buffer after full batches only: the batches written so
   * far gain exactly that buffer as one more batch.
   */
  lemma FlushFull<T>(flushed: seq<T>, batch: seq<T>)
    requires |flushed| % FlushSize == 0 && |batch| == FlushSize
    ensures |flushed + batch| % FlushSize == 0
    ensures Chunks(flushed + batch) == Chunks(flushed) + [batch]
  {
    ChunksAppend(flushed, batch);
  }

  /**
   * The final flush after full batches only: a non-empty remainder becomes
   * one last, short batch; an empty one adds no batch.
   */
  lemma FinalFlush<T>(flushed: seq<T>, buffer: seq<T>)
    requires |flushed| % FlushSize == 0 && |buffer| < FlushSize
    ensures Chunks(flushed + buffer) == Chunks(flushed) + (if buffer == [] then [] else [buffer])
  {
    if buffer == [] {
      assert flushed + buffer == flushed;
    } else {
      ChunksAppend(flushed, buffer);
    }
  }

  /** The 250-pair case: writes of 100, 100 and 50. */
  lemma TwoHundredFiftyPairs<T>(s: seq<T>)
    requires |s| == 250
    ensures |Chunks(s)| == 3
    ensures |Chunks(s)[0]| == 100 && |Chunks(s)[1]| == 100 && |Chunks(s)[2]| == 50
  {
    assert Chunks(s) == [s[..100]] + ([s[100..][..100]] + Chunks(s[100..][100..]));
  }
}

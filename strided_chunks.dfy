/**
 * `src/strided_chunks.rs`: an iterator over full, possibly overlapping chunks
 * of a vector, `chunk_size` long and `step_size` apart.
 */
module StridedChunks {
  import opened Numerics
  import opened Windowing

  class StridedChunks<T> {
    const data: seq<T>
    const chunkSize: nat
    const stepSize: nat
    var currentIndex: nat
    /** The number of chunks yielded so far. */
    ghost var yielded: nat

    ghost predicate Valid()
      reads this
    {
      && currentIndex == yielded * stepSize
      && (Terminates(|data|, chunkSize, stepSize) ==>
            yielded <= WindowCount(|data|, chunkSize, stepSize))
    }

    /** `StridedChunks::new`: takes the data and starts at index 0. */
    constructor (data: seq<T>, chunkSize: nat, stepSize: nat)
      ensures this.data == data && this.chunkSize == chunkSize && this.stepSize == stepSize
      ensures currentIndex == 0 && yielded == 0 && Valid()
    {
      this.data := data;
      this.chunkSize := chunkSize;
      this.stepSize := stepSize;
      currentIndex := 0;
      yielded := 0;
    }

    /**
     * `Iterator::next`: a copy of the next full chunk, or `None` once it would
     * run past the end.  `data` is a constant: chunks are copies.
     */
    method Next() returns (r: Option<seq<T>>)
      requires Valid()
      modifies this
      ensures Valid()
      ensures old(currentIndex) + chunkSize > |data| ==>
        r.None? && currentIndex == old(currentIndex) && yielded == old(yielded)
      ensures old(currentIndex) + chunkSize <= |data| ==>
        && r == Some(data[old(currentIndex)..old(currentIndex) + chunkSize])
        && currentIndex == old(currentIndex) + stepSize
        && yielded == old(yielded) + 1
      ensures Terminates(|data|, chunkSize, stepSize) ==>
        && (r.Some? <==> old(yielded) < WindowCount(|data|, chunkSize, stepSize))
        && (r.Some? ==> r.value == Window(data, chunkSize, stepSize, old(yielded)))
    {
      if Terminates(|data|, chunkSize, stepSize) {
        CountFits(|data|, chunkSize, stepSize, yielded);
      }
      if currentIndex + chunkSize > |data| {
        return None;
      }
      var chunk := data[currentIndex..currentIndex + chunkSize];
      currentIndex := currentIndex + stepSize;
      yielded := yielded + 1;
      r := Some(chunk);
    }
  }

  /** A chunk longer than the data: nothing is yielded. */
  lemma ChunkTooLarge(len: nat, chunkSize: nat, stepSize: nat)
    requires chunkSize > len
    ensures WindowCount(len, chunkSize, stepSize) == 0
  {
  }

  /**
   * Exact tiling: with a step equal to the chunk size the chunks cover the
   * longest prefix that is a whole number of chunks, so there are `len / chunk`.
   */
  lemma ExactFitCount(len: nat, chunkSize: nat)
    requires chunkSize > 0
    ensures var n := WindowCount(len, chunkSize, chunkSize);
      n * chunkSize <= len < n * chunkSize + chunkSize
  {
    var n := WindowCount(len, chunkSize, chunkSize);
    CountFits(len, chunkSize, chunkSize, n);
    if n > 0 {
      CountFits(len, chunkSize, chunkSize, n - 1);
      assert (n - 1) * chunkSize + chunkSize == n * chunkSize;
    }
  }

  /** Four values in chunks of 2 every 2: exactly two chunks. */
  lemma ExactFitExample()
    ensures AllWindows([1, 2, 3, 4], 2, 2) == [[1, 2], [3, 4]]
  {
    var d := [1, 2, 3, 4];
    var r := AllWindows(d, 2, 2);
    assert |r| == 2;
    assert r[0] == d[0..2] == [1, 2];
    assert r[1] == d[2..4] == [3, 4];
  }

  /** The source's test data: chunks of 2 every 1 over [1..5] are [1,2], [2,3], [3,4], [4,5]. */
  lemma BasicExample()
    ensures AllWindows([1, 2, 3, 4, 5], 2, 1) == [[1, 2], [2, 3], [3, 4], [4, 5]]
  {
    var d := [1, 2, 3, 4, 5];
    var r := AllWindows(d, 2, 1);
    assert |r| == 4;
    assert r[0] == d[0..2] == [1, 2];
    assert r[1] == d[1..3] == [2, 3];
    assert r[2] == d[2..4] == [3, 4];
    assert r[3] == d[3..5] == [4, 5];
  }

  /** Chunks of 3 every 2 over six values: [10,20,30] and [30,40,50]. */
  lemma StepSizeExample()
    ensures AllWindows([10, 20, 30, 40, 50, 60], 3, 2) == [[10, 20, 30], [30, 40, 50]]
  {
    var d := [10, 20, 30, 40, 50, 60];
    var r := AllWindows(d, 3, 2);
    assert |r| == 2;
    assert r[0] == d[0..3] == [10, 20, 30];
    assert r[1] == d[2..5] == [30, 40, 50];
  }

  /** With a zero step the iterator never runs out: every call copies the first chunk again. */
  method ZeroStepRepeats<T>(data: seq<T>, chunkSize: nat) returns (first: Option<seq<T>>, second: Option<seq<T>>)
    requires chunkSize <= |data|
    ensures first == second == Some(data[..chunkSize])
  {
    var it := new StridedChunks(data, chunkSize, 0);
    first := it.Next();
    second := it.Next();
  }
}

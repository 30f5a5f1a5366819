/**
 * Arithmetic of the sliding windows used throughout the source: a window of
 * `w` samples starts at every multiple of `step` for as long as it still fits
 * (`while i + w <= len { ...; i += step }`).
 */
module Windowing {

  /** A zero step only terminates when not even one window fits. */
  predicate Terminates(len: nat, w: nat, step: nat)
  {
    step > 0 || w > len
  }

  /** Number of windows produced over `len` samples. */
  function WindowCount(len: nat, w: nat, step: nat): nat
    requires Terminates(len, w, step)
  {
    if w > len then 0 else (len - w) / step + 1
  }

  lemma MulMonotone(a: nat, b: nat, c: nat)
    requires a <= b
    ensures a * c <= b * c
  {
  }

  /** Window `k` exists exactly when it fits inside the signal. */
  lemma CountFits(len: nat, w: nat, step: nat, k: nat)
    requires Terminates(len, w, step)
    ensures k < WindowCount(len, w, step) <==> k * step + w <= len
  {
    if w <= len {
      var d := len - w;
      var q := d / step;
      assert q * step <= d;
      if k <= q {
        MulMonotone(k, q, step);
      } else {
        MulMonotone(q + 1, k, step);
        assert (q + 1) * step == q * step + step;
        assert d < q * step + step;
      }
    }
  }

  /** Window `k`: `s[k*step .. k*step + w]`. */
  function Window<T>(s: seq<T>, w: nat, step: nat, k: nat): (r: seq<T>)
    requires Terminates(|s|, w, step) && k < WindowCount(|s|, w, step)
    ensures |r| == w
  {
    CountFits(|s|, w, step, k);
    s[k * step .. k * step + w]
  }

  /** Every window, in order of its start. */
  function AllWindows<T>(s: seq<T>, w: nat, step: nat): (r: seq<seq<T>>)
    requires Terminates(|s|, w, step)
    ensures |r| == WindowCount(|s|, w, step)
    ensures forall k :: 0 <= k < |r| ==> |r[k]| == w
  {
    seq(WindowCount(|s|, w, step), k requires 0 <= k < WindowCount(|s|, w, step) =>
      Window(s, w, step, k))
  }

  /** Each window is a contiguous run of the signal, element for element. */
  lemma WindowElements<T>(s: seq<T>, w: nat, step: nat, k: nat, j: nat)
    requires Terminates(|s|, w, step) && k < WindowCount(|s|, w, step) && j < w
    ensures k * step + j < |s| && Window(s, w, step, k)[j] == s[k * step + j]
  {
    CountFits(|s|, w, step, k);
  }

  /** Concatenation of a sequence of runs. */
  function Flatten<T>(runs: seq<seq<T>>): seq<T>
  {
    if |runs| == 0 then [] else runs[0] + Flatten(runs[1..])
  }

  /** Concatenating one more run at the end appends it to the flattening. */
  lemma {:induction false} FlattenAppend<T>(runs: seq<seq<T>>, last: seq<T>)
    ensures Flatten(runs + [last]) == Flatten(runs) + last
  {
    if |runs| == 0 {
      assert runs + [last] == [last];
      assert Flatten([last]) == last + Flatten([last][1..]);
    } else {
      assert (runs + [last])[1..] == runs[1..] + [last];
      FlattenAppend(runs[1..], last);
    }
  }

  /**
   * `slice.chunks(size)`: consecutive runs of `size` elements from the
   * start, the last run holding whatever is left (never empty).
   */
  function Chunks<T>(s: seq<T>, size: nat): (r: seq<seq<T>>)
    requires size > 0
    ensures |r| > 0 <==> |s| > 0
    ensures forall k :: 0 <= k < |r| ==> 0 < |r[k]| <= size
    ensures forall k :: 0 <= k < |r| - 1 ==> |r[k]| == size
    decreases |s|
  {
    if |s| == 0 then []
    else if |s| <= size then [s]
    else [s[..size]] + Chunks(s[size..], size)
  }

  /** The chunks put back together give the slice: nothing is lost, reordered or repeated. */
  lemma {:induction false} ChunksFlatten<T>(s: seq<T>, size: nat)
    requires size > 0
    ensures Flatten(Chunks(s, size)) == s
    decreases |s|
  {
    if |s| > size {
      ChunksFlatten(s[size..], size);
      assert Chunks(s, size)[1..] == Chunks(s[size..], size);
      assert s[..size] + s[size..] == s;
    } else if |s| > 0 {
      assert Flatten(Chunks(s, size)) == s + Flatten([]);
    }
  }

  /** There are `ceil(len / size)` chunks: the fewest runs of `size` that cover the slice. */
  lemma {:induction false} ChunkCount<T>(s: seq<T>, size: nat)
    requires size > 0
    ensures |s| <= |Chunks(s, size)| * size
    ensures |Chunks(s, size)| > 0 ==> (|Chunks(s, size)| - 1) * size < |s|
    decreases |s|
  {
    if |s| > size {
      var n' := |Chunks(s[size..], size)|;
      ChunkCount(s[size..], size);
      assert |Chunks(s, size)| == n' + 1;
      assert (n' + 1) * size == n' * size + size;
      assert (n' - 1) * size + size == n' * size;
    }
  }

  /** Chunk `k` is `s[k*size .. min((k+1)*size, len)]`. */
  lemma {:induction false} ChunkAt<T>(s: seq<T>, size: nat, k: nat)
    requires size > 0 && k < |Chunks(s, size)|
    ensures k * size < |s|
    ensures Chunks(s, size)[k] == s[k * size .. if (k + 1) * size <= |s| then (k + 1) * size else |s|]
    decreases |s|
  {
    if k > 0 {
      assert |s| > size;
      var rest := s[size..];
      assert Chunks(s, size)[k] == Chunks(rest, size)[k - 1];
      ChunkAt(rest, size, k - 1);
      var lo := (k - 1) * size;
      var hi := if k * size <= |rest| then k * size else |rest|;
      assert lo + size == k * size;
      assert k * size + size == (k + 1) * size;
      assert Chunks(rest, size)[k - 1] == rest[lo..hi];
      assert rest[lo..hi] == s[lo + size .. hi + size];
    }
  }
}

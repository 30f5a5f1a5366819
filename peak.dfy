/**
 * Peak picking of `crates/audio-cleaning/src/processing.rs` (`find_peak`).
 * The same iterator chain is `find_spectrum_peak` in `src/signal/processing.rs` and
 * `src/signal_processing.rs`, whose models delegate here.
 */
module Peak {
  import opened Numerics

  /**
   * `i` holds the maximum of `s`, and every later element is strictly smaller:
   * `Iterator::max_by` returns the last of several equal maxima.
   */
  predicate IsLastMaximum(s: seq<real>, i: nat)
  {
    && i < |s|
    && (forall j :: 0 <= j < |s| ==> s[j] <= s[i])
    && (forall j :: i < j < |s| ==> s[j] < s[i])
  }

  /**
   * The fold `max_by` performs: the running best is replaced by the next
   * element unless the best compares strictly greater.
   */
  function MaxByFrom(s: seq<real>, k: nat, best: nat): (r: nat)
    requires best < k <= |s|
    requires forall j :: 0 <= j < k ==> s[j] <= s[best]
    requires forall j :: best < j < k ==> s[j] < s[best]
    ensures IsLastMaximum(s, r)
    decreases |s| - k
  {
    if k == |s| then best
    else if s[best] > s[k] then MaxByFrom(s, k + 1, best)
    else MaxByFrom(s, k + 1, k)
  }

  /** `find_peak`: the index and value of the (last) largest sample, `None` for no samples. */
  function FindPeak(signal: seq<real>): (r: Option<(nat, real)>)
    ensures r.None? <==> |signal| == 0
    ensures r.Some? ==> IsLastMaximum(signal, r.value.0) && r.value.1 == signal[r.value.0]
  {
    if |signal| == 0 then None
    else
      var i := MaxByFrom(signal, 1, 0);
      Some((i, signal[i]))
  }

  /** At most one position is the last maximum, so `FindPeak` is pinned down by its contract. */
  lemma LastMaximumUnique(s: seq<real>, i: nat, j: nat)
    requires IsLastMaximum(s, i) && IsLastMaximum(s, j)
    ensures i == j
  {
    assert s[i] <= s[j] && s[j] <= s[i];
  }

  /** Any position that is the last maximum is the one `FindPeak` reports. */
  lemma FindPeakCharacterised(s: seq<real>, i: nat)
    requires IsLastMaximum(s, i)
    ensures FindPeak(s) == Some((i, s[i]))
  {
    LastMaximumUnique(s, i, FindPeak(s).value.0);
  }

  /** Equal maxima: the later one wins. */
  lemma FindPeakTieGoesLast()
    ensures FindPeak([1.0, 3.0, 0.5, 3.0, 2.0]) == Some((3, 3.0))
  {
    FindPeakCharacterised([1.0, 3.0, 0.5, 3.0, 2.0], 3);
  }

  /** The waveform of the crate's own unit test. */
  lemma FindPeakExample()
    ensures FindPeak([0.1, 0.5, 2.0, 0.3, 0.2]) == Some((2, 2.0))
  {
    FindPeakCharacterised([0.1, 0.5, 2.0, 0.3, 0.2], 2);
  }
}

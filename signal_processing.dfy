/**
 * `src/signal/processing.rs`: spectrum and spectrogram computation and peak
 * tracking.  Its `Spectrum`, `Spectrogram` and `SpectrogramConfig` declarations
 * (and their methods) are the same as those of `src/signal/types.rs` and are
 * the ones modelled in `SignalTypes`.
 */
module SignalProcessing {
  import opened Numerics
  import opened Windowing
  import opened SignalTypes
  import Peak

  /** `compute_spectrum`: the FFT of the signal with `n` set to its length. */
  function ComputeSpectrum(m: Maths, signal: seq<real>): (r: Spectrum)
    requires ValidMaths(m)
    ensures WellFormed(r) && r.n == |signal|
    ensures r.complex == m.forward(signal)
  {
    Spectrum(m.forward(signal), |signal|)
  }

  /** `compute_spectrogram`: the same windowed loop as in `src/signal/types.rs`. */
  method ComputeSpectrogram(m: Maths, signal: seq<real>, windowSize: nat, stepSize: nat)
    returns (result: seq<seq<real>>)
    requires ValidMaths(m) && Terminates(|signal|, windowSize, stepSize)
    ensures result == SpectrogramRows(m, signal, windowSize, stepSize)
  {
    result := [];
    var i := 0;
    ghost var k := 0;
    ghost var rows := SpectrogramRows(m, signal, windowSize, stepSize);
    while i + windowSize <= |signal|
      invariant i == k * stepSize
      invariant k <= |rows|
      invariant result == rows[..k]
      decreases |signal| - i
    {
      CountFits(|signal|, windowSize, stepSize, k);
      var window := signal[i..i + windowSize];
      assert window == Window(signal, windowSize, stepSize, k);
      assert rows[..k + 1] == rows[..k] + [rows[k]];
      var spectrum := Magnitudes(m, ComputeSpectrum(m, window));
      result := result + [spectrum[..windowSize / 2]];
      assert (k + 1) * stepSize == i + stepSize;
      i := i + stepSize;
      k := k + 1;
    }
    CountFits(|signal|, windowSize, stepSize, k);
    assert rows[..k] == rows;
  }

  /** `find_spectrum_peak`: the position and value of the last largest bin. */
  function FindSpectrumPeak(spectrum: seq<real>): (r: Option<(nat, real)>)
    ensures r.None? <==> |spectrum| == 0
    ensures r.Some? ==> Peak.IsLastMaximum(spectrum, r.value.0) && r.value.1 == spectrum[r.value.0]
  {
    Peak.FindPeak(spectrum)
  }

  /** `detect_moving_peak`: per row, the index of its peak bin, or 0 for an empty row. */
  function DetectMovingPeak(spectrogram: seq<seq<real>>): (r: seq<nat>)
    ensures |r| == |spectrogram|
    ensures forall k :: 0 <= k < |r| && |spectrogram[k]| == 0 ==> r[k] == 0
    ensures forall k :: 0 <= k < |r| && |spectrogram[k]| > 0 ==>
      Peak.IsLastMaximum(spectrogram[k], r[k])
  {
    seq(|spectrogram|, k requires 0 <= k < |spectrogram| =>
      match FindSpectrumPeak(spectrogram[k])
      case Some(p) => p.0
      case None => 0)
  }

  /** Changing one row changes the peak of that time step only. */
  lemma DetectMovingPeakIsPerRow(spectrogram: seq<seq<real>>, k: nat, row: seq<real>)
    requires k < |spectrogram|
    ensures var r := DetectMovingPeak(spectrogram[k := row]);
      forall j :: 0 <= j < |spectrogram| && j != k ==> r[j] == DetectMovingPeak(spectrogram)[j]
  {
  }

  /** The spectrogram of the source's unit test. */
  lemma DetectMovingPeakExample()
    ensures DetectMovingPeak([[0.0, 1.0, 0.5], [0.2, 0.3, 0.9], [0.7, 0.1, 0.2]]) == [1, 2, 0]
  {
    var g := [[0.0, 1.0, 0.5], [0.2, 0.3, 0.9], [0.7, 0.1, 0.2]];
    Peak.FindPeakCharacterised(g[0], 1);
    Peak.FindPeakCharacterised(g[1], 2);
    Peak.FindPeakCharacterised(g[2], 0);
  }
}

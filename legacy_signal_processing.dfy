/**
 * `src/signal_processing.rs`: the older magnitude-only spectrum helpers,
 * including the log-magnitude spectrogram.
 */
module LegacySignalProcessing {
  import opened Numerics
  import opened Windowing
  import Peak
  import SignalProcessing

  /** `compute_spectrum`: moduli of the first `n/2` FFT bins of the signal. */
  function ComputeSpectrum(m: Maths, signal: seq<real>): (r: seq<real>)
    requires ValidMaths(m)
    ensures |r| == |signal| / 2
    ensures forall i :: 0 <= i < |r| ==> r[i] >= 0.0 && r[i] == Norm(m, m.forward(signal)[i])
  {
    var buffer := m.forward(signal);
    seq(|signal| / 2, i requires 0 <= i < |signal| / 2 => Norm(m, buffer[i]))
  }

  /** The rows `compute_spectrogram` produces: one magnitude spectrum per window. */
  function SpectrogramRows(m: Maths, signal: seq<real>, w: nat, step: nat): (r: seq<seq<real>>)
    requires ValidMaths(m) && Terminates(|signal|, w, step)
    ensures |r| == WindowCount(|signal|, w, step)
    ensures forall k :: 0 <= k < |r| ==> |r[k]| == w / 2
  {
    seq(WindowCount(|signal|, w, step), k requires 0 <= k < WindowCount(|signal|, w, step) =>
      ComputeSpectrum(m, Window(signal, w, step, k)))
  }

  /** `compute_spectrogram`: the `while i + window_size <= signal.len()` loop. */
  method ComputeSpectrogram(m: Maths, signal: seq<real>, windowSize: nat, stepSize: nat)
    returns (result: seq<seq<real>>)
    requires ValidMaths(m) && Terminates(|signal|, windowSize, stepSize)
    ensures result == SpectrogramRows(m, signal, windowSize, stepSize)
  {
    result := [];
    var i := 0;
    ghost var k := 0;
    ghost var rows := SpectrogramRows(m, signal, windowSize, stepSize);
    while i + windowSize <= |signal|
      invariant i == k * stepSize
      invariant k <= |rows|
      invariant result == rows[..k]
      decreases |signal| - i
    {
      CountFits(|signal|, windowSize, stepSize, k);
      var window := signal[i..i + windowSize];
      assert window == Window(signal, windowSize, stepSize, k);
      assert rows[..k + 1] == rows[..k] + [rows[k]];
      result := result + [ComputeSpectrum(m, window)];
      assert (k + 1) * stepSize == i + stepSize;
      i := i + stepSize;
      k := k + 1;
    }
    CountFits(|signal|, windowSize, stepSize, k);
    assert rows[..k] == rows;
  }

  /** The entry-wise map of `compute_log_spectrogram`: `log10(v + 1e-12)`. */
  function LogRows(m: Maths, rows: seq<seq<real>>): (r: seq<seq<real>>)
    ensures |r| == |rows|
    ensures forall k :: 0 <= k < |r| ==> |r[k]| == |rows[k]|
    ensures forall k, j :: 0 <= k < |r| && 0 <= j < |r[k]| ==>
      r[k][j] == m.log10(rows[k][j] + 0.000000000001)
  {
    seq(|rows|, k requires 0 <= k < |rows| =>
      seq(|rows[k]|, j requires 0 <= j < |rows[k]| => m.log10(rows[k][j] + 0.000000000001)))
  }

  /** `compute_log_spectrogram`: the spectrogram with every magnitude on a log scale. */
  method ComputeLogSpectrogram(m: Maths, signal: seq<real>, windowSize: nat, stepSize: nat)
    returns (result: seq<seq<real>>)
    requires ValidMaths(m) && Terminates(|signal|, windowSize, stepSize)
    ensures result == LogRows(m, SpectrogramRows(m, signal, windowSize, stepSize))
  {
    var spectrogram := ComputeSpectrogram(m, signal, windowSize, stepSize);
    result := LogRows(m, spectrogram);
  }

  /** The log spectrogram keeps the shape: one row per window, `window/2` values per row. */
  lemma LogSpectrogramShape(m: Maths, signal: seq<real>, w: nat, step: nat)
    requires ValidMaths(m) && step > 0 && w <= |signal|
    ensures var r := LogRows(m, SpectrogramRows(m, signal, w, step));
      |r| == (|signal| - w) / step + 1 && |r[0]| == w / 2
  {
  }

  /** 2000 samples, windows of 200 every 100: 19 rows of 100 values. */
  lemma LogSpectrogramExample(m: Maths, signal: seq<real>)
    requires ValidMaths(m) && |signal| == 2000
    ensures var r := LogRows(m, SpectrogramRows(m, signal, 200, 100));
      |r| == 19 && forall k :: 0 <= k < 19 ==> |r[k]| == 100
  {
    LogSpectrogramShape(m, signal, 200, 100);
  }

  /** `find_spectrum_peak`: identical to the one in `src/signal/processing.rs`. */
  function FindSpectrumPeak(spectrum: seq<real>): (r: Option<(nat, real)>)
    ensures r.None? <==> |spectrum| == 0
    ensures r.Some? ==> Peak.IsLastMaximum(spectrum, r.value.0) && r.value.1 == spectrum[r.value.0]
  {
    SignalProcessing.FindSpectrumPeak(spectrum)
  }

  /** `detect_moving_peak`: the peak index of every row, 0 for an empty row. */
  function DetectMovingPeak(spectrogram: seq<seq<real>>): (r: seq<nat>)
    ensures |r| == |spectrogram|
    ensures forall k :: 0 <= k < |r| && |spectrogram[k]| == 0 ==> r[k] == 0
    ensures forall k :: 0 <= k < |r| && |spectrogram[k]| > 0 ==>
      Peak.IsLastMaximum(spectrogram[k], r[k])
  {
    SignalProcessing.DetectMovingPeak(spectrogram)
  }
}

/**
 * `src/signal/types.rs`: the full complex spectrum of a waveform, its
 * magnitudes and its inverse, and the magnitude spectrogram computed over
 * sliding windows.
 */
module SignalTypes {
  import opened Numerics
  import opened Windowing

  /** `Spectrum { complex, n }`: all FFT bins and the FFT size. */
  datatype Spectrum = Spectrum(complex: seq<Complex>, n: nat)

  /** What every constructor of a spectrum establishes: one bin per FFT point. */
  predicate WellFormed(s: Spectrum)
  {
    |s.complex| == s.n
  }

  /** `Spectrum::from_waveform`: the FFT of the signal, sized to the signal. */
  function FromWaveform(m: Maths, signal: seq<real>): (r: Spectrum)
    requires ValidMaths(m)
    ensures WellFormed(r) && r.n == |signal|
  {
    Spectrum(m.forward(signal), |signal|)
  }

  /** `Spectrum::magnitudes`: the moduli of the first `n/2` bins (positive frequencies). */
  function Magnitudes(m: Maths, s: Spectrum): (r: seq<real>)
    requires ValidMaths(m) && s.n / 2 <= |s.complex|
    ensures |r| == s.n / 2
    ensures forall i :: 0 <= i < |r| ==> r[i] >= 0.0 && r[i] == Norm(m, s.complex[i])
  {
    seq(s.n / 2, i requires 0 <= i < s.n / 2 => Norm(m, s.complex[i]))
  }

  /** `Spectrum::to_time_domain`: the real parts of the inverse FFT, divided by `n`. */
  function ToTimeDomain(m: Maths, s: Spectrum): (r: seq<real>)
    requires ValidMaths(m) && WellFormed(s)
    ensures |r| == s.n
  {
    var buffer := m.inverse(s.complex);
    seq(|buffer|, i requires 0 <= i < |buffer| => buffer[i].re / (s.n as real))
  }

  /** `Spectrum::get`: bin `i` if there is one. */
  function Get(s: Spectrum, i: nat): (r: Option<Complex>)
    ensures r.Some? <==> i < |s.complex|
    ensures r.Some? ==> r.value == s.complex[i]
  {
    if i < |s.complex| then Some(s.complex[i]) else None
  }

  /** Transforming and inverting recovers every sample within 1e-5. */
  lemma TimeDomainRoundTrip(m: Maths, signal: seq<real>)
    requires ValidMaths(m)
    ensures |ToTimeDomain(m, FromWaveform(m, signal))| == |signal|
    ensures forall i :: 0 <= i < |signal| ==>
      Abs(ToTimeDomain(m, FromWaveform(m, signal))[i] - signal[i]) < 0.00001
  {
    var r := ToTimeDomain(m, FromWaveform(m, signal));
    forall i | 0 <= i < |signal|
      ensures Abs(r[i] - signal[i]) < 0.00001
    {
      assert r[i] == m.inverse(m.forward(signal))[i].re / (|signal| as real);
    }
  }

  /** Bins exist exactly below the signal length. */
  lemma GetFromWaveform(m: Maths, signal: seq<real>, i: nat)
    requires ValidMaths(m)
    ensures Get(FromWaveform(m, signal), i).Some? <==> i < |signal|
  {
  }

  /** One spectrogram row: the positive-frequency magnitudes of one window, cut to `w/2`. */
  function Row(m: Maths, window: seq<real>, w: nat): (r: seq<real>)
    requires ValidMaths(m) && |window| == w
    ensures |r| == w / 2
    ensures forall j :: 0 <= j < |r| ==> r[j] >= 0.0
  {
    Magnitudes(m, FromWaveform(m, window))[..w / 2]
  }

  /** The rows `compute_spectrogram` produces, one per window. */
  function SpectrogramRows(m: Maths, signal: seq<real>, w: nat, step: nat): (r: seq<seq<real>>)
    requires ValidMaths(m) && Terminates(|signal|, w, step)
    ensures |r| == WindowCount(|signal|, w, step)
    ensures forall k :: 0 <= k < |r| ==> |r[k]| == w / 2
  {
    seq(WindowCount(|signal|, w, step), k requires 0 <= k < WindowCount(|signal|, w, step) =>
      Row(m, Window(signal, w, step, k), w))
  }

  /**
   * `compute_spectrogram`: the `while i + window_size <= signal.len()` loop.
   * A zero step loops forever unless no window fits, hence the precondition.
   */
  method ComputeSpectrogram(m: Maths, signal: seq<real>, windowSize: nat, stepSize: nat)
    returns (result: seq<seq<real>>)
    requires ValidMaths(m) && Terminates(|signal|, windowSize, stepSize)
    ensures result == SpectrogramRows(m, signal, windowSize, stepSize)
  {
    result := [];
    var i := 0;
    ghost var k := 0;
    ghost var rows := SpectrogramRows(m, signal, windowSize, stepSize);
    while i + windowSize <= |signal|
      invariant i == k * stepSize
      invariant k <= |rows|
      invariant result == rows[..k]
      decreases |signal| - i
    {
      RowAt(m, signal, windowSize, stepSize, k, i);
      var window := signal[i..i + windowSize];
      var spectrum := Magnitudes(m, FromWaveform(m, window));
      assert rows[..k + 1] == rows[..k] + [spectrum[..windowSize / 2]];
      result := result + [spectrum[..windowSize / 2]];
      assert (k + 1) * stepSize == i + stepSize;
      i := i + stepSize;
      k := k + 1;
    }
    CountFits(|signal|, windowSize, stepSize, k);
    assert rows[..k] == rows;
  }

  /** The window starting at `i = k * step` gives row `k` of the spectrogram. */
  lemma RowAt(m: Maths, signal: seq<real>, w: nat, step: nat, k: nat, i: nat)
    requires ValidMaths(m) && Terminates(|signal|, w, step)
    requires i == k * step && i + w <= |signal|
    ensures k < |SpectrogramRows(m, signal, w, step)|
    ensures SpectrogramRows(m, signal, w, step)[k] == Magnitudes(m, FromWaveform(m, signal[i..i + w]))[..w / 2]
  {
    CountFits(|signal|, w, step, k);
    assert signal[i..i + w] == Window(signal, w, step, k);
  }

  /** `Spectrogram { spectra, window_size, step_size }` */
  datatype Spectrogram = Spectrogram(spectra: seq<seq<real>>, windowSize: nat, stepSize: nat)

  /** `SpectrogramConfig` */
  datatype SpectrogramConfig = SpectrogramConfig(windowSize: nat, stepSize: nat)

  /** `SpectrogramConfig::default`: 1024-sample windows every 256 samples. */
  function DefaultSpectrogramConfig(): (c: SpectrogramConfig)
    ensures c.windowSize == 1024 && c.stepSize == 256
  {
    SpectrogramConfig(1024, 256)
  }

  /** `Spectrogram::from_waveform`: the rows of the signal under the configuration. */
  method SpectrogramFromWaveform(m: Maths, signal: seq<real>, config: SpectrogramConfig)
    returns (s: Spectrogram)
    requires ValidMaths(m) && Terminates(|signal|, config.windowSize, config.stepSize)
    ensures s.spectra == SpectrogramRows(m, signal, config.windowSize, config.stepSize)
    ensures s.windowSize == config.windowSize && s.stepSize == config.stepSize
  {
    var spectra := ComputeSpectrogram(m, signal, config.windowSize, config.stepSize);
    s := Spectrogram(spectra, config.windowSize, config.stepSize);
  }

  /** `Spectrogram::n_time_steps` */
  function NTimeSteps(s: Spectrogram): nat
  {
    |s.spectra|
  }

  /** `Spectrogram::n_freq_bins`: the length of the first row, 0 with no rows. */
  function NFreqBins(s: Spectrogram): nat
  {
    if |s.spectra| == 0 then 0 else |s.spectra[0]|
  }

  /**
   * The shape of a spectrogram built from a signal: one time step per window
   * and `window_size/2` bins, or no bins when no window fits.
   */
  lemma SpectrogramShape(m: Maths, signal: seq<real>, config: SpectrogramConfig)
    requires ValidMaths(m) && Terminates(|signal|, config.windowSize, config.stepSize)
    ensures var s := Spectrogram(SpectrogramRows(m, signal, config.windowSize, config.stepSize),
                                 config.windowSize, config.stepSize);
      && NTimeSteps(s) == WindowCount(|signal|, config.windowSize, config.stepSize)
      && NFreqBins(s) == (if config.windowSize <= |signal| then config.windowSize / 2 else 0)
  {
  }

  /** Eight samples, windows of 4 every 2: three time steps of two bins. */
  lemma SpectrogramExample(m: Maths, signal: seq<real>)
    requires ValidMaths(m) && |signal| == 8
    ensures var s := Spectrogram(SpectrogramRows(m, signal, 4, 2), 4, 2);
      NTimeSteps(s) == 3 && NFreqBins(s) == 2
  {
    SpectrogramShape(m, signal, SpectrogramConfig(4, 2));
  }
}

/**
 * `crates/audio-cleaning/src/cleaning.rs`: cleaning audio for pitch detection
 * (the hard spectral gate when a noise spectrum is known, the vocal band-pass
 * otherwise) and finding a quiet window in 200-1500 ms to take a noise
 * spectrum from.
 *
 * The crate's `audio_utils::MonoAudio` (samples and a `u32` rate) is modelled
 * by `AudioTypes.MonoAudio`, which has the same fields, and its `Spectrum` by
 * `SignalTypes.Spectrum`.
 */
module Cleaning {
  import opened Numerics
  import opened Windowing
  import opened SignalTypes
  import opened AudioTypes
  import HardGate
  import CleaningUtil

  const DefaultVocalLowHz: real := 80.0
  const DefaultVocalHighHz: real := 1200.0

  /** `bandpass_vocal_range`: the library band-pass run over every sample; one output per input. */
  function BandpassVocalRange(m: Maths, samples: seq<real>, sampleRate: real, lowHz: real, highHz: real): (r: seq<real>)
    requires ValidMaths(m)
    ensures |r| == |samples|
  {
    m.bandpass(samples, sampleRate, lowHz, highHz)
  }

  /** `apply_spectral_gating`: the hard gate with the multiplier defaulting to 1.2. */
  method ApplySpectralGating(m: Maths, samples: seq<real>, noiseSpec: Spectrum, noiseThreshold: Option<real>)
    returns (r: seq<real>)
    requires ValidMaths(m)
    ensures |r| == |samples|
    ensures r == HardGate.Gated(m, samples, noiseSpec, HardGate.ThresholdOrDefault(noiseThreshold))
  {
    var thresholdMultiplier := HardGate.ThresholdOrDefault(noiseThreshold);
    r := HardGate.GateSamples(m, samples, noiseSpec, thresholdMultiplier);
  }

  /** `clean_signal_for_pitch`: gate against a known noise spectrum, else band-pass 80-1200 Hz. */
  method CleanSignalForPitch(m: Maths, samples: seq<real>, sampleRate: real,
                             noiseSpectrum: Option<Spectrum>, noiseThreshold: Option<real>)
    returns (r: seq<real>)
    requires ValidMaths(m)
    ensures |r| == |samples|
    ensures noiseSpectrum.Some? ==>
      r == HardGate.Gated(m, samples, noiseSpectrum.value, HardGate.ThresholdOrDefault(noiseThreshold))
    ensures noiseSpectrum.None? ==> r == m.bandpass(samples, sampleRate, 80.0, 1200.0)
  {
    match noiseSpectrum
    case Some(noiseSpec) =>
      r := ApplySpectralGating(m, samples, noiseSpec, noiseThreshold);
    case None =>
      r := BandpassVocalRange(m, samples, sampleRate, DefaultVocalLowHz, DefaultVocalHighHz);
  }

  /** `clean_audio_for_pitch`: cleans the samples and keeps the sample rate. */
  method CleanAudioForPitch(m: Maths, audio: MonoAudio, noiseSpectrum: Option<Spectrum>, noiseThreshold: Option<real>)
    returns (r: MonoAudio)
    requires ValidMaths(m)
    ensures r.sampleRate == audio.sampleRate && |r.samples| == |audio.samples|
    ensures noiseSpectrum.Some? ==>
      r.samples == HardGate.Gated(m, audio.samples, noiseSpectrum.value, HardGate.ThresholdOrDefault(noiseThreshold))
    ensures noiseSpectrum.None? ==> r.samples == m.bandpass(audio.samples, audio.sampleRate as real, 80.0, 1200.0)
  {
    var cleanedSamples := CleanSignalForPitch(m, audio.samples, audio.sampleRate as real, noiseSpectrum, noiseThreshold);
    r := MonoAudio(cleanedSamples, audio.sampleRate);
  }

  /** First sample of the candidate noise window: `(0.2 * sample_rate) as usize`. */
  function NoiseWindowStart(sampleRate: real): nat
  {
    CastToUsize(0.2 * sampleRate)
  }

  /** End of the candidate noise window: `(1.5 * sample_rate).min(len as f32) as usize`. */
  function NoiseWindowEnd(sampleRate: real, len: nat): (r: nat)
    ensures r <= len
  {
    CastToUsize(MinReal(1.5 * sampleRate, len as real))
  }

  /**
   * `x / std < bound` in IEEE arithmetic for a standard deviation `std >= 0`:
   * dividing by zero gives -inf, +inf or NaN by the sign of `x`, and a NaN
   * compares false.
   */
  function ZScoreBelow(x: real, std: real, bound: real): bool
  {
    if std != 0.0 then x / std < bound else x < 0.0
  }

  /** For a non-negative spread the criterion `z < -1` is `x < -std`, both when `std > 0` and when it is 0. */
  lemma ZScoreBelowMinusOne(x: real, std: real)
    requires std >= 0.0
    ensures ZScoreBelow(x, std, -1.0) <==> x < -std
  {
    if std > 0.0 {
      assert (x / std) * std == x;
      if x / std < -1.0 {
        assert x < -std by { MulBelow(x / std, -1.0, std); }
      } else {
        assert x >= -std by { MulAtLeast(x / std, -1.0, std); }
      }
    }
  }

  lemma MulBelow(a: real, b: real, c: real)
    requires a < b && c > 0.0
    ensures a * c < b * c
  {
  }

  lemma MulAtLeast(a: real, b: real, c: real)
    requires a >= b && c > 0.0
    ensures a * c >= b * c
  {
  }

  /** The RMS of every `chunks(size)` run of the signal (`rms(chunk).unwrap()`: never empty). */
  function ChunkRms(sqrt: real -> real, samples: seq<real>, size: nat): (r: seq<real>)
    requires ValidSqrt(sqrt) && size > 0
    ensures |r| == |Chunks(samples, size)|
    ensures forall k :: 0 <= k < |r| ==> r[k] == CleaningUtil.Rms(sqrt, Chunks(samples, size)[k]).value
  {
    var chunks := Chunks(samples, size);
    seq(|chunks|, k requires 0 <= k < |chunks| => CleaningUtil.Rms(sqrt, chunks[k]).value)
  }

  /**
   * `get_noise_window`: the slice `[floor(0.2 sr), floor(min(1.5 sr, len)))`,
   * accepted only when its RMS lies more than one standard deviation below the
   * mean RMS of the signal cut into chunks of the window's length.
   */
  function NoiseWindow(sqrt: real -> real, samples: seq<real>, sampleRate: real): (r: Option<seq<real>>)
    requires ValidSqrt(sqrt)
    ensures NoiseWindowStart(sampleRate) >= NoiseWindowEnd(sampleRate, |samples|) ==> r.None?
    ensures r.Some? ==>
      r.value == samples[NoiseWindowStart(sampleRate)..NoiseWindowEnd(sampleRate, |samples|)]
  {
    var startIdx := NoiseWindowStart(sampleRate);
    var endIdx := NoiseWindowEnd(sampleRate, |samples|);
    if startIdx >= endIdx then None
    else
      var noiseWindow := samples[startIdx..endIdx];
      var windowSize := |noiseWindow|;
      var allWindowsRms := ChunkRms(sqrt, samples, windowSize);
      var (rmsMean, rmsStddev) := CleaningUtil.MeanStdDeviation(sqrt, allWindowsRms).value;
      var noiseWindowRms := CleaningUtil.Rms(sqrt, noiseWindow).value;
      if ZScoreBelow(noiseWindowRms - rmsMean, rmsStddev, -1.0) then Some(noiseWindow) else None
  }

  /** When the candidate range is not empty the window is accepted exactly when its RMS is below mean - std. */
  lemma NoiseWindowAcceptance(sqrt: real -> real, samples: seq<real>, sampleRate: real)
    requires ValidSqrt(sqrt)
    requires NoiseWindowStart(sampleRate) < NoiseWindowEnd(sampleRate, |samples|)
    ensures var window := samples[NoiseWindowStart(sampleRate)..NoiseWindowEnd(sampleRate, |samples|)];
      var stats := CleaningUtil.MeanStdDeviation(sqrt, ChunkRms(sqrt, samples, |window|));
      && stats.Some?
      && (NoiseWindow(sqrt, samples, sampleRate).Some? <==>
            CleaningUtil.Rms(sqrt, window).value < stats.value.0 - stats.value.1)
  {
    var window := samples[NoiseWindowStart(sampleRate)..NoiseWindowEnd(sampleRate, |samples|)];
    var (mean, std) := CleaningUtil.MeanStdDeviation(sqrt, ChunkRms(sqrt, samples, |window|)).value;
    ZScoreBelowMinusOne(CleaningUtil.Rms(sqrt, window).value - mean, std);
  }

  /** Every element of a chunk comes from the signal, so a constant signal has constant chunks. */
  lemma ChunksOfConstant(samples: seq<real>, size: nat, c: real, k: nat)
    requires size > 0 && k < |Chunks(samples, size)|
    requires forall i :: 0 <= i < |samples| ==> samples[i] == c
    ensures forall j :: 0 <= j < |Chunks(samples, size)[k]| ==> Chunks(samples, size)[k][j] == c
  {
    ChunkAt(samples, size, k);
  }

  /**
   * A constant signal never yields a noise window: every chunk and the window
   * have the same RMS, the spread is 0 and the z-score is 0/0, which is NaN.
   * This is why the crate's test on `[0.01; 2000]` at 1000 Hz is ignored.
   */
  lemma ConstantSignalHasNoNoiseWindow(sqrt: real -> real, samples: seq<real>, sampleRate: real, c: real)
    requires ValidSqrt(sqrt)
    requires forall i :: 0 <= i < |samples| ==> samples[i] == c
    ensures NoiseWindow(sqrt, samples, sampleRate).None?
  {
    var startIdx := NoiseWindowStart(sampleRate);
    var endIdx := NoiseWindowEnd(sampleRate, |samples|);
    if startIdx < endIdx {
      var window := samples[startIdx..endIdx];
      var size := |window|;
      var rmss := ChunkRms(sqrt, samples, size);
      forall k | 0 <= k < |rmss|
        ensures rmss[k] == Abs(c)
      {
        ChunksOfConstant(samples, size, c, k);
        CleaningUtil.ConstantRms(sqrt, Chunks(samples, size)[k], c);
      }
      CleaningUtil.ConstantMeanStd(sqrt, rmss, Abs(c));
      CleaningUtil.ConstantRms(sqrt, window, c);
    }
  }

  /** `_estimate_noise_spectrum`: the spectrum of the noise window, if one is found. */
  function EstimateNoiseSpectrumOf(m: Maths, samples: seq<real>, sampleRate: real): (r: Option<Spectrum>)
    requires ValidMaths(m)
    ensures r.Some? <==> NoiseWindow(m.sqrt, samples, sampleRate).Some?
    ensures r.Some? ==> WellFormed(r.value)
    ensures r.Some? ==> r.value.n == NoiseWindowEnd(sampleRate, |samples|) - NoiseWindowStart(sampleRate)
  {
    match NoiseWindow(m.sqrt, samples, sampleRate)
    case None => None
    case Some(noiseWindow) => Some(FromWaveform(m, noiseWindow))
  }

  /** `estimate_noise_spectrum`: `None` for empty audio, else the estimate at the audio's rate. */
  function EstimateNoiseSpectrum(m: Maths, audio: MonoAudio): (r: Option<Spectrum>)
    requires ValidMaths(m)
    ensures |audio.samples| == 0 ==> r.None?
    ensures |audio.samples| > 0 ==> r == EstimateNoiseSpectrumOf(m, audio.samples, audio.sampleRate as real)
  {
    if |audio.samples| == 0 then None
    else EstimateNoiseSpectrumOf(m, audio.samples, audio.sampleRate as real)
  }

  /** A constant recording has no noise estimate. */
  lemma ConstantAudioHasNoEstimate(m: Maths, audio: MonoAudio, c: real)
    requires ValidMaths(m)
    requires forall i :: 0 <= i < |audio.samples| ==> audio.samples[i] == c
    ensures EstimateNoiseSpectrum(m, audio).None?
  {
    ConstantSignalHasNoNoiseWindow(m.sqrt, audio.samples, audio.sampleRate as real, c);
  }
}

/**
 * `src/signal/cleaning.rs`: the earlier copy of the cleaning routines over
 * `src/audio` mono audio.  The file imports `compute_spectrum` and a
 * `Spectrum` from `src/signal_processing.rs`, which defines no `Spectrum`;
 * the spectrum of `src/signal/types.rs` and the `compute_spectrum` of
 * `src/signal/processing.rs` stand in for them.  Gating and
 * band-pass are the crate's; the noise estimate takes the 200-1500 ms slice
 * as it is, without the crate's quietness test.
 */
module SignalCleaning {
  import opened Numerics
  import opened SignalTypes
  import opened AudioTypes
  import HardGate
  import Cleaning
  import SignalProcessing

  /** `bandpass_vocal_range`: the same filter as the crate's, one output per input sample. */
  function BandpassVocalRange(m: Maths, samples: seq<real>, sampleRate: real, lowHz: real, highHz: real): (r: seq<real>)
    requires ValidMaths(m)
    ensures |r| == |samples|
  {
    Cleaning.BandpassVocalRange(m, samples, sampleRate, lowHz, highHz)
  }

  /** `apply_spectral_gating`: `compute_spectrum`, the hard gate, the inverse transform cut to length. */
  method ApplySpectralGating(m: Maths, samples: seq<real>, noiseSpec: Spectrum, noiseThreshold: Option<real>)
    returns (r: seq<real>)
    requires ValidMaths(m)
    ensures |r| == |samples|
    ensures r == HardGate.Gated(m, samples, noiseSpec, HardGate.ThresholdOrDefault(noiseThreshold))
  {
    var thresholdMultiplier := HardGate.ThresholdOrDefault(noiseThreshold);
    var spectrum := SignalProcessing.ComputeSpectrum(m, samples);
    var bins := new Complex[|spectrum.complex|](i requires 0 <= i < |spectrum.complex| => spectrum.complex[i]);
    assert bins[..] == spectrum.complex;
    HardGate.GateInPlace(m, bins, noiseSpec.complex, thresholdMultiplier);
    var timeDomain := ToTimeDomain(m, Spectrum(bins[..], spectrum.n));
    r := timeDomain[..|samples|];
  }

  /** `clean_signal_for_pitch`: gate when a noise spectrum is given, else band-pass 80-1200 Hz. */
  method CleanSignalForPitch(m: Maths, samples: seq<real>, sampleRate: real,
                             noiseSpectrum: Option<Spectrum>, noiseThreshold: Option<real>)
    returns (r: seq<real>)
    requires ValidMaths(m)
    ensures |r| == |samples|
    ensures noiseSpectrum.Some? ==>
      r == HardGate.Gated(m, samples, noiseSpectrum.value, HardGate.ThresholdOrDefault(noiseThreshold))
    ensures noiseSpectrum.None? ==> r == m.bandpass(samples, sampleRate, 80.0, 1200.0)
  {
    match noiseSpectrum
    case Some(noiseSpec) =>
      r := ApplySpectralGating(m, samples, noiseSpec, noiseThreshold);
    case None =>
      r := BandpassVocalRange(m, samples, sampleRate, Cleaning.DefaultVocalLowHz, Cleaning.DefaultVocalHighHz);
  }

  /**
   * `clean_audio_for_pitch`: cleans the samples and keeps the sample rate.
   * This file's `clean_signal_for_pitch` behaves as the crate's, so the
   * wrapper is the crate's.
   */
  method CleanAudioForPitch(m: Maths, audio: MonoAudio, noiseSpectrum: Option<Spectrum>, noiseThreshold: Option<real>)
    returns (r: MonoAudio)
    requires ValidMaths(m)
    ensures r.sampleRate == audio.sampleRate && |r.samples| == |audio.samples|
    ensures noiseSpectrum.Some? ==>
      r.samples == HardGate.Gated(m, audio.samples, noiseSpectrum.value, HardGate.ThresholdOrDefault(noiseThreshold))
    ensures noiseSpectrum.None? ==> r.samples == m.bandpass(audio.samples, audio.sampleRate as real, 80.0, 1200.0)
  {
    r := Cleaning.CleanAudioForPitch(m, audio, noiseSpectrum, noiseThreshold);
  }

  /**
   * `_estimate_noise_spectrum`: the spectrum of `samples[floor(0.2 sr)..floor(min(1.5 sr, len))]`.
   * Slicing panics when the start passes the end, so callers must keep it below.
   */
  function EstimateNoiseSpectrumOf(m: Maths, samples: seq<real>, sampleRate: real): (r: Spectrum)
    requires ValidMaths(m)
    requires Cleaning.NoiseWindowStart(sampleRate) <= Cleaning.NoiseWindowEnd(sampleRate, |samples|)
    ensures WellFormed(r)
    ensures r.n == Cleaning.NoiseWindowEnd(sampleRate, |samples|) - Cleaning.NoiseWindowStart(sampleRate)
    ensures r.complex ==
      m.forward(samples[Cleaning.NoiseWindowStart(sampleRate)..Cleaning.NoiseWindowEnd(sampleRate, |samples|)])
  {
    var startIdx := Cleaning.NoiseWindowStart(sampleRate);
    var endIdx := Cleaning.NoiseWindowEnd(sampleRate, |samples|);
    SignalProcessing.ComputeSpectrum(m, samples[startIdx..endIdx])
  }

  /**
   * Where the crate finds a noise window, this copy estimates the same
   * spectrum; it differs only in also accepting loud windows.
   */
  lemma AgreesWithCrateWhenQuiet(m: Maths, samples: seq<real>, sampleRate: real)
    requires ValidMaths(m)
    ensures var crate := Cleaning.EstimateNoiseSpectrumOf(m, samples, sampleRate);
      crate.Some? ==>
        && Cleaning.NoiseWindowStart(sampleRate) < Cleaning.NoiseWindowEnd(sampleRate, |samples|)
        && crate.value == EstimateNoiseSpectrumOf(m, samples, sampleRate)
  {
  }

  /** `estimate_noise_spectrum`: `None` exactly for empty audio. */
  function EstimateNoiseSpectrum(m: Maths, audio: MonoAudio): (r: Option<Spectrum>)
    requires ValidMaths(m)
    requires |audio.samples| == 0 ||
      Cleaning.NoiseWindowStart(audio.sampleRate as real) <= Cleaning.NoiseWindowEnd(audio.sampleRate as real, |audio.samples|)
    ensures r.None? <==> |audio.samples| == 0
    ensures r.Some? ==> r.value == EstimateNoiseSpectrumOf(m, audio.samples, audio.sampleRate as real)
  {
    if |audio.samples| == 0 then None
    else Some(EstimateNoiseSpectrumOf(m, audio.samples, audio.sampleRate as real))
  }

  /**
   * A constant recording long enough to reach 200 ms: this copy returns a
   * spectrum where the crate's version finds no quiet window.
   */
  lemma ConstantAudioDisagreement(m: Maths, audio: MonoAudio, c: real)
    requires ValidMaths(m)
    requires forall i :: 0 <= i < |audio.samples| ==> audio.samples[i] == c
    requires 0 < |audio.samples|
    requires Cleaning.NoiseWindowStart(audio.sampleRate as real) <= Cleaning.NoiseWindowEnd(audio.sampleRate as real, |audio.samples|)
    ensures EstimateNoiseSpectrum(m, audio).Some?
    ensures Cleaning.EstimateNoiseSpectrum(m, audio).None?
  {
    Cleaning.ConstantAudioHasNoEstimate(m, audio, c);
  }
}

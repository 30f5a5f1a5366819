/**
 * `src/signal_cleaning.rs`: the first version of the cleaning routines, with
 * the hard gate written inline in `clean_signal_for_pitch` and the noise
 * estimate over the whole 200-1500 ms slice.
 */
module LegacySignalCleaning {
  import opened Numerics
  import opened SignalTypes
  import HardGate
  import Cleaning
  import SignalProcessing

  /** `bandpass_vocal_range`: the same filter as the crate's, one output per input sample. */
  function BandpassVocalRange(m: Maths, samples: seq<real>, sampleRate: real, lowHz: real, highHz: real): (r: seq<real>)
    requires ValidMaths(m)
    ensures |r| == |samples|
  {
    Cleaning.BandpassVocalRange(m, samples, sampleRate, lowHz, highHz)
  }

  /** `clean_signal_for_pitch`: the inline gating loop, or band-pass 80-1200 Hz without a noise spectrum. */
  method CleanSignalForPitch(m: Maths, samples: seq<real>, sampleRate: real,
                             noiseSpectrum: Option<Spectrum>, noiseThreshold: Option<real>)
    returns (r: seq<real>)
    requires ValidMaths(m)
    ensures |r| == |samples|
    ensures noiseSpectrum.Some? ==>
      r == HardGate.Gated(m, samples, noiseSpectrum.value, HardGate.ThresholdOrDefault(noiseThreshold))
    ensures noiseSpectrum.None? ==> r == m.bandpass(samples, sampleRate, 80.0, 1200.0)
  {
    if noiseSpectrum.Some? {
      var noiseSpec := noiseSpectrum.value;
      var threshold := HardGate.ThresholdOrDefault(noiseThreshold);
      var spectrum := SignalProcessing.ComputeSpectrum(m, samples);
      var bins := new Complex[|spectrum.complex|](i requires 0 <= i < |spectrum.complex| => spectrum.complex[i]);
      assert bins[..] == spectrum.complex;
      HardGate.GateInPlace(m, bins, noiseSpec.complex, threshold);
      var timeDomain := ToTimeDomain(m, Spectrum(bins[..], spectrum.n));
      r := timeDomain[..|samples|];
    } else {
      r := BandpassVocalRange(m, samples, sampleRate, 80.0, 1200.0);
    }
  }

  /** End of the noise slice here: `min((1.5 * sample_rate) as usize, len)`. */
  function NoiseWindowEnd(sampleRate: real, len: nat): (r: nat)
    ensures r <= len
  {
    MinNat(CastToUsize(1.5 * sampleRate), len)
  }

  /**
   * Truncating before or after taking the minimum with the length gives the
   * same end: both versions slice the same samples.
   */
  lemma NoiseWindowEndAgrees(sampleRate: real, len: nat)
    ensures NoiseWindowEnd(sampleRate, len) == Cleaning.NoiseWindowEnd(sampleRate, len)
  {
    var x := 1.5 * sampleRate;
    if x <= len as real {
      assert MinReal(x, len as real) == x;
      CastMonotone(x, len as real);
      CastOfNat(len);
    } else {
      assert MinReal(x, len as real) == len as real;
      CastOfNat(len);
      CastMonotone(len as real, x);
    }
  }

  lemma CastOfNat(n: nat)
    ensures CastToUsize(n as real) == n
  {
  }

  lemma CastMonotone(x: real, y: real)
    requires x <= y
    ensures CastToUsize(x) <= CastToUsize(y)
  {
  }

  /** `estimate_noise_spectrum`: the spectrum of the slice; slicing panics if the start passes the end. */
  function EstimateNoiseSpectrum(m: Maths, samples: seq<real>, sampleRate: real): (r: Spectrum)
    requires ValidMaths(m)
    requires Cleaning.NoiseWindowStart(sampleRate) <= NoiseWindowEnd(sampleRate, |samples|)
    ensures WellFormed(r)
    ensures r.n == NoiseWindowEnd(sampleRate, |samples|) - Cleaning.NoiseWindowStart(sampleRate)
    ensures r.complex == m.forward(samples[Cleaning.NoiseWindowStart(sampleRate)..NoiseWindowEnd(sampleRate, |samples|)])
  {
    var start := Cleaning.NoiseWindowStart(sampleRate);
    var end := NoiseWindowEnd(sampleRate, |samples|);
    SignalProcessing.ComputeSpectrum(m, samples[start..end])
  }
}

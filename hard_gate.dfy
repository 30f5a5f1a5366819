/**
 * The hard spectral gate shared by `apply_spectral_gating` in
 * `crates/audio-cleaning/src/cleaning.rs` and `src/signal/cleaning.rs` and by
 * the gating branch of `clean_signal_for_pitch` in `src/signal_cleaning.rs`:
 * every FFT bin whose modulus is below `noise * multiplier` is set to zero,
 * where the noise level of bin `i` is the modulus of bin `i` of the noise
 * spectrum, or zero past its end.
 */
module HardGate {
  import opened Numerics
  import opened SignalTypes

  /** The multiplier used when the caller passes none (`noise_threshold.unwrap_or(1.2)`). */
  const DefaultNoiseThreshold: real := 1.2

  function ThresholdOrDefault(noiseThreshold: Option<real>): (r: real)
    ensures noiseThreshold.Some? ==> r == noiseThreshold.value
    ensures noiseThreshold.None? ==> r == 1.2
  {
    match noiseThreshold
    case Some(t) => t
    case None => DefaultNoiseThreshold
  }

  /** `noise_spec.complex.get(i).map(|c| c.norm()).unwrap_or(0.0)` */
  function NoiseLevel(m: Maths, noise: seq<Complex>, i: nat): (r: real)
    requires ValidSqrt(m.sqrt)
    ensures r >= 0.0
    ensures i < |noise| ==> r == Norm(m, noise[i])
    ensures i >= |noise| ==> r == 0.0
  {
    if i < |noise| then Norm(m, noise[i]) else 0.0
  }

  /** One bin of the gate: zeroed when quiet, untouched otherwise. */
  function GateBin(m: Maths, c: Complex, level: real, multiplier: real): Complex
    requires ValidSqrt(m.sqrt)
  {
    if Norm(m, c) < level * multiplier then ZeroBin else c
  }

  /** Every bin after the gating loop. */
  function GatedBins(m: Maths, bins: seq<Complex>, noise: seq<Complex>, multiplier: real): (r: seq<Complex>)
    requires ValidSqrt(m.sqrt)
    ensures |r| == |bins|
  {
    seq(|bins|, i requires 0 <= i < |bins| => GateBin(m, bins[i], NoiseLevel(m, noise, i), multiplier))
  }

  /**
   * The gate rule: a bin below its threshold becomes exactly zero and every
   * other bin keeps its value.
   */
  lemma GateRule(m: Maths, bins: seq<Complex>, noise: seq<Complex>, multiplier: real, i: nat)
    requires ValidSqrt(m.sqrt) && i < |bins|
    ensures Norm(m, bins[i]) < NoiseLevel(m, noise, i) * multiplier ==>
      GatedBins(m, bins, noise, multiplier)[i] == ZeroBin
    ensures Norm(m, bins[i]) >= NoiseLevel(m, noise, i) * multiplier ==>
      GatedBins(m, bins, noise, multiplier)[i] == bins[i]
  {
    assert GatedBins(m, bins, noise, multiplier)[i] == GateBin(m, bins[i], NoiseLevel(m, noise, i), multiplier);
  }

  /** Bins past the end of the noise spectrum have noise level 0 and are never zeroed. */
  lemma GateKeepsBinsBeyondNoise(m: Maths, bins: seq<Complex>, noise: seq<Complex>, multiplier: real, i: nat)
    requires ValidSqrt(m.sqrt) && |noise| <= i < |bins|
    ensures GatedBins(m, bins, noise, multiplier)[i] == bins[i]
  {
    GateRule(m, bins, noise, multiplier, i);
  }

  /** Gating only ever removes energy from a bin. */
  lemma GateNeverAmplifies(m: Maths, bins: seq<Complex>, noise: seq<Complex>, multiplier: real, i: nat)
    requires ValidSqrt(m.sqrt) && i < |bins|
    ensures Norm(m, GatedBins(m, bins, noise, multiplier)[i]) <= Norm(m, bins[i])
  {
    GateRule(m, bins, noise, multiplier, i);
    NormZero(m);
  }

  /** Gating twice against the same noise is gating once. */
  lemma GateIdempotent(m: Maths, bins: seq<Complex>, noise: seq<Complex>, multiplier: real)
    requires ValidSqrt(m.sqrt)
    ensures GatedBins(m, GatedBins(m, bins, noise, multiplier), noise, multiplier) ==
      GatedBins(m, bins, noise, multiplier)
  {
    var once := GatedBins(m, bins, noise, multiplier);
    forall i | 0 <= i < |bins|
      ensures GatedBins(m, once, noise, multiplier)[i] == once[i]
    {
      GateRule(m, bins, noise, multiplier, i);
      GateRule(m, once, noise, multiplier, i);
      NormZero(m);
    }
  }

  /** The gating loop over the bins, in place. */
  method GateInPlace(m: Maths, bins: array<Complex>, noise: seq<Complex>, multiplier: real)
    requires ValidSqrt(m.sqrt)
    modifies bins
    ensures bins[..] == GatedBins(m, old(bins[..]), noise, multiplier)
  {
    ghost var original := bins[..];
    ghost var gated := GatedBins(m, original, noise, multiplier);
    for i := 0 to bins.Length
      invariant bins[..i] == gated[..i]
      invariant bins[i..] == original[i..]
    {
      var noiseLevel := if i < |noise| then Norm(m, noise[i]) else 0.0;
      assert gated[i] == GateBin(m, original[i], noiseLevel, multiplier);
      if Norm(m, bins[i]) < noiseLevel * multiplier {
        bins[i] := Complex(0.0, 0.0);
      }
      assert bins[i] == gated[i];
    }
    assert bins[..] == gated;
  }

  /** The samples after gating: transform, gate, invert, cut to the input length. */
  function Gated(m: Maths, samples: seq<real>, noise: Spectrum, multiplier: real): (r: seq<real>)
    requires ValidMaths(m)
    ensures |r| == |samples|
  {
    var spectrum := FromWaveform(m, samples);
    ToTimeDomain(m, Spectrum(GatedBins(m, spectrum.complex, noise.complex, multiplier), spectrum.n))[..|samples|]
  }

  /** `apply_spectral_gating` with the multiplier already chosen. */
  method GateSamples(m: Maths, samples: seq<real>, noise: Spectrum, multiplier: real)
    returns (r: seq<real>)
    requires ValidMaths(m)
    ensures r == Gated(m, samples, noise, multiplier)
  {
    var spectrum := FromWaveform(m, samples);
    var bins := new Complex[|spectrum.complex|](i requires 0 <= i < |spectrum.complex| => spectrum.complex[i]);
    assert bins[..] == spectrum.complex;
    GateInPlace(m, bins, noise.complex, multiplier);
    var timeDomain := ToTimeDomain(m, Spectrum(bins[..], spectrum.n));
    r := timeDomain[..|samples|];
  }

  /**
   * When no bin is below its threshold nothing is zeroed and the output is
   * the FFT round trip of the input, within 1e-5 of every sample.
   */
  lemma NothingGatedPassesThrough(m: Maths, samples: seq<real>, noise: Spectrum, multiplier: real)
    requires ValidMaths(m)
    requires forall i :: 0 <= i < |samples| ==>
      Norm(m, m.forward(samples)[i]) >= NoiseLevel(m, noise.complex, i) * multiplier
    ensures forall i :: 0 <= i < |samples| ==>
      Abs(Gated(m, samples, noise, multiplier)[i] - samples[i]) < 0.00001
  {
    var spectrum := FromWaveform(m, samples);
    var gated := GatedBins(m, spectrum.complex, noise.complex, multiplier);
    forall i | 0 <= i < |gated|
      ensures gated[i] == spectrum.complex[i]
    {
      GateRule(m, spectrum.complex, noise.complex, multiplier, i);
    }
    assert gated == spectrum.complex;
    var out := ToTimeDomain(m, spectrum);
    assert out[..|samples|] == out;
    TimeDomainRoundTrip(m, samples);
  }

  /** An empty noise spectrum gates nothing. */
  lemma EmptyNoisePassesThrough(m: Maths, samples: seq<real>, multiplier: real)
    requires ValidMaths(m)
    ensures forall i :: 0 <= i < |samples| ==>
      Abs(Gated(m, samples, Spectrum([], 0), multiplier)[i] - samples[i]) < 0.00001
  {
    NothingGatedPassesThrough(m, samples, Spectrum([], 0), multiplier);
  }
}

/**
 * `crates/audio-cleaning/src/spectral_gating.rs`: the soft spectral gate.
 * Every FFT bin whose modulus falls below `noise * multiplier` is scaled down
 * by the gain `modulus / threshold`; the noise level of bin `i` is the
 * (optionally smoothed) modulus of bin `i` of a reference noise spectrum, and
 * zero past its end.
 */
module SpectralGating {
  import opened Numerics
  import opened SignalTypes
  import CleaningUtil

  /** `SpectralGateConfig { noise_threshold_db, smoothing_window }` */
  datatype SpectralGateConfig = SpectralGateConfig(noiseThresholdDb: real, smoothingWindow: nat)

  /** `SpectralGateConfig::default`: a 6 dB margin and no smoothing. */
  function DefaultConfig(): (c: SpectralGateConfig)
    ensures c.noiseThresholdDb == 6.0 && c.smoothingWindow == 1
  {
    SpectralGateConfig(6.0, 1)
  }

  /** `db_to_linear`: `10^(db/20)`, with the power taken from the library. */
  function DbToLinear(m: Maths, db: real): (r: real)
    requires ValidMaths(m)
    ensures r > 0.0
    ensures db == 0.0 ==> r == 1.0
  {
    m.powf10(db / 20.0)
  }

  /** `noise_magnitudes.get(i).copied().unwrap_or(0.0)` */
  function NoiseLevel(noise: seq<real>, i: nat): (r: real)
    ensures i < |noise| ==> r == noise[i]
    ensures i >= |noise| ==> r == 0.0
  {
    if i < |noise| then noise[i] else 0.0
  }

  /** `x.max(0.0).min(1.0)` */
  function Clamp01(x: real): (r: real)
    ensures 0.0 <= r <= 1.0
    ensures 0.0 <= x <= 1.0 ==> r == x
  {
    MinReal(MaxReal(x, 0.0), 1.0)
  }

  /**
   * The body of `apply_gate` for one bin: a bin at or above the threshold is
   * kept as it is; a bin below it is scaled by the clamped gain, or by 1 when
   * the noise level is not positive.
   */
  function GateBin(m: Maths, c: Complex, noise: real, multiplier: real): Complex
    requires ValidSqrt(m.sqrt)
  {
    var magnitude := Norm(m, c);
    var threshold := noise * multiplier;
    if magnitude < threshold then
      var gain := if noise > 0.0 then Clamp01(magnitude / threshold) else 1.0;
      Scale(c, gain)
    else
      c
  }

  /** `GateBin` by cases, as the loop of `apply_gate` computes it. */
  lemma GateBinCases(m: Maths, c: Complex, noise: real, multiplier: real)
    requires ValidSqrt(m.sqrt)
    ensures Norm(m, c) >= noise * multiplier ==> GateBin(m, c, noise, multiplier) == c
    ensures Norm(m, c) < noise * multiplier && noise > 0.0 ==>
      GateBin(m, c, noise, multiplier) == Scale(c, Clamp01(Norm(m, c) / (noise * multiplier)))
    ensures Norm(m, c) < noise * multiplier && noise <= 0.0 ==>
      GateBin(m, c, noise, multiplier) == Scale(c, 1.0)
  {
  }

  /** All bins after `apply_gate`, bin `i` gated against `NoiseLevel(noise, i)`. */
  function GatedBins(m: Maths, bins: seq<Complex>, noise: seq<real>, multiplier: real): (r: seq<Complex>)
    requires ValidSqrt(m.sqrt)
    ensures |r| == |bins|
  {
    seq(|bins|, i requires 0 <= i < |bins| => GateBin(m, bins[i], NoiseLevel(noise, i), multiplier))
  }

  /** A bin at or above its threshold is left exactly as it was. */
  lemma GateKeepsLoudBins(m: Maths, bins: seq<Complex>, noise: seq<real>, multiplier: real, i: nat)
    requires ValidSqrt(m.sqrt) && i < |bins|
    requires Norm(m, bins[i]) >= NoiseLevel(noise, i) * multiplier
    ensures GatedBins(m, bins, noise, multiplier)[i] == bins[i]
  {
    assert GatedBins(m, bins, noise, multiplier)[i] == GateBin(m, bins[i], NoiseLevel(noise, i), multiplier);
  }

  /** A bin past the end of the noise magnitudes is never modified. */
  lemma GateKeepsBinsBeyondNoise(m: Maths, bins: seq<Complex>, noise: seq<real>, multiplier: real, i: nat)
    requires ValidSqrt(m.sqrt) && |noise| <= i < |bins|
    ensures GatedBins(m, bins, noise, multiplier)[i] == bins[i]
  {
    assert GatedBins(m, bins, noise, multiplier)[i] == GateBin(m, bins[i], 0.0, multiplier);
  }

  /**
   * A bin below a positive threshold is scaled by `modulus / threshold`, a
   * gain in [0, 1), so its new modulus is `modulus^2 / threshold`: strictly
   * below the threshold and never above the old modulus.
   */
  lemma GateAttenuatesQuietBins(m: Maths, bins: seq<Complex>, noise: seq<real>, multiplier: real, i: nat)
    requires ValidSqrt(m.sqrt) && i < |bins|
    requires NoiseLevel(noise, i) > 0.0 && Norm(m, bins[i]) < NoiseLevel(noise, i) * multiplier
    ensures Attenuated(m, bins[i], NoiseLevel(noise, i), multiplier, GatedBins(m, bins, noise, multiplier)[i])
  {
    var c := bins[i];
    var level := NoiseLevel(noise, i);
    assert GatedBins(m, bins, noise, multiplier)[i] == GateBin(m, c, level, multiplier);
    QuietBinAttenuated(m, c, level, multiplier);
  }

  /**
   * `gated` is bin `c` attenuated against `level * multiplier`: scaled by
   * the gain `|c| / threshold`, which lies in [0, 1), so that its modulus is
   * the gain times `|c|` and falls below the threshold.
   */
  ghost predicate Attenuated(m: Maths, c: Complex, level: real, multiplier: real, gated: Complex)
    requires ValidSqrt(m.sqrt) && level * multiplier > 0.0
  {
    var threshold := level * multiplier;
    var gain := Norm(m, c) / threshold;
    && 0.0 <= gain < 1.0
    && gated == Scale(c, gain)
    && Norm(m, gated) == gain * Norm(m, c)
    && Norm(m, gated) < threshold
  }

  /** One quiet bin against a positive noise level: scaled by its gain, and left below the threshold. */
  lemma QuietBinAttenuated(m: Maths, c: Complex, level: real, multiplier: real)
    requires ValidSqrt(m.sqrt) && level > 0.0 && Norm(m, c) < level * multiplier
    ensures Attenuated(m, c, level, multiplier, GateBin(m, c, level, multiplier))
  {
    var threshold := level * multiplier;
    var magnitude := Norm(m, c);
    var gain := magnitude / threshold;
    QuietGain(magnitude, threshold);
    QuietBinScaled(m, c, level, multiplier);
    var gated := GateBin(m, c, level, multiplier);
    assert gated == Scale(c, gain);
    NormScale(m, c, gain);
    assert Norm(m, gated) == gain * magnitude;
  }

  /** A quiet bin against a positive noise level is scaled by its unclamped gain. */
  lemma QuietBinScaled(m: Maths, c: Complex, level: real, multiplier: real)
    requires ValidSqrt(m.sqrt) && level > 0.0 && Norm(m, c) < level * multiplier
    ensures GateBin(m, c, level, multiplier) == Scale(c, Norm(m, c) / (level * multiplier))
  {
    var gain := Norm(m, c) / (level * multiplier);
    QuietGain(Norm(m, c), level * multiplier);
    assert Clamp01(gain) == gain;
  }

  /** The gain of a quiet bin lies in [0, 1) and leaves it below the threshold. */
  lemma QuietGain(magnitude: real, threshold: real)
    requires 0.0 <= magnitude < threshold
    ensures 0.0 <= magnitude / threshold < 1.0
    ensures (magnitude / threshold) * magnitude < threshold
  {
    var gain := magnitude / threshold;
    assert gain * threshold == magnitude;
    assert (1.0 - gain) * threshold == threshold - magnitude;
    PositiveFactor(1.0 - gain, threshold);
    NonNegativeProduct(1.0 - gain, magnitude);
    assert magnitude - gain * magnitude == (1.0 - gain) * magnitude;
  }

  lemma PositiveFactor(x: real, y: real)
    requires y > 0.0 && x * y > 0.0
    ensures x > 0.0
  {
  }

  lemma NonNegativeProduct(x: real, y: real)
    requires x >= 0.0 && y >= 0.0
    ensures x * y >= 0.0
  {
  }

  /** No bin's modulus ever grows. */
  lemma GateNeverAmplifies(m: Maths, bins: seq<Complex>, noise: seq<real>, multiplier: real, i: nat)
    requires ValidSqrt(m.sqrt) && i < |bins|
    ensures Norm(m, GatedBins(m, bins, noise, multiplier)[i]) <= Norm(m, bins[i])
  {
    var c := bins[i];
    var level := NoiseLevel(noise, i);
    assert GatedBins(m, bins, noise, multiplier)[i] == GateBin(m, c, level, multiplier);
    GateBinCases(m, c, level, multiplier);
    if Norm(m, c) < level * multiplier {
      var gain := if level > 0.0 then Clamp01(Norm(m, c) / (level * multiplier)) else 1.0;
      UnitGainShrinks(m, c, gain);
    }
  }

  /** A gain in [0, 1] never increases a modulus. */
  lemma UnitGainShrinks(m: Maths, c: Complex, gain: real)
    requires ValidSqrt(m.sqrt) && 0.0 <= gain <= 1.0
    ensures Norm(m, Scale(c, gain)) <= Norm(m, c)
  {
    NormScale(m, c, gain);
    NonNegativeProduct(1.0 - gain, Norm(m, c));
    assert (1.0 - gain) * Norm(m, c) == Norm(m, c) - gain * Norm(m, c);
  }

  /** Modulus of every bin (`complex.iter().map(|c| c.norm())`), all `n` bins. */
  function Norms(m: Maths, bins: seq<Complex>): (r: seq<real>)
    requires ValidSqrt(m.sqrt)
    ensures |r| == |bins|
    ensures forall i :: 0 <= i < |r| ==> r[i] == Norm(m, bins[i])
  {
    seq(|bins|, i requires 0 <= i < |bins| => Norm(m, bins[i]))
  }

  /** First index of the smoothing window around `i` (`i.saturating_sub(w/2)`). */
  function SmoothStart(i: nat, w: nat): nat
  {
    if i >= w / 2 then i - w / 2 else 0
  }

  /** One past the last index of the smoothing window (`(i + w/2 + 1).min(len)`). */
  function SmoothEnd(i: nat, len: nat, w: nat): nat
  {
    MinNat(i + w / 2 + 1, len)
  }

  /**
   * The smoothing window around a valid index: it contains `i`, stays inside
   * the slice, holds at most `2*(w/2)+1` values, and holds exactly that many
   * precisely when it is not clipped at either edge.
   */
  lemma SmoothWindowBounds(i: nat, len: nat, w: nat)
    requires i < len
    ensures SmoothStart(i, w) <= i < SmoothEnd(i, len, w) <= len
    ensures 1 <= SmoothEnd(i, len, w) - SmoothStart(i, w) <= 2 * (w / 2) + 1
    ensures SmoothEnd(i, len, w) - SmoothStart(i, w) == 2 * (w / 2) + 1 <==>
      w / 2 <= i && i + w / 2 + 1 <= len
  {
  }

  /** The moving average `smooth_magnitudes` computes: entry `i` is the mean over its window. */
  function Smoothed(magnitudes: seq<real>, w: nat): (r: seq<real>)
    ensures |r| == |magnitudes|
  {
    seq(|magnitudes|, i requires 0 <= i < |magnitudes| =>
      var lo := SmoothStart(i, w);
      var hi := SmoothEnd(i, |magnitudes|, w);
      Sum(magnitudes[lo..hi]) / ((hi - lo) as real))
  }

  /** `smooth_magnitudes`: the loop pushing one window mean per bin. */
  method SmoothMagnitudes(magnitudes: seq<real>, windowSize: nat) returns (smoothed: seq<real>)
    ensures smoothed == Smoothed(magnitudes, windowSize)
  {
    smoothed := [];
    var halfWindow := windowSize / 2;
    for i := 0 to |magnitudes|
      invariant smoothed == Smoothed(magnitudes, windowSize)[..i]
    {
      var start := if i >= halfWindow then i - halfWindow else 0;
      var end := MinNat(i + halfWindow + 1, |magnitudes|);
      var sum := Sum(magnitudes[start..end]);
      var count := (end - start) as real;
      smoothed := smoothed + [sum / count];
    }
  }

  /** Smoothing keeps every value inside any bounds the magnitudes respect. */
  lemma SmoothedBounds(magnitudes: seq<real>, w: nat, lo: real, hi: real)
    requires forall i :: 0 <= i < |magnitudes| ==> lo <= magnitudes[i] <= hi
    ensures forall i :: 0 <= i < |magnitudes| ==> lo <= Smoothed(magnitudes, w)[i] <= hi
  {
    forall i | 0 <= i < |magnitudes|
      ensures lo <= Smoothed(magnitudes, w)[i] <= hi
    {
      SmoothedEntryBounds(magnitudes, w, lo, hi, i);
    }
  }

  lemma SmoothedEntryBounds(magnitudes: seq<real>, w: nat, lo: real, hi: real, i: nat)
    requires forall i :: 0 <= i < |magnitudes| ==> lo <= magnitudes[i] <= hi
    requires i < |magnitudes|
    ensures lo <= Smoothed(magnitudes, w)[i] <= hi
  {
    var a := SmoothStart(i, w);
    var b := SmoothEnd(i, |magnitudes|, w);
    SmoothWindowBounds(i, |magnitudes|, w);
    var window := magnitudes[a..b];
    assert |window| == b - a;
    assert Smoothed(magnitudes, w)[i] == Sum(window) / (|window| as real);
    forall j | 0 <= j < |window|
      ensures lo <= window[j] <= hi
    {
      assert window[j] == magnitudes[a + j];
    }
    CleaningUtil.MeanBounds(window, lo, hi);
    assert CleaningUtil.Mean(window).value == Sum(window) / (|window| as real);
  }

  /** Smoothing keeps non-negative magnitudes non-negative. */
  lemma SmoothedNonNegative(magnitudes: seq<real>, w: nat)
    requires forall i :: 0 <= i < |magnitudes| ==> magnitudes[i] >= 0.0
    ensures forall i :: 0 <= i < |magnitudes| ==> Smoothed(magnitudes, w)[i] >= 0.0
  {
    forall i | 0 <= i < |magnitudes|
      ensures Smoothed(magnitudes, w)[i] >= 0.0
    {
      var a := SmoothStart(i, w);
      var b := SmoothEnd(i, |magnitudes|, w);
      SmoothWindowBounds(i, |magnitudes|, w);
      var window := magnitudes[a..b];
      assert forall j :: 0 <= j < |window| ==> window[j] == magnitudes[a + j];
      CleaningUtil.SumNonNegative(window);
    }
  }

  /**
   * A window of width 0 or 1 averages each value with itself only, so the
   * `smoothing_window <= 1` shortcut returns what smoothing would return.
   */
  lemma SmoothingNarrowIsIdentity(magnitudes: seq<real>, w: nat)
    requires w <= 1
    ensures Smoothed(magnitudes, w) == magnitudes
  {
    forall i | 0 <= i < |magnitudes|
      ensures Smoothed(magnitudes, w)[i] == magnitudes[i]
    {
      assert SmoothStart(i, w) == i && SmoothEnd(i, |magnitudes|, w) == i + 1;
      assert magnitudes[i..i + 1] == [magnitudes[i]];
      assert Sum([magnitudes[i]]) == magnitudes[i] + Sum([]);
    }
  }

  /** `compute_noise_magnitudes_static`: the moduli of all noise bins, smoothed when the window exceeds 1. */
  function NoiseMagnitudes(m: Maths, noiseSpectrum: Spectrum, config: SpectralGateConfig): (r: seq<real>)
    requires ValidSqrt(m.sqrt)
    ensures |r| == |noiseSpectrum.complex|
    ensures forall i :: 0 <= i < |r| ==> r[i] >= 0.0
    ensures config.smoothingWindow <= 1 ==> r == Norms(m, noiseSpectrum.complex)
  {
    var magnitudes := Norms(m, noiseSpectrum.complex);
    if config.smoothingWindow <= 1 then magnitudes
    else
      SmoothedNonNegative(magnitudes, config.smoothingWindow);
      Smoothed(magnitudes, config.smoothingWindow)
  }

  /** The noise levels are always the moving average of the noise moduli, whatever the window. */
  lemma NoiseMagnitudesAreSmoothedNorms(m: Maths, noiseSpectrum: Spectrum, config: SpectralGateConfig)
    requires ValidSqrt(m.sqrt)
    ensures NoiseMagnitudes(m, noiseSpectrum, config) ==
      Smoothed(Norms(m, noiseSpectrum.complex), config.smoothingWindow)
  {
    if config.smoothingWindow <= 1 {
      SmoothingNarrowIsIdentity(Norms(m, noiseSpectrum.complex), config.smoothingWindow);
    }
  }

  /** `compute_noise_magnitudes_static` as it runs, calling the smoothing loop. */
  method ComputeNoiseMagnitudes(m: Maths, noiseSpectrum: Spectrum, config: SpectralGateConfig)
    returns (magnitudes: seq<real>)
    requires ValidSqrt(m.sqrt)
    ensures magnitudes == NoiseMagnitudes(m, noiseSpectrum, config)
  {
    magnitudes := Norms(m, noiseSpectrum.complex);
    if config.smoothingWindow <= 1 {
      return;
    }
    magnitudes := SmoothMagnitudes(magnitudes, config.smoothingWindow);
  }

  /**
   * What `process` returns: nothing for no samples; otherwise the gated
   * spectrum of the samples taken back to the time domain and cut to the
   * input length.
   */
  function Processed(m: Maths, noise: seq<real>, config: SpectralGateConfig, samples: seq<real>): (r: seq<real>)
    requires ValidMaths(m)
    ensures |r| == |samples|
  {
    if |samples| == 0 then []
    else
      var multiplier := DbToLinear(m, config.noiseThresholdDb);
      var spectrum := FromWaveform(m, samples);
      var gated := Spectrum(GatedBins(m, spectrum.complex, noise, multiplier), spectrum.n);
      ToTimeDomain(m, gated)[..|samples|]
  }

  /**
   * When no bin is below its threshold the gate changes nothing, and the
   * output is the FFT round trip of the input: within 1e-5 of every sample.
   */
  lemma NothingGatedPassesThrough(m: Maths, noise: seq<real>, config: SpectralGateConfig, samples: seq<real>)
    requires ValidMaths(m)
    requires forall i :: 0 <= i < |samples| ==>
      Norm(m, m.forward(samples)[i]) >= NoiseLevel(noise, i) * DbToLinear(m, config.noiseThresholdDb)
    ensures forall i :: 0 <= i < |samples| ==>
      Abs(Processed(m, noise, config, samples)[i] - samples[i]) < 0.00001
  {
    if |samples| > 0 {
      var multiplier := DbToLinear(m, config.noiseThresholdDb);
      var spectrum := FromWaveform(m, samples);
      var gated := GatedBins(m, spectrum.complex, noise, multiplier);
      forall i | 0 <= i < |gated|
        ensures gated[i] == spectrum.complex[i]
      {
        GateKeepsLoudBins(m, spectrum.complex, noise, multiplier, i);
      }
      assert gated == spectrum.complex;
      var out := ToTimeDomain(m, spectrum);
      assert out[..|samples|] == out;
      TimeDomainRoundTrip(m, samples);
    }
  }

  /** With an empty noise profile every threshold is 0, so the gate lets the signal through. */
  lemma EmptyNoiseProfilePassesThrough(m: Maths, config: SpectralGateConfig, samples: seq<real>)
    requires ValidMaths(m)
    ensures forall i :: 0 <= i < |samples| ==>
      Abs(Processed(m, [], config, samples)[i] - samples[i]) < 0.00001
  {
    NothingGatedPassesThrough(m, [], config, samples);
  }

  /** `SpectralGate { noise_spectrum, noise_magnitudes, config }`, over the library `maths`. */
  class SpectralGate {
    const maths: Maths
    var noiseSpectrum: Spectrum
    var noiseMagnitudes: seq<real>
    var config: SpectralGateConfig

    /** The cached magnitudes always belong to the current profile and configuration. */
    ghost predicate Valid()
      reads this
    {
      && ValidMaths(maths)
      && noiseMagnitudes == NoiseMagnitudes(maths, noiseSpectrum, config)
    }

    /** `SpectralGate::new` */
    constructor (maths: Maths, noiseSpectrum: Spectrum, config: SpectralGateConfig)
      requires ValidMaths(maths)
      ensures Valid()
      ensures this.maths == maths && this.noiseSpectrum == noiseSpectrum && this.config == config
    {
      var magnitudes := ComputeNoiseMagnitudes(maths, noiseSpectrum, config);
      this.maths := maths;
      this.noiseSpectrum := noiseSpectrum;
      this.noiseMagnitudes := magnitudes;
      this.config := config;
    }

    /** `SpectralGate::with_defaults` */
    constructor WithDefaults(maths: Maths, noiseSpectrum: Spectrum)
      requires ValidMaths(maths)
      ensures Valid()
      ensures this.maths == maths && this.noiseSpectrum == noiseSpectrum && config == DefaultConfig()
    {
      var magnitudes := ComputeNoiseMagnitudes(maths, noiseSpectrum, DefaultConfig());
      this.maths := maths;
      this.noiseSpectrum := noiseSpectrum;
      this.noiseMagnitudes := magnitudes;
      this.config := DefaultConfig();
    }

    /** `apply_gate`: gates the bins in place, one at a time. */
    method ApplyGate(bins: array<Complex>, multiplier: real)
      requires ValidSqrt(maths.sqrt)
      modifies bins
      ensures bins[..] == GatedBins(maths, old(bins[..]), noiseMagnitudes, multiplier)
    {
      ghost var original := bins[..];
      ghost var gated := GatedBins(maths, original, noiseMagnitudes, multiplier);
      for i := 0 to bins.Length
        invariant forall j :: 0 <= j < i ==> bins[j] == gated[j]
        invariant forall j :: i <= j < bins.Length ==> bins[j] == original[j]
      {
        var noiseLevel := if i < |noiseMagnitudes| then noiseMagnitudes[i] else 0.0;
        var gatedSample := GateSample(bins[i], noiseLevel, multiplier);
        bins[i] := gatedSample;
      }
      assert bins[..] == gated;
    }

    /** The body of the loop of `apply_gate` for one bin. */
    method GateSample(complexSample: Complex, noiseLevel: real, multiplier: real) returns (r: Complex)
      requires ValidSqrt(maths.sqrt)
      ensures r == GateBin(maths, complexSample, noiseLevel, multiplier)
    {
      var signalMagnitude := Norm(maths, complexSample);
      var threshold := noiseLevel * multiplier;
      r := complexSample;
      if signalMagnitude < threshold {
        var gain := if noiseLevel > 0.0 then Clamp01(signalMagnitude / threshold) else 1.0;
        r := Complex(complexSample.re * gain, complexSample.im * gain);
      }
    }

    /** `process`: empty in, empty out; otherwise gate the spectrum and invert it. */
    method Process(samples: seq<real>) returns (output: seq<real>)
      requires Valid()
      ensures output == Processed(maths, noiseMagnitudes, config, samples)
    {
      if |samples| == 0 {
        return [];
      }
      var thresholdMultiplier := DbToLinear(maths, config.noiseThresholdDb);
      var spectrum := FromWaveform(maths, samples);
      var bins := new Complex[|spectrum.complex|](i requires 0 <= i < |spectrum.complex| => spectrum.complex[i]);
      assert bins[..] == spectrum.complex;
      ApplyGate(bins, thresholdMultiplier);
      var gated := Spectrum(bins[..], spectrum.n);
      var timeDomain := ToTimeDomain(maths, gated);
      output := timeDomain[..|samples|];
    }

    /** `update_noise_profile`: a new profile, magnitudes recomputed under the unchanged configuration. */
    method UpdateNoiseProfile(noiseSpectrum: Spectrum)
      requires Valid()
      modifies this
      ensures Valid()
      ensures this.noiseSpectrum == noiseSpectrum && config == old(config)
      ensures noiseMagnitudes == NoiseMagnitudes(maths, noiseSpectrum, old(config))
    {
      noiseMagnitudes := ComputeNoiseMagnitudes(maths, noiseSpectrum, config);
      this.noiseSpectrum := noiseSpectrum;
    }

    /** `update_config`: a new configuration, magnitudes recomputed from the unchanged profile. */
    method UpdateConfig(config: SpectralGateConfig)
      requires Valid()
      modifies this
      ensures Valid()
      ensures this.config == config && noiseSpectrum == old(noiseSpectrum)
      ensures noiseMagnitudes == NoiseMagnitudes(maths, old(noiseSpectrum), config)
    {
      noiseMagnitudes := ComputeNoiseMagnitudes(maths, noiseSpectrum, config);
      this.config := config;
    }

    /** `noise_profile` */
    function NoiseProfile(): (s: Spectrum)
      reads this
      ensures s == noiseSpectrum
    {
      noiseSpectrum
    }

    /** `config` */
    function Config(): (c: SpectralGateConfig)
      reads this
      ensures c == config
    {
      config
    }
  }

  /** A valid gate holds one non-negative noise level per bin of its profile. */
  lemma GateNoiseLevelsShape(g: SpectralGate)
    requires g.Valid()
    ensures |g.noiseMagnitudes| == |g.noiseSpectrum.complex|
    ensures forall i :: 0 <= i < |g.noiseMagnitudes| ==> g.noiseMagnitudes[i] >= 0.0
  {
  }

  /**
   * The configuration test: updating to (12 dB, window 5) stores exactly that
   * configuration and keeps the profile.
   */
  method UpdateConfigExample(m: Maths, noise: Spectrum) returns (c: SpectralGateConfig, s: Spectrum)
    requires ValidMaths(m)
    ensures c == SpectralGateConfig(12.0, 5) && s == noise
  {
    var gate := new SpectralGate.WithDefaults(m, noise);
    gate.UpdateConfig(SpectralGateConfig(12.0, 5));
    c := gate.Config();
    s := gate.NoiseProfile();
  }
}

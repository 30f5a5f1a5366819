/**
 * `crates/audio-cleaning/src/comparison.rs`: a before/after pair of recordings
 * with lazily computed spectra, for judging a filter.  The crate's own
 * `Spectrum` type is modelled by `SignalTypes.Spectrum`.
 */
module Comparison {
  import opened Numerics
  import opened SignalTypes
  import opened AudioTypes

  /** `FilteringComparison`: the two recordings and the two cached spectra. */
  class FilteringComparison {
    const maths: Maths
    var before: MonoAudio
    var after: MonoAudio
    var beforeSpectrum: Option<Spectrum>
    var afterSpectrum: Option<Spectrum>

    /** The cached spectra, when present, have as many bins as samples. */
    ghost predicate Valid()
      reads this
    {
      && ValidMaths(maths)
      && (beforeSpectrum.Some? ==> WellFormed(beforeSpectrum.value))
      && (afterSpectrum.Some? ==> WellFormed(afterSpectrum.value))
    }

    /** Every cached spectrum is the spectrum of the recording it belongs to. */
    ghost predicate CachesCurrent()
      reads this
      requires ValidMaths(maths)
    {
      && (beforeSpectrum.Some? ==> beforeSpectrum.value == FromWaveform(maths, before.samples))
      && (afterSpectrum.Some? ==> afterSpectrum.value == FromWaveform(maths, after.samples))
    }

    /** `FilteringComparison::new`: no spectrum computed yet. */
    constructor (maths: Maths, before: MonoAudio, after: MonoAudio)
      requires ValidMaths(maths)
      ensures this.maths == maths && this.before == before && this.after == after
      ensures beforeSpectrum.None? && afterSpectrum.None?
      ensures Valid() && CachesCurrent()
    {
      this.maths := maths;
      this.before := before;
      this.after := after;
      beforeSpectrum := None;
      afterSpectrum := None;
    }

    /** `compute_spectra`: both caches filled from the recordings. */
    method ComputeSpectra()
      requires Valid()
      modifies this
      ensures Valid() && CachesCurrent()
      ensures before == old(before) && after == old(after)
      ensures beforeSpectrum == Some(FromWaveform(maths, before.samples))
      ensures afterSpectrum == Some(FromWaveform(maths, after.samples))
    {
      beforeSpectrum := Some(FromWaveform(maths, before.samples));
      afterSpectrum := Some(FromWaveform(maths, after.samples));
    }

    /**
     * `get_magnitude_spectra`: recomputes both spectra unless both are cached,
     * then returns the positive-frequency magnitudes of each.
     */
    method GetMagnitudeSpectra() returns (beforeMags: seq<real>, afterMags: seq<real>)
      requires Valid()
      modifies this
      ensures Valid()
      ensures before == old(before) && after == old(after)
      ensures old(beforeSpectrum.Some? && afterSpectrum.Some?) ==>
        beforeSpectrum == old(beforeSpectrum) && afterSpectrum == old(afterSpectrum)
      ensures old(beforeSpectrum.None? || afterSpectrum.None?) ==>
        beforeSpectrum == Some(FromWaveform(maths, before.samples)) &&
        afterSpectrum == Some(FromWaveform(maths, after.samples))
      ensures beforeSpectrum.Some? && afterSpectrum.Some?
      ensures beforeMags == Magnitudes(maths, beforeSpectrum.value)
      ensures afterMags == Magnitudes(maths, afterSpectrum.value)
      ensures old(CachesCurrent()) ==> CachesCurrent()
      ensures old(CachesCurrent()) ==>
        && beforeMags == Magnitudes(maths, FromWaveform(maths, before.samples))
        && afterMags == Magnitudes(maths, FromWaveform(maths, after.samples))
        && |beforeMags| == |before.samples| / 2 && |afterMags| == |after.samples| / 2
    {
      if beforeSpectrum.None? || afterSpectrum.None? {
        ComputeSpectra();
      }
      beforeMags := Magnitudes(maths, beforeSpectrum.value);
      afterMags := Magnitudes(maths, afterSpectrum.value);
    }

    /** `get_waveforms`: the two sample buffers. */
    function GetWaveforms(): (r: (seq<real>, seq<real>))
      reads this
      ensures r.0 == before.samples && r.1 == after.samples
    {
      (before.samples, after.samples)
    }

    /** `sample_rate`: the rate of the recording before filtering. */
    function SampleRate(): (r: nat)
      reads this
      ensures r == before.sampleRate
    {
      before.sampleRate
    }
  }

  /** `compare_filtering`: the recording unchanged, and the filter's output, with no spectra yet. */
  method CompareFiltering(maths: Maths, audio: MonoAudio, filter: MonoAudio -> MonoAudio)
    returns (c: FilteringComparison)
    requires ValidMaths(maths)
    ensures fresh(c) && c.Valid() && c.CachesCurrent()
    ensures c.maths == maths && c.before == audio && c.after == filter(audio)
    ensures c.beforeSpectrum.None? && c.afterSpectrum.None?
  {
    var before := audio;
    var after := filter(audio);
    c := new FilteringComparison(maths, before, after);
  }

  /** Halving every sample, as a filter. */
  function Halve(a: MonoAudio): (r: MonoAudio)
    ensures |r.samples| == |a.samples| && r.sampleRate == a.sampleRate
    ensures forall i :: 0 <= i < |a.samples| ==> r.samples[i] == a.samples[i] * 0.5
  {
    MonoAudio(seq(|a.samples|, i requires 0 <= i < |a.samples| => a.samples[i] * 0.5), a.sampleRate)
  }

  /** The module's example: halving [1, 2, 3, 4] is compared against the original. */
  method CompareFilteringExample(maths: Maths) returns (c: FilteringComparison)
    requires ValidMaths(maths)
    ensures c.before.samples == [1.0, 2.0, 3.0, 4.0]
    ensures c.after.samples == [0.5, 1.0, 1.5, 2.0]
    ensures c.SampleRate() == 44100
  {
    c := CompareFiltering(maths, MonoAudio([1.0, 2.0, 3.0, 4.0], 44100), Halve);
    assert c.after.samples == [0.5, 1.0, 1.5, 2.0];
  }

  /** The module's example: 1024 samples give 512 magnitudes on each side, computed on demand. */
  method MagnitudeSpectraExample(maths: Maths) returns (beforeMags: seq<real>, afterMags: seq<real>)
    requires ValidMaths(maths)
    ensures |beforeMags| == 512 && |afterMags| == 512
  {
    var silence := seq(1024, i => 0.0);
    var c := new FilteringComparison(maths, MonoAudio(silence, 44100), MonoAudio(silence, 44100));
    beforeMags, afterMags := c.GetMagnitudeSpectra();
  }
}

/**
 * `src/audio.rs`: the older mono audio type, whose sample rate is an `f32`,
 * and its owning sliding-window iterator.
 */
module LegacyAudio {
  import opened Numerics
  import opened Windowing

  /** `MonoAudio { samples, sample_rate: f32 }` */
  datatype MonoAudio = MonoAudio(samples: seq<real>, sampleRate: real)

  /** `MonoAudio::new` */
  function NewMonoAudio(samples: seq<real>, sampleRate: real): MonoAudio
  {
    MonoAudio(samples, sampleRate)
  }

  /** `MonoAudioSource::mono_samples`: a copy of the samples. */
  function MonoSamples(a: MonoAudio): seq<real>
  {
    a.samples
  }

  /** `MonoAudioSource::sample_rate` */
  function SampleRate(a: MonoAudio): real
  {
    a.sampleRate
  }

  /** The copies handed out equal what was stored. */
  lemma StoredValuesReturned(samples: seq<real>, sampleRate: real)
    ensures MonoSamples(NewMonoAudio(samples, sampleRate)) == samples
    ensures SampleRate(NewMonoAudio(samples, sampleRate)) == sampleRate
  {
  }

  /** `SlidingWindowIterator`: owns a copy of the samples and a read position. */
  class SlidingWindowIterator {
    const samples: seq<real>
    const sampleRate: real
    const windowSize: nat
    const stepSize: nat
    var position: nat
    /** The number of windows yielded so far. */
    ghost var yielded: nat

    ghost predicate Valid()
      reads this
    {
      && position == yielded * stepSize
      && (Terminates(|samples|, windowSize, stepSize) ==>
            yielded <= WindowCount(|samples|, windowSize, stepSize))
    }

    /** `SlidingWindowIterator::new` (reached through `sliding_windows`): position 0. */
    constructor (samples: seq<real>, sampleRate: real, windowSize: nat, stepSize: nat)
      ensures this.samples == samples && this.sampleRate == sampleRate
      ensures this.windowSize == windowSize && this.stepSize == stepSize
      ensures position == 0 && yielded == 0 && Valid()
    {
      this.samples := samples;
      this.sampleRate := sampleRate;
      this.windowSize := windowSize;
      this.stepSize := stepSize;
      position := 0;
      yielded := 0;
    }

    /** `Iterator::next`: a full window with the stored rate, or `None` at the end. */
    method Next() returns (r: Option<MonoAudio>)
      requires Valid()
      modifies this
      ensures Valid()
      ensures old(position) + windowSize > |samples| ==>
        r.None? && position == old(position) && yielded == old(yielded)
      ensures old(position) + windowSize <= |samples| ==>
        && r == Some(MonoAudio(samples[old(position)..old(position) + windowSize], sampleRate))
        && position == old(position) + stepSize
        && yielded == old(yielded) + 1
      ensures Terminates(|samples|, windowSize, stepSize) ==>
        && (r.Some? <==> old(yielded) < WindowCount(|samples|, windowSize, stepSize))
        && (r.Some? ==> r.value.samples == Window(samples, windowSize, stepSize, old(yielded)))
    {
      if Terminates(|samples|, windowSize, stepSize) {
        CountFits(|samples|, windowSize, stepSize, yielded);
      }
      if position + windowSize > |samples| {
        return None;
      }
      var windowSamples := samples[position..position + windowSize];
      position := position + stepSize;
      yielded := yielded + 1;
      r := Some(MonoAudio(windowSamples, sampleRate));
    }
  }

  /** With a zero step the iterator never runs out: every call yields the first window again. */
  method ZeroStepRepeats(samples: seq<real>, sampleRate: real, w: nat) returns (first: Option<MonoAudio>, second: Option<MonoAudio>)
    requires w <= |samples|
    ensures first == second == Some(MonoAudio(samples[..w], sampleRate))
  {
    var it := new SlidingWindowIterator(samples, sampleRate, w, 0);
    first := it.Next();
    second := it.Next();
  }
}

/**
 * `src/audio/types.rs`: mono audio (samples plus an integer sample rate) and
 * the iterator over its fixed-size sliding windows.
 */
module AudioTypes {
  import opened Numerics
  import opened Windowing

  /** `MonoAudio { samples, sample_rate: u32 }` */
  datatype MonoAudio = MonoAudio(samples: seq<real>, sampleRate: nat)

  /** `MonoAudio::new` */
  function NewMonoAudio(samples: seq<real>, sampleRate: nat): MonoAudio
  {
    MonoAudio(samples, sampleRate)
  }

  /** `Audio::sample_rate` */
  function SampleRate(a: MonoAudio): nat
  {
    a.sampleRate
  }

  /** `MonoAudioSource::mono_samples` */
  function MonoSamples(a: MonoAudio): seq<real>
  {
    a.samples
  }

  /** A new audio value hands back the samples and rate it was built from. */
  lemma StoredValuesReturned(samples: seq<real>, sampleRate: nat)
    ensures SampleRate(NewMonoAudio(samples, sampleRate)) == sampleRate
    ensures MonoSamples(NewMonoAudio(samples, sampleRate)) == samples
  {
  }

  /** The windows `sliding_windows(w, step)` yields, in order, each carrying the audio's rate. */
  function WindowsOf(audio: MonoAudio, w: nat, step: nat): (r: seq<MonoAudio>)
    requires Terminates(|audio.samples|, w, step)
    ensures |r| == WindowCount(|audio.samples|, w, step)
    ensures forall k :: 0 <= k < |r| ==>
      r[k].samples == Window(audio.samples, w, step, k) && r[k].sampleRate == audio.sampleRate
  {
    seq(WindowCount(|audio.samples|, w, step),
      k requires 0 <= k < WindowCount(|audio.samples|, w, step) =>
        MonoAudio(Window(audio.samples, w, step, k), audio.sampleRate))
  }

  /** `SlidingWindows`: the iterator state of `IterableAudio::sliding_windows`. */
  class SlidingWindows {
    const samples: seq<real>
    const sampleRate: nat
    const windowSize: nat
    const stepSize: nat
    var position: nat
    /** The number of windows yielded so far. */
    ghost var yielded: nat

    ghost predicate Valid()
      reads this
    {
      && position == yielded * stepSize
      && (Terminates(|samples|, windowSize, stepSize) ==>
            yielded <= WindowCount(|samples|, windowSize, stepSize))
    }

    /** `MonoAudio::sliding_windows`: an iterator positioned at the first sample. */
    constructor (audio: MonoAudio, windowSize: nat, stepSize: nat)
      ensures samples == audio.samples && sampleRate == audio.sampleRate
      ensures this.windowSize == windowSize && this.stepSize == stepSize
      ensures position == 0 && yielded == 0 && Valid()
    {
      samples := audio.samples;
      sampleRate := audio.sampleRate;
      this.windowSize := windowSize;
      this.stepSize := stepSize;
      position := 0;
      yielded := 0;
    }

    /**
     * `Iterator::next`: the next full window, or `None` once the window would
     * run past the end; only a yielded window moves the position.
     */
    method Next() returns (r: Option<MonoAudio>)
      requires Valid()
      modifies this
      ensures Valid()
      ensures old(position) + windowSize > |samples| ==>
        r.None? && position == old(position) && yielded == old(yielded)
      ensures old(position) + windowSize <= |samples| ==>
        && r == Some(MonoAudio(samples[old(position)..old(position) + windowSize], sampleRate))
        && position == old(position) + stepSize
        && yielded == old(yielded) + 1
      ensures Terminates(|samples|, windowSize, stepSize) ==>
        && (r.Some? <==> old(yielded) < WindowCount(|samples|, windowSize, stepSize))
        && (r.Some? ==> r.value.samples == Window(samples, windowSize, stepSize, old(yielded)))
    {
      if Terminates(|samples|, windowSize, stepSize) {
        CountFits(|samples|, windowSize, stepSize, yielded);
      }
      if position + windowSize > |samples| {
        return None;
      }
      var window := MonoAudio(samples[position..position + windowSize], sampleRate);
      position := position + stepSize;
      yielded := yielded + 1;
      r := Some(window);
    }

    /** Draining the iterator (`collect()`): every window not yet yielded, in order. */
    method Collect() returns (windows: seq<MonoAudio>)
      requires Valid() && Terminates(|samples|, windowSize, stepSize)
      modifies this
      ensures Valid() && yielded == WindowCount(|samples|, windowSize, stepSize)
      ensures windows == WindowsOf(MonoAudio(samples, sampleRate), windowSize, stepSize)[old(yielded)..]
    {
      windows := [];
      ghost var start := yielded;
      ghost var all := WindowsOf(MonoAudio(samples, sampleRate), windowSize, stepSize);
      while true
        invariant Valid() && start <= yielded
        invariant windows == all[start..yielded]
        decreases WindowCount(|samples|, windowSize, stepSize) - yielded
      {
        var r := Next();
        if r.None? {
          break;
        }
        windows := windows + [r.value];
      }
    }
  }

  /** Six samples, windows of 2 every 2: [1,2], [3,4], [5,6]. */
  lemma WindowsBasicExample()
    ensures var a := MonoAudio([1.0, 2.0, 3.0, 4.0, 5.0, 6.0], 44100);
      WindowsOf(a, 2, 2) == [MonoAudio([1.0, 2.0], 44100), MonoAudio([3.0, 4.0], 44100),
                             MonoAudio([5.0, 6.0], 44100)]
  {
    var a := MonoAudio([1.0, 2.0, 3.0, 4.0, 5.0, 6.0], 44100);
    var r := WindowsOf(a, 2, 2);
    assert |r| == 3;
    assert r[0].samples == a.samples[0..2] == [1.0, 2.0];
    assert r[1].samples == a.samples[2..4] == [3.0, 4.0];
    assert r[2].samples == a.samples[4..6] == [5.0, 6.0];
  }

  /** Overlapping windows: four samples, windows of 2 every 1. */
  lemma WindowsOverlapExample()
    ensures var a := MonoAudio([1.0, 2.0, 3.0, 4.0], 44100);
      WindowsOf(a, 2, 1) == [MonoAudio([1.0, 2.0], 44100), MonoAudio([2.0, 3.0], 44100),
                             MonoAudio([3.0, 4.0], 44100)]
  {
    var a := MonoAudio([1.0, 2.0, 3.0, 4.0], 44100);
    var r := WindowsOf(a, 2, 1);
    assert |r| == 3;
    assert r[0].samples == a.samples[0..2] == [1.0, 2.0];
    assert r[1].samples == a.samples[1..3] == [2.0, 3.0];
    assert r[2].samples == a.samples[2..4] == [3.0, 4.0];
  }

  /** No partial tail: five samples, windows of 3 every 2, gives two windows. */
  lemma WindowsIncompleteExample()
    ensures var a := MonoAudio([1.0, 2.0, 3.0, 4.0, 5.0], 44100);
      WindowsOf(a, 3, 2) == [MonoAudio([1.0, 2.0, 3.0], 44100), MonoAudio([3.0, 4.0, 5.0], 44100)]
  {
    var a := MonoAudio([1.0, 2.0, 3.0, 4.0, 5.0], 44100);
    var r := WindowsOf(a, 3, 2);
    assert |r| == 2;
    assert r[0].samples == a.samples[0..3] == [1.0, 2.0, 3.0];
    assert r[1].samples == a.samples[2..5] == [3.0, 4.0, 5.0];
  }

  /** With a zero step the iterator never runs out: every call yields the first window again. */
  method ZeroStepRepeats(audio: MonoAudio, w: nat) returns (first: Option<MonoAudio>, second: Option<MonoAudio>)
    requires w <= |audio.samples|
    ensures first == second == Some(MonoAudio(audio.samples[..w], audio.sampleRate))
  {
    var it := new SlidingWindows(audio, w, 0);
    first := it.Next();
    second := it.Next();
  }

  /** Once every window has been collected, `next` returns `None`. */
  method FusedAfterCollect(audio: MonoAudio, w: nat, step: nat) returns (windows: seq<MonoAudio>, rest: Option<MonoAudio>)
    requires Terminates(|audio.samples|, w, step)
    ensures windows == WindowsOf(audio, w, step)
    ensures rest.None?
  {
    var it := new SlidingWindows(audio, w, step);
    windows := it.Collect();
    rest := it.Next();
  }
}

/**
 * `src/pitch_tracking/tracking.rs`: a tracker that runs a mono pitch
 * detector over the sliding windows of a recording.  The detector is a
 * function from a window (with its sample rate) to an optional pitch.
 */
module PitchTracking {
  import opened Numerics
  import opened Windowing
  import opened Detection
  import opened AudioTypes

  /** The pitches the tracker reports: one per window, 0.0 where the detector finds nothing. */
  function TrackOf(detector: MonoAudio -> Option<Pitch>, windows: seq<MonoAudio>): (r: seq<real>)
    ensures |r| == |windows|
  {
    seq(|windows|, k requires 0 <= k < |windows| => FrequencyOrZero(detector(windows[k])))
  }

  /** Entry `k` is the detector's frequency on window `k`, or 0.0. */
  lemma TrackOfEntry(detector: MonoAudio -> Option<Pitch>, windows: seq<MonoAudio>, k: nat)
    requires k < |windows|
    ensures detector(windows[k]).Some? ==> TrackOf(detector, windows)[k] == detector(windows[k]).value.frequency
    ensures detector(windows[k]).None? ==> TrackOf(detector, windows)[k] == 0.0
  {
  }

  /** A track over more windows extends the shorter track. */
  lemma TrackOfAppend(detector: MonoAudio -> Option<Pitch>, windows: seq<MonoAudio>, w: MonoAudio)
    ensures TrackOf(detector, windows + [w]) == TrackOf(detector, windows) + [FrequencyOrZero(detector(w))]
  {
    var lhs := TrackOf(detector, windows + [w]);
    var rhs := TrackOf(detector, windows) + [FrequencyOrZero(detector(w))];
    forall k | 0 <= k < |lhs|
      ensures lhs[k] == rhs[k]
    {
      if k < |windows| {
        assert (windows + [w])[k] == windows[k];
      }
    }
  }

  /** `PitchTracker`: a detector with its window and step sizes. */
  class PitchTracker {
    const detector: MonoAudio -> Option<Pitch>
    const windowSize: nat
    const stepSize: nat

    /** `PitchTracker::new`: stores its arguments unchanged. */
    constructor (detector: MonoAudio -> Option<Pitch>, windowSize: nat, stepSize: nat)
      ensures this.detector == detector && this.windowSize == windowSize && this.stepSize == stepSize
    {
      this.detector := detector;
      this.windowSize := windowSize;
      this.stepSize := stepSize;
    }

    /**
     * `pitches`: the loop over `audio.sliding_windows(window_size, step_size)`,
     * one entry per window in order; a window without a pitch gives 0.0 and
     * does not shorten the track.
     */
    method Pitches(audio: MonoAudio) returns (pitches: seq<real>)
      requires Terminates(|audio.samples|, windowSize, stepSize)
      ensures pitches == TrackOf(detector, WindowsOf(audio, windowSize, stepSize))
      ensures |pitches| == WindowCount(|audio.samples|, windowSize, stepSize)
    {
      pitches := [];
      var windows := new SlidingWindows(audio, windowSize, stepSize);
      ghost var all := WindowsOf(audio, windowSize, stepSize);
      assert MonoAudio(windows.samples, windows.sampleRate) == audio;
      while true
        invariant windows.Valid()
        invariant windows.samples == audio.samples && windows.sampleRate == audio.sampleRate
        invariant windows.windowSize == windowSize && windows.stepSize == stepSize
        invariant windows.yielded <= |all|
        invariant pitches == TrackOf(detector, all[..windows.yielded])
        decreases |all| - windows.yielded
      {
        ghost var before := windows.yielded;
        var window := windows.Next();
        if window.None? {
          break;
        }
        assert window.value == all[before];
        assert all[..windows.yielded] == all[..before] + [all[before]];
        TrackOfAppend(detector, all[..before], all[before]);
        var pitch := detector(window.value);
        if pitch.Some? {
          pitches := pitches + [pitch.value.frequency];
        } else {
          pitches := pitches + [0.0];
        }
      }
      assert all[..windows.yielded] == all;
    }
  }

  /** The tracker's examples: six samples, windows of 2 every 2, a detector always at 123 Hz. */
  method FixedPitchExample() returns (pitches: seq<real>)
    ensures pitches == [123.0, 123.0, 123.0]
  {
    var tracker := new PitchTracker(w => Some(Pitch(123.0, 1.0)), 2, 2);
    pitches := tracker.Pitches(MonoAudio([1.0, 2.0, 3.0, 4.0, 5.0, 6.0], 44100));
  }

  /** Four samples, windows of 2 every 1, a detector that never finds a pitch: three zeros. */
  method NonePitchExample() returns (pitches: seq<real>)
    ensures pitches == [0.0, 0.0, 0.0]
  {
    var tracker := new PitchTracker(w => None, 2, 1);
    pitches := tracker.Pitches(MonoAudio([1.0, 2.0, 3.0, 4.0], 44100));
  }
}

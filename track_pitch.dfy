/**
 * `src/track_pitch.rs`: one YIN detector of the configured size, with
 * padding `window_size / 2`, run over every full frame
 * `signal[i..i + window_size]` for `i = 0, step, 2 step, ...`.
 */
module TrackPitch {
  import opened Numerics
  import opened Windowing
  import opened Detection

  /** `TrackPitchConfig` */
  datatype TrackPitchConfig = TrackPitchConfig(windowSize: nat, stepSize: nat, powerThreshold: real, clarityThreshold: real)

  /** `TrackPitchConfig::default`: windows of 1024 every 256 samples, power 5.0, clarity 0.1. */
  function DefaultConfig(): (c: TrackPitchConfig)
    ensures c.windowSize == 1024 && c.stepSize == 256
    ensures c.powerThreshold == 5.0 && c.clarityThreshold == 0.1
  {
    TrackPitchConfig(1024, 256, 5.0, 0.1)
  }

  /**
   * The track the frame loop builds: for frame `k`, what one detector of
   * size `w` and padding `w / 2` reports on that frame, 0.0 where it finds nothing.
   */
  function FrameTrack(yin: Yin, signal: seq<real>, w: nat, step: nat, sampleRate: nat, power: real, clarity: real)
    : (r: seq<real>)
    requires Terminates(|signal|, w, step)
    ensures |r| == WindowCount(|signal|, w, step)
  {
    seq(WindowCount(|signal|, w, step), k requires 0 <= k < WindowCount(|signal|, w, step) =>
      FrequencyOrZero(yin(w, w / 2, Window(signal, w, step, k), sampleRate, power, clarity)))
  }

  /**
   * Entry `k` of a track comes from the frame starting at `k * step`, which
   * lies inside the signal and has exactly the detector's size.
   */
  lemma FrameTrackEntry(yin: Yin, signal: seq<real>, w: nat, step: nat, sampleRate: nat, power: real, clarity: real, k: nat)
    requires Terminates(|signal|, w, step) && k < WindowCount(|signal|, w, step)
    ensures k * step + w <= |signal|
    ensures var frame := signal[k * step .. k * step + w];
      && |frame| == w
      && FrameTrack(yin, signal, w, step, sampleRate, power, clarity)[k] ==
         FrequencyOrZero(yin(w, w / 2, frame, sampleRate, power, clarity))
  {
    CountFits(|signal|, w, step, k);
    assert Window(signal, w, step, k) == signal[k * step .. k * step + w];
    assert FrameTrack(yin, signal, w, step, sampleRate, power, clarity)[k] ==
      FrequencyOrZero(yin(w, w / 2, Window(signal, w, step, k), sampleRate, power, clarity));
  }

  /** A detector that never finds a pitch still gives one 0.0 per frame: nothing is dropped. */
  lemma SilentDetectorGivesZeros(yin: Yin, signal: seq<real>, w: nat, step: nat, sampleRate: nat, power: real, clarity: real)
    requires Terminates(|signal|, w, step)
    requires forall frame :: yin(w, w / 2, frame, sampleRate, power, clarity).None?
    ensures var r := FrameTrack(yin, signal, w, step, sampleRate, power, clarity);
      |r| == WindowCount(|signal|, w, step) && forall k :: 0 <= k < |r| ==> r[k] == 0.0
  {
    var r := FrameTrack(yin, signal, w, step, sampleRate, power, clarity);
    forall k | 0 <= k < |r|
      ensures r[k] == 0.0
    {
      FrameTrackEntry(yin, signal, w, step, sampleRate, power, clarity, k);
    }
  }

  /** The track is empty when the signal is shorter than one frame. */
  lemma ShortSignalGivesEmptyTrack(yin: Yin, signal: seq<real>, w: nat, step: nat, sampleRate: nat, power: real, clarity: real)
    requires |signal| < w
    ensures FrameTrack(yin, signal, w, step, sampleRate, power, clarity) == []
  {
  }

  /**
   * `track_pitch`: the while loop over frame starts; it only terminates when
   * the step is positive or no frame fits.
   */
  method TrackPitch(yin: Yin, signal: seq<real>, config: TrackPitchConfig, sampleRate: nat) returns (pitches: seq<real>)
    requires Terminates(|signal|, config.windowSize, config.stepSize)
    ensures pitches == FrameTrack(yin, signal, config.windowSize, config.stepSize, sampleRate,
                                  config.powerThreshold, config.clarityThreshold)
  {
    var TrackPitchConfig(windowSize, stepSize, powerThreshold, clarityThreshold) := config;
    ghost var spec := FrameTrack(yin, signal, windowSize, stepSize, sampleRate, powerThreshold, clarityThreshold);
    pitches := [];
    var i := 0;
    ghost var k := 0;
    var padding := windowSize / 2;
    while i + windowSize <= |signal|
      invariant i == k * stepSize
      invariant k <= WindowCount(|signal|, windowSize, stepSize)
      invariant pitches == spec[..k]
      decreases |signal| - i
    {
      CountFits(|signal|, windowSize, stepSize, k);
      FrameTrackEntry(yin, signal, windowSize, stepSize, sampleRate, powerThreshold, clarityThreshold, k);
      var frame := signal[i..i + windowSize];
      var pitch := yin(windowSize, padding, frame, sampleRate, powerThreshold, clarityThreshold);
      if pitch.Some? {
        pitches := pitches + [pitch.value.frequency];
      } else {
        pitches := pitches + [0.0];
      }
      i := i + stepSize;
      k := k + 1;
    }
    CountFits(|signal|, windowSize, stepSize, k);
  }
}

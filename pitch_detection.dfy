/**
 * `src/pitch_detection.rs`: the same frame loop as `track_pitch`, with the
 * power threshold fixed at 5.0 and the caller's `threshold` as clarity
 * threshold, at the sample rate `sample_rate as usize`.
 */
module PitchDetection {
  import opened Numerics
  import opened Windowing
  import opened Detection
  import opened TrackPitch

  const PowerThreshold: real := 5.0

  /** `pitch_track`: one entry per full frame, 0.0 where the detector finds nothing. */
  method PitchTrackOf(yin: Yin, signal: seq<real>, sampleRate: real, windowSize: nat, stepSize: nat, threshold: real)
    returns (pitches: seq<real>)
    requires Terminates(|signal|, windowSize, stepSize)
    ensures pitches == FrameTrack(yin, signal, windowSize, stepSize, CastToUsize(sampleRate), 5.0, threshold)
    ensures |pitches| == WindowCount(|signal|, windowSize, stepSize)
  {
    ghost var spec := FrameTrack(yin, signal, windowSize, stepSize, CastToUsize(sampleRate), PowerThreshold, threshold);
    pitches := [];
    var i := 0;
    ghost var k := 0;
    var clarityThreshold := threshold;
    var padding := windowSize / 2;
    while i + windowSize <= |signal|
      invariant i == k * stepSize
      invariant k <= WindowCount(|signal|, windowSize, stepSize)
      invariant pitches == spec[..k]
      decreases |signal| - i
    {
      CountFits(|signal|, windowSize, stepSize, k);
      FrameTrackEntry(yin, signal, windowSize, stepSize, CastToUsize(sampleRate), PowerThreshold, threshold, k);
      var frame := signal[i..i + windowSize];
      var pitch := yin(windowSize, padding, frame, CastToUsize(sampleRate), PowerThreshold, clarityThreshold);
      if pitch.Some? {
        pitches := pitches + [pitch.value.frequency];
      } else {
        pitches := pitches + [0.0];
      }
      i := i + stepSize;
      k := k + 1;
    }
    CountFits(|signal|, windowSize, stepSize, k);
  }
}

/**
 * `src/audio_analysis.rs`: take the most recent analysis frame of a buffer
 * and report its pitch.  The configuration type it names is the
 * `TrackPitchConfig` of `src/track_pitch.rs`.
 */
module AudioAnalysis {
  import opened Numerics
  import opened Windowing
  import opened Detection
  import opened TrackPitch

  /** `extract_analysis_frame`: the last `window_size` samples, if there are that many. */
  function ExtractAnalysisFrame(samples: seq<real>, config: TrackPitchConfig): (r: Option<seq<real>>)
    ensures r.None? <==> |samples| < config.windowSize
    ensures r.Some? ==> |r.value| == config.windowSize
    ensures r.Some? ==> samples == samples[..|samples| - config.windowSize] + r.value
  {
    var windowSize := config.windowSize;
    if |samples| < windowSize then None
    else
      var start := if |samples| >= windowSize then |samples| - windowSize else 0;
      assert samples == samples[..start] + samples[start..];
      Some(samples[start..])
  }

  /** The last entry of a track if it is a positive frequency. */
  function LastPositive(pitches: seq<real>): (r: Option<real>)
    ensures r.Some? ==> r.value > 0.0
    ensures r.Some? <==> |pitches| > 0 && pitches[|pitches| - 1] > 0.0
    ensures r.Some? ==> r.value == pitches[|pitches| - 1]
  {
    if |pitches| > 0 && pitches[|pitches| - 1] > 0.0 then Some(pitches[|pitches| - 1]) else None
  }

  /** `detect_pitch`: track the frame and keep the last estimate when it is a real pitch. */
  method DetectPitch(yin: Yin, frame: seq<real>, config: TrackPitchConfig, sampleRate: nat) returns (r: Option<real>)
    requires Terminates(|frame|, config.windowSize, config.stepSize)
    ensures r == LastPositive(FrameTrack(yin, frame, config.windowSize, config.stepSize, sampleRate,
                                         config.powerThreshold, config.clarityThreshold))
    ensures r.Some? ==> r.value > 0.0
  {
    var pitches := TrackPitch.TrackPitch(yin, frame, config, sampleRate);
    if |pitches| > 0 && pitches[|pitches| - 1] > 0.0 {
      r := Some(pitches[|pitches| - 1]);
    } else {
      r := None;
    }
  }

  /**
   * Analysing an extracted frame runs the detector exactly once, on the whole
   * frame: the result is its pitch when positive, else none.
   */
  lemma AnalysisFrameIsOneDetection(yin: Yin, samples: seq<real>, config: TrackPitchConfig, sampleRate: nat)
    requires config.stepSize > 0
    requires ExtractAnalysisFrame(samples, config).Some?
    ensures var frame := ExtractAnalysisFrame(samples, config).value;
      var w := config.windowSize;
      var p := FrequencyOrZero(yin(w, w / 2, frame, sampleRate, config.powerThreshold, config.clarityThreshold));
      && FrameTrack(yin, frame, w, config.stepSize, sampleRate, config.powerThreshold, config.clarityThreshold) == [p]
      && LastPositive([p]) == (if p > 0.0 then Some(p) else None)
  {
    var frame := ExtractAnalysisFrame(samples, config).value;
    var w := config.windowSize;
    var track := FrameTrack(yin, frame, w, config.stepSize, sampleRate, config.powerThreshold, config.clarityThreshold);
    assert |track| == 1;
    FrameTrackEntry(yin, frame, w, config.stepSize, sampleRate, config.powerThreshold, config.clarityThreshold, 0);
    assert frame[0..w] == frame;
  }
}

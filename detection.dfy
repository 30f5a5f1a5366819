/**
 * The interface of the external pitch detectors.  The YIN detector built by
 * `YINDetector::new(size, padding)` and queried with `get_pitch(frame,
 * sample_rate, power_threshold, clarity_threshold)` is a pure function of
 * all six values; its internal scratch buffers do not affect the result.
 */
module Detection {
  import opened Numerics

  /** A detected pitch: frequency in Hz and clarity. */
  datatype Pitch = Pitch(frequency: real, clarity: real)

  /** `(size, padding, frame, sample_rate, power_threshold, clarity_threshold) -> Option<Pitch>` */
  type Yin = (nat, nat, seq<real>, nat, real, real) -> Option<Pitch>

  /** What a tracker records for one frame: the frequency, or 0.0 when no pitch was found. */
  function FrequencyOrZero(p: Option<Pitch>): (r: real)
    ensures p.Some? ==> r == p.value.frequency
    ensures p.None? ==> r == 0.0
  {
    match p
    case Some(pitch) => pitch.frequency
    case None => 0.0
  }
}

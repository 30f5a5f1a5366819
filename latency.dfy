/**
 * `crates/audio-utils/src/latency.rs`: timestamps of one audio chunk's trip
 * through the pipeline.  Instants and durations are whole nanoseconds; the
 * clock is read by the caller and passed in as `now`.
 */
module Latency {
  import opened Numerics

  /** `Instant::duration_since`: the elapsed time, zero when `later` is not later. */
  function DurationSince(later: nat, earlier: nat): (d: nat)
    ensures later >= earlier ==> earlier + d == later
    ensures later < earlier ==> d == 0
  {
    if later >= earlier then later - earlier else 0
  }

  /** `LatencyMetrics`: four optional measurements. */
  class LatencyMetrics {
    var callbackTimestamp: Option<nat>
    var processingStart: Option<nat>
    var processingEnd: Option<nat>
    var inputDeviceLatency: Option<nat>

    /** `LatencyMetrics::new` (and `Default`): nothing measured. */
    constructor ()
      ensures callbackTimestamp.None? && processingStart.None?
      ensures processingEnd.None? && inputDeviceLatency.None?
    {
      callbackTimestamp := None;
      processingStart := None;
      processingEnd := None;
      inputDeviceLatency := None;
    }

    /** `with_callback_timestamp`: only the callback instant is known. */
    constructor WithCallbackTimestamp(timestamp: nat)
      ensures callbackTimestamp == Some(timestamp) && processingStart.None?
      ensures processingEnd.None? && inputDeviceLatency.None?
    {
      callbackTimestamp := Some(timestamp);
      processingStart := None;
      processingEnd := None;
      inputDeviceLatency := None;
    }

    /** `mark_processing_start`: records the instant `now`; the other fields stay. */
    method MarkProcessingStart(now: nat)
      modifies this
      ensures processingStart == Some(now)
      ensures callbackTimestamp == old(callbackTimestamp) && processingEnd == old(processingEnd)
      ensures inputDeviceLatency == old(inputDeviceLatency)
    {
      processingStart := Some(now);
    }

    /** `mark_processing_end`: records the instant `now`; the other fields stay. */
    method MarkProcessingEnd(now: nat)
      modifies this
      ensures processingEnd == Some(now)
      ensures callbackTimestamp == old(callbackTimestamp) && processingStart == old(processingStart)
      ensures inputDeviceLatency == old(inputDeviceLatency)
    {
      processingEnd := Some(now);
    }

    /** `set_input_device_latency`: records the driver's latency; the other fields stay. */
    method SetInputDeviceLatency(latency: nat)
      modifies this
      ensures inputDeviceLatency == Some(latency)
      ensures callbackTimestamp == old(callbackTimestamp) && processingStart == old(processingStart)
      ensures processingEnd == old(processingEnd)
    {
      inputDeviceLatency := Some(latency);
    }

    /** `Clone`: a distinct record with the same four fields. */
    method Clone() returns (c: LatencyMetrics)
      ensures fresh(c)
      ensures c.callbackTimestamp == callbackTimestamp && c.processingStart == processingStart
      ensures c.processingEnd == processingEnd && c.inputDeviceLatency == inputDeviceLatency
    {
      c := new LatencyMetrics();
      c.callbackTimestamp := callbackTimestamp;
      c.processingStart := processingStart;
      c.processingEnd := processingEnd;
      c.inputDeviceLatency := inputDeviceLatency;
    }

    /** `processing_duration`: end minus start, when both are known. */
    function ProcessingDuration(): (r: Option<nat>)
      reads this
      ensures r.Some? <==> processingStart.Some? && processingEnd.Some?
      ensures r.Some? && processingEnd.value >= processingStart.value ==>
        processingStart.value + r.value == processingEnd.value
    {
      ProcessingDurationOf(processingStart, processingEnd)
    }

    /** `total_latency`: end minus callback, when both are known. */
    function TotalLatency(): (r: Option<nat>)
      reads this
      ensures r.Some? <==> callbackTimestamp.Some? && processingEnd.Some?
      ensures r.Some? && processingEnd.value >= callbackTimestamp.value ==>
        callbackTimestamp.value + r.value == processingEnd.value
    {
      ProcessingDurationOf(callbackTimestamp, processingEnd)
    }

    /** `end_to_end_latency`: total latency plus device latency, whichever of them is known. */
    function EndToEndLatency(): (r: Option<nat>)
      reads this
      ensures r.None? <==> TotalLatency().None? && inputDeviceLatency.None?
      ensures TotalLatency().Some? && inputDeviceLatency.Some? ==>
        r == Some(TotalLatency().value + inputDeviceLatency.value)
      ensures TotalLatency().Some? && inputDeviceLatency.None? ==> r == TotalLatency()
      ensures TotalLatency().None? && inputDeviceLatency.Some? ==> r == inputDeviceLatency
    {
      CombineLatencies(TotalLatency(), inputDeviceLatency)
    }
  }

  /** The time between two optional instants, known only when both are. */
  function ProcessingDurationOf(start: Option<nat>, end: Option<nat>): (r: Option<nat>)
    ensures r.Some? <==> start.Some? && end.Some?
    ensures r.Some? ==> r.value == DurationSince(end.value, start.value)
  {
    match (start, end)
    case (Some(s), Some(e)) => Some(DurationSince(e, s))
    case _ => None
  }

  /** The sum of the known parts of a latency; absent only when neither part is known. */
  function CombineLatencies(total: Option<nat>, device: Option<nat>): (r: Option<nat>)
    ensures r.None? <==> total.None? && device.None?
    ensures total.Some? && device.Some? ==> r == Some(total.value + device.value)
    ensures total.Some? && device.None? ==> r == total
    ensures total.None? && device.Some? ==> r == device
  {
    match (total, device)
    case (Some(t), Some(d)) => Some(t + d)
    case (Some(t), None) => Some(t)
    case (None, Some(d)) => Some(d)
    case (None, None) => None
  }

  /** A known end-to-end latency is at least each of its known parts. */
  lemma EndToEndDominatesParts(total: Option<nat>, device: Option<nat>)
    requires CombineLatencies(total, device).Some?
    ensures total.Some? ==> CombineLatencies(total, device).value >= total.value
    ensures device.Some? ==> CombineLatencies(total, device).value >= device.value
  {
  }

  /**
   * The module's scenario: callback at `t`, 5 ms device latency, processing
   * ending at least 10 ms after the callback, gives at least 15 ms end to end.
   */
  method EndToEndExample(t: nat, later: nat) returns (e2e: Option<nat>)
    requires later >= t + 10_000_000
    ensures e2e.Some? && e2e.value >= 15_000_000
  {
    var metrics := new LatencyMetrics.WithCallbackTimestamp(t);
    metrics.SetInputDeviceLatency(5_000_000);
    metrics.MarkProcessingEnd(later);
    e2e := metrics.EndToEndLatency();
  }

  /** Only a device latency: end to end is exactly that latency. */
  method DeviceOnlyExample() returns (e2e: Option<nat>)
    ensures e2e == Some(5_000_000)
  {
    var metrics := new LatencyMetrics();
    metrics.SetInputDeviceLatency(5_000_000);
    e2e := metrics.EndToEndLatency();
  }

  /** Start then end, the end at least 10 ms later: a duration of at least 10 ms. */
  method ProcessingDurationExample(start: nat, end: nat) returns (d: Option<nat>)
    requires end >= start + 10_000_000
    ensures d.Some? && d.value >= 10_000_000
  {
    var metrics := new LatencyMetrics();
    assert metrics.ProcessingDuration().None?;
    metrics.MarkProcessingStart(start);
    metrics.MarkProcessingEnd(end);
    d := metrics.ProcessingDuration();
  }
}

/**
 * `crates/gui/src/audio_recorder.rs`: the recorder's stream guard and what
 * its input callback does with each block of device samples: mix down to
 * mono, append to the shared buffer, and hand every complete
 * `window_size` run, oldest first, to pitch processing with a copy of the
 * callback's latency record.
 */
module AudioRecorder {
  import opened Numerics
  import opened Windowing
  import opened Latency

  /** The `Result<(), String>` of `start` and `stop`. */
  datatype Outcome = Ok | Err(message: string)

  /**
   * The mono mix-down: one channel passes through; otherwise every complete
   * frame of `channels` samples (`chunks_exact`) becomes its average and a
   * trailing partial frame is dropped.
   */
  function MixToMono(data: seq<real>, channels: nat): (r: seq<real>)
    requires channels > 0
    ensures |r| == WindowCount(|data|, channels, channels)
    ensures channels == 1 ==> r == data
    ensures channels > 1 ==> forall k :: 0 <= k < |r| ==>
      r[k] == Sum(Window(data, channels, channels, k)) / (channels as real)
  {
    if channels == 1 then data
    else
      seq(WindowCount(|data|, channels, channels),
        k requires 0 <= k < WindowCount(|data|, channels, channels) =>
          Sum(Window(data, channels, channels, k)) / (channels as real))
  }

  /** The mix-down's length: the number of complete frames. */
  lemma MixToMonoLength(data: seq<real>, channels: nat)
    requires channels > 0
    ensures |MixToMono(data, channels)| * channels <= |data|
    ensures |data| < (|MixToMono(data, channels)| + 1) * channels
  {
    var n := WindowCount(|data|, channels, channels);
    CountFits(|data|, channels, channels, n);
    if n > 0 {
      CountFits(|data|, channels, channels, n - 1);
      assert (n - 1) * channels + channels == n * channels;
    }
  }

  /** With one channel pass-through is the average rule too: each sample is its own frame's mean. */
  lemma SingleChannelIsAverage(data: seq<real>)
    ensures forall k :: 0 <= k < |MixToMono(data, 1)| ==>
      MixToMono(data, 1)[k] == Sum(Window(data, 1, 1, k)) / 1.0
  {
    forall k | 0 <= k < |data|
      ensures data[k] == Sum(Window(data, 1, 1, k)) / 1.0
    {
      CountFits(|data|, 1, 1, k);
      assert Window(data, 1, 1, k) == [data[k]];
      assert Sum([data[k]]) == data[k] + Sum([]);
    }
  }

  /** One run handed to pitch processing, with its copy of the callback's latency record. */
  datatype Chunk = Chunk(samples: seq<real>, latency: LatencyMetrics)

  function ChunkSamples(chunks: seq<Chunk>): (r: seq<seq<real>>)
    ensures |r| == |chunks| && forall k :: 0 <= k < |r| ==> r[k] == chunks[k].samples
  {
    seq(|chunks|, k requires 0 <= k < |chunks| => chunks[k].samples)
  }

  /** A record as `with_callback_timestamp(now)` makes it: only the callback instant is set. */
  ghost predicate StampedAt(latency: LatencyMetrics, now: nat)
    reads latency
  {
    && latency.callbackTimestamp == Some(now)
    && latency.processingStart.None? && latency.processingEnd.None?
    && latency.inputDeviceLatency.None?
  }

  /**
   * Taking one window off the front of `input[k * w..]` extends the `k`
   * windows handed on so far by window `k`.
   */
  lemma DrainStep(input: seq<real>, w: nat, k: nat, drained: seq<seq<real>>)
    requires w > 0 && k * w + w <= |input|
    requires k <= WindowCount(|input|, w, w)
    requires drained == AllWindows(input, w, w)[..k] && Flatten(drained) == input[..k * w]
    ensures k + 1 <= WindowCount(|input|, w, w)
    ensures (k + 1) * w == k * w + w
    ensures input[k * w..][..w] == Window(input, w, w, k)
    ensures input[k * w..][w..] == input[(k + 1) * w..]
    ensures drained + [Window(input, w, w, k)] == AllWindows(input, w, w)[..k + 1]
    ensures Flatten(drained + [Window(input, w, w, k)]) == input[..(k + 1) * w]
  {
    CountFits(|input|, w, w, k);
    var window := Window(input, w, w, k);
    assert input[..(k + 1) * w] == input[..k * w] + window;
    FlattenAppend(drained, window);
  }

  lemma ChunkSamplesAppend(chunks: seq<Chunk>, c: Chunk)
    ensures ChunkSamples(chunks + [c]) == ChunkSamples(chunks) + [c.samples]
  {
  }

  /** The buffer shared with the stream callback (`Arc<Mutex<Vec<f32>>>`). */
  class SampleBuffer {
    const windowSize: nat
    const channels: nat
    var buffer: seq<real>

    /** Between callbacks less than one window is buffered. */
    ghost predicate Valid()
      reads this
    {
      windowSize > 0 && channels > 0 && |buffer| < windowSize
    }

    constructor (windowSize: nat, channels: nat)
      ensures this.windowSize == windowSize && this.channels == channels && buffer == []
      ensures windowSize > 0 && channels > 0 ==> Valid()
    {
      this.windowSize := windowSize;
      this.channels := channels;
      buffer := [];
    }

    /** `buffer.drain(..window_size)`, paired with a clone of the callback's latency record. */
    method DrainWindow(latency: LatencyMetrics) returns (chunk: Chunk)
      requires |buffer| >= windowSize
      modifies this
      ensures chunk.samples == old(buffer)[..windowSize] && buffer == old(buffer)[windowSize..]
      ensures fresh(chunk.latency)
      ensures chunk.latency.callbackTimestamp == latency.callbackTimestamp
      ensures chunk.latency.processingStart == latency.processingStart
      ensures chunk.latency.processingEnd == latency.processingEnd
      ensures chunk.latency.inputDeviceLatency == latency.inputDeviceLatency
    {
      var samplesToProcess := buffer[..windowSize];
      buffer := buffer[windowSize..];
      var latencyCopy := latency.Clone();
      chunk := Chunk(samplesToProcess, latencyCopy);
    }

    /**
     * One input callback at instant `now`: the chunks it hands on are the
     * consecutive non-overlapping `window_size` runs of the old buffer
     * followed by the new mono samples; what is left stays buffered.
     */
    method OnAudio(data: seq<real>, now: nat) returns (chunks: seq<Chunk>)
      requires Valid()
      modifies this
      ensures Valid()
      ensures var input := old(buffer) + MixToMono(data, channels);
        && ChunkSamples(chunks) == AllWindows(input, windowSize, windowSize)
        && Flatten(ChunkSamples(chunks)) + buffer == input
      ensures forall k :: 0 <= k < |chunks| ==> |chunks[k].samples| == windowSize
      ensures forall k :: 0 <= k < |chunks| ==> fresh(chunks[k].latency)
      ensures forall k :: 0 <= k < |chunks| ==> StampedAt(chunks[k].latency, now)
      ensures forall j, k :: 0 <= j < k < |chunks| ==> chunks[j].latency != chunks[k].latency
    {
      var latency := new LatencyMetrics.WithCallbackTimestamp(now);
      var monoSamples := MixToMono(data, channels);
      buffer := buffer + monoSamples;
      chunks := DrainChunks(latency, now);
    }

    /**
     * The `while buffer.len() >= window_size` loop: drains every complete
     * window, oldest first, each with its own copy of the latency record.
     */
    method DrainChunks(latency: LatencyMetrics, now: nat) returns (chunks: seq<Chunk>)
      requires windowSize > 0 && channels > 0 && StampedAt(latency, now)
      modifies this
      ensures Valid()
      ensures ChunkSamples(chunks) == AllWindows(old(buffer), windowSize, windowSize)
      ensures Flatten(ChunkSamples(chunks)) + buffer == old(buffer)
      ensures forall k :: 0 <= k < |chunks| ==> fresh(chunks[k].latency)
      ensures forall k :: 0 <= k < |chunks| ==> StampedAt(chunks[k].latency, now)
      ensures forall j, k :: 0 <= j < k < |chunks| ==> chunks[j].latency != chunks[k].latency
    {
      ghost var input := buffer;
      chunks := [];
      ghost var k: nat := 0;
      while |buffer| >= windowSize
        invariant k <= WindowCount(|input|, windowSize, windowSize)
        invariant k * windowSize <= |input| && buffer == input[k * windowSize..]
        invariant |chunks| == k
        invariant ChunkSamples(chunks) == AllWindows(input, windowSize, windowSize)[..k]
        invariant Flatten(ChunkSamples(chunks)) == input[..k * windowSize]
        invariant forall j :: 0 <= j < k ==> fresh(chunks[j].latency)
        invariant forall j :: 0 <= j < k ==> StampedAt(chunks[j].latency, now)
        invariant forall i, j :: 0 <= i < j < k ==> chunks[i].latency != chunks[j].latency
        decreases |buffer|
      {
        DrainStep(input, windowSize, k, ChunkSamples(chunks));
        var chunk := DrainWindow(latency);
        var samplesToProcess, latencyCopy := chunk.samples, chunk.latency;
        ChunkSamplesAppend(chunks, Chunk(samplesToProcess, latencyCopy));
        chunks := chunks + [Chunk(samplesToProcess, latencyCopy)];
        k := k + 1;
      }
      CountFits(|input|, windowSize, windowSize, k);
      assert AllWindows(input, windowSize, windowSize)[..k] == AllWindows(input, windowSize, windowSize);
      assert input == input[..k * windowSize] + input[k * windowSize..];
    }
  }

  /** `AudioRecorder`: the input stream, present while recording. */
  class Recorder {
    var stream: Option<SampleBuffer>

    /** `AudioRecorder::new`: not recording. */
    constructor ()
      ensures stream.None?
    {
      stream := None;
    }

    /**
     * `start`: refused with "Already recording" while a stream exists.
     * Otherwise the device setup either fails with its message, leaving no
     * stream, or yields a new stream with an empty buffer.
     */
    method Start(windowSize: nat, channels: nat, setupError: Option<string>) returns (r: Outcome)
      modifies this
      ensures old(stream).Some? ==> r == Err("Already recording") && stream == old(stream)
      ensures old(stream).None? && setupError.Some? ==> r == Err(setupError.value) && stream.None?
      ensures old(stream).None? && setupError.None? ==>
        && r == Ok && stream.Some? && fresh(stream.value)
        && stream.value.buffer == [] && stream.value.windowSize == windowSize
        && stream.value.channels == channels
    {
      if stream.Some? {
        return Err("Already recording");
      }
      if setupError.Some? {
        return Err(setupError.value);
      }
      var newStream := new SampleBuffer(windowSize, channels);
      stream := Some(newStream);
      r := Ok;
    }

    /** `stop`: drops any stream and always succeeds, so stopping twice is stopping once. */
    method Stop() returns (r: Outcome)
      modifies this
      ensures r == Ok && stream.None?
    {
      if stream.Some? {
        stream := None;
      }
      r := Ok;
    }
  }

  /** Starting twice keeps the first stream; stopping twice succeeds both times. */
  method StartStopExample() returns (first: Outcome, second: Outcome, stop1: Outcome, stop2: Outcome)
    ensures first == Ok && second == Err("Already recording")
    ensures stop1 == Ok && stop2 == Ok
  {
    var recorder := new Recorder();
    first := recorder.Start(1024, 2, None);
    second := recorder.Start(1024, 2, None);
    stop1 := recorder.Stop();
    stop2 := recorder.Stop();
  }
}

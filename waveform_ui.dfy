/**
 * `src/gui/waveform_ui.rs`: the samples behind the waveform plot.  The live
 * view keeps the last five seconds; a long slice is reduced to a minimum and
 * a maximum per chunk so that peaks stay visible in at most `2 * max_points`
 * values.  Plotting itself is not modelled.
 */
module WaveformUi {
  import opened Numerics
  import opened Windowing

  /** `MAX_POINTS`, and the `max_points` the live view passes. */
  const MaxPoints: nat := 2048

  /** The rate assumed when the recorder has not reported one. */
  const DefaultSampleRate: nat := 44100

  /** `usize::MAX` on a 64-bit target: what `inf as usize` saturates to. */
  const UsizeMax: nat := 0xFFFF_FFFF_FFFF_FFFF

  /** The smallest element, as `fold(f32::INFINITY, f32::min)` finds it. */
  function SeqMin(s: seq<real>): (m: real)
    requires |s| > 0
    ensures m in s
    ensures forall k :: 0 <= k < |s| ==> m <= s[k]
    decreases |s|
  {
    if |s| == 1 then s[0] else MinReal(SeqMin(s[..|s| - 1]), s[|s| - 1])
  }

  /** The largest element, as `fold(f32::NEG_INFINITY, f32::max)` finds it. */
  function SeqMax(s: seq<real>): (m: real)
    requires |s| > 0
    ensures m in s
    ensures forall k :: 0 <= k < |s| ==> s[k] <= m
    decreases |s|
  {
    if |s| == 1 then s[0] else MaxReal(SeqMax(s[..|s| - 1]), s[|s| - 1])
  }

  /**
   * `(len as f32 / max_points as f32).ceil() as usize`, in exact arithmetic:
   * the least chunk size whose `max_points` chunks cover the slice; a zero
   * `max_points` divides to infinity, which saturates to `usize::MAX`.
   */
  function ChunkSize(len: nat, maxPoints: nat): (size: nat)
    requires len > maxPoints
    ensures size > 0
    ensures maxPoints == 0 ==> size == UsizeMax
  {
    if maxPoints == 0 then UsizeMax else (len + maxPoints - 1) / maxPoints
  }

  /** The chunk size is the ceiling of `len / max_points`: `max_points` chunks cover the slice, one size less does not. */
  lemma ChunkSizeIsCeiling(len: nat, maxPoints: nat)
    requires len > maxPoints > 0
    ensures len <= ChunkSize(len, maxPoints) * maxPoints
    ensures (ChunkSize(len, maxPoints) - 1) * maxPoints < len
  {
    var size := ChunkSize(len, maxPoints);
    var t := len + maxPoints - 1;
    assert t == size * maxPoints + t % maxPoints;
    assert (size - 1) * maxPoints == size * maxPoints - maxPoints;
  }

  /** The minimum then the maximum of each chunk, in chunk order. */
  function MinMaxPairs(chunks: seq<seq<real>>): (r: seq<real>)
    requires forall k :: 0 <= k < |chunks| ==> |chunks[k]| > 0
    ensures |r| == 2 * |chunks|
    decreases |chunks|
  {
    if |chunks| == 0 then []
    else
      var last := chunks[|chunks| - 1];
      MinMaxPairs(chunks[..|chunks| - 1]) + [SeqMin(last), SeqMax(last)]
  }

  /** Pair `k` of the output is the minimum and the maximum of chunk `k`. */
  lemma {:induction false} MinMaxPairAt(chunks: seq<seq<real>>, k: nat)
    requires forall j :: 0 <= j < |chunks| ==> |chunks[j]| > 0
    requires k < |chunks|
    ensures MinMaxPairs(chunks)[2 * k] == SeqMin(chunks[k])
    ensures MinMaxPairs(chunks)[2 * k + 1] == SeqMax(chunks[k])
    decreases |chunks|
  {
    var n := |chunks| - 1;
    if k < n {
      MinMaxPairAt(chunks[..n], k);
      assert MinMaxPairs(chunks)[2 * k] == MinMaxPairs(chunks[..n])[2 * k];
      assert MinMaxPairs(chunks)[2 * k + 1] == MinMaxPairs(chunks[..n])[2 * k + 1];
    }
  }

  /** One more chunk adds its pair at the end. */
  lemma MinMaxPairsSnoc(chunks: seq<seq<real>>, i: nat)
    requires forall j :: 0 <= j < |chunks| ==> |chunks[j]| > 0
    requires i < |chunks|
    ensures MinMaxPairs(chunks[..i + 1]) == MinMaxPairs(chunks[..i]) + [SeqMin(chunks[i]), SeqMax(chunks[i])]
  {
    assert chunks[..i + 1][..i] == chunks[..i];
  }

  /** What `downsample_for_waveform` returns. */
  function Downsampled(samples: seq<real>, maxPoints: nat): seq<real>
  {
    if |samples| > maxPoints then MinMaxPairs(Chunks(samples, ChunkSize(|samples|, maxPoints)))
    else samples
  }

  /** `downsample_for_waveform`: one min/max pair pushed per `chunks(chunk)` run. */
  method DownsampleForWaveform(samples: seq<real>, maxPoints: nat) returns (down: seq<real>)
    ensures down == Downsampled(samples, maxPoints)
    ensures |samples| <= maxPoints ==> down == samples
    ensures |samples| > maxPoints ==> |down| == 2 * |Chunks(samples, ChunkSize(|samples|, maxPoints))|
  {
    if |samples| > maxPoints {
      var chunk := ChunkSize(|samples|, maxPoints);
      var chunks := Chunks(samples, chunk);
      down := [];
      for i := 0 to |chunks|
        invariant down == MinMaxPairs(chunks[..i])
      {
        var lo := SeqMin(chunks[i]);
        var hi := SeqMax(chunks[i]);
        down := down + [lo];
        down := down + [hi];
        MinMaxPairsSnoc(chunks, i);
      }
      assert chunks[..|chunks|] == chunks;
    } else {
      down := samples;
    }
  }

  /** The output never holds more than `2 * max_points` values (a positive `max_points`). */
  lemma DownsampledBounded(samples: seq<real>, maxPoints: nat)
    requires maxPoints > 0
    ensures |Downsampled(samples, maxPoints)| <= 2 * maxPoints
  {
    if |samples| > maxPoints {
      var size := ChunkSize(|samples|, maxPoints);
      var n := |Chunks(samples, size)|;
      ChunkCount(samples, size);
      ChunkSizeIsCeiling(|samples|, maxPoints);
      assert (n - 1) * size < maxPoints * size;
      CancelFactor(n - 1, maxPoints, size);
    }
  }

  lemma CancelFactor(a: int, b: int, c: int)
    requires c > 0 && a * c < b * c
    ensures a < b
  {
    assert (b - a) * c == b * c - a * c;
  }

  /** With `max_points` 0 the whole slice is one chunk: one min/max pair. */
  lemma ZeroMaxPointsOnePair(samples: seq<real>)
    requires 0 < |samples| <= UsizeMax
    ensures Downsampled(samples, 0) == [SeqMin(samples), SeqMax(samples)]
  {
    assert Chunks(samples, UsizeMax) == [samples];
  }

  /**
   * Every output pair is the minimum and maximum of its chunk: minimum at
   * most maximum, both drawn from the chunk, and the chunk lies between them.
   */
  lemma PairsBracketChunks(samples: seq<real>, maxPoints: nat, k: nat)
    requires |samples| > maxPoints
    requires k < |Chunks(samples, ChunkSize(|samples|, maxPoints))|
    ensures var c := Chunks(samples, ChunkSize(|samples|, maxPoints))[k];
      var down := Downsampled(samples, maxPoints);
      && down[2 * k] <= down[2 * k + 1]
      && down[2 * k] in c && down[2 * k + 1] in c
      && forall x :: x in c ==> down[2 * k] <= x <= down[2 * k + 1]
  {
    MinMaxPairAt(Chunks(samples, ChunkSize(|samples|, maxPoints)), k);
  }

  /**
   * No sample is lost from the picture: every sample lies in some chunk,
   * between that chunk's minimum and maximum in the output.
   */
  lemma EverySampleBracketed(samples: seq<real>, maxPoints: nat, i: nat)
    requires |samples| > maxPoints && i < |samples|
    ensures var chunks := Chunks(samples, ChunkSize(|samples|, maxPoints));
      var down := Downsampled(samples, maxPoints);
      exists k :: 0 <= k < |chunks| && samples[i] in chunks[k] && down[2 * k] <= samples[i] <= down[2 * k + 1]
  {
    var chunks := Chunks(samples, ChunkSize(|samples|, maxPoints));
    ChunksFlatten(samples, ChunkSize(|samples|, maxPoints));
    assert samples[i] in Flatten(chunks);
    FlattenMember(chunks, samples[i]);
    var k :| 0 <= k < |chunks| && samples[i] in chunks[k];
    PairsBracketChunks(samples, maxPoints, k);
  }

  /** Whatever is in the flattening is in one of the runs. */
  lemma {:induction false} FlattenMember<T>(runs: seq<seq<T>>, x: T)
    requires x in Flatten(runs)
    ensures exists k :: 0 <= k < |runs| && x in runs[k]
    decreases |runs|
  {
    assert |runs| > 0;
    if x !in runs[0] {
      FlattenMember(runs[1..], x);
      var k :| 0 <= k < |runs| - 1 && x in runs[1..][k];
      assert x in runs[k + 1];
    }
  }

  /** `max(sample_rate * 5, 1)` with `unwrap_or(44100)`: five seconds of samples, at least one. */
  function FiveSeconds(sampleRate: Option<nat>): (n: nat)
    ensures n >= 1
    ensures var rate := if sampleRate.Some? then sampleRate.value else DefaultSampleRate;
      n >= 5 * rate && (n == 1 || n == 5 * rate)
  {
    var rate := if sampleRate.Some? then sampleRate.value else DefaultSampleRate;
    if rate * 5 >= 1 then rate * 5 else 1
  }

  /** The live window: the last five seconds, or everything when the recording is shorter. */
  function LiveWindow(samples: seq<real>, sampleRate: Option<nat>): (w: seq<real>)
    ensures |w| == MinNat(|samples|, FiveSeconds(sampleRate))
    ensures w == samples[|samples| - |w|..]
  {
    var five := FiveSeconds(sampleRate);
    if |samples| > five then samples[|samples| - five..] else samples[..]
  }

  /**
   * `plot_live_waveform` up to the plot: nothing for an empty buffer, else
   * the live window downsampled to at most `2 * MAX_POINTS` values.
   */
  method LiveWaveform(samples: seq<real>, sampleRate: Option<nat>) returns (points: Option<seq<real>>)
    ensures points.None? <==> |samples| == 0
    ensures points.Some? ==> points.value == Downsampled(LiveWindow(samples, sampleRate), MaxPoints)
    ensures points.Some? ==> 0 < |points.value| <= 2 * MaxPoints
  {
    if |samples| == 0 {
      return None;
    }
    var window := LiveWindow(samples, sampleRate);
    var down := DownsampleForWaveform(window, MaxPoints);
    DownsampledBounded(window, MaxPoints);
    if |window| > MaxPoints {
      ChunkCount(window, ChunkSize(|window|, MaxPoints));
    }
    points := Some(down);
  }

  /** Three seconds at 44.1 kHz fit in the live window whole; ten seconds keep the last five. */
  lemma LiveWindowExamples(samples: seq<real>)
    ensures |samples| == 3 * 44100 ==> LiveWindow(samples, None) == samples
    ensures |samples| == 10 * 44100 ==> LiveWindow(samples, Some(44100)) == samples[5 * 44100..]
  {
  }
}

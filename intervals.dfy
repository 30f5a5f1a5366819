/**
 * `crates/learning-tools/src/intervals.rs`: the thirteen intervals from
 * unison to octave, their sizes in semitones, the learning order, and the
 * nearest interval to a fractional number of semitones.  `powf` and `log2`
 * are parameters.
 */
module Intervals {
  import opened Numerics
  import opened Decimal

  datatype Interval =
    | Unison | MinorSecond | MajorSecond | MinorThird | MajorThird | PerfectFourth | Tritone
    | PerfectFifth | MinorSixth | MajorSixth | MinorSeventh | MajorSeventh | Octave

  /** `Interval::all`: every interval, smallest first. */
  const All: seq<Interval> := [Unison, MinorSecond, MajorSecond, MinorThird, MajorThird, PerfectFourth,
                               Tritone, PerfectFifth, MinorSixth, MajorSixth, MinorSeventh, MajorSeventh, Octave]

  /** `Interval::learning_order`: the most useful intervals first. */
  const LearningOrder: seq<Interval> := [Octave, PerfectFifth, PerfectFourth, MajorThird, MinorThird, MajorSecond,
                                         MajorSixth, MinorSixth, MinorSeventh, MajorSeventh, Tritone, MinorSecond, Unison]

  /** `semitones`: unison 0 up to octave 12, and `all()` lists each interval at its own size. */
  function Semitones(i: Interval): (r: int)
    ensures 0 <= r <= 12 && All[r] == i
  {
    match i
    case Unison => 0
    case MinorSecond => 1
    case MajorSecond => 2
    case MinorThird => 3
    case MajorThird => 4
    case PerfectFourth => 5
    case Tritone => 6
    case PerfectFifth => 7
    case MinorSixth => 8
    case MajorSixth => 9
    case MinorSeventh => 10
    case MajorSeventh => 11
    case Octave => 12
  }

  /** Sizes name intervals one to one: no two intervals are the same size, and every size 0..12 is taken. */
  lemma SemitonesBijective()
    ensures forall a: Interval, b: Interval :: Semitones(a) == Semitones(b) ==> a == b
    ensures forall n :: 0 <= n <= 12 ==> Semitones(All[n]) == n
  {
    forall n | 0 <= n <= 12
      ensures Semitones(All[n]) == n
    {
      AllAtSize(n);
    }
  }

  lemma AllAtSize(n: int)
    requires 0 <= n <= 12
    ensures Semitones(All[n]) == n
  {
    assert All[n] in All;
  }

  /** `all()` is in strictly increasing order of size. */
  lemma AllIncreasing()
    ensures |All| == 13
    ensures forall j, k :: 0 <= j < k < |All| ==> Semitones(All[j]) < Semitones(All[k])
  {
    SemitonesBijective();
  }

  /**
   * The learning order is a rearrangement of `all()` that starts with the
   * octave and the fifth: thirteen entries, each interval among them, none twice.
   */
  lemma LearningOrderIsPermutation()
    ensures |LearningOrder| == |All| == 13
    ensures LearningOrder[0] == Octave && LearningOrder[1] == PerfectFifth
    ensures forall i: Interval :: i in LearningOrder
    ensures forall j, k :: 0 <= j < k < |LearningOrder| ==> LearningOrder[j] != LearningOrder[k]
  {
    forall i: Interval
      ensures i in LearningOrder
    {
      assert LearningOrder[LearningRank(i)] == i;
    }
  }

  /** Where each interval stands in the learning order. */
  function LearningRank(i: Interval): (k: nat)
    ensures k < |LearningOrder| && LearningOrder[k] == i
  {
    match i
    case Octave => 0
    case PerfectFifth => 1
    case PerfectFourth => 2
    case MajorThird => 3
    case MinorThird => 4
    case MajorSecond => 5
    case MajorSixth => 6
    case MinorSixth => 7
    case MinorSeventh => 8
    case MajorSeventh => 9
    case Tritone => 10
    case MinorSecond => 11
    case Unison => 12
  }

  /** `name`, which `Display` writes. */
  function Name(i: Interval): (r: string)
    ensures |r| > 0
  {
    match i
    case Unison => "Unison"
    case MinorSecond => "Minor 2nd"
    case MajorSecond => "Major 2nd"
    case MinorThird => "Minor 3rd"
    case MajorThird => "Major 3rd"
    case PerfectFourth => "Perfect 4th"
    case Tritone => "Tritone"
    case PerfectFifth => "Perfect 5th"
    case MinorSixth => "Minor 6th"
    case MajorSixth => "Major 6th"
    case MinorSeventh => "Minor 7th"
    case MajorSeventh => "Major 7th"
    case Octave => "Octave"
  }

  /** Every interval has its own name. */
  lemma NamesDistinct(a: Interval, b: Interval)
    requires Name(a) == Name(b)
    ensures a == b
  {
  }

  /** `apply_interval`: the base frequency times `2^(semitones / 12)`. */
  function ApplyInterval(pow2: real -> real, baseFreq: real, i: Interval): real
  {
    baseFreq * pow2(Semitones(i) as real / 12.0)
  }

  /** `calculate_interval_semitones`: 0 when either frequency is not positive, else `12 log2(f2 / f1)`. */
  function CalculateIntervalSemitones(log2: real -> real, freq1: real, freq2: real): (r: real)
    ensures freq1 <= 0.0 || freq2 <= 0.0 ==> r == 0.0
    ensures freq1 > 0.0 && freq2 > 0.0 ==> r == 12.0 * log2(freq2 / freq1)
  {
    if freq1 <= 0.0 || freq2 <= 0.0 then 0.0 else 12.0 * log2(freq2 / freq1)
  }

  /** The key `closest_interval` ranks by: `(|size - x| * 100) as i32`, truncated and saturated. */
  function DistanceKey(i: Interval, semitones: real): (k: int)
    ensures 0 <= k <= MaxI32
  {
    SaturatingKey(Abs(Semitones(i) as real - semitones) * 100.0)
  }

  /** `as i32` on a non-negative float: truncated, and saturated at `i32::MAX`. */
  function SaturatingKey(scaled: real): (k: int)
    requires scaled >= 0.0
    ensures 0 <= k <= MaxI32
  {
    if scaled >= MaxI32 as real then MaxI32 else scaled.Floor
  }

  /** `min_by_key`: the index of the first smallest key. */
  function FirstMinIndex(keys: seq<int>): (k: nat)
    requires |keys| > 0
    ensures k < |keys|
    ensures forall j :: 0 <= j < |keys| ==> keys[k] <= keys[j]
    ensures forall j :: 0 <= j < k ==> keys[k] < keys[j]
    decreases |keys|
  {
    if |keys| == 1 then 0
    else
      var k := FirstMinIndex(keys[..|keys| - 1]);
      if keys[|keys| - 1] < keys[k] then |keys| - 1 else k
  }

  /** The keys of all thirteen intervals, in `all()` order. */
  function Keys(semitones: real): (r: seq<int>)
    ensures |r| == |All|
    ensures forall j :: 0 <= j < |All| ==> r[j] == DistanceKey(All[j], semitones)
  {
    seq(|All|, j requires 0 <= j < |All| => DistanceKey(All[j], semitones))
  }

  /**
   * `closest_interval`: an interval with the smallest key, and on ties the
   * smallest such interval, since `all()` is in increasing order.
   */
  function ClosestInterval(semitones: real): (r: Interval)
    ensures forall i :: DistanceKey(r, semitones) <= DistanceKey(i, semitones)
    ensures forall i :: Semitones(i) < Semitones(r) ==> DistanceKey(r, semitones) < DistanceKey(i, semitones)
  {
    var keys := Keys(semitones);
    var k := FirstMinIndex(keys);
    SemitonesBijective();
    All[k]
  }

  /** The tests' examples: 0 is a unison, 4.1 a major third, 6.8 a fifth and 11.9 an octave. */
  lemma ClosestExamples()
    ensures ClosestInterval(0.0) == Unison
    ensures ClosestInterval(4.1) == MajorThird
    ensures ClosestInterval(6.8) == PerfectFifth
    ensures ClosestInterval(11.9) == Octave
  {
    ClosestWithinHalfSemitone(0.0, Unison);
    ClosestWithinHalfSemitone(4.1, MajorThird);
    ClosestWithinHalfSemitone(6.8, PerfectFifth);
    ClosestWithinHalfSemitone(11.9, Octave);
  }

  /** Within half a semitone of an interval, that interval is the closest. */
  lemma ClosestWithinHalfSemitone(semitones: real, i: Interval)
    requires Abs(Semitones(i) as real - semitones) < 0.5
    ensures ClosestInterval(semitones) == i
  {
    var r := ClosestInterval(semitones);
    if r != i {
      assert Semitones(r) != Semitones(i);
      KeyGap(semitones, i, r);
      assert false;
    }
  }

  /** Every other interval is at least half a semitone further away, so its key is larger. */
  lemma KeyGap(semitones: real, i: Interval, j: Interval)
    requires Abs(Semitones(i) as real - semitones) < 0.5
    requires Semitones(i) != Semitones(j)
    ensures DistanceKey(i, semitones) < DistanceKey(j, semitones)
  {
    DistinctSizesApart(Semitones(i), Semitones(j), semitones);
  }

  /**
   * A whole number other than the one within half a unit of `x` lies more
   * than half a unit away, and so keys above it.
   */
  lemma DistinctSizesApart(a: int, b: int, x: real)
    requires a != b && Abs(a as real - x) < 0.5
    ensures Abs(b as real - x) > 0.5
    ensures SaturatingKey(Abs(a as real - x) * 100.0) < SaturatingKey(Abs(b as real - x) * 100.0)
  {
    assert b as real - a as real >= 1.0 || a as real - b as real >= 1.0;
    KeySeparates(Abs(a as real - x) * 100.0, Abs(b as real - x) * 100.0);
  }

  /** A scaled distance under 50 keys below one over 50. */
  lemma KeySeparates(near: real, far: real)
    requires 0.0 <= near < 50.0 && far > 50.0
    ensures SaturatingKey(near) < SaturatingKey(far)
  {
  }
}

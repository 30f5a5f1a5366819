/**
 * `crates/learning-tools/src/interval_learning.rs`: interval exercises, how
 * a sung note is judged against the target, and the learning plan that
 * keeps one scheduler for ascending and one for descending intervals.
 *
 * The crate's `target_note` calls a three-argument `apply_interval` that
 * `intervals.rs` does not define; its tests ask for the base note moved up
 * or down by the interval, which is what `TargetNote` does.  Note
 * frequencies and `log2` are the parameter `Tuning`.
 */
module IntervalLearning {
  import opened Numerics
  import opened Notes
  import opened Intervals
  import opened SpacedRepetition

  datatype IntervalExercise = IntervalExercise(baseNote: Note, interval: Interval, ascending: bool)

  /** The signed size of the exercise: up for ascending, down for descending. */
  function SignedSemitones(e: IntervalExercise): int
  {
    if e.ascending then Semitones(e.interval) else -Semitones(e.interval)
  }

  /** `target_note`: the base note moved by the interval in the exercise's direction. */
  function TargetNote(e: IntervalExercise): (r: Note)
    ensures ToMidi(e.baseNote) + SignedSemitones(e) >= 0 ==>
      IntervalTo(e.baseNote, r) == SignedSemitones(e)
  {
    Transpose(e.baseNote, SignedSemitones(e))
  }

  /** The tests' targets: an octave up from A4 is A5 and an octave down from A5 is A4. */
  lemma TargetNoteExamples()
    ensures TargetNote(IntervalExercise(Note(A, 4), Octave, true)) == Note(A, 5)
    ensures TargetNote(IntervalExercise(Note(A, 5), Octave, false)) == Note(A, 4)
  {
    OctaveUpExample();
    OctaveDownExample();
  }

  lemma OctaveUpExample()
    ensures TargetNote(IntervalExercise(Note(A, 4), Octave, true)) == Note(A, 5)
  {
    var e := IntervalExercise(Note(A, 4), Octave, true);
    assert SignedSemitones(e) == 12 * 1;
    TransposeOctaves(Note(A, 4), 1);
  }

  lemma OctaveDownExample()
    ensures TargetNote(IntervalExercise(Note(A, 5), Octave, false)) == Note(A, 4)
  {
    var e := IntervalExercise(Note(A, 5), Octave, false);
    assert SignedSemitones(e) == 12 * -1;
    TransposeOctaves(Note(A, 5), -1);
  }

  /** `Note::to_frequency` and `f32::log2`, the floating-point maths the judgement uses. */
  datatype Tuning = Tuning(toFrequency: Note -> real, log2: real -> real)

  /** Equal temperament gives every note a positive frequency, and `log2(1) = 0`. */
  ghost predicate ValidTuning(t: Tuning)
  {
    && t.log2(1.0) == 0.0
    && forall n: Note :: t.toFrequency(n) > 0.0
  }

  /** The distance in cents, `1200 * |log2(produced / target)|`, when both frequencies are positive. */
  function CentsDiff(t: Tuning, produced: Note, target: Note): (c: real)
    requires t.toFrequency(target) > 0.0
    ensures c >= 0.0
  {
    1200.0 * Abs(t.log2(t.toFrequency(produced) / t.toFrequency(target)))
  }

  /** Both frequencies positive, the condition both judgements test first. */
  predicate Audible(t: Tuning, produced: Note, target: Note)
  {
    t.toFrequency(target) > 0.0 && t.toFrequency(produced) > 0.0
  }

  /** `check_response`: accepted exactly when within the tolerance, and never with a non-positive frequency. */
  function CheckResponse(t: Tuning, e: IntervalExercise, produced: Note, toleranceCents: real): (ok: bool)
    ensures ok <==> Audible(t, produced, TargetNote(e)) && CentsDiff(t, produced, TargetNote(e)) <= toleranceCents
  {
    var target := TargetNote(e);
    if !Audible(t, produced, target) then false
    else CentsDiff(t, produced, target) <= toleranceCents
  }

  /** The rating bands: 10, 25, 50 and 100 cents inclusive, then under 250, else a blackout. */
  function RateFromCents(cents: real): PerformanceRating
  {
    if cents <= 10.0 then Perfect
    else if cents <= 25.0 then Good
    else if cents <= 50.0 then Hesitant
    else if cents <= 100.0 then Difficult
    else if cents < 250.0 then Incorrect
    else Blackout
  }

  /** `rate_response`: a blackout when a frequency is not positive, else the band of the distance. */
  function RateResponse(t: Tuning, e: IntervalExercise, produced: Note): (r: PerformanceRating)
    ensures !Audible(t, produced, TargetNote(e)) ==> r == Blackout
    ensures Audible(t, produced, TargetNote(e)) ==> r == RateFromCents(CentsDiff(t, produced, TargetNote(e)))
  {
    var target := TargetNote(e);
    if !Audible(t, produced, target) then Blackout
    else RateFromCents(CentsDiff(t, produced, target))
  }

  /** A closer response is never rated worse. */
  lemma RateMonotone(closer: real, further: real)
    requires closer <= further
    ensures Quality(RateFromCents(further)) <= Quality(RateFromCents(closer))
  {
  }

  /**
   * With the default 50-cent tolerance a response is accepted exactly when
   * its rating counts as a success for the scheduler (quality 3 or more).
   */
  lemma CheckAgreesWithRating(t: Tuning, e: IntervalExercise, produced: Note)
    ensures CheckResponse(t, e, produced, 50.0) <==> Quality(RateResponse(t, e, produced)) >= 3
  {
  }

  /** Singing the exact target is accepted at any non-negative tolerance and rated Perfect. */
  lemma ExactTargetIsPerfect(t: Tuning, e: IntervalExercise, toleranceCents: real)
    requires ValidTuning(t) && toleranceCents >= 0.0
    ensures CheckResponse(t, e, TargetNote(e), toleranceCents)
    ensures RateResponse(t, e, TargetNote(e)) == Perfect
  {
    var target := TargetNote(e);
    assert t.toFrequency(target) > 0.0;
    assert t.toFrequency(target) / t.toFrequency(target) == 1.0;
  }

  /** `IntervalLearningConfig`: the base-note range, both directions or one, and the tolerance. */
  datatype IntervalLearningConfig = IntervalLearningConfig(
    noteRange: (Note, Note),
    practiceBothDirections: bool,
    toleranceCents: real)

  /** `IntervalLearningConfig::default`: A3 to A5, both directions, 50 cents. */
  const DefaultConfig: IntervalLearningConfig := IntervalLearningConfig((Note(A, 3), Note(A, 5)), true, 50.0)

  /** `generate_base_note`: the note at the truncated midpoint of the range's MIDI numbers. */
  function BaseNote(config: IntervalLearningConfig): (r: Note)
    ensures ToMidi(config.noteRange.0) >= 0 && ToMidi(config.noteRange.1) >= 0 ==>
      ToMidi(r) == (ToMidi(config.noteRange.0) + ToMidi(config.noteRange.1)) / 2
  {
    var midi := TruncDiv(ToMidi(config.noteRange.0) + ToMidi(config.noteRange.1), 2);
    if midi >= 0 then MidiRoundTrip(midi); FromMidi(midi) else FromMidi(midi)
  }

  /** Between A3 and A5 the base note is A4. */
  lemma DefaultBaseNote()
    ensures BaseNote(DefaultConfig) == Note(A, 4)
  {
    NoteRoundTrip(Note(A, 4));
  }

  /** `SchedulerStatistics` */
  datatype SchedulerStatistics = SchedulerStatistics(
    totalIntervals: nat,
    dueForReview: nat,
    masteredIntervals: nat,
    averageEasiness: real)

  /** `SchedulerStatistics::default` */
  const NoStatistics: SchedulerStatistics := SchedulerStatistics(0, 0, 0, 0.0)

  /** `LearningStatistics` */
  datatype LearningStatistics = LearningStatistics(
    ascending: SchedulerStatistics,
    descending: SchedulerStatistics,
    practiceBothDirections: bool)

  /** Items with three or more successes in a row. */
  function CountMastered<T>(items: seq<ReviewItem<T>>): (n: nat)
    ensures n <= |items|
    decreases |items|
  {
    if |items| == 0 then 0
    else CountMastered(items[..|items| - 1]) + (if items[|items| - 1].consecutiveCorrect >= 3 then 1 else 0)
  }

  /** None is mastered exactly when no item has three successes in a row, and all exactly when every item has. */
  lemma {:induction false} CountMasteredBounds<T>(items: seq<ReviewItem<T>>)
    ensures CountMastered(items) == 0 <==> forall k :: 0 <= k < |items| ==> items[k].consecutiveCorrect < 3
    ensures CountMastered(items) == |items| <==> forall k :: 0 <= k < |items| ==> items[k].consecutiveCorrect >= 3
    decreases |items|
  {
    if |items| > 0 {
      var init := items[..|items| - 1];
      CountMasteredBounds(init);
      assert forall k :: 0 <= k < |init| ==> init[k] == items[k];
    }
  }

  /** Counting the mastered items of a concatenation adds the counts. */
  lemma {:induction false} CountMasteredAppend<T>(a: seq<ReviewItem<T>>, b: seq<ReviewItem<T>>)
    ensures CountMastered(a + b) == CountMastered(a) + CountMastered(b)
    decreases |b|
  {
    if |b| > 0 {
      var b' := b[..|b| - 1];
      assert (a + b)[..|a + b| - 1] == a + b';
      assert (a + b)[|a + b| - 1] == b[|b| - 1];
      CountMasteredAppend(a, b');
    } else {
      assert a + b == a;
    }
  }

  /** The easiness of every item, in order. */
  function Easinesses<T>(items: seq<ReviewItem<T>>): (r: seq<real>)
    ensures |r| == |items|
    ensures forall k :: 0 <= k < |items| ==> r[k] == items[k].easiness
  {
    seq(|items|, k requires 0 <= k < |items| => items[k].easiness)
  }

  /** `calculate_scheduler_stats`: totals, due and mastered counts, mean easiness (0 with no items). */
  function SchedulerStats<T>(items: seq<ReviewItem<T>>, now: nat): (s: SchedulerStatistics)
    ensures s.totalIntervals == |items| && s.dueForReview == CountDue(items, now)
    ensures s.masteredIntervals == CountMastered(items) <= s.totalIntervals
    ensures |items| == 0 ==> s.averageEasiness == 0.0
    ensures |items| > 0 ==> s.averageEasiness * (|items| as real) == Sum(Easinesses(items))
  {
    var total := |items|;
    var average := if total > 0 then Sum(Easinesses(items)) / total as real else 0.0;
    SchedulerStatistics(total, CountDue(items, now), CountMastered(items), average)
  }

  /** While every item keeps its invariant, the mean easiness is at least the 1.3 floor. */
  lemma AverageEasinessAtLeastFloor<T>(items: seq<ReviewItem<T>>, now: nat)
    requires |items| > 0
    requires forall k :: 0 <= k < |items| ==> ValidItem(items[k])
    ensures SchedulerStats(items, now).averageEasiness >= MinEasiness
  {
    var es := Easinesses(items);
    EasinessFloorSum(es);
    var n := |items| as real;
    assert Sum(es) >= n * MinEasiness;
    assert Sum(es) / n >= MinEasiness;
  }

  lemma {:induction false} EasinessFloorSum(es: seq<real>)
    requires forall k :: 0 <= k < |es| ==> es[k] >= MinEasiness
    ensures Sum(es) >= (|es| as real) * MinEasiness
  {
    if |es| > 0 {
      EasinessFloorSum(es[1..]);
    }
  }

  /** New items have no mastery. */
  lemma NewItemsUnmastered<T>(values: seq<T>, now: nat)
    ensures CountMastered(NewItems(values, now)) == 0
  {
    NoMastery(NewItems(values, now));
  }

  lemma {:induction false} NoMastery<T>(items: seq<ReviewItem<T>>)
    requires forall k :: 0 <= k < |items| ==> items[k].consecutiveCorrect == 0
    ensures CountMastered(items) == 0
    decreases |items|
  {
    if |items| > 0 {
      NoMastery(items[..|items| - 1]);
    }
  }

  /** The sum of the review counts, which records one review at a time. */
  function TotalReviews<T>(items: seq<ReviewItem<T>>): nat
    decreases |items|
  {
    if |items| == 0 then 0 else TotalReviews(items[..|items| - 1]) + items[|items| - 1].totalReviews
  }

  /** Replacing one item by its reviewed form adds exactly one review to the total. */
  lemma {:induction false} TotalReviewsRecord<T>(items: seq<ReviewItem<T>>, k: nat, rating: PerformanceRating, now: nat)
    requires k < |items|
    ensures TotalReviews(items[k := RecordReview(items[k], rating, now)]) == TotalReviews(items) + 1
    decreases |items|
  {
    var items' := items[k := RecordReview(items[k], rating, now)];
    var last := |items| - 1;
    if k < last {
      assert items'[..last] == items[..last][k := RecordReview(items[k], rating, now)];
      TotalReviewsRecord(items[..last], k, rating, now);
    } else {
      assert items'[..last] == items[..last];
    }
  }

  /**
   * `record_exercise` on one scheduler: the next due item is reviewed, but
   * only when it is the exercise's interval; otherwise nothing changes.
   */
  function RecordedItems(items: seq<ReviewItem<Interval>>, interval: Interval, rating: PerformanceRating, now: nat)
    : (r: seq<ReviewItem<Interval>>)
    ensures |r| == |items|
    ensures forall k :: 0 <= k < |items| && NextDueIndex(items, now) != Some(k) ==> r[k] == items[k]
  {
    match NextDueIndex(items, now)
    case None => items
    case Some(k) => if items[k].item == interval then items[k := RecordReview(items[k], rating, now)] else items
  }

  /** `IntervalLearningPlan`: the two schedulers and the configuration. */
  class IntervalLearningPlan {
    const ascending: Scheduler<Interval>
    const descending: Scheduler<Interval>
    const config: IntervalLearningConfig

    ghost predicate Valid()
      reads this
    {
      ascending != descending
    }

    /**
     * `with_config`: every interval in learning order, due at once, in the
     * ascending scheduler, and in the descending one only with both directions.
     */
    constructor WithConfig(config: IntervalLearningConfig, now: nat)
      ensures Valid() && fresh(ascending) && fresh(descending)
      ensures this.config == config
      ensures ascending.items == NewItems(LearningOrder, now)
      ensures descending.items == if config.practiceBothDirections then NewItems(LearningOrder, now) else []
    {
      var up := new Scheduler<Interval>();
      var down := new Scheduler<Interval>();
      up.AddItems(LearningOrder, now);
      if config.practiceBothDirections {
        down.AddItems(LearningOrder, now);
      }
      ascending := up;
      descending := down;
      this.config := config;
    }

    /** `exercises_due`: due ascending items, plus due descending ones with both directions. */
    function ExercisesDue(now: nat): (n: nat)
      reads this, ascending, descending
      ensures n == CountDue(ascending.items, now) +
        (if config.practiceBothDirections then CountDue(descending.items, now) else 0)
    {
      CountDue(ascending.items, now) + (if config.practiceBothDirections then CountDue(descending.items, now) else 0)
    }

    /**
     * `next_exercise`: the next due ascending interval; failing that, the
     * next due descending one when both directions are practised; always
     * from the configured base note.
     */
    function NextExercise(now: nat): (r: Option<IntervalExercise>)
      reads this, ascending, descending
      ensures r.None? <==> ExercisesDue(now) == 0
      ensures r.Some? ==> r.value.baseNote == BaseNote(config)
      ensures r.Some? && r.value.ascending ==>
        NextDueIndex(ascending.items, now).Some? &&
        r.value.interval == ascending.items[NextDueIndex(ascending.items, now).value].item
      ensures r.Some? && !r.value.ascending ==>
        NextDueIndex(ascending.items, now).None? && config.practiceBothDirections &&
        NextDueIndex(descending.items, now).Some? &&
        r.value.interval == descending.items[NextDueIndex(descending.items, now).value].item
      ensures NextDueIndex(ascending.items, now).Some? ==> r.Some? && r.value.ascending
    {
      CountDueBounds(ascending.items, now);
      CountDueBounds(descending.items, now);
      match NextDueIndex(ascending.items, now)
      case Some(k) => Some(IntervalExercise(BaseNote(config), ascending.items[k].item, true))
      case None =>
        if config.practiceBothDirections then
          match NextDueIndex(descending.items, now)
          case Some(k) => Some(IntervalExercise(BaseNote(config), descending.items[k].item, false))
          case None => None
        else None
    }

    /**
     * `record_exercise`: reviews the next due item of the exercise's
     * direction when it is the exercise's interval; the other scheduler is
     * untouched.  Recording the exercise the plan proposed adds exactly one
     * review.
     */
    method RecordExercise(e: IntervalExercise, rating: PerformanceRating, now: nat)
      requires Valid()
      modifies ascending, descending
      ensures e.ascending ==> ascending.items == RecordedItems(old(ascending.items), e.interval, rating, now)
      ensures e.ascending ==> descending.items == old(descending.items)
      ensures !e.ascending ==> descending.items == RecordedItems(old(descending.items), e.interval, rating, now)
      ensures !e.ascending ==> ascending.items == old(ascending.items)
      ensures old(NextExercise(now)) == Some(e) ==>
        TotalReviews(ascending.items) + TotalReviews(descending.items) ==
        old(TotalReviews(ascending.items) + TotalReviews(descending.items)) + 1
    {
      ghost var proposed := NextExercise(now);
      var scheduler := if e.ascending then ascending else descending;
      NextDueIndexMutAgrees(scheduler.items, now);
      var next := NextDueIndexMut(scheduler.items, now);
      if next.Some? && scheduler.items[next.value].item == e.interval {
        TotalReviewsRecord(scheduler.items, next.value, rating, now);
        scheduler.RecordReviewAt(next.value, rating, now);
      }
    }

    /**
     * `record_exercise_with_note`: the produced note is rated against the
     * target, and the exercise is recorded with that rating.  Singing the
     * proposed exercise's exact target counts as one Perfect review.
     */
    method RecordExerciseWithNote(t: Tuning, e: IntervalExercise, produced: Note, now: nat)
      requires Valid()
      modifies ascending, descending
      ensures var rating := RateResponse(t, e, produced);
        && (e.ascending ==> ascending.items == RecordedItems(old(ascending.items), e.interval, rating, now))
        && (e.ascending ==> descending.items == old(descending.items))
        && (!e.ascending ==> descending.items == RecordedItems(old(descending.items), e.interval, rating, now))
        && (!e.ascending ==> ascending.items == old(ascending.items))
      ensures ValidTuning(t) && produced == TargetNote(e) ==> RateResponse(t, e, produced) == Perfect
      ensures old(NextExercise(now)) == Some(e) ==>
        TotalReviews(ascending.items) + TotalReviews(descending.items) ==
        old(TotalReviews(ascending.items) + TotalReviews(descending.items)) + 1
    {
      var rating := RateResponse(t, e, produced);
      if ValidTuning(t) && produced == TargetNote(e) {
        ExactTargetIsPerfect(t, e, 0.0);
      }
      RecordExercise(e, rating, now);
    }

    /** `get_statistics`: the descending side is the empty default when only one direction is practised. */
    function GetStatistics(now: nat): (s: LearningStatistics)
      reads this, ascending, descending
      ensures s.ascending == SchedulerStats(ascending.items, now)
      ensures s.descending == if config.practiceBothDirections then SchedulerStats(descending.items, now) else NoStatistics
      ensures s.practiceBothDirections == config.practiceBothDirections
    {
      LearningStatistics(
        SchedulerStats(ascending.items, now),
        if config.practiceBothDirections then SchedulerStats(descending.items, now) else NoStatistics,
        config.practiceBothDirections)
    }
  }

  /** `IntervalLearningPlan::new` */
  method NewPlan(now: nat) returns (plan: IntervalLearningPlan)
    ensures fresh(plan) && fresh(plan.ascending) && fresh(plan.descending) && plan.Valid()
    ensures plan.config == DefaultConfig
    ensures plan.ascending.items == NewItems(LearningOrder, now)
    ensures plan.descending.items == NewItems(LearningOrder, now)
  {
    plan := new IntervalLearningPlan.WithConfig(DefaultConfig, now);
  }

  /**
   * The tests' plan: 26 exercises due, 13 ascending intervals with none
   * mastered, and the first exercise the octave upwards from A4.
   */
  method NewPlanExample(now: nat) returns (plan: IntervalLearningPlan)
    ensures plan.ExercisesDue(now) == 26
    ensures plan.GetStatistics(now).ascending.totalIntervals == 13
    ensures plan.GetStatistics(now).ascending.masteredIntervals == 0
    ensures plan.NextExercise(now) == Some(IntervalExercise(Note(A, 4), Octave, true))
  {
    plan := NewPlan(now);
    NewItemsAllDue(LearningOrder, now);
    NewItemsUnmastered(LearningOrder, now);
    NewItemsFirstIsNext(LearningOrder, now);
    DefaultBaseNote();
  }

  /** With one direction the descending scheduler is empty, and so are its statistics. */
  method OneDirectionExample(now: nat) returns (plan: IntervalLearningPlan)
    ensures plan.GetStatistics(now).descending.totalIntervals == 0
    ensures !plan.GetStatistics(now).practiceBothDirections
    ensures plan.ExercisesDue(now) == 13
  {
    var config := IntervalLearningConfig((Note(C, 3), Note(C, 6)), false, 30.0);
    plan := new IntervalLearningPlan.WithConfig(config, now);
    NewItemsAllDue(LearningOrder, now);
  }
}

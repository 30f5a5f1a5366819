/**
 * `crates/gui/src/learning_pane.rs`: the interval-training session, a
 * four-state machine over the learning plan.  Pitch results arrive as the
 * sequence the channel holds when `update_pitch` drains it; the feedback
 * text is modelled by what it reports.
 */
module LearningPane {
  import opened Numerics
  import opened Notes
  import opened SpacedRepetition
  import opened IntervalLearning

  /** `LearningState` */
  datatype LearningState = Idle | ShowingExercise | Recording | ShowingFeedback

  /** `PitchResult`, as the pitch processor sends it. */
  datatype PitchResult = PitchResult(frequency: real, noteName: string, clarity: real)

  /** What `feedback_message` tells the user. */
  datatype Feedback =
    | NoMessage
    | ListenAndSing
    | AllReviewed
    | RecordingPrompt
    | Rated(rating: PerformanceRating, target: Note, sung: Note, sungFrequency: real)
    | NoClearNote
    | NoPitch

  /** The note `Note::from_frequency` derives from the latest pitch, if any. */
  function SungNote(midiOf: real -> int, pitch: Option<PitchResult>): (r: Option<Note>)
    ensures r.Some? <==> pitch.Some? && pitch.value.frequency > 0.0
  {
    if pitch.None? then None else FromFrequency(midiOf, pitch.value.frequency)
  }

  /** `LearningPane` */
  class Pane {
    const plan: IntervalLearningPlan
    var currentExercise: Option<IntervalExercise>
    var state: LearningState
    var userPitch: Option<PitchResult>
    var lastRating: Option<PerformanceRating>
    var statistics: LearningStatistics
    var feedback: Feedback

    /**
     * What every transition keeps: an exercise exists outside Idle, a
     * freshly shown exercise has no pitch and no rating, a rating appears
     * only with the feedback, and feedback is shown only for a heard pitch.
     */
    ghost predicate Valid()
      reads this, plan
    {
      && plan.Valid()
      && (state != Idle ==> currentExercise.Some?)
      && (state == ShowingExercise ==> userPitch.None? && lastRating.None?)
      && (state == Recording ==> lastRating.None?)
      && (state == ShowingFeedback ==> lastRating.Some? && userPitch.Some?)
    }

    /** `new`: idle over a default plan, with nothing shown and the plan's statistics. */
    constructor (now: nat)
      ensures Valid() && fresh(plan) && fresh(plan.ascending) && fresh(plan.descending)
      ensures plan.config == DefaultConfig
      ensures plan.ascending.items == NewItems(Intervals.LearningOrder, now)
      ensures plan.descending.items == NewItems(Intervals.LearningOrder, now)
      ensures state == Idle && currentExercise.None? && userPitch.None? && lastRating.None?
      ensures statistics == plan.GetStatistics(now) && feedback == NoMessage
    {
      var p := NewPlan(now);
      plan := p;
      currentExercise := None;
      state := Idle;
      userPitch := None;
      lastRating := None;
      statistics := p.GetStatistics(now);
      feedback := NoMessage;
    }

    /**
     * `start_exercise`: shows the plan's next exercise with pitch and
     * rating cleared, or returns to Idle when nothing is due.
     */
    method StartExercise(now: nat)
      requires Valid()
      modifies this
      ensures Valid()
      ensures statistics == old(statistics)
      ensures plan.NextExercise(now).Some? ==>
        && currentExercise == plan.NextExercise(now) && state == ShowingExercise
        && userPitch.None? && lastRating.None? && feedback == ListenAndSing
      ensures plan.NextExercise(now).None? ==>
        && state == Idle && feedback == AllReviewed && currentExercise == old(currentExercise)
        && userPitch == old(userPitch) && lastRating == old(lastRating)
    {
      var next := plan.NextExercise(now);
      if next.Some? {
        currentExercise := next;
        state := ShowingExercise;
        userPitch := None;
        lastRating := None;
        feedback := ListenAndSing;
      } else {
        feedback := AllReviewed;
        state := Idle;
      }
    }

    /** `start_recording`: only a shown exercise starts recording, with the pitch cleared. */
    method StartRecording()
      requires Valid()
      modifies this
      ensures Valid()
      ensures old(state) == ShowingExercise ==>
        && state == Recording && userPitch.None? && feedback == RecordingPrompt
        && currentExercise == old(currentExercise) && lastRating == old(lastRating)
        && statistics == old(statistics)
      ensures old(state) != ShowingExercise ==> unchanged(this)
    {
      if state == ShowingExercise {
        state := Recording;
        userPitch := None;
        feedback := RecordingPrompt;
      }
    }

    /**
     * `update_pitch`: while recording, drains every received result and
     * keeps the last; in any other state the channel is not read.
     */
    method UpdatePitch(received: seq<PitchResult>)
      requires Valid()
      modifies this
      ensures Valid()
      ensures old(state) == Recording && |received| > 0 ==> userPitch == Some(received[|received| - 1])
      ensures old(state) != Recording || |received| == 0 ==> userPitch == old(userPitch)
      ensures state == old(state) && currentExercise == old(currentExercise) && lastRating == old(lastRating)
      ensures statistics == old(statistics) && feedback == old(feedback)
    {
      if state == Recording {
        var latest := userPitch;
        var i := 0;
        while i < |received|
          invariant 0 <= i <= |received|
          invariant i == 0 ==> latest == old(userPitch)
          invariant i > 0 ==> latest == Some(received[i - 1])
        {
          latest := Some(received[i]);
          i := i + 1;
        }
        userPitch := latest;
      }
    }

    /**
     * `check_response`: outside Recording returns false and changes
     * nothing.  While recording it returns true; with a heard pitch that
     * gives a note it rates the note, records the rating in the plan,
     * refreshes the statistics and shows the feedback; otherwise it stays
     * in Recording with a message and leaves the plan alone.
     */
    method CheckResponse(t: Tuning, midiOf: real -> int, now: nat) returns (stop: bool)
      requires Valid()
      modifies this, plan.ascending, plan.descending
      ensures Valid()
      ensures stop <==> old(state) == Recording
      ensures old(state) != Recording ==> unchanged(this) && unchanged(plan.ascending, plan.descending)
      ensures old(state) == Recording && old(SungNote(midiOf, userPitch)).None? ==>
        && state == Recording && unchanged(plan.ascending, plan.descending)
        && feedback == (if old(userPitch).None? then NoPitch else NoClearNote)
        && currentExercise == old(currentExercise) && userPitch == old(userPitch)
        && lastRating == old(lastRating) && statistics == old(statistics)
      ensures old(state) == Recording && old(SungNote(midiOf, userPitch)).Some? ==>
        var e := old(currentExercise).value;
        var n := old(SungNote(midiOf, userPitch)).value;
        var rating := RateResponse(t, e, n);
        && state == ShowingFeedback && lastRating == Some(rating)
        && currentExercise == old(currentExercise) && userPitch == old(userPitch)
        && feedback == Rated(rating, TargetNote(e), n, old(userPitch).value.frequency)
        && (e.ascending ==> plan.ascending.items == RecordedItems(old(plan.ascending.items), e.interval, rating, now))
        && (e.ascending ==> plan.descending.items == old(plan.descending.items))
        && (!e.ascending ==> plan.descending.items == RecordedItems(old(plan.descending.items), e.interval, rating, now))
        && (!e.ascending ==> plan.ascending.items == old(plan.ascending.items))
        && statistics == plan.GetStatistics(now)
      ensures (old(state) == Recording && old(SungNote(midiOf, userPitch)).Some? &&
               old(plan.NextExercise(now)) == old(currentExercise)) ==>
        TotalReviews(plan.ascending.items) + TotalReviews(plan.descending.items) ==
        old(TotalReviews(plan.ascending.items) + TotalReviews(plan.descending.items)) + 1
    {
      if state != Recording {
        return false;
      }
      stop := true;
      // Recording always has an exercise (Valid), so the crate's `if let` on it always matches.
      var e := currentExercise.value;
      if userPitch.Some? {
        var note := FromFrequency(midiOf, userPitch.value.frequency);
        if note.Some? {
          ShowRating(t, e, note.value, now);
        } else {
          feedback := NoClearNote;
        }
      } else {
        feedback := NoPitch;
      }
    }

    /**
     * The heard-note branch of `check_response`: rates the sung note,
     * records the rating in the plan, refreshes the statistics and shows
     * the feedback.
     */
    method ShowRating(t: Tuning, e: IntervalExercise, sung: Note, now: nat)
      requires Valid() && state == Recording && currentExercise == Some(e) && userPitch.Some?
      modifies this, plan.ascending, plan.descending
      ensures Valid()
      ensures var rating := RateResponse(t, e, sung);
        && state == ShowingFeedback && lastRating == Some(rating)
        && currentExercise == old(currentExercise) && userPitch == old(userPitch)
        && feedback == Rated(rating, TargetNote(e), sung, userPitch.value.frequency)
        && (e.ascending ==> plan.ascending.items == RecordedItems(old(plan.ascending.items), e.interval, rating, now))
        && (e.ascending ==> plan.descending.items == old(plan.descending.items))
        && (!e.ascending ==> plan.descending.items == RecordedItems(old(plan.descending.items), e.interval, rating, now))
        && (!e.ascending ==> plan.ascending.items == old(plan.ascending.items))
        && statistics == plan.GetStatistics(now)
      ensures old(plan.NextExercise(now)) == Some(e) ==>
        TotalReviews(plan.ascending.items) + TotalReviews(plan.descending.items) ==
        old(TotalReviews(plan.ascending.items) + TotalReviews(plan.descending.items)) + 1
    {
      ghost var proposed := plan.NextExercise(now);
      var rating := RateResponse(t, e, sung);
      lastRating := Some(rating);
      assert plan.NextExercise(now) == proposed;
      plan.RecordExercise(e, rating, now);
      statistics := plan.GetStatistics(now);
      feedback := Rated(rating, TargetNote(e), sung, userPitch.value.frequency);
      state := ShowingFeedback;
    }

    /** `next_exercise`: the same as starting an exercise. */
    method NextExercise(now: nat)
      requires Valid()
      modifies this
      ensures Valid()
      ensures statistics == old(statistics)
      ensures plan.NextExercise(now).Some? ==>
        && currentExercise == plan.NextExercise(now) && state == ShowingExercise
        && userPitch.None? && lastRating.None? && feedback == ListenAndSing
      ensures plan.NextExercise(now).None? ==>
        && state == Idle && feedback == AllReviewed && currentExercise == old(currentExercise)
        && userPitch == old(userPitch) && lastRating == old(lastRating)
    {
      StartExercise(now);
    }

    /** `skip_exercise`: moves on without recording anything in the plan. */
    method SkipExercise(now: nat)
      requires Valid()
      modifies this
      ensures Valid()
      ensures statistics == old(statistics)
      ensures plan.NextExercise(now).Some? ==>
        && currentExercise == plan.NextExercise(now) && state == ShowingExercise
        && userPitch.None? && lastRating.None? && feedback == ListenAndSing
      ensures plan.NextExercise(now).None? ==>
        && state == Idle && feedback == AllReviewed && currentExercise == old(currentExercise)
        && userPitch == old(userPitch) && lastRating == old(lastRating)
    {
      StartExercise(now);
    }

    /** `should_be_recording`: exactly in Recording, when an exercise is open and not yet rated. */
    function ShouldBeRecording(): (r: bool)
      requires Valid()
      reads this, plan
      ensures r <==> state == Recording
      ensures r ==> currentExercise.Some? && lastRating.None?
    {
      state == Recording
    }
  }

  /**
   * A session on a new pane: the first exercise is the octave up from A4,
   * recording starts, and checking with no pitch heard keeps recording,
   * says so, and leaves the plan as it was.
   */
  method SessionWithoutPitch(t: Tuning, midiOf: real -> int, now: nat) returns (pane: Pane, stop: bool)
    ensures stop
    ensures pane.Valid()
    ensures pane.state == Recording && pane.feedback == NoPitch
    ensures pane.currentExercise == Some(IntervalExercise(Note(A, 4), Intervals.Octave, true))
    ensures pane.plan.ascending.items == NewItems(Intervals.LearningOrder, now)
  {
    pane := new Pane(now);
    pane.StartExercise(now);
    var first := NewPlanFirstExercise(pane.plan, now);
    pane.StartRecording();
    stop := pane.CheckResponse(t, midiOf, now);
  }

  /** The default plan's first exercise, as the tests expect it. */
  method NewPlanFirstExercise(plan: IntervalLearningPlan, now: nat) returns (e: IntervalExercise)
    requires plan.config == DefaultConfig
    requires plan.ascending.items == NewItems(Intervals.LearningOrder, now)
    ensures plan.NextExercise(now) == Some(e)
    ensures e == IntervalExercise(Note(A, 4), Intervals.Octave, true)
  {
    NewItemsFirstIsNext(Intervals.LearningOrder, now);
    DefaultBaseNote();
    e := plan.NextExercise(now).value;
  }
}

# pitch-perfecter, modelled in Dafny

pitch-perfecter is a singing-practice tool. It records the voice, cleans the
signal, detects the sung pitch frame by frame, names the nearest note, and
drills musical intervals on a spaced-repetition schedule. This project models
the logic around the signal maths, and proves what that logic promises:

- **Cleaning.** The soft spectral gate of `SpectralGate` and its smoothed
  noise profile; the older hard gate that zeroes quiet bins; choosing a quiet
  noise window from the 200–1500 ms slice; mean, RMS and standard deviation.
- **Spectra.** The spectrum and spectrogram shapes, the log spectrogram, peak
  picking with `max_by` ties, and the lazily cached before/after comparison of
  a filter.
- **Windowing.** The sliding-window iterators of both audio types, strided
  chunks, the recorder's mono mix-down and drain loop, and the frame loops that
  feed the pitch detector.
- **Pitch tracks.** One entry per frame, with 0.0 where the detector finds
  nothing, and the analysis of the latest frame.
- **Latency.** The record of optional instants and the durations derived from
  them.
- **Music and learning.** Notes and MIDI numbers, note names and their parser,
  intervals, the SM-2 style review update and scheduler, the interval-learning
  plan, and the learning pane's session state machine.
- **Waveform view.** The min/max downsampling and the last-five-seconds window.

Samples are `real`. The library calls that have no exact definition are fields
of `Numerics.Maths`: the square root, the forward and inverse FFT, `powf`,
`log10` and the `fundsp` band-pass. `Numerics.ValidMaths` states the facts the
code relies on about them: lengths, signs, and the FFT round trip within 1e-5.
The other such calls are function parameters: the hz-to-MIDI rounding,
`Note::to_frequency` with `log2` (`IntervalLearning.Tuning`), and the YIN
detector (`Detection.Yin`). Time is a parameter `now`, counted in nanoseconds.
Rust's truncating `/` and `%` and its saturating `as usize` casts are written
out in `Numerics`.

Where the source changes state in place, the model does too. That covers the
iterators, the recorder buffer, the latency record, the spectral gate, the
comparison cache, the schedulers, the learning plan and the learning pane.
These are classes whose methods declare `modifies` and are proved against
specification functions.

The repository is mid-refactor, and some of its files do not compile against
each other. Each file is modelled by its own evident behaviour:

- `crates/learning-tools/src/interval_learning.rs` calls `apply_interval`
  with three arguments, but `intervals.rs` defines it with two over
  frequencies. `target_note` is modelled as a transposition by the interval's
  semitones, up or down, which is what its tests expect.
- `src/signal_cleaning.rs` (line 12) and `src/signal/cleaning.rs` (line 12)
  both import a `Spectrum` from `crate::signal_processing`, and
  `src/signal_processing.rs` does not define one; both models use the
  `Spectrum` of `src/signal/types.rs` and the `compute_spectrum` of
  `src/signal/processing.rs`, which returns it.
- `src/audio_analysis.rs` names a `PitchTrackerConfig`, but `src/track_pitch.rs`
  defines `TrackPitchConfig`; the latter is used.
- The crate's own `Spectrum` type in `crates/audio-cleaning/src/types.rs` is
  not part of this model; `SignalTypes.Spectrum` stands in for it.

## Model

| member | source | states |
|---|---|---|
| Numerics.CastToUsize | crates/audio-cleaning/src/cleaning.rs:165-166 | an f32-to-usize cast: 0 at or below zero, otherwise the whole part of the value |
| Numerics.TruncDiv | crates/learning-tools/src/note.rs:131 | signed division rounds toward zero: the remainder has the dividend's sign and is smaller than the divisor |
| Numerics.TruncMod | crates/learning-tools/src/note.rs:132 | signed remainder: quotient times divisor plus remainder gives back the dividend, with the remainder on the dividend's side of zero |
| Numerics.Norm | crates/audio-cleaning/src/spectral_gating.rs:156 | the modulus of a bin is never negative |
| Numerics.NormZero | crates/audio-cleaning/src/cleaning.rs:145 | a zeroed bin has modulus 0 |
| Numerics.NormScale | crates/audio-cleaning/src/spectral_gating.rs:168-171 | `Scale` is the `Complex32::new(re * gain, im * gain)` of the gate; scaling a bin by a non-negative gain scales its modulus by the same gain |
| Notes.SemitoneOffset | crates/learning-tools/src/note.rs:28-43 | each pitch class sits at its own offset 0..11 from C, in chromatic order |
| Notes.FromSemitoneOffset | crates/learning-tools/src/note.rs:46-62 | the class returned for any offset, negative included, is the one whose offset is `offset.rem_euclid(12)` |
| Notes.OffsetRoundTrip | crates/learning-tools/src/note.rs:28-62 | `from_semitone_offset(semitone_offset(p)) == p` for every class |
| Notes.OffsetPeriodic | crates/learning-tools/src/note.rs:46-62 | offsets 12 apart give the same class (the 12 to C and 21 to A cases of the tests) |
| Notes.Name | crates/learning-tools/src/note.rs:65-80 | a name is one letter A..G, optionally followed by '#' |
| Notes.Flat | crates/learning-tools/src/note.rs:83-99 | the five flat spellings are a letter followed by 'b' |
| Notes.ParsePitchClass | crates/learning-tools/src/note.rs:83-99 | parsing yields `p` exactly when the text is `p`'s sharp name or its flat spelling; anything else is `None` |
| Notes.ParsePitchClassNeedsAccidental | crates/learning-tools/src/note.rs:83-99 | a two-character name whose second character is neither '#' nor 'b' is rejected |
| Notes.ToMidi | crates/learning-tools/src/note.rs:125-127 | `(octave + 1) * 12 + offset` has the class's offset as its residue mod 12, and is non-negative from octave -1 up |
| Notes.FromMidiPitchClass | crates/learning-tools/src/note.rs:130-134 | `from_midi`, with Rust's truncating `/` and `%`, picks the class of `midi.rem_euclid(12)`, for negative numbers too |
| Notes.MidiRoundTrip | crates/learning-tools/src/note.rs:125-134 | `to_midi(from_midi(m)) == m` for every MIDI number from 0 |
| Notes.NoteRoundTrip | crates/learning-tools/src/note.rs:125-134 | `from_midi(to_midi(n)) == n` for every note from octave -1 up |
| Notes.NegativeMidiOffByOctave | crates/learning-tools/src/note.rs:130-134 | below 0 (except multiples of 12) the truncating octave makes the round trip land one octave (12) high |
| Notes.MinusOneComesBackAsEleven | crates/learning-tools/src/note.rs:130-134 | MIDI -1 becomes B-1, whose MIDI number is 11 |
| Notes.Transpose | crates/learning-tools/src/note.rs:180-183 | transposing moves the MIDI number by exactly the given semitones whenever the result is not below MIDI 0 |
| Notes.TransposeOctaves | crates/learning-tools/src/note.rs:180-183 | a multiple of 12 semitones keeps the class and moves the octave (A4 to A5 and A3 in the tests) |
| Notes.IntervalTo | crates/learning-tools/src/note.rs:186-188 | the interval is zero exactly for equal MIDI numbers and positive exactly when the other note is higher |
| Notes.IntervalAntisymmetric | crates/learning-tools/src/note.rs:186-188 | the interval from b to a is minus the interval from a to b (12 and -12 in the tests) |
| Notes.IntervalToTranspose | crates/learning-tools/src/note.rs:180-188 | the interval to a transposed note (at or above MIDI 0) is the transposition |
| Notes.Display | crates/learning-tools/src/note.rs:191-195 | the text starts with the class letter and holds at least the letter and one octave digit |
| Notes.Parse | crates/learning-tools/src/note.rs:137-159 | inputs under two characters give `None`; a result is a two-character class plus an i32 octave (tried first, when at least 3 characters) or a one-character class plus an i32 octave |
| Notes.ParseDisplay | crates/learning-tools/src/note.rs:137-159 | parsing a note's display gives the note back, for every i32 octave (negative ones included) |
| Notes.ParseExamples | crates/learning-tools/src/note.rs:246-257 | "A4", "C#5" and "Bb3" parse to A4, C#5 and A#3 |
| Notes.FlatParsesLikeSharp | crates/learning-tools/src/note.rs:137-159 | a flat spelling followed by an octave parses exactly as the sharp name followed by the same octave |
| Notes.ParseRejectsUnknownLetter | crates/learning-tools/src/note.rs:137-159 | a text that does not start with a letter A..G never parses ("X4" in the tests) |
| Notes.FromFrequency | crates/learning-tools/src/note.rs:168-174 | no note at or below 0 Hz; otherwise the note of the rounded MIDI number |
| Decimal.NatToString | crates/learning-tools/src/note.rs:191-195 | the decimal digits of a natural number: all digits, no leading zero |
| Decimal.IntToString | crates/learning-tools/src/note.rs:191-195 | the octave as `{}` writes an integer: a leading '-' exactly for negative numbers, digits otherwise |
| Decimal.ParseI32 | crates/learning-tools/src/note.rs:145-146 | `parse::<i32>` accepts only in-range values, rejects the empty text, and demands a sign or digit first |
| Decimal.NatToStringRoundTrip | crates/learning-tools/src/note.rs:191-195 | reading the written digits back gives the number |
| Decimal.ParseDisplayRoundTrip | crates/learning-tools/src/note.rs:145-146 | `parse::<i32>` reads back every i32 that `{}` writes |
| Decimal.IntToStringInjective | crates/learning-tools/src/note.rs:191-195 | different integers are written differently |
| MusicNotation.NameIndex | crates/pitch-detection/src/music_notation.rs:9 | the `rem_euclid(12)` lookup is always a valid index of the twelve names, congruent to the MIDI number |
| MusicNotation.HzToNoteName | src/music_notation.rs:2-12 | "N/A" at or below 0 Hz; otherwise the name of the rounded MIDI number (`src/music_notation.rs` has the same body) |
| MusicNotation.MidiNameIsNoteDisplay | crates/pitch-detection/src/music_notation.rs:7-11 | the name of every MIDI number, negative ones included, is the `Display` of `Note::from_midi` of that number |
| MusicNotation.NameDeterminesMidi | crates/pitch-detection/src/music_notation.rs:9-10 | from MIDI 0 up, index and octave rebuild the MIDI number |
| MusicNotation.MidiNameInjective | crates/pitch-detection/src/music_notation.rs:7-11 | from MIDI 0 up, different MIDI numbers get different names |
| MusicNotation.NamesDetermineNotes | crates/learning-tools/src/note.rs:191-195 | two notes with the same display text are the same note |
| MusicNotation.NegativeMidiSharesName | crates/pitch-detection/src/music_notation.rs:10 | the truncating octave names MIDI -1 "B-1", which is also the name of MIDI 11 |
| MusicNotation.NameExamples | crates/pitch-detection/src/music_notation.rs:20-39 | the tests' names A4, C4, E4, A5, A2, A0, C#4, D#4 and A#4 for their MIDI numbers |
| MusicNotation.NonPositiveIsNotANote | crates/pitch-detection/src/music_notation.rs:24-25 | 0 Hz and -10 Hz give "N/A" whatever the rounding |
| Intervals.Semitones | crates/learning-tools/src/intervals.rs:41-57 | each interval's size is 0..12, and `all()` lists it at the index of its size |
| Intervals.SemitonesBijective | crates/learning-tools/src/intervals.rs:41-57 | sizes and intervals correspond one to one over 0..12 |
| Intervals.AllAtSize | crates/learning-tools/src/intervals.rs:99-115 | the interval at index n of `all()` is n semitones |
| Intervals.AllIncreasing | crates/learning-tools/src/intervals.rs:99-115 | `all()` holds 13 intervals in strictly increasing size |
| Intervals.LearningOrderIsPermutation | crates/learning-tools/src/intervals.rs:80-96 | the learning order holds each of the 13 intervals exactly once, octave then fifth first |
| Intervals.LearningRank | crates/learning-tools/src/intervals.rs:80-96 | every interval has a position in the learning order |
| Intervals.Name | crates/learning-tools/src/intervals.rs:60-76 | every interval has a non-empty name |
| Intervals.NamesDistinct | crates/learning-tools/src/intervals.rs:60-76 | no two intervals share a name |
| Intervals.CalculateIntervalSemitones | crates/learning-tools/src/intervals.rs:144-149 | 0 when either frequency is not positive, else 12 times the base-2 logarithm of the ratio |
| Intervals.DistanceKey | crates/learning-tools/src/intervals.rs:162-164 | the ranking key lies in 0..i32::MAX (the `as i32` cast truncates and saturates) |
| Intervals.FirstMinIndex | crates/learning-tools/src/intervals.rs:160-165 | `min_by_key` picks a smallest key, and the first one among equals |
| Intervals.Keys | crates/learning-tools/src/intervals.rs:159-164 | the keys of `all()`, one per interval in order |
| Intervals.ClosestInterval | crates/learning-tools/src/intervals.rs:158-166 | no interval has a smaller key than the result, and every smaller interval has a strictly larger key (ties go to the smaller interval) |
| Intervals.ClosestExamples | crates/learning-tools/src/intervals.rs:220-225 | 0, 4.1, 6.8 and 11.9 semitones are closest to unison, major third, fifth and octave |
| Intervals.ClosestWithinHalfSemitone | crates/learning-tools/src/intervals.rs:158-166 | within half a semitone of an interval's size, that interval is the closest |
| Intervals.KeyGap | crates/learning-tools/src/intervals.rs:162-164 | an interval within half a semitone keys strictly below every interval of another size |
| SpacedRepetition.Quality | crates/learning-tools/src/spaced_repetition.rs:27-36 | every rating scores between 0 and 5 |
| SpacedRepetition.QualityOrder | crates/learning-tools/src/spaced_repetition.rs:10-36 | Blackout to Perfect score 0, 1, 2, 3, 4, 5 in declaration order, and no two ratings share a score |
| SpacedRepetition.NewItem | crates/learning-tools/src/spaced_repetition.rs:58-67 | a new item holds the value, easiness 2.5, no streak, interval 0, no reviews, and is due at once |
| SpacedRepetition.EasinessDeltas | crates/learning-tools/src/spaced_repetition.rs:80-81 | the easiness change per rating: +0.1 for Perfect, 0 for Good, down to -0.8 for a blackout |
| SpacedRepetition.RecordReview | crates/learning-tools/src/spaced_repetition.rs:75-101 | a review counts once more, sets easiness to old plus the rating's delta floored at 1.3, resets streak and interval to 0 (due now) below quality 3, adds one to the streak otherwise, and schedules the next review at now plus the new interval's whole seconds in nanoseconds, never before now |
| SpacedRepetition.SuccessProgression | crates/learning-tools/src/spaced_repetition.rs:88-96 | after a success the interval is 1 day for the first in a row, 6 days for the second, then the old interval times the new easiness |
| SpacedRepetition.RecordReviewValid | crates/learning-tools/src/spaced_repetition.rs:75-101 | every review keeps the item invariant: easiness at least 1.3, interval 0 with no streak, 1 after one success, at least 6 after two or more |
| SpacedRepetition.SuccessNeverShortens | crates/learning-tools/src/spaced_repetition.rs:88-100 | a successful review never shortens the interval and schedules the next review at least a day ahead |
| SpacedRepetition.EasinessMonotone | crates/learning-tools/src/spaced_repetition.rs:80-81 | a better rating never leaves a lower easiness than a worse one |
| SpacedRepetition.GoodProgressionExample | crates/learning-tools/src/spaced_repetition.rs:276-291 | three Good reviews of a new item give intervals of 1, 6 and 15 days with easiness staying 2.5 |
| SpacedRepetition.CountDue | crates/learning-tools/src/spaced_repetition.rs:171-173 | the due count never exceeds the number of items |
| SpacedRepetition.CountDueBounds | crates/learning-tools/src/spaced_repetition.rs:171-173 | the count is 0 exactly when no item is due, and the item count exactly when every item is due |
| SpacedRepetition.CountDueAppend | crates/learning-tools/src/spaced_repetition.rs:171-173 | the count over two concatenated lists is the sum of their counts |
| SpacedRepetition.DueItems | crates/learning-tools/src/spaced_repetition.rs:158-163 | as many items as the due count, every one due and taken from the scheduler, and every due item present |
| SpacedRepetition.DueItemsAppend | crates/learning-tools/src/spaced_repetition.rs:158-163 | the due items of two concatenated lists are those of the first followed by those of the second, so the scheduler's order is kept |
| SpacedRepetition.DueItemsSingle | crates/learning-tools/src/spaced_repetition.rs:158-163 | a single item is kept exactly when it is due |
| SpacedRepetition.TimeUntilReview | crates/learning-tools/src/spaced_repetition.rs:104-108 | an error exactly once the review time has passed; otherwise the time that, added to now, reaches the review time |
| SpacedRepetition.TimeUntilRecordedReview | crates/learning-tools/src/spaced_repetition.rs:75-108 | right after a review, the time left is the new interval's whole seconds in nanoseconds |
| SpacedRepetition.NextDueIndex | crates/learning-tools/src/spaced_repetition.rs:136-141 | None exactly when nothing is due; otherwise a due item whose review time is least among the due items, the first such on ties |
| SpacedRepetition.EarliestDueTime | crates/learning-tools/src/spaced_repetition.rs:145-150 | None exactly when nothing is due; otherwise the least review time of the due items, attained by one of them |
| SpacedRepetition.FindDueAt | crates/learning-tools/src/spaced_repetition.rs:152-154 | the first index at or after the start holding a due item at the given time, or None when there is none |
| SpacedRepetition.NextDueIndexMutAgrees | crates/learning-tools/src/spaced_repetition.rs:136-155 | the mutable lookup picks exactly the item the shared lookup returns |
| SpacedRepetition.Scheduler.constructor | crates/learning-tools/src/spaced_repetition.rs:119-121 | a new scheduler holds no items |
| SpacedRepetition.Scheduler.AddItem | crates/learning-tools/src/spaced_repetition.rs:124-126 | appends one new item, due at once, and changes nothing else |
| SpacedRepetition.Scheduler.AddItems | crates/learning-tools/src/spaced_repetition.rs:129-133 | appends one new item per value, in order |
| SpacedRepetition.Scheduler.RecordReviewAt | crates/learning-tools/src/spaced_repetition.rs:75-101 | only the chosen item changes, by a review |
| SpacedRepetition.NewItems | crates/learning-tools/src/spaced_repetition.rs:129-133 | one new item per value, at the same position |
| SpacedRepetition.NewItemsAllDue | crates/learning-tools/src/spaced_repetition.rs:245-253 | every item just added is due, so the due count equals the number added |
| SpacedRepetition.NewItemsFirstIsNext | crates/learning-tools/src/spaced_repetition.rs:255-263 | with only new items, the next due item is the first one added |
| IntervalLearning.TargetNote | crates/learning-tools/src/interval_learning.rs:32-34 | the target lies exactly the exercise's interval above the base note when ascending and below it when descending (whenever the target is at or above MIDI 0) |
| IntervalLearning.TargetNoteExamples | crates/learning-tools/src/interval_learning.rs:310-326 | an octave up from A4 is A5 and an octave down from A5 is A4 |
| IntervalLearning.OctaveUpExample | crates/learning-tools/src/interval_learning.rs:310-317 | an octave up from A4 is A5 |
| IntervalLearning.OctaveDownExample | crates/learning-tools/src/interval_learning.rs:319-326 | an octave down from A5 is A4 |
| IntervalLearning.CentsDiff | crates/learning-tools/src/interval_learning.rs:53 | the distance in cents is never negative |
| IntervalLearning.CheckResponse | crates/learning-tools/src/interval_learning.rs:44-55 | a response is accepted exactly when both frequencies are positive and the distance in cents is within the tolerance |
| IntervalLearning.RateResponse | crates/learning-tools/src/interval_learning.rs:64-83 | a blackout when either frequency is not positive; otherwise the band of the distance: 10, 25, 50 and 100 cents inclusive, under 250, else a blackout |
| IntervalLearning.RateMonotone | crates/learning-tools/src/interval_learning.rs:75-82 | a closer response never gets a lower quality score |
| IntervalLearning.CheckAgreesWithRating | crates/learning-tools/src/interval_learning.rs:44-83 | at the default 50-cent tolerance, a response is accepted exactly when its rating is a success for the scheduler (quality 3 or more) |
| IntervalLearning.ExactTargetIsPerfect | crates/learning-tools/src/interval_learning.rs:328-371 | singing the exact target is accepted at any non-negative tolerance and rated Perfect |
| IntervalLearning.BaseNote | crates/learning-tools/src/interval_learning.rs:239-247 | the base note's MIDI number is the truncated midpoint of the range's two MIDI numbers |
| IntervalLearning.DefaultBaseNote | crates/learning-tools/src/interval_learning.rs:97-106 | between the default A3 and A5 the base note is A4 |
| IntervalLearning.CountMastered | crates/learning-tools/src/interval_learning.rs:219-222 | there are never more mastered items than items |
| IntervalLearning.CountMasteredBounds | crates/learning-tools/src/interval_learning.rs:219-222 | the count is 0 exactly when no item has three successes in a row, and the item count exactly when every item has |
| IntervalLearning.CountMasteredAppend | crates/learning-tools/src/interval_learning.rs:219-222 | the count over two concatenated lists is the sum of their counts |
| IntervalLearning.Easinesses | crates/learning-tools/src/interval_learning.rs:225 | the easiness of each item, in the same order |
| IntervalLearning.SchedulerStats | crates/learning-tools/src/interval_learning.rs:213-236 | the statistics hold the item count, the due count and the mastered count (at most the total); with items the mean easiness times the item count is the sum of the easiness factors, and with none it is 0 |
| IntervalLearning.AverageEasinessAtLeastFloor | crates/learning-tools/src/interval_learning.rs:224-228 | when every item keeps its invariant, the mean easiness is at least the 1.3 floor |
| IntervalLearning.NewItemsUnmastered | crates/learning-tools/src/interval_learning.rs:434-441 | items just added have no mastery |
| IntervalLearning.TotalReviewsRecord | crates/learning-tools/src/interval_learning.rs:168-180 | reviewing one item adds exactly one to the total number of reviews |
| IntervalLearning.RecordedItems | crates/learning-tools/src/interval_learning.rs:169-179 | recording changes no item other than the next due one |
| IntervalLearning.IntervalLearningPlan.WithConfig | crates/learning-tools/src/interval_learning.rs:125-142 | the ascending scheduler holds every interval in learning order, due at once; the descending one holds the same only when both directions are practised, and is empty otherwise |
| IntervalLearning.IntervalLearningPlan.ExercisesDue | crates/learning-tools/src/interval_learning.rs:255-263 | the due ascending items, plus the due descending ones only when both directions are practised |
| IntervalLearning.IntervalLearningPlan.NextExercise | crates/learning-tools/src/interval_learning.rs:145-161 | None exactly when nothing is due; otherwise the configured base note with the next due ascending interval, or, only when nothing ascending is due and both directions are practised, the next due descending interval |
| IntervalLearning.IntervalLearningPlan.RecordExercise | crates/learning-tools/src/interval_learning.rs:168-180 | reviews the next due item of the exercise's direction only when it is the exercise's interval, leaves the other direction alone, and adds exactly one review when the exercise is the one the plan proposed |
| IntervalLearning.IntervalLearningPlan.RecordExerciseWithNote | crates/learning-tools/src/interval_learning.rs:187-194 | records the exercise with the rating of the produced note; the exact target is rated Perfect |
| IntervalLearning.IntervalLearningPlan.GetStatistics | crates/learning-tools/src/interval_learning.rs:197-210 | the ascending statistics, the descending ones or the empty default when only one direction is practised, and the direction flag |
| IntervalLearning.NewPlan | crates/learning-tools/src/interval_learning.rs:120-122 | the default configuration, with all thirteen intervals new and due in both directions |
| IntervalLearning.NewPlanExample | crates/learning-tools/src/interval_learning.rs:394-464 | a new plan has 26 exercises due, 13 ascending intervals, none mastered, and proposes the octave up from A4 first |
| IntervalLearning.OneDirectionExample | crates/learning-tools/src/interval_learning.rs:444-456 | with one direction the descending statistics are empty, the flag is off and 13 exercises are due |
| LearningPane.SungNote | crates/gui/src/learning_pane.rs:113-115 | a note is derived exactly when a pitch was heard and its frequency is positive |
| LearningPane.Pane.constructor | crates/gui/src/learning_pane.rs:55-68 | an idle pane over the default plan, with no exercise, pitch, rating or message, and the plan's statistics |
| LearningPane.Pane.StartExercise | crates/gui/src/learning_pane.rs:71-82 | shows the plan's next exercise with pitch and rating cleared, or goes to Idle with the all-reviewed message and keeps the rest, keeping the pane invariant either way |
| LearningPane.Pane.StartRecording | crates/gui/src/learning_pane.rs:85-91 | from a shown exercise, goes to Recording with the pitch cleared and the recording prompt; in any other state nothing changes |
| LearningPane.Pane.UpdatePitch | crates/gui/src/learning_pane.rs:94-101 | while recording, keeps the last of the results received (none keeps the old pitch); in any other state nothing is read; nothing else changes |
| LearningPane.Pane.CheckResponse | crates/gui/src/learning_pane.rs:105-146 | false and no change outside Recording; otherwise true, and either the rating of the sung note is recorded in the plan and shown with fresh statistics, or it stays in Recording with the no-pitch or no-clear-note message and the plan untouched; answering the proposed exercise adds exactly one review |
| LearningPane.Pane.ShowRating | crates/gui/src/learning_pane.rs:115-136 | rates the sung note, records the rating in the plan's scheduler for the exercise's direction only, refreshes the statistics and goes to ShowingFeedback |
| LearningPane.Pane.NextExercise | crates/gui/src/learning_pane.rs:149-151 | behaves as starting an exercise |
| LearningPane.Pane.SkipExercise | crates/gui/src/learning_pane.rs:154-156 | moves to the next exercise without recording anything in the plan |
| LearningPane.Pane.ShouldBeRecording | crates/gui/src/learning_pane.rs:159-161 | true exactly in Recording, where an exercise is open and not yet rated |
| LearningPane.SessionWithoutPitch | crates/gui/src/learning_pane.rs:71-146 | on a new pane: start, record, then check with no pitch heard: the check reports that recording was active, the pane stays in Recording, the no-pitch message, the octave up from A4 open, and the plan unchanged |
| LearningPane.NewPlanFirstExercise | crates/gui/src/learning_pane.rs:56-77 | a default plan's first exercise is the octave up from A4 |
| SpectralGating.DefaultConfig | crates/audio-cleaning/src/spectral_gating.rs:75-82 | the default is a 6 dB threshold with no smoothing |
| SpectralGating.DbToLinear | crates/audio-cleaning/src/spectral_gating.rs:238-240 | the linear factor of any decibel value is positive, and 0 dB is a factor of 1 |
| SpectralGating.NoiseLevel | crates/audio-cleaning/src/spectral_gating.rs:155 | bin i's noise level is the stored magnitude when there is one, and 0 past the end |
| SpectralGating.Clamp01 | crates/audio-cleaning/src/spectral_gating.rs:164 | the gain is clamped into [0, 1] and a gain already in range is kept |
| SpectralGating.GateBinCases | crates/audio-cleaning/src/spectral_gating.rs:156-172 | a bin at or above the threshold is kept; a bin below it is scaled by the clamped ratio of modulus to threshold when the noise level is positive, and by 1 otherwise |
| SpectralGating.GatedBins | crates/audio-cleaning/src/spectral_gating.rs:153-174 | gating keeps the number of bins |
| SpectralGating.GateKeepsLoudBins | crates/audio-cleaning/src/spectral_gating.rs:159-173 | a bin whose modulus reaches its threshold is left exactly as it was |
| SpectralGating.GateKeepsBinsBeyondNoise | crates/audio-cleaning/src/spectral_gating.rs:155-167 | a bin past the end of the noise magnitudes is never modified |
| SpectralGating.GateAttenuatesQuietBins | crates/audio-cleaning/src/spectral_gating.rs:161-171 | a bin below a positive threshold is scaled by modulus over threshold, a gain in [0, 1), and ends strictly below the threshold |
| SpectralGating.QuietBinAttenuated | crates/audio-cleaning/src/spectral_gating.rs:161-171 | one quiet bin against a positive noise level is scaled by its gain and left below the threshold |
| SpectralGating.QuietBinScaled | crates/audio-cleaning/src/spectral_gating.rs:163-171 | when the noise level is positive the clamp never bites: the gain is exactly modulus over threshold |
| SpectralGating.QuietGain | crates/audio-cleaning/src/spectral_gating.rs:164 | a modulus below a positive threshold gives a gain in [0, 1) that keeps the scaled modulus below the threshold |
| SpectralGating.GateNeverAmplifies | crates/audio-cleaning/src/spectral_gating.rs:161-171 | no bin's modulus ever increases |
| SpectralGating.UnitGainShrinks | crates/audio-cleaning/src/spectral_gating.rs:168-171 | scaling by a gain in [0, 1] never increases a modulus |
| SpectralGating.Norms | crates/audio-cleaning/src/spectral_gating.rs:178-181 | one modulus per bin, all n bins of the spectrum |
| SpectralGating.SmoothWindowBounds | crates/audio-cleaning/src/spectral_gating.rs:196-200 | the window around i contains i, stays inside the slice, is never empty, holds at most 2 * (w / 2) + 1 values, and exactly that many precisely when it is not clipped at an edge |
| SpectralGating.Smoothed | crates/audio-cleaning/src/spectral_gating.rs:192-205 | one entry per magnitude |
| SpectralGating.SmoothMagnitudes | crates/audio-cleaning/src/spectral_gating.rs:192-205 | entry i is the mean of the magnitudes over the edge-clamped window around i |
| SpectralGating.SmoothedBounds | crates/audio-cleaning/src/spectral_gating.rs:192-205 | smoothing keeps every value inside any bounds the magnitudes respect |
| SpectralGating.SmoothedEntryBounds | crates/audio-cleaning/src/spectral_gating.rs:199-201 | each mean lies within the bounds of its window |
| SpectralGating.SmoothedNonNegative | crates/audio-cleaning/src/spectral_gating.rs:192-205 | smoothing keeps non-negative magnitudes non-negative |
| SpectralGating.SmoothingNarrowIsIdentity | crates/audio-cleaning/src/spectral_gating.rs:183-185 | a window of 0 or 1 averages each value with itself, so the shortcut agrees with smoothing |
| SpectralGating.NoiseMagnitudes | crates/audio-cleaning/src/spectral_gating.rs:177-189 | one non-negative level per bin of the noise spectrum (all n bins, not n/2), exactly the moduli when the window is at most 1 |
| SpectralGating.NoiseMagnitudesAreSmoothedNorms | crates/audio-cleaning/src/spectral_gating.rs:177-189 | the noise levels are the moving average of the noise moduli for every window size |
| SpectralGating.ComputeNoiseMagnitudes | crates/audio-cleaning/src/spectral_gating.rs:177-189 | the noise levels of the profile under the configuration |
| SpectralGating.Processed | crates/audio-cleaning/src/spectral_gating.rs:133-150 | the output has the input's length, and is empty exactly for an empty input |
| SpectralGating.NothingGatedPassesThrough | crates/audio-cleaning/src/spectral_gating.rs:133-150 | when no bin is below its threshold the output is within 1e-5 of the input |
| SpectralGating.EmptyNoiseProfilePassesThrough | crates/audio-cleaning/src/spectral_gating.rs:155-167 | with an empty noise profile every threshold is 0 and the signal passes through within 1e-5 |
| SpectralGating.SpectralGate.constructor | crates/audio-cleaning/src/spectral_gating.rs:104-111 | stores the profile and configuration, with the noise levels computed from them |
| SpectralGating.SpectralGate.WithDefaults | crates/audio-cleaning/src/spectral_gating.rs:117-119 | a gate over the profile with the default configuration |
| SpectralGating.SpectralGate.ApplyGate | crates/audio-cleaning/src/spectral_gating.rs:153-174 | gates every bin in place against its noise level |
| SpectralGating.SpectralGate.GateSample | crates/audio-cleaning/src/spectral_gating.rs:155-172 | one bin of the gate |
| SpectralGating.SpectralGate.Process | crates/audio-cleaning/src/spectral_gating.rs:133-150 | the gate's output for the samples: empty for no samples, else the gated spectrum taken back to the time domain and cut to the input length |
| SpectralGating.SpectralGate.UpdateNoiseProfile | crates/audio-cleaning/src/spectral_gating.rs:213-216 | stores the new profile and recomputes the levels under the unchanged configuration |
| SpectralGating.SpectralGate.UpdateConfig | crates/audio-cleaning/src/spectral_gating.rs:229-232 | stores the new configuration and recomputes the levels from the unchanged profile |
| SpectralGating.SpectralGate.NoiseProfile | crates/audio-cleaning/src/spectral_gating.rs:219-221 | the stored profile |
| SpectralGating.SpectralGate.Config | crates/audio-cleaning/src/spectral_gating.rs:224-226 | the stored configuration |
| SpectralGating.GateNoiseLevelsShape | crates/audio-cleaning/src/spectral_gating.rs:177-189 | a valid gate holds one non-negative noise level per bin of its profile |
| SpectralGating.UpdateConfigExample | crates/audio-cleaning/src/spectral_gating.rs:337-350 | updating to 12 dB with window 5 stores exactly that configuration and keeps the profile |
| HardGate.ThresholdOrDefault | crates/audio-cleaning/src/cleaning.rs:136 | the given multiplier, or 1.2 when none is given |
| HardGate.NoiseLevel | crates/audio-cleaning/src/cleaning.rs:142 | bin i's noise level is the modulus of noise bin i, and 0 past the end of the noise spectrum |
| HardGate.GatedBins | crates/audio-cleaning/src/cleaning.rs:141-147 | gating keeps the number of bins |
| HardGate.GateRule | crates/audio-cleaning/src/cleaning.rs:141-147 | a bin below its threshold becomes exactly zero, and every other bin keeps its value |
| HardGate.GateKeepsBinsBeyondNoise | crates/audio-cleaning/src/cleaning.rs:142-146 | bins past the end of the noise spectrum are never zeroed |
| HardGate.GateNeverAmplifies | crates/audio-cleaning/src/cleaning.rs:144-146 | no bin's modulus ever increases |
| HardGate.GateIdempotent | crates/audio-cleaning/src/cleaning.rs:141-147 | gating twice against the same noise is the same as gating once |
| HardGate.GateInPlace | crates/audio-cleaning/src/cleaning.rs:141-147 | the in-place loop leaves every bin as the gate rule says |
| HardGate.Gated | crates/audio-cleaning/src/cleaning.rs:139-150 | the gated output has the input's length |
| HardGate.GateSamples | crates/audio-cleaning/src/cleaning.rs:136-150 | transform, gate every bin, invert, and cut to the input's length |
| HardGate.NothingGatedPassesThrough | crates/audio-cleaning/src/cleaning.rs:139-150 | when no bin is below its threshold the output is within 1e-5 of the input |
| HardGate.EmptyNoisePassesThrough | crates/audio-cleaning/src/cleaning.rs:142-146 | an empty noise spectrum gates nothing, so the signal passes through within 1e-5 |
| CleaningUtil.Squares | crates/audio-cleaning/src/util.rs:5 | the square of each sample, in order |
| CleaningUtil.SquaredDeviations | crates/audio-cleaning/src/util.rs:21-26 | the squared distance of each value from the mean, in order |
| CleaningUtil.Rms | crates/audio-cleaning/src/util.rs:1-7 | absent exactly for an empty slice; otherwise non-negative, and its square is the mean of the squares |
| CleaningUtil.Mean | crates/audio-cleaning/src/util.rs:9-17 | absent exactly for an empty slice; otherwise the value that times the count gives the sum |
| CleaningUtil.MeanStdDeviation | crates/audio-cleaning/src/util.rs:19-31 | absent exactly for an empty slice; otherwise the mean and a non-negative deviation whose square is the squared deviations averaged over the count (the population variance) |
| CleaningUtil.SquaresNonNegative | crates/audio-cleaning/src/util.rs:5-25 | squares and squared deviations are never negative |
| CleaningUtil.SumNonNegative | crates/audio-cleaning/src/util.rs:5 | a sum of non-negative terms is non-negative |
| CleaningUtil.SumZeroNonNegative | crates/audio-cleaning/src/util.rs:21-29 | a sum of non-negative terms is zero only when every term is |
| CleaningUtil.MeanBounds | crates/audio-cleaning/src/util.rs:9-17 | the mean of values within bounds lies within those bounds |
| CleaningUtil.StdZeroIffConstant | crates/audio-cleaning/src/util.rs:19-31 | the deviation is zero exactly when every value equals the mean |
| CleaningUtil.ConstantMeanStd | crates/audio-cleaning/src/util.rs:19-31 | equal values have that value as mean and a deviation of zero |
| CleaningUtil.ConstantRms | crates/audio-cleaning/src/util.rs:1-7 | the RMS of samples all equal to c is the absolute value of c |
| CleaningUtil.RmsAndMeanExamples | crates/audio-cleaning/src/util.rs:42-58 | the RMS of [3, 4] squares to 12.5, and the mean of [1, 2, 3] is 2 |
| CleaningUtil.MeanStdExample | crates/audio-cleaning/src/util.rs:65-71 | the data set [2, 4, 4, 4, 5, 5, 7, 9] has mean 5 and deviation 2 |
| Cleaning.BandpassVocalRange | crates/audio-cleaning/src/cleaning.rs:35-57 | one filtered sample per input sample |
| Cleaning.ApplySpectralGating | crates/audio-cleaning/src/cleaning.rs:131-151 | the input's length, and the hard gate against the noise spectrum with the multiplier defaulting to 1.2 |
| Cleaning.CleanSignalForPitch | crates/audio-cleaning/src/cleaning.rs:72-87 | the input's length; the hard gate when a noise spectrum is given, otherwise the band-pass at 80 and 1200 Hz |
| Cleaning.CleanAudioForPitch | crates/audio-cleaning/src/cleaning.rs:98-114 | the cleaned samples of the audio, with the input's length and sample rate kept |
| Cleaning.NoiseWindowEnd | crates/audio-cleaning/src/cleaning.rs:166 | the end of the candidate window never passes the end of the signal |
| Cleaning.ZScoreBelowMinusOne | crates/audio-cleaning/src/cleaning.rs:184-185 | for a non-negative spread, the z-score test below -1 is the same as being more than one spread below the mean, including the IEEE cases of a zero spread |
| Cleaning.ChunkRms | crates/audio-cleaning/src/cleaning.rs:176-179 | the RMS of every chunk of the window's length, which is always present since no chunk is empty |
| Cleaning.NoiseWindow | crates/audio-cleaning/src/cleaning.rs:164-191 | None when the start of the candidate range is not before its end; when present, exactly the samples from floor(0.2 sr) to floor(min(1.5 sr, len)) |
| Cleaning.NoiseWindowAcceptance | crates/audio-cleaning/src/cleaning.rs:170-190 | with a non-empty candidate range there is at least one chunk, so the statistics exist, and the window is accepted exactly when its RMS is below the chunks' mean RMS minus their spread |
| Cleaning.ChunksOfConstant | crates/audio-cleaning/src/cleaning.rs:176-177 | each chunk of a constant signal is constant |
| Cleaning.ConstantSignalHasNoNoiseWindow | crates/audio-cleaning/src/cleaning.rs:255-266 | a constant signal never yields a noise window, since the z-score is 0/0 |
| Cleaning.EstimateNoiseSpectrumOf | crates/audio-cleaning/src/cleaning.rs:201-204 | present exactly when a noise window is found, and then a well-formed spectrum of the window's length |
| Cleaning.EstimateNoiseSpectrum | crates/audio-cleaning/src/cleaning.rs:206-212 | None for empty audio; otherwise the estimate at the audio's sample rate |
| Cleaning.ConstantAudioHasNoEstimate | crates/audio-cleaning/src/cleaning.rs:246-266 | a constant recording, the empty one included, has no noise estimate |
| SignalCleaning.BandpassVocalRange | src/signal/cleaning.rs:35-48 | one filtered output per input sample |
| SignalCleaning.ApplySpectralGating | src/signal/cleaning.rs:108-132 | the hard gate with the given multiplier, or 1.2, cut to the input's length |
| SignalCleaning.CleanSignalForPitch | src/signal/cleaning.rs:64-74 | with a noise spectrum the hard gate; without one the 80-1200 Hz band-pass; the length is kept either way |
| SignalCleaning.CleanAudioForPitch | src/signal/cleaning.rs:75-91 | the cleaned samples of the recording, at the recording's own rate |
| SignalCleaning.EstimateNoiseSpectrumOf | src/signal/cleaning.rs:146-152 | the spectrum of the samples from 200 ms up to 1500 ms or the end, whichever comes first |
| SignalCleaning.AgreesWithCrateWhenQuiet | src/signal/cleaning.rs:146-152 | wherever the crate's version finds a quiet window, this copy estimates the same spectrum |
| SignalCleaning.EstimateNoiseSpectrum | src/signal/cleaning.rs:154-160 | no estimate exactly for empty audio; otherwise the spectrum of the 200-1500 ms slice |
| SignalCleaning.ConstantAudioDisagreement | src/signal/cleaning.rs:154-160 | a constant recording that reaches 200 ms gets an estimate here but none from the crate's version |
| LegacySignalCleaning.BandpassVocalRange | src/signal_cleaning.rs:7-20 | one filtered output per input sample |
| LegacySignalCleaning.CleanSignalForPitch | src/signal_cleaning.rs:23-48 | with a noise spectrum the inline loop is the hard gate with the given multiplier, or 1.2; without one the 80-1200 Hz band-pass; the length is kept either way |
| LegacySignalCleaning.NoiseWindowEnd | src/signal_cleaning.rs:53 | the end of the noise slice never passes the end of the samples |
| LegacySignalCleaning.NoiseWindowEndAgrees | src/signal_cleaning.rs:53 | truncating before taking the minimum with the length gives the same end as the crate's truncating after it |
| LegacySignalCleaning.EstimateNoiseSpectrum | src/signal_cleaning.rs:51-57 | the spectrum of the samples from 200 ms up to 1500 ms or the end, whichever comes first |
| SignalTypes.FromWaveform | src/signal/types.rs:12-17 | the spectrum has one bin per sample and records the signal length as its FFT size |
| SignalTypes.Magnitudes | src/signal/types.rs:20-22 | n/2 values, each the non-negative modulus of the bin at the same index |
| SignalTypes.ToTimeDomain | src/signal/types.rs:25-31 | one real sample per FFT point |
| SignalTypes.Get | src/signal/types.rs:34-36 | a bin exactly when the index is below the number of bins, and then that bin |
| SignalTypes.TimeDomainRoundTrip | src/signal/types.rs:132-142 | transforming and inverting gives back as many samples, each within 1e-5 of the original |
| SignalTypes.GetFromWaveform | src/signal/types.rs:144-150 | a waveform's spectrum has a bin at every index below the signal length and none beyond |
| SignalTypes.Row | src/signal/types.rs:86-89 | one spectrogram row: w/2 non-negative magnitudes |
| SignalTypes.SpectrogramRows | src/signal/types.rs:82-94 | one row per window that fits, each of w/2 bins |
| SignalTypes.ComputeSpectrogram | src/signal/types.rs:82-94 | the while loop yields exactly the rows of the windows at 0, step, 2 step, and so on |
| SignalTypes.RowAt | src/signal/types.rs:85-91 | the window starting at k * step gives row k |
| SignalTypes.DefaultSpectrogramConfig | src/signal/types.rs:102-107 | windows of 1024 samples every 256 samples |
| SignalTypes.SpectrogramFromWaveform | src/signal/types.rs:56-63 | the spectrogram's rows are those of its signal, and it records the configuration |
| SignalTypes.SpectrogramShape | src/signal/types.rs:65-75 | one time step per window that fits; w/2 frequency bins, or 0 when no window fits |
| SignalTypes.SpectrogramExample | src/signal/types.rs:152-161 | eight samples with windows of 4 every 2 give three time steps of two bins |
| SignalProcessing.ComputeSpectrum | src/signal/processing.rs:34-41 | the spectrum holds the forward FFT of the signal, one bin per sample, and records the signal length |
| SignalProcessing.ComputeSpectrogram | src/signal/processing.rs:91-103 | the while loop yields exactly the rows of the windows at 0, step, 2 step, and so on, each of window/2 magnitudes |
| SignalProcessing.FindSpectrumPeak | src/signal/processing.rs:106-112 | no peak exactly for an empty spectrum; otherwise the last largest bin and its value |
| SignalProcessing.DetectMovingPeak | src/signal/processing.rs:115-120 | one index per time step: the last largest bin of that row, or 0 for an empty row |
| SignalProcessing.DetectMovingPeakIsPerRow | src/signal/processing.rs:115-120 | changing one row leaves the peak of every other time step unchanged |
| SignalProcessing.DetectMovingPeakExample | src/signal/processing.rs:173-182 | the test spectrogram's peaks are [1, 2, 0] |
| LegacySignalProcessing.ComputeSpectrum | src/signal_processing.rs:5-13 | n/2 non-negative values, each the modulus of the forward FFT bin at that index |
| LegacySignalProcessing.SpectrogramRows | src/signal_processing.rs:19-28 | one row per window that fits, each of window/2 magnitudes |
| LegacySignalProcessing.ComputeSpectrogram | src/signal_processing.rs:19-28 | the while loop yields exactly the rows of the windows at 0, step, 2 step, and so on |
| LegacySignalProcessing.LogRows | src/signal_processing.rs:34-37 | the same shape as its input, every value replaced by the base-10 logarithm of value + 1e-12 |
| LegacySignalProcessing.ComputeLogSpectrogram | src/signal_processing.rs:32-38 | the log spectrogram is the entry-wise log of the spectrogram |
| LegacySignalProcessing.LogSpectrogramShape | src/signal_processing.rs:32-38 | when a window fits: (len - window) / step + 1 rows, the first of window/2 values |
| LegacySignalProcessing.LogSpectrogramExample | src/signal_processing.rs:82-93 | 2000 samples with windows of 200 every 100 give 19 rows of 100 values |
| LegacySignalProcessing.FindSpectrumPeak | src/signal_processing.rs:41-47 | no peak exactly for an empty spectrum; otherwise the last largest bin and its value |
| LegacySignalProcessing.DetectMovingPeak | src/signal_processing.rs:50-55 | one index per time step: the last largest bin of that row, or 0 for an empty row |
| Peak.MaxByFrom | crates/audio-cleaning/src/processing.rs:13 | the fold max_by performs ends on the last position holding the maximum |
| Peak.FindPeak | crates/audio-cleaning/src/processing.rs:9-15 | no peak exactly for an empty signal; otherwise the index of the last largest sample and that sample's value |
| Peak.LastMaximumUnique | crates/audio-cleaning/src/processing.rs:13 | at most one position is the last maximum |
| Peak.FindPeakCharacterised | crates/audio-cleaning/src/processing.rs:9-15 | whichever position is the last maximum is exactly what find_peak reports |
| Peak.FindPeakTieGoesLast | crates/audio-cleaning/src/processing.rs:13 | of two equal maxima the later one is reported |
| Peak.FindPeakExample | crates/audio-cleaning/src/processing.rs:62-67 | the peak of [0.1, 0.5, 2.0, 0.3, 0.2] is (2, 2.0) |
| Comparison.FilteringComparison.constructor | crates/audio-cleaning/src/comparison.rs:48-55 | a new comparison holds the two recordings unchanged and no spectrum yet |
| Comparison.FilteringComparison.ComputeSpectra | crates/audio-cleaning/src/comparison.rs:73-76 | afterwards both caches hold the spectrum of their own recording, and the recordings are untouched |
| Comparison.FilteringComparison.GetMagnitudeSpectra | crates/audio-cleaning/src/comparison.rs:100-113 | cached spectra are reused only when both are present; otherwise both are recomputed; the result is the positive-frequency magnitudes of each, half as many as samples when the caches are current |
| Comparison.FilteringComparison.GetWaveforms | crates/audio-cleaning/src/comparison.rs:162-164 | the before and after sample buffers, in that order |
| Comparison.FilteringComparison.SampleRate | crates/audio-cleaning/src/comparison.rs:170-172 | the rate of the recording before filtering |
| Comparison.CompareFiltering | crates/audio-cleaning/src/comparison.rs:195-202 | the recording itself before, the filter's output after, nothing cached |
| Comparison.Halve | crates/audio-cleaning/src/comparison.rs:270-276 | the test's filter: same length and rate, every sample halved |
| Comparison.CompareFilteringExample | crates/audio-cleaning/src/comparison.rs:267-280 | halving [1, 2, 3, 4] gives [0.5, 1, 1.5, 2] after and keeps the original before |
| Comparison.MagnitudeSpectraExample | crates/audio-cleaning/src/comparison.rs:232-242 | 1024 samples give 512 magnitudes on each side |
| Windowing.CountFits | src/audio/types.rs:115-131 | window k exists exactly when it fits: k * step + w <= len |
| Windowing.Window | src/audio/types.rs:122 | every window is exactly w long |
| Windowing.AllWindows | src/signal/types.rs:82-94 | one window per fitting start, each w long |
| Windowing.WindowElements | src/audio/types.rs:122 | element j of window k is sample k * step + j |
| Windowing.FlattenAppend | crates/gui/src/audio_recorder.rs:222-224 | concatenating one more run appends it to the result |
| Windowing.Chunks | src/gui/waveform_ui.rs:116 | consecutive runs of the given size, the last one holding the non-empty rest; there are runs exactly when the slice is non-empty |
| Windowing.ChunksFlatten | src/gui/waveform_ui.rs:116 | the runs put back together give the slice, with nothing lost, reordered or repeated |
| Windowing.ChunkCount | src/gui/waveform_ui.rs:116 | the number of runs is the ceiling of the length over the size |
| Windowing.ChunkAt | src/gui/waveform_ui.rs:116 | run k is the slice from k * size to the lesser of (k + 1) * size and the length |
| AudioTypes.StoredValuesReturned | src/audio/types.rs:68-86 | a new audio value returns the sample rate and the samples it was built from |
| AudioTypes.WindowsOf | src/audio/types.rs:115-131 | one window per fitting start, window k being samples k * step to k * step + w with the audio's sample rate |
| AudioTypes.SlidingWindows.constructor | src/audio/types.rs:89-97 | an iterator over the audio's samples and rate, positioned at the first sample |
| AudioTypes.SlidingWindows.Next | src/audio/types.rs:115-132 | None with nothing moved when the window would run past the end, so once exhausted it stays exhausted; otherwise the next window with the audio's rate, the position moved by one step; with a terminating step it yields exactly the count of fitting windows, window k being the k-th call's |
| AudioTypes.SlidingWindows.Collect | src/audio/types.rs:166-212 | draining yields every window not yet yielded, in order |
| AudioTypes.WindowsBasicExample | src/audio/types.rs:166-177 | six samples in windows of 2 every 2 give [1,2], [3,4], [5,6] |
| AudioTypes.WindowsOverlapExample | src/audio/types.rs:179-190 | four samples in windows of 2 every 1 give three overlapping windows |
| AudioTypes.WindowsIncompleteExample | src/audio/types.rs:192-203 | five samples in windows of 3 every 2 give two windows and no partial tail |
| AudioTypes.ZeroStepRepeats | src/audio/types.rs:117-129 | with a zero step and a window that fits, every call yields the first window again |
| AudioTypes.FusedAfterCollect | src/audio/types.rs:117-119 | after every window is collected, the next call returns None |
| LegacyAudio.StoredValuesReturned | src/audio.rs:35-51 | the copy of the samples and the rate handed out equal what was stored |
| LegacyAudio.SlidingWindowIterator.constructor | src/audio.rs:54-77 | an iterator over a copy of the samples, positioned at 0 |
| LegacyAudio.SlidingWindowIterator.Next | src/audio.rs:83-95 | None with nothing moved when the window would run past the end; otherwise the next window with the stored rate, the position moved by one step; with a terminating step it yields exactly the count of fitting windows, window k being the k-th call's |
| LegacyAudio.ZeroStepRepeats | src/audio.rs:84-89 | with a zero step and a window that fits, every call yields the first window again |
| StridedChunks.StridedChunks.constructor | src/strided_chunks.rs:15-22 | the data and sizes as given, starting at index 0 |
| StridedChunks.StridedChunks.Next | src/strided_chunks.rs:70-77 | None with nothing moved when the chunk would run past the end; otherwise a copy of the next full chunk, the index moved by one step; with a terminating step it yields exactly the count of fitting chunks, chunk k being data k * step to k * step + chunk |
| StridedChunks.ChunkTooLarge | src/strided_chunks.rs:50-55 | a chunk longer than the data yields nothing |
| StridedChunks.ExactFitCount | src/strided_chunks.rs:57-64 | with the step equal to the chunk size there are length over chunk size chunks |
| StridedChunks.ExactFitExample | src/strided_chunks.rs:57-64 | four values in chunks of 2 every 2 are [1,2] and [3,4] |
| StridedChunks.BasicExample | src/strided_chunks.rs:30-39 | chunks of 2 every 1 over 1..5 are [1,2], [2,3], [3,4], [4,5] |
| StridedChunks.StepSizeExample | src/strided_chunks.rs:41-48 | chunks of 3 every 2 over six values are [10,20,30] and [30,40,50] |
| StridedChunks.ZeroStepRepeats | src/strided_chunks.rs:70-76 | with a zero step and a chunk that fits, every call copies the first chunk again |
| AudioRecorder.MixToMono | crates/gui/src/audio_recorder.rs:191-205 | one channel passes the samples through; with more, one output per complete frame, equal to the frame's average |
| AudioRecorder.MixToMonoLength | crates/gui/src/audio_recorder.rs:197-205 | the mix-down has exactly as many samples as there are complete frames: a trailing partial frame is dropped |
| AudioRecorder.SingleChannelIsAverage | crates/gui/src/audio_recorder.rs:191-205 | the single-channel pass-through also satisfies the average rule |
| AudioRecorder.ChunkSamples | crates/gui/src/audio_recorder.rs:224-234 | the samples of each chunk handed on, in order |
| AudioRecorder.DrainStep | crates/gui/src/audio_recorder.rs:222-224 | draining one window from the front extends the chunks handed on by the next consecutive window, and the drained samples stay a prefix of the input |
| AudioRecorder.ChunkSamplesAppend | crates/gui/src/audio_recorder.rs:222-234 | one more chunk adds its samples at the end |
| AudioRecorder.SampleBuffer.constructor | crates/gui/src/audio_recorder.rs:143-162 | an empty buffer with the stream's window size and channel count |
| AudioRecorder.SampleBuffer.DrainWindow | crates/gui/src/audio_recorder.rs:224-234 | takes exactly the first window off the buffer, paired with a fresh copy of the callback's latency record |
| AudioRecorder.SampleBuffer.OnAudio | crates/gui/src/audio_recorder.rs:169-240 | the chunks handed on are the consecutive non-overlapping full windows of the old buffer followed by the mono samples; chunks then rest give back that input in order; less than a window stays buffered; each chunk carries its own copy of the record stamped at the callback |
| AudioRecorder.SampleBuffer.DrainChunks | crates/gui/src/audio_recorder.rs:222-239 | drains every full window, oldest first, leaving less than a window, each with a distinct fresh copy of the stamped record |
| AudioRecorder.Recorder.constructor | crates/gui/src/audio_recorder.rs:20-24 | a new recorder has no stream |
| AudioRecorder.Recorder.Start | crates/gui/src/audio_recorder.rs:26-100 | refused with "Already recording" and no change while a stream exists; otherwise the device setup's error with no stream, or Ok with a new stream and an empty buffer |
| AudioRecorder.Recorder.Stop | crates/gui/src/audio_recorder.rs:102-107 | always Ok and leaves no stream, so stopping twice is the same as stopping once |
| AudioRecorder.StartStopExample | crates/gui/src/audio_recorder.rs:26-107 | a second start is refused while recording; both stops succeed |
| Latency.DurationSince | crates/audio-utils/src/latency.rs:64 | the elapsed time from the earlier to the later instant, saturating at zero when the order is reversed |
| Latency.LatencyMetrics.constructor | crates/audio-utils/src/latency.rs:27-34 | all four measurements absent |
| Latency.LatencyMetrics.WithCallbackTimestamp | crates/audio-utils/src/latency.rs:37-44 | only the callback instant is present |
| Latency.LatencyMetrics.MarkProcessingStart | crates/audio-utils/src/latency.rs:47-49 | sets the processing start to now and no other field |
| Latency.LatencyMetrics.MarkProcessingEnd | crates/audio-utils/src/latency.rs:52-54 | sets the processing end to now and no other field |
| Latency.LatencyMetrics.SetInputDeviceLatency | crates/audio-utils/src/latency.rs:57-59 | sets the device latency and no other field |
| Latency.LatencyMetrics.Clone | crates/audio-utils/src/latency.rs:9 | a distinct record with the same four fields |
| Latency.LatencyMetrics.ProcessingDuration | crates/audio-utils/src/latency.rs:62-67 | present exactly when start and end both are, and then the end lies that long after the start when it is not earlier |
| Latency.LatencyMetrics.TotalLatency | crates/audio-utils/src/latency.rs:70-75 | present exactly when the callback and the end both are, and then the end lies that long after the callback when it is not earlier |
| Latency.LatencyMetrics.EndToEndLatency | crates/audio-utils/src/latency.rs:78-85 | the sum when total and device latency are both present, whichever one is present otherwise, and absent exactly when neither is |
| Latency.ProcessingDurationOf | crates/audio-utils/src/latency.rs:62-67 | present exactly when both instants are, equal to the saturating elapsed time |
| Latency.CombineLatencies | crates/audio-utils/src/latency.rs:79-84 | the sum of the known parts, absent only when neither part is known |
| Latency.EndToEndDominatesParts | crates/audio-utils/src/latency.rs:78-85 | a known end-to-end latency is at least the total latency and at least the device latency, whichever are known |
| Latency.EndToEndExample | crates/audio-utils/src/latency.rs:146-158 | a callback, 5 ms of device latency and an end at least 10 ms later give at least 15 ms end to end |
| Latency.DeviceOnlyExample | crates/audio-utils/src/latency.rs:160-166 | with only a device latency, end to end is exactly that latency |
| Latency.ProcessingDurationExample | crates/audio-utils/src/latency.rs:117-132 | a start then an end at least 10 ms later give a duration of at least 10 ms |
| Detection.FrequencyOrZero | src/pitch_tracking/tracking.rs:34-38 | a found pitch contributes its frequency, a missing one 0.0 |
| PitchTracking.TrackOf | src/pitch_tracking/tracking.rs:32-40 | exactly one entry per window |
| PitchTracking.TrackOfEntry | src/pitch_tracking/tracking.rs:33-39 | entry k is the detector's frequency on window k, or 0.0 when it finds none |
| PitchTracking.TrackOfAppend | src/pitch_tracking/tracking.rs:33-39 | one more window appends its own entry and leaves the earlier ones alone |
| PitchTracking.PitchTracker.constructor | src/pitch_tracking/tracking.rs:17-23 | the tracker keeps its detector, window size and step size unchanged |
| PitchTracking.PitchTracker.Pitches | src/pitch_tracking/tracking.rs:28-41 | the loop records one entry per sliding window, in order, so the track has as many entries as windows fit |
| PitchTracking.FixedPitchExample | src/pitch_tracking/tracking.rs:60-68 | six samples, windows of 2 every 2, a detector always at 123 Hz give three entries of 123 |
| PitchTracking.NonePitchExample | src/pitch_tracking/tracking.rs:78-86 | four samples, windows of 2 every 1, a detector that finds nothing give three zeros |
| TrackPitch.DefaultConfig | src/track_pitch.rs:13-20 | windows of 1024 every 256 samples, power threshold 5.0, clarity threshold 0.1 |
| TrackPitch.FrameTrack | src/track_pitch.rs:31-44 | one entry per full frame that fits |
| TrackPitch.FrameTrackEntry | src/track_pitch.rs:33-41 | entry k comes from the frame at k * step, which lies in the signal, has the detector's size and is run with padding size/2 |
| TrackPitch.SilentDetectorGivesZeros | src/track_pitch.rs:37-41 | a detector that finds nothing still leaves one 0.0 per frame |
| TrackPitch.ShortSignalGivesEmptyTrack | src/track_pitch.rs:35 | a signal shorter than one frame gives no pitches |
| TrackPitch.TrackPitch | src/track_pitch.rs:24-45 | the while loop builds exactly the frame track under the configuration |
| PitchDetection.PitchTrackOf | src/pitch_detection.rs:5-22 | the frame loop gives one entry per full frame: the frame track with power threshold 5.0, the caller's threshold as clarity threshold, and the rate cast to usize |
| AudioAnalysis.ExtractAnalysisFrame | src/audio_analysis.rs:6-13 | no frame exactly when there are fewer samples than the window; otherwise the frame is the window-sized suffix of the buffer |
| AudioAnalysis.LastPositive | src/audio_analysis.rs:23-26 | a value exactly when the track is non-empty and its last entry is positive, and then that entry |
| AudioAnalysis.DetectPitch | src/audio_analysis.rs:16-27 | the last estimate of the frame's pitch track, kept only when it is a positive frequency |
| AudioAnalysis.AnalysisFrameIsOneDetection | src/audio_analysis.rs:6-27 | analysing an extracted frame runs the detector exactly once on the whole frame, and reports that pitch only when positive |
| WaveformUi.SeqMin | src/gui/waveform_ui.rs:118 | the least element of a non-empty chunk, drawn from the chunk |
| WaveformUi.SeqMax | src/gui/waveform_ui.rs:119 | the greatest element of a non-empty chunk, drawn from the chunk |
| WaveformUi.ChunkSize | src/gui/waveform_ui.rs:114 | a positive chunk size; a zero point budget saturates to usize::MAX |
| WaveformUi.ChunkSizeIsCeiling | src/gui/waveform_ui.rs:114 | the chunk size is the ceiling of length over points: that many chunks cover the slice and one size less does not |
| WaveformUi.MinMaxPairs | src/gui/waveform_ui.rs:116-122 | two values per chunk |
| WaveformUi.MinMaxPairAt | src/gui/waveform_ui.rs:116-122 | output pair k is the minimum then the maximum of chunk k |
| WaveformUi.MinMaxPairsSnoc | src/gui/waveform_ui.rs:116-122 | one more chunk appends its pair at the end |
| WaveformUi.DownsampleForWaveform | src/gui/waveform_ui.rs:112-127 | a slice within the budget comes back unchanged; a longer one gives the min/max pairs of its ceiling-sized chunks, in order |
| WaveformUi.DownsampledBounded | src/gui/waveform_ui.rs:113-122 | with a positive budget the output never holds more than twice the budget |
| WaveformUi.ZeroMaxPointsOnePair | src/gui/waveform_ui.rs:114-122 | a zero budget makes the whole slice one chunk and one min/max pair |
| WaveformUi.PairsBracketChunks | src/gui/waveform_ui.rs:116-122 | every output minimum is at most its maximum, both are elements of their chunk, and the whole chunk lies between them |
| WaveformUi.EverySampleBracketed | src/gui/waveform_ui.rs:116-122 | every input sample lies in some chunk and between that chunk's output minimum and maximum: no peak is lost |
| WaveformUi.FlattenMember | src/gui/waveform_ui.rs:116 | whatever is in the concatenated chunks is in one of them |
| WaveformUi.FiveSeconds | src/gui/waveform_ui.rs:26-33 | five seconds of samples at the reported rate, or 44100 when none is reported, and at least one |
| WaveformUi.LiveWindow | src/gui/waveform_ui.rs:35-39 | the last five seconds of samples, or all of them when the recording is shorter |
| WaveformUi.LiveWaveform | src/gui/waveform_ui.rs:21-41 | nothing exactly for an empty buffer; otherwise the live window downsampled to between one and 4096 values |
| WaveformUi.LiveWindowExamples | src/gui/waveform_ui.rs:33-39 | three seconds at 44.1 kHz are kept whole and ten seconds keep the last five |

## Left out

- Floating point: samples, magnitudes and easiness factors are exact reals. `f32`/`f64` rounding, infinities and NaN are not modelled. A NaN would make the `partial_cmp().unwrap()` in peak picking panic; the model has no NaN.
- The FFT, `sqrt`, `powf`, `log10`, `log2`, 2 to a power, the hz-to-MIDI rounding and `Note::to_frequency` are parameters constrained only by `Numerics.ValidMaths` and `IntervalLearning.ValidTuning`. Numeric claims that depend on the transform itself, such as the energy tests of the spectral gate or the bin that detects a sine, are not stated.
- SignalTypes.ToTimeDomain: states only the output length. What the inverse recovers is stated by `SignalTypes.TimeDomainRoundTrip`, through the round-trip fact about the transform.
- Cleaning.BandpassVocalRange, SignalCleaning.BandpassVocalRange, LegacySignalCleaning.BandpassVocalRange: the `fundsp` filter is a parameter, so only the length is stated. Its centre and Q computations feed that foreign filter and are not modelled.
- Intervals.ApplyInterval: the base frequency times 2^(semitones/12), with the power as a parameter; nothing is proved about it.
- IntervalLearning.TargetNote: `apply_interval` as called in this file, with three arguments, does not exist. It is modelled as transposing the base note by the interval's semitones, up or down, as the tests expect.
- The YIN detector, its wrappers and `PitchProcessor` are foreign code. The detector is a pure function of its size, padding, frame, sample rate and thresholds. The model proves that every frame it receives has the detector's size, which the wrapper's length check requires.
- PitchTracking.PitchTracker: `MonoPitchDetector::get_mono_pitch` takes `&mut self` (src/pitch_tracking/detection.rs:11-15, src/pitch_tracking/tracking.rs:34), so a detector may keep state between frames. The model passes the detector as a pure function from mono audio to an optional pitch, and `PitchTracking.TrackOfEntry` holds only for a detector without such state.
- Logging: the `println!` at src/signal_cleaning.rs:9 and the `eprintln!` at crates/audio-cleaning/src/cleaning.rs:188 write to the console and change no result; they are not modelled.
- Device and file I/O: cpal streams, WAV files, persistence and `save_audio_pair`. `Recorder.Start` and `Recorder.Stop` model only the guard on the stream field.
- Concurrency: the channels, the thread-local detector cache and the atomic flags. `OnAudio` returns the chunks one audio callback hands to `process_audio_chunk`. What reaches the channel, the `PitchResult`s for which `process_audio_chunk` returns a value (crates/gui/src/audio_recorder.rs:228-238), is left out with `PitchProcessor`.
- GUI rendering and plotting, `LearningPane::render` included. The pane's feedback text is a `LearningPane.Feedback` value; the formatting of floats into the message is not modelled.
- Integer widths: counters, indices and MIDI numbers are unbounded. `i32` overflow in MIDI arithmetic and `usize` overflow of `position + window_size` in the iterators are not modelled. The `usize::MAX` that an infinite chunk size saturates to in the waveform view is the 64-bit value.
- WaveformUi.ChunkSize: `(len / max_points).ceil()` is computed exactly, not in `f32`. For very long slices the rounded `f32` quotient could differ.
- SpacedRepetition.RecordReview: `ReviewItem::record_review` updates the item in place. It is modelled as a function from the old item to the new one, which `SpacedRepetition.Scheduler.RecordReviewAt` writes back into the scheduler.
- `total_items`, `items` and `IntervalLearningPlan::config` are plain getters. They are not modelled separately: the length of the scheduler's `items` field, the field itself and the plan's `config` constant are what they return. `time_until_review` reads the clock; `SpacedRepetition.TimeUntilReview` takes the current time as a parameter.
- LearningPane.Pane.CheckResponse: the source's branch for a missing current exercise while recording cannot be reached, because every way into `Recording` passes through `ShowingExercise` with an exercise set. The class invariant records this, and the branch is not modelled.
- AudioRecorder.SampleBuffer: a window size of 0 makes the drain loop in the source run forever, and 0 channels makes the mix-down panic. Both are excluded by the buffer's invariant.
- The iterators, spectrogram loops and frame loops never end when the step is 0 and a window fits. Their methods require a positive step or a window larger than the input; the `ZeroStepRepeats` methods show the repetition.
- SignalCleaning.EstimateNoiseSpectrumOf, LegacySignalCleaning.EstimateNoiseSpectrum: the source slices without a guard and panics when the 200 ms start passes the end. This is a precondition, not an error result.
- Note names are ASCII, and `Note::parse` splits by characters. Slicing a non-ASCII `&str` in the middle of a character, which would panic in Rust, is not modelled.

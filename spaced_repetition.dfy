/**
 * `crates/learning-tools/src/spaced_repetition.rs`: the SM-2 style review
 * update of one item and the scheduler over a list of items.  Times are
 * nanoseconds on the wall clock, passed in as `now` where the crate reads
 * `SystemTime::now()`.
 */
module SpacedRepetition {
  import opened Numerics

  datatype PerformanceRating = Blackout | Incorrect | Difficult | Hesitant | Good | Perfect

  /** `quality`: the SM-2 score, Blackout 0 up to Perfect 5. */
  function Quality(r: PerformanceRating): (q: nat)
    ensures q <= 5
  {
    match r
    case Blackout => 0
    case Incorrect => 1
    case Difficult => 2
    case Hesitant => 3
    case Good => 4
    case Perfect => 5
  }

  /** The ratings are scored 0..5 in the order they are declared, each score once. */
  lemma QualityOrder()
    ensures Quality(Blackout) == 0 && Quality(Incorrect) == 1 && Quality(Difficult) == 2
    ensures Quality(Hesitant) == 3 && Quality(Good) == 4 && Quality(Perfect) == 5
    ensures forall a, b :: Quality(a) == Quality(b) ==> a == b
  {
  }

  const InitialEasiness: real := 2.5
  const MinEasiness: real := 1.3
  const SecondsPerDay: real := 86400.0
  const NanosPerSecond: nat := 1_000_000_000

  /** `ReviewItem`: the SM-2 state of one item. */
  datatype ReviewItem<T> = ReviewItem(
    item: T,
    easiness: real,
    consecutiveCorrect: nat,
    interval: real,
    nextReview: nat,
    totalReviews: nat)

  /** `ReviewItem::new` at time `now`. */
  function NewItem<T>(item: T, now: nat): (r: ReviewItem<T>)
    ensures r.item == item && r.totalReviews == 0
    ensures ValidItem(r) && IsDue(r, now)
    ensures r.easiness == 2.5 && r.consecutiveCorrect == 0 && r.interval == 0.0
  {
    ReviewItem(item, InitialEasiness, 0, 0.0, now, 0)
  }

  /** `is_due`: the review time has come. */
  predicate IsDue<T>(r: ReviewItem<T>, now: nat)
  {
    r.nextReview <= now
  }

  /**
   * What the update keeps true of an item: the easiness floor, and an
   * interval that is 0 with no success in a row, 1 day after one, and at
   * least 6 days after two or more.
   */
  predicate ValidItem<T>(r: ReviewItem<T>)
  {
    && r.easiness >= MinEasiness
    && (r.consecutiveCorrect == 0 ==> r.interval == 0.0)
    && (r.consecutiveCorrect == 1 ==> r.interval == 1.0)
    && (r.consecutiveCorrect >= 2 ==> r.interval >= 6.0)
  }

  /** The easiness change for a quality score: `0.1 - (5 - q) * (0.08 + (5 - q) * 0.02)`. */
  function EasinessDelta(q: nat): real
    requires q <= 5
  {
    var miss := (5 - q) as real;
    0.1 - miss * (0.08 + miss * 0.02)
  }

  /** The deltas for each rating, from +0.1 for Perfect down to -0.8 for a blackout. */
  lemma EasinessDeltas()
    ensures EasinessDelta(5) == 0.1 && EasinessDelta(4) == 0.0 && EasinessDelta(3) == -0.14
    ensures EasinessDelta(2) == -0.32 && EasinessDelta(1) == -0.54 && EasinessDelta(0) == -0.8
  {
  }

  /** When the next review falls: `now + (interval * 86400) as u64` seconds. */
  function NextReviewTime(now: nat, interval: real): nat
  {
    now + CastToUsize(interval * SecondsPerDay) * NanosPerSecond
  }

  /** `record_review`: one more review, the new easiness, then the new streak and interval. */
  function RecordReview<T>(r: ReviewItem<T>, rating: PerformanceRating, now: nat): (r': ReviewItem<T>)
    ensures r'.item == r.item
    ensures r'.totalReviews == r.totalReviews + 1
    ensures r'.easiness >= MinEasiness
    ensures r'.easiness == MaxReal(r.easiness + EasinessDelta(Quality(rating)), MinEasiness)
    ensures Quality(rating) < 3 ==> r'.consecutiveCorrect == 0 && r'.interval == 0.0 && IsDue(r', now)
    ensures Quality(rating) >= 3 ==> r'.consecutiveCorrect == r.consecutiveCorrect + 1
    ensures r'.nextReview >= now
    ensures r'.nextReview == now + CastToUsize(r'.interval * SecondsPerDay) * NanosPerSecond
  {
    var quality := Quality(rating);
    var easiness := MaxReal(r.easiness + EasinessDelta(quality), MinEasiness);
    var consecutive := if quality < 3 then 0 else r.consecutiveCorrect + 1;
    var interval :=
      if quality < 3 then 0.0
      else if consecutive == 1 then 1.0
      else if consecutive == 2 then 6.0
      else r.interval * easiness;
    ReviewItem(r.item, easiness, consecutive, interval, NextReviewTime(now, interval), r.totalReviews + 1)
  }

  /** A success sets the interval to 1 day, then 6 days, then the old interval times the new easiness. */
  lemma SuccessProgression<T>(r: ReviewItem<T>, rating: PerformanceRating, now: nat)
    requires Quality(rating) >= 3
    ensures r.consecutiveCorrect == 0 ==> RecordReview(r, rating, now).interval == 1.0
    ensures r.consecutiveCorrect == 1 ==> RecordReview(r, rating, now).interval == 6.0
    ensures r.consecutiveCorrect >= 2 ==>
      RecordReview(r, rating, now).interval == r.interval * RecordReview(r, rating, now).easiness
  {
  }

  /** Every review keeps the item's invariant. */
  lemma RecordReviewValid<T>(r: ReviewItem<T>, rating: PerformanceRating, now: nat)
    requires ValidItem(r)
    ensures ValidItem(RecordReview(r, rating, now))
  {
    var r' := RecordReview(r, rating, now);
    if Quality(rating) >= 3 && r.consecutiveCorrect >= 2 {
      assert r'.interval == r.interval * r'.easiness;
      assert r.interval * r'.easiness >= 6.0 * 1.0 by {
        MulAtLeast(r.interval, 6.0, r'.easiness, 1.0);
      }
    }
  }

  lemma MulAtLeast(a: real, b: real, c: real, d: real)
    requires a >= b >= 0.0 && c >= d >= 0.0
    ensures a * c >= b * d
  {
  }

  /** A success never shortens the interval, and schedules the next review at least a day ahead. */
  lemma SuccessNeverShortens<T>(r: ReviewItem<T>, rating: PerformanceRating, now: nat)
    requires ValidItem(r) && Quality(rating) >= 3
    ensures RecordReview(r, rating, now).interval >= r.interval
    ensures RecordReview(r, rating, now).interval >= 1.0
    ensures RecordReview(r, rating, now).nextReview >= now + 86400 * NanosPerSecond
  {
    var r' := RecordReview(r, rating, now);
    if r.consecutiveCorrect >= 2 {
      MulAtLeast(r.interval, r.interval, r'.easiness, 1.0);
      MulAtLeast(r.interval, 6.0, r'.easiness, 1.0);
    }
    assert r'.interval * SecondsPerDay >= 86400.0;
  }

  /** A better rating never leaves a lower easiness. */
  lemma EasinessMonotone<T>(r: ReviewItem<T>, worse: PerformanceRating, better: PerformanceRating, now: nat)
    requires Quality(worse) <= Quality(better)
    ensures RecordReview(r, worse, now).easiness <= RecordReview(r, better, now).easiness
  {
    EasinessDeltaMonotone(Quality(worse), Quality(better));
  }

  lemma EasinessDeltaMonotone(p: nat, q: nat)
    requires p <= q <= 5
    ensures EasinessDelta(p) <= EasinessDelta(q)
  {
    EasinessDeltas();
    assert p == 0 || p == 1 || p == 2 || p == 3 || p == 4 || p == 5;
    assert q == 0 || q == 1 || q == 2 || q == 3 || q == 4 || q == 5;
  }

  /** The progression test: three Good reviews of a new item give intervals of 1, 6 and 15 days. */
  lemma GoodProgressionExample<T>(item: T, t0: nat, t1: nat, t2: nat, t3: nat)
    ensures var r1 := RecordReview(NewItem(item, t0), Good, t1);
      var r2 := RecordReview(r1, Good, t2);
      var r3 := RecordReview(r2, Good, t3);
      r1.interval == 1.0 && r2.interval == 6.0 && r3.interval == 15.0 && r3.easiness == 2.5
  {
  }

  /** The number of items that are due (`due_count`). */
  function CountDue<T>(items: seq<ReviewItem<T>>, now: nat): (n: nat)
    ensures n <= |items|
    decreases |items|
  {
    if |items| == 0 then 0
    else CountDue(items[..|items| - 1], now) + (if IsDue(items[|items| - 1], now) then 1 else 0)
  }

  /** Nothing is due exactly when no item is due, and everything is due exactly when every item is. */
  lemma {:induction false} CountDueBounds<T>(items: seq<ReviewItem<T>>, now: nat)
    ensures CountDue(items, now) == 0 <==> forall k :: 0 <= k < |items| ==> !IsDue(items[k], now)
    ensures CountDue(items, now) == |items| <==> forall k :: 0 <= k < |items| ==> IsDue(items[k], now)
    decreases |items|
  {
    if |items| > 0 {
      var init := items[..|items| - 1];
      CountDueBounds(init, now);
      assert forall k :: 0 <= k < |init| ==> init[k] == items[k];
    }
  }

  /** Counting over a concatenation adds the counts. */
  lemma {:induction false} CountDueAppend<T>(a: seq<ReviewItem<T>>, b: seq<ReviewItem<T>>, now: nat)
    ensures CountDue(a + b, now) == CountDue(a, now) + CountDue(b, now)
    decreases |b|
  {
    if |b| > 0 {
      var b' := b[..|b| - 1];
      assert (a + b)[..|a + b| - 1] == a + b';
      assert (a + b)[|a + b| - 1] == b[|b| - 1];
      var last := if IsDue(b[|b| - 1], now) then 1 else 0;
      assert CountDue(a + b, now) == CountDue(a + b', now) + last;
      assert CountDue(b, now) == CountDue(b', now) + last;
      CountDueAppend(a, b', now);
    } else {
      assert a + b == a;
    }
  }

  /** `due_items`: the due items, in their order in the scheduler. */
  function DueItems<T>(items: seq<ReviewItem<T>>, now: nat): (r: seq<ReviewItem<T>>)
    ensures |r| == CountDue(items, now)
    ensures forall k :: 0 <= k < |r| ==> IsDue(r[k], now)
    ensures forall k :: 0 <= k < |r| ==> r[k] in items
    ensures forall k :: 0 <= k < |items| && IsDue(items[k], now) ==> items[k] in r
    decreases |items|
  {
    if |items| == 0 then []
    else
      var init := items[..|items| - 1];
      var last := items[|items| - 1];
      assert items == init + [last];
      if IsDue(last, now) then DueItems(init, now) + [last] else DueItems(init, now)
  }

  /** Filtering a concatenation concatenates the filtered parts, so the order is kept. */
  lemma {:induction false} DueItemsAppend<T>(a: seq<ReviewItem<T>>, b: seq<ReviewItem<T>>, now: nat)
    ensures DueItems(a + b, now) == DueItems(a, now) + DueItems(b, now)
    decreases |b|
  {
    if |b| > 0 {
      var b' := b[..|b| - 1];
      assert (a + b)[..|a + b| - 1] == a + b';
      assert (a + b)[|a + b| - 1] == b[|b| - 1];
      DueItemsAppend(a, b', now);
    } else {
      assert a + b == a;
    }
  }

  /** A single item is kept exactly when it is due. */
  lemma DueItemsSingle<T>(x: ReviewItem<T>, now: nat)
    ensures DueItems([x], now) == if IsDue(x, now) then [x] else []
  {
    assert [x][..0] == [];
  }

  /**
   * `time_until_review`: `next_review.duration_since(now)`, the time left
   * before the review, or `None` for the `Err(())` once the review time
   * has passed.
   */
  function TimeUntilReview<T>(r: ReviewItem<T>, now: nat): (d: Option<nat>)
    ensures d.None? <==> now > r.nextReview
    ensures d.Some? ==> now + d.value == r.nextReview
  {
    if r.nextReview >= now then Some(r.nextReview - now) else None
  }

  /** Right after a review, the time left is the new interval in whole seconds. */
  lemma TimeUntilRecordedReview<T>(r: ReviewItem<T>, rating: PerformanceRating, now: nat)
    ensures var r' := RecordReview(r, rating, now);
      TimeUntilReview(r', now) == Some(CastToUsize(r'.interval * SecondsPerDay) * NanosPerSecond)
  {
  }

  /**
   * `next_due_item`: the index of the due item with the earliest review
   * time, the first such item on ties (`min_by_key`), or `None` when
   * nothing is due.
   */
  function NextDueIndex<T>(items: seq<ReviewItem<T>>, now: nat): (r: Option<nat>)
    ensures r.None? <==> forall k :: 0 <= k < |items| ==> !IsDue(items[k], now)
    ensures r.Some? ==> r.value < |items| && IsDue(items[r.value], now)
    ensures r.Some? ==> forall k :: 0 <= k < |items| && IsDue(items[k], now) ==>
      items[r.value].nextReview <= items[k].nextReview
    ensures r.Some? ==> forall k :: 0 <= k < r.value && IsDue(items[k], now) ==>
      items[r.value].nextReview < items[k].nextReview
    decreases |items|
  {
    if |items| == 0 then None
    else
      var last := |items| - 1;
      var best := NextDueIndex(items[..last], now);
      if !IsDue(items[last], now) then best
      else if best.None? || items[last].nextReview < items[best.value].nextReview then Some(last)
      else best
  }

  /** The earliest review time among the due items (the first pass of `next_due_item_mut`). */
  function EarliestDueTime<T>(items: seq<ReviewItem<T>>, now: nat): (r: Option<nat>)
    ensures r.None? <==> forall k :: 0 <= k < |items| ==> !IsDue(items[k], now)
    ensures r.Some? ==> forall k :: 0 <= k < |items| && IsDue(items[k], now) ==> r.value <= items[k].nextReview
    ensures r.Some? ==> exists k :: 0 <= k < |items| && IsDue(items[k], now) && items[k].nextReview == r.value
    decreases |items|
  {
    if |items| == 0 then None
    else
      var last := |items| - 1;
      var rest := EarliestDueTime(items[..last], now);
      if !IsDue(items[last], now) then rest
      else if rest.None? || items[last].nextReview < rest.value then Some(items[last].nextReview)
      else rest
  }

  /** The first index from `from` on of a due item reviewed at `time` (the `find` of `next_due_item_mut`). */
  function FindDueAt<T>(items: seq<ReviewItem<T>>, now: nat, time: nat, from: nat): (r: Option<nat>)
    requires from <= |items|
    ensures r.None? ==> forall k :: from <= k < |items| ==> !(IsDue(items[k], now) && items[k].nextReview == time)
    ensures r.Some? ==> from <= r.value < |items| && IsDue(items[r.value], now) && items[r.value].nextReview == time
    ensures r.Some? ==> forall k :: from <= k < r.value ==> !(IsDue(items[k], now) && items[k].nextReview == time)
    decreases |items| - from
  {
    if from == |items| then None
    else if IsDue(items[from], now) && items[from].nextReview == time then Some(from)
    else FindDueAt(items, now, time, from + 1)
  }

  /** `next_due_item_mut`: the earliest due time, then the first due item at that time. */
  function NextDueIndexMut<T>(items: seq<ReviewItem<T>>, now: nat): Option<nat>
  {
    match EarliestDueTime(items, now)
    case None => None
    case Some(time) => FindDueAt(items, now, time, 0)
  }

  /** `next_due_item_mut` finds the very item `next_due_item` returns. */
  lemma NextDueIndexMutAgrees<T>(items: seq<ReviewItem<T>>, now: nat)
    ensures NextDueIndexMut(items, now) == NextDueIndex(items, now)
  {
    var best := NextDueIndex(items, now);
    if best.Some? {
      var k := best.value;
      var time := EarliestDueTime(items, now).value;
      assert items[k].nextReview == time;
      var found := FindDueAt(items, now, time, 0);
      assert found.Some?;
      assert found.value == k;
    }
  }

  /** `SpacedRepetitionScheduler`: the items under review, in the order they were added. */
  class Scheduler<T> {
    var items: seq<ReviewItem<T>>

    /** `SpacedRepetitionScheduler::new`: no items. */
    constructor ()
      ensures items == []
    {
      items := [];
    }

    /** `add_item`: appends a new item, due at once. */
    method AddItem(item: T, now: nat)
      modifies this
      ensures items == old(items) + [NewItem(item, now)]
    {
      items := items + [NewItem(item, now)];
    }

    /** `add_items`: appends a new item for each value, in order. */
    method AddItems(values: seq<T>, now: nat)
      modifies this
      ensures items == old(items) + NewItems(values, now)
    {
      for i := 0 to |values|
        invariant items == old(items) + NewItems(values, now)[..i]
      {
        assert NewItems(values, now)[..i + 1] == NewItems(values, now)[..i] + [NewItem(values[i], now)];
        AddItem(values[i], now);
      }
      assert NewItems(values, now)[..|values|] == NewItems(values, now);
    }

    /** `next_due_item_mut` followed by `record_review`: only the chosen item changes. */
    method RecordReviewAt(k: nat, rating: PerformanceRating, now: nat)
      requires k < |items|
      modifies this
      ensures items == old(items)[k := RecordReview(old(items)[k], rating, now)]
    {
      items := items[k := RecordReview(items[k], rating, now)];
    }
  }

  /** One new item per value, all due at `now`. */
  function NewItems<T>(values: seq<T>, now: nat): (r: seq<ReviewItem<T>>)
    ensures |r| == |values|
    ensures forall k :: 0 <= k < |values| ==> r[k] == NewItem(values[k], now)
  {
    seq(|values|, k requires 0 <= k < |values| => NewItem(values[k], now))
  }

  /** Every item just added is due at the time it was added. */
  lemma NewItemsAllDue<T>(values: seq<T>, now: nat)
    ensures CountDue(NewItems(values, now), now) == |values|
  {
    CountDueBounds(NewItems(values, now), now);
  }

  /** With new items only, the next one due is the first added. */
  lemma NewItemsFirstIsNext<T>(values: seq<T>, now: nat)
    requires |values| > 0
    ensures NextDueIndex(NewItems(values, now), now) == Some(0)
  {
    var items := NewItems(values, now);
    assert IsDue(items[0], now);
  }
}

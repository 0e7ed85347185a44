/**
 Runtime accounting across local calendar days: the day split, the charge of one day, and
 the daily counter that rolls over only when it is next looked at.
 */
module Accounting {
  import opened Vocabulary

  /** A local time zone: the local date of an instant and the instant a local date begins. */
  datatype Calendar = Calendar(dayOf: Time -> int, midnight: int -> Time) {

    /** Dates and midnights agree; in particular local dates never go back. */
    ghost predicate Sound() {
      forall t: Time, d: int :: t < midnight(d) <==> dayOf(t) < d
    }
  }

  datatype Segment = Segment(day: int, length: Time)

  datatype Interval = Interval(start: Time, end: Time)

  /** Where the segment that begins at `cursor` stops. Odd zone data never stalls the walk. */
  function SegmentEnd(cal: Calendar, cursor: Time, end: Time): (r: Time)
    requires cursor < end
    ensures cursor < r <= end
  {
    var boundary := cal.midnight(cal.dayOf(cursor) + 1);
    Min(if boundary <= cursor then end else boundary, end)
  }

  function Walk(cal: Calendar, start: Time, end: Time): seq<Segment>
    requires start <= end
    decreases end - start
  {
    if start == end then []
    else
      var stop := SegmentEnd(cal, start, end);
      [Segment(cal.dayOf(start), stop - start)] + Walk(cal, stop, end)
  }

  function Split(cal: Calendar, start: Time, end: Time): seq<Segment>
    requires start <= end
  {
    if start == end then [Segment(cal.dayOf(start), 0)] else Walk(cal, start, end)
  }

  function Total(segments: seq<Segment>): Time {
    if segments == [] then 0 else segments[0].length + Total(segments[1..])
  }

  function OnDay(segments: seq<Segment>, day: int): Time {
    if segments == [] then 0
    else (if segments[0].day == day then segments[0].length else 0) + OnDay(segments[1..], day)
  }

  /** The part of an interval that is charged to one local date. */
  function DayCharge(cal: Calendar, start: Time, end: Time, day: int): Time
    requires start <= end
  {
    OnDay(Split(cal, start, end), day)
  }

  /** The split as the source computes it: a cursor that walks from midnight to midnight. */
  method SplitByLocalDays(cal: Calendar, start: Time, end: Time) returns (segments: seq<Segment>)
    requires start <= end
    ensures segments == Split(cal, start, end)
  {
    segments := [];
    var cursor := start;
    while cursor < end
      invariant start <= cursor <= end
      invariant segments + Walk(cal, cursor, end) == Walk(cal, start, end)
      invariant segments == [] <==> cursor == start
    {
      var boundary := cal.midnight(cal.dayOf(cursor) + 1);
      if boundary <= cursor {
        boundary := end;
      }
      var segmentEnd := Min(boundary, end);
      assert segments + Walk(cal, cursor, end)
          == segments + [Segment(cal.dayOf(cursor), segmentEnd - cursor)] + Walk(cal, segmentEnd, end);
      segments := segments + [Segment(cal.dayOf(cursor), segmentEnd - cursor)];
      cursor := segmentEnd;
    }
    if segments == [] {
      segments := [Segment(cal.dayOf(start), 0)];
    }
  }

  // ----- what the split means -------------------------------------------------------------

  /** The segments of any interval add up to it, whatever the zone data. */
  lemma {:induction false} WalkPartitions(cal: Calendar, start: Time, end: Time)
    requires start <= end
    ensures Total(Walk(cal, start, end)) == end - start
    ensures forall k :: 0 <= k < |Walk(cal, start, end)| ==> Walk(cal, start, end)[k].length > 0
    decreases end - start
  {
    if start < end {
      var stop := SegmentEnd(cal, start, end);
      WalkPartitions(cal, stop, end);
    }
  }

  lemma {:induction false} OnDayWithinTotal(segments: seq<Segment>, day: int)
    requires forall k :: 0 <= k < |segments| ==> segments[k].length >= 0
    ensures 0 <= OnDay(segments, day) <= Total(segments)
  {
    if segments != [] {
      OnDayWithinTotal(segments[1..], day);
    }
  }

  /** One day is never charged more than the interval lasted. */
  lemma DayChargeBounded(cal: Calendar, start: Time, end: Time, day: int)
    requires start <= end
    ensures 0 <= DayCharge(cal, start, end, day) <= end - start
  {
    WalkPartitions(cal, start, end);
    OnDayWithinTotal(Split(cal, start, end), day);
  }

  /** The length of the overlap of an interval with the local date `day`. */
  function Overlap(cal: Calendar, start: Time, end: Time, day: int): Time {
    Max(0, Min(end, cal.midnight(day + 1)) - Max(start, cal.midnight(day)))
  }

  /** On sound zone data the walk computes exactly the overlap. */
  lemma {:induction false} WalkIsOverlap(cal: Calendar, start: Time, end: Time, day: int)
    requires cal.Sound()
    requires start <= end
    ensures OnDay(Walk(cal, start, end), day) == Overlap(cal, start, end, day)
    decreases end - start
  {
    assert cal.midnight(day) <= cal.midnight(day + 1) by {
      MidnightsAscend(cal, day, day + 1);
    }
    if start < end {
      var today := cal.dayOf(start);
      var stop := SegmentEnd(cal, start, end);
      assert cal.midnight(today) <= start < cal.midnight(today + 1);
      WalkIsOverlap(cal, stop, end, day);
      if day < today {
        MidnightsAscend(cal, day + 1, today);
      } else if today < day {
        MidnightsAscend(cal, today + 1, day);
      }
    }
  }

  lemma MidnightsAscend(cal: Calendar, d: int, e: int)
    requires cal.Sound()
    requires d <= e
    ensures cal.midnight(d) <= cal.midnight(e)
  {
    var m := cal.midnight(e);
    assert !(m < cal.midnight(e));
    assert e <= cal.dayOf(m);
    assert !(m < cal.midnight(d));
  }

  lemma DayChargeIsOverlap(cal: Calendar, start: Time, end: Time, day: int)
    requires cal.Sound()
    requires start <= end
    ensures DayCharge(cal, start, end, day) == Overlap(cal, start, end, day)
  {
    WalkIsOverlap(cal, start, end, day);
    if start == end {
      assert OnDay(Split(cal, start, end), day) == 0;
    }
  }

  /** Charging two adjacent intervals charges what the whole would have. */
  lemma DayChargeAdditive(cal: Calendar, a: Time, b: Time, c: Time, day: int)
    requires cal.Sound()
    requires a <= b <= c
    ensures DayCharge(cal, a, b, day) + DayCharge(cal, b, c, day) == DayCharge(cal, a, c, day)
  {
    DayChargeIsOverlap(cal, a, b, day);
    DayChargeIsOverlap(cal, b, c, day);
    DayChargeIsOverlap(cal, a, c, day);
    MidnightsAscend(cal, day, day + 1);
  }

  /** Nothing is charged to a date that has not begun. */
  lemma NothingChargedAhead(cal: Calendar, start: Time, end: Time, day: int)
    requires cal.Sound()
    requires start <= end
    requires end <= cal.midnight(day)
    ensures DayCharge(cal, start, end, day) == 0
  {
    DayChargeIsOverlap(cal, start, end, day);
  }

  // ----- the lazily rolled-over counter ---------------------------------------------------

  datatype Daily = Daily(date: int, runtime: Time)

  function CurrentDaily(cal: Calendar, daily: Daily, now: Time): Daily {
    if daily.date != cal.dayOf(now) then Daily(cal.dayOf(now), 0) else daily
  }

  function ChargeDaily(cal: Calendar, daily: Daily, now: Time, delta: Time, end: Time): Daily
    requires 0 <= delta
  {
    var current := CurrentDaily(cal, daily, now);
    var charge := DayCharge(cal, end - delta, end, current.date);
    if charge > 0 then Daily(current.date, current.runtime + charge) else current
  }

  /** What recomputing one date from every interval ever charged gives. */
  function Recompute(cal: Calendar, charges: seq<Interval>, day: int): Time
    requires forall k :: 0 <= k < |charges| ==> charges[k].start <= charges[k].end
  {
    if charges == [] then 0
    else
      var last := charges[|charges| - 1];
      Recompute(cal, charges[..|charges| - 1], day) + DayCharge(cal, last.start, last.end, day)
  }

  /** Every charged interval ended before the date after `day` began. */
  ghost predicate EndedBy(cal: Calendar, charges: seq<Interval>, day: int) {
    forall k :: 0 <= k < |charges| ==> charges[k].start <= charges[k].end < cal.midnight(day + 1)
  }

  /** The stored counter is the recomputation of the date it is stamped with. */
  ghost predicate CounterAgrees(cal: Calendar, daily: Daily, charges: seq<Interval>) {
    && EndedBy(cal, charges, daily.date)
    && daily.runtime == Recompute(cal, charges, daily.date)
  }

  lemma {:induction false} NothingRecomputedAhead(cal: Calendar, charges: seq<Interval>, before: int, day: int)
    requires cal.Sound()
    requires EndedBy(cal, charges, before)
    requires before < day
    ensures Recompute(cal, charges, day) == 0
  {
    if charges != [] {
      var last := charges[|charges| - 1];
      NothingRecomputedAhead(cal, charges[..|charges| - 1], before, day);
      MidnightsAscend(cal, before + 1, day);
      NothingChargedAhead(cal, last.start, last.end, day);
    }
  }

  /**
   Reading the counter on the stamped date or later yields the recomputation for the date
   it is read on, although the roll-over never looks at an interval.
   */
  lemma ReadAgrees(cal: Calendar, daily: Daily, charges: seq<Interval>, now: Time)
    requires cal.Sound()
    requires daily.date <= cal.dayOf(now)
    requires CounterAgrees(cal, daily, charges)
    ensures CounterAgrees(cal, CurrentDaily(cal, daily, now), charges)
    ensures CurrentDaily(cal, daily, now).runtime == Recompute(cal, charges, cal.dayOf(now))
  {
    var today := cal.dayOf(now);
    if daily.date != today {
      NothingRecomputedAhead(cal, charges, daily.date, today);
      MidnightsAscend(cal, daily.date + 1, today + 1);
    }
  }

  /** Charging an interval that has ended keeps the counter equal to the recomputation. */
  lemma ChargeAgrees(cal: Calendar, daily: Daily, charges: seq<Interval>, now: Time, delta: Time, end: Time)
    requires cal.Sound()
    requires daily.date <= cal.dayOf(now)
    requires CounterAgrees(cal, daily, charges)
    requires 0 <= delta && end <= now
    ensures CounterAgrees(cal, ChargeDaily(cal, daily, now, delta, end), charges + [Interval(end - delta, end)])
    ensures ChargeDaily(cal, daily, now, delta, end).date == cal.dayOf(now)
  {
    ReadAgrees(cal, daily, charges, now);
    var extended := charges + [Interval(end - delta, end)];
    assert now < cal.midnight(cal.dayOf(now) + 1);
    assert EndedBy(cal, extended, cal.dayOf(now));
    assert extended[..|extended| - 1] == charges;
    DayChargeBounded(cal, end - delta, end, cal.dayOf(now));
  }
}

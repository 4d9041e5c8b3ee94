/**
  The itinerary puzzle: a pool of unassigned activities and a fixed list of days,
  each with a capacity in minutes. Dragging an activity from the pool into a day
  is admitted only when it fits; dragging it from a day back to the pool frees
  its minutes. A day that crosses 90% full on an admitted move raises a
  "just completed" signal.
 */
module SchedulePuzzle {
  import opened Lists
  import opened Text
  import opened DragDrop

  datatype Activity = Activity(
    id: string,
    title: string,
    duration: nat,  // minutes
    color: string,
    icon: Option<string>,
    description: Option<string>)

  datatype DaySchedule = DaySchedule(
    id: string,
    date: string,
    dayName: string,
    activities: seq<Activity>,
    maxCapacity: int,      // most minutes the day may hold
    currentCapacity: int)  // minutes used by `activities`

  /** The puzzle's state after a drop, with the day that was just completed, if any. */
  datatype DragOutcome = DragOutcome(days: seq<DaySchedule>, pool: seq<Activity>, completed: Option<string>)

  const PoolId: string := "available-activities"
  const DayPrefix: string := "day-"

  function Duration(a: Activity): int
  {
    a.duration
  }

  /** The minutes the activities of a list take together. */
  function TotalMinutes(activities: seq<Activity>): int
  {
    Sum(Duration, activities)
  }

  /** A day holds no more than its capacity and its `currentCapacity` is the sum of its activities' durations. */
  ghost predicate DayValid(d: DaySchedule)
  {
    0 <= d.currentCapacity <= d.maxCapacity && d.currentCapacity == TotalMinutes(d.activities)
  }

  ghost predicate DaysValid(days: seq<DaySchedule>)
  {
    forall k :: 0 <= k < |days| ==> DayValid(days[k])
  }

  /** A day counts as complete once it is at least 90% full: `current >= max * 0.9` in integers. */
  predicate IsComplete(current: int, max: int)
  {
    10 * current >= 9 * max
  }

  lemma PoolIsNotADay()
    ensures !StartsWith(PoolId, DayPrefix)
  {
    assert PoolId[..|DayPrefix|][0] == 'a';
  }

  /** `days.findIndex(day => day.id === id)`. */
  function DayIndex(days: seq<DaySchedule>, id: string): (r: int)
    ensures -1 <= r < |days|
    ensures r == -1 <==> forall k :: 0 <= k < |days| ==> days[k].id != id
    ensures r >= 0 ==> days[r].id == id && forall k :: 0 <= k < r ==> days[k].id != id
  {
    FindIndex((d: DaySchedule) => d.id == id, days)
  }

  /**
    The drag library only reports drags of items that exist: a drag out of the pool
    starts at an index of the pool, a drag out of a day at an index of that day.
   */
  predicate SourceInRange(days: seq<DaySchedule>, pool: seq<Activity>, drop: DropResult)
  {
    && (drop.source.droppableId == PoolId ==> drop.source.index < |pool|)
    && (var k := DayIndex(days, drop.source.droppableId);
        k >= 0 ==> drop.source.index < |days[k].activities|)
  }

  predicate IsPoolToDay(drop: DropResult)
  {
    drop.destination.Some? && drop.source.droppableId == PoolId
    && StartsWith(drop.destination.value.droppableId, DayPrefix)
  }

  predicate IsDayToPool(drop: DropResult)
  {
    drop.destination.Some? && StartsWith(drop.source.droppableId, DayPrefix)
    && drop.destination.value.droppableId == PoolId
  }

  /** The effect of `onDragEnd` on the days and the pool, and the completion signal it raises. */
  function Drag(days: seq<DaySchedule>, pool: seq<Activity>, drop: DropResult): (r: DragOutcome)
    requires SourceInRange(days, pool, drop)
    ensures |r.days| == |days|
    ensures forall k :: 0 <= k < |days| ==>
              r.days[k].id == days[k].id && r.days[k].maxCapacity == days[k].maxCapacity
    ensures r.completed.Some? ==> IsPoolToDay(drop) && r.completed == Some(drop.destination.value.droppableId)
  {
    var noChange := DragOutcome(days, pool, None);
    if drop.destination.None? then noChange
    else
      var src, dst := drop.source, drop.destination.value;
      if src.droppableId == dst.droppableId && src.index == dst.index then noChange
      else if IsPoolToDay(drop) then
        var k := DayIndex(days, dst.droppableId);
        if k == -1 then noChange
        else
          var day, activity := days[k], pool[src.index];
          if day.currentCapacity + activity.duration > day.maxCapacity then noChange
          else
            var updated := day.(activities := day.activities + [activity],
                                currentCapacity := day.currentCapacity + activity.duration);
            var justCompleted := IsComplete(updated.currentCapacity, updated.maxCapacity)
                                 && !IsComplete(day.currentCapacity, day.maxCapacity);
            DragOutcome(days[k := updated], RemoveAt(pool, src.index),
                        if justCompleted then Some(dst.droppableId) else None)
      else if IsDayToPool(drop) then
        var k := DayIndex(days, src.droppableId);
        if k == -1 then noChange
        else
          var day := days[k];
          var activity := day.activities[src.index];
          var updated := day.(activities := RemoveAt(day.activities, src.index),
                              currentCapacity := day.currentCapacity - activity.duration);
          DragOutcome(days[k := updated], pool + [activity], None)
      else noChange
  }

  // ---------------------------------------------------------------------------
  // Properties of a drop

  /** A drop outside any list, or back onto the place it came from, changes nothing. */
  lemma DropOutsideOrInPlaceChangesNothing(days: seq<DaySchedule>, pool: seq<Activity>, drop: DropResult)
    requires SourceInRange(days, pool, drop)
    requires drop.destination.None? || drop.destination.value == drop.source
    ensures Drag(days, pool, drop) == DragOutcome(days, pool, None)
  {
  }

  /** Drags from day to day, and reorders inside the pool or inside a day, match neither branch. */
  lemma OtherDragsChangeNothing(days: seq<DaySchedule>, pool: seq<Activity>, drop: DropResult)
    requires SourceInRange(days, pool, drop)
    requires drop.destination.Some?
    requires (StartsWith(drop.source.droppableId, DayPrefix) && StartsWith(drop.destination.value.droppableId, DayPrefix))
             || drop.source.droppableId == drop.destination.value.droppableId
    ensures Drag(days, pool, drop) == DragOutcome(days, pool, None)
  {
    PoolIsNotADay();
  }

  /** A move into a day that the activity would overfill is refused and changes nothing. */
  lemma OverfullMoveRefused(days: seq<DaySchedule>, pool: seq<Activity>, drop: DropResult)
    requires SourceInRange(days, pool, drop)
    requires IsPoolToDay(drop) && drop.destination.value != drop.source
    requires var k := DayIndex(days, drop.destination.value.droppableId);
             k >= 0 && days[k].currentCapacity + pool[drop.source.index].duration > days[k].maxCapacity
    ensures Drag(days, pool, drop) == DragOutcome(days, pool, None)
  {
  }

  /**
    An admitted move from the pool appends the activity at the end of the day whatever
    the drop index, adds its duration to the day's minutes, takes it out of the pool
    at the source index and leaves every other day as it was.
   */
  lemma AdmittedMoveAppends(days: seq<DaySchedule>, pool: seq<Activity>, drop: DropResult)
    requires SourceInRange(days, pool, drop)
    requires IsPoolToDay(drop) && drop.destination.value != drop.source
    requires var k := DayIndex(days, drop.destination.value.droppableId);
             k >= 0 && days[k].currentCapacity + pool[drop.source.index].duration <= days[k].maxCapacity
    ensures var k := DayIndex(days, drop.destination.value.droppableId);
            var a := pool[drop.source.index];
            var r := Drag(days, pool, drop);
            && |r.days| == |days|
            && r.days[k].activities == days[k].activities + [a]
            && r.days[k].currentCapacity == days[k].currentCapacity + a.duration
            && r.days[k].maxCapacity == days[k].maxCapacity && r.days[k].id == days[k].id
            && r.pool == RemoveAt(pool, drop.source.index)
            && |r.pool| == |pool| - 1
            && (forall j :: 0 <= j < |days| && j != k ==> r.days[j] == days[j])
  {
  }

  /**
    A move from a day back to the pool takes the activity at the source index out of
    the day, frees its minutes and appends it to the end of the pool.
   */
  lemma ReturnToPool(days: seq<DaySchedule>, pool: seq<Activity>, drop: DropResult)
    requires SourceInRange(days, pool, drop)
    requires IsDayToPool(drop)
    requires DayIndex(days, drop.source.droppableId) >= 0
    ensures var k := DayIndex(days, drop.source.droppableId);
            var a := days[k].activities[drop.source.index];
            var r := Drag(days, pool, drop);
            && |r.days| == |days|
            && r.days[k].activities == RemoveAt(days[k].activities, drop.source.index)
            && |r.days[k].activities| == |days[k].activities| - 1
            && r.days[k].currentCapacity == days[k].currentCapacity - a.duration
            && r.pool == pool + [a]
            && r.completed == None
            && (forall j :: 0 <= j < |days| && j != k ==> r.days[j] == days[j])
  {
    PoolIsNotADay();
  }

  /**
    The completion signal names a day exactly when an admitted move from the pool took
    that day from under 90% full to at least 90% full.
   */
  lemma CompletionSignal(days: seq<DaySchedule>, pool: seq<Activity>, drop: DropResult)
    requires SourceInRange(days, pool, drop)
    ensures var r := Drag(days, pool, drop);
            r.completed.Some? <==>
              && IsPoolToDay(drop) && drop.destination.value != drop.source
              && var k := DayIndex(days, drop.destination.value.droppableId);
                 && k >= 0
                 && var before := days[k].currentCapacity;
                    var after := before + pool[drop.source.index].duration;
                    after <= days[k].maxCapacity
                    && !IsComplete(before, days[k].maxCapacity)
                    && IsComplete(after, days[k].maxCapacity)
    ensures var r := Drag(days, pool, drop);
            r.completed.Some? ==> r.completed.value == drop.destination.value.droppableId
  {
    PoolIsNotADay();
  }

  /** A day that was already at least 90% full never raises the signal again. */
  lemma NoSignalWhenAlreadyComplete(days: seq<DaySchedule>, pool: seq<Activity>, drop: DropResult)
    requires SourceInRange(days, pool, drop)
    requires drop.destination.Some?
    requires var k := DayIndex(days, drop.destination.value.droppableId);
             k >= 0 && IsComplete(days[k].currentCapacity, days[k].maxCapacity)
    ensures Drag(days, pool, drop).completed == None
  {
    CompletionSignal(days, pool, drop);
  }

  // ---------------------------------------------------------------------------
  // The capacity invariant

  /** Every drop keeps each day within its capacity and its minutes equal to the sum of its durations. */
  lemma DragKeepsDaysValid(days: seq<DaySchedule>, pool: seq<Activity>, drop: DropResult)
    requires SourceInRange(days, pool, drop)
    requires DaysValid(days)
    ensures DaysValid(Drag(days, pool, drop).days)
  {
    var r := Drag(days, pool, drop);
    if r.days != days {
      PoolIsNotADay();
      if IsPoolToDay(drop) {
        var k := DayIndex(days, drop.destination.value.droppableId);
        SumAppend(Duration, days[k].activities, [pool[drop.source.index]]);
        assert DayValid(r.days[k]);
      } else {
        var k := DayIndex(days, drop.source.droppableId);
        var acts := days[k].activities;
        SumRemoveAt(Duration, acts, drop.source.index);
        SumNonNegative(Duration, RemoveAt(acts, drop.source.index));
        assert DayValid(r.days[k]);
      }
    }
  }

  // ---------------------------------------------------------------------------
  // Conservation of activities

  function Activities(d: DaySchedule): seq<Activity>
  {
    d.activities
  }

  /** All activities held by the days, counted with multiplicity. */
  ghost function Scheduled(days: seq<DaySchedule>): multiset<Activity>
  {
    Pooled(Activities, days)
  }

  /** No drop creates, loses or duplicates an activity: the pool and the days together hold the same activities. */
  lemma DragConservesActivities(days: seq<DaySchedule>, pool: seq<Activity>, drop: DropResult)
    requires SourceInRange(days, pool, drop)
    ensures var r := Drag(days, pool, drop);
            multiset(r.pool) + Scheduled(r.days) == multiset(pool) + Scheduled(days)
  {
    var r := Drag(days, pool, drop);
    PoolIsNotADay();
    if r.days == days && r.pool == pool {
    } else if IsPoolToDay(drop) {
      var k := DayIndex(days, drop.destination.value.droppableId);
      var a := pool[drop.source.index];
      assert r.days == days[k := r.days[k]];
      assert r.days[k].activities == days[k].activities + [a];
      PooledAdd(Activities, days, k, r.days[k], multiset{a});
      assert multiset(r.pool) + multiset{a} == multiset(pool);
    } else {
      var k := DayIndex(days, drop.source.droppableId);
      var a := days[k].activities[drop.source.index];
      assert r.days == days[k := r.days[k]];
      assert r.days[k].activities == RemoveAt(days[k].activities, drop.source.index);
      PooledRemove(Activities, days, k, r.days[k], multiset{a});
      assert r.pool == pool + [a];
    }
  }

  // ---------------------------------------------------------------------------
  // Duration labels

  /** `formatDuration`: whole hours, then the remaining minutes only when there are any ("2h", "1h 30m"). */
  function FormatDuration(minutes: nat): (r: string)
    ensures var k := |NatToString(minutes / 60)|;
            k < |r| && r[k] == 'h' && IsDigits(r[..k]) && ValueOf(r[..k]) == minutes / 60
    ensures r[|r| - 1] == if minutes % 60 == 0 then 'h' else 'm'
  {
    var hours := NatToString(minutes / 60);
    var r := hours + "h" + (if minutes % 60 > 0 then " " + NatToString(minutes % 60) + "m" else "");
    assert r[..|hours|] == hours;
    r
  }

  predicate IsHourMark(c: char)
  {
    c == 'h'
  }

  /** Reads the part of a label after the 'h': nothing, or " <minutes>m". */
  function MinutesPart(rest: string): Option<nat>
  {
    if rest == [] then Some(0)
    else if |rest| >= 3 && rest[0] == ' ' && rest[|rest| - 1] == 'm' && IsDigits(rest[1..|rest| - 1]) then
      Some(ValueOf(rest[1..|rest| - 1]))
    else None
  }

  /** Reads a label split at index `k`: hour digits before it, the minutes part after it. */
  function ParseSplit(s: string, k: int): Option<nat>
    requires -1 <= k < |s|
  {
    if k <= 0 || !IsDigits(s[..k]) then None
    else
      var minutes := MinutesPart(s[k + 1..]);
      if minutes.None? then None else Some(60 * ValueOf(s[..k]) + minutes.value)
  }

  /** Reads a label of the form "<hours>h" or "<hours>h <minutes>m" back into minutes. */
  function ParseDuration(s: string): Option<nat>
  {
    ParseSplit(s, FindIndex(IsHourMark, s))
  }

  /** A duration label reads back as the number of minutes it was made from. */
  lemma FormatDurationRoundTrip(minutes: nat)
    ensures ParseDuration(FormatDuration(minutes)) == Some(minutes)
  {
    var hs, ms := NatToString(minutes / 60), NatToString(minutes % 60);
    var tail := if minutes % 60 > 0 then " " + ms + "m" else "";
    assert FormatDuration(minutes) == hs + "h" + tail;
    if minutes % 60 > 0 {
      assert tail[1..|tail| - 1] == ms;
    }
    assert MinutesPart(tail) == Some(minutes % 60);
    ParseLabel(FormatDuration(minutes), hs, tail);
  }

  /** A label made of hour digits, the 'h' and a readable tail reads as the hours plus the tail's minutes. */
  lemma ParseLabel(s: string, hs: string, tail: string)
    requires s == hs + "h" + tail
    requires IsDigits(hs) && hs != [] && MinutesPart(tail).Some?
    ensures ParseDuration(s) == Some(60 * ValueOf(hs) + MinutesPart(tail).value)
  {
    HourMarkAfterDigits(hs, tail);
    ParseAt(s, |hs|);
  }

  /** A label whose first 'h' is at `k`, after digits, with a readable tail. */
  lemma ParseAt(s: string, k: nat)
    requires 0 < k < |s| && FindIndex(IsHourMark, s) == k && IsDigits(s[..k]) && MinutesPart(s[k + 1..]).Some?
    ensures ParseDuration(s) == Some(60 * ValueOf(s[..k]) + MinutesPart(s[k + 1..]).value)
  {
    assert ParseDuration(s) == ParseSplit(s, k);
    ParseSplitReads(s, k);
  }

  lemma ParseSplitReads(s: string, k: nat)
    requires 0 < k < |s| && IsDigits(s[..k]) && MinutesPart(s[k + 1..]).Some?
    ensures ParseSplit(s, k) == Some(60 * ValueOf(s[..k]) + MinutesPart(s[k + 1..]).value)
  {
  }

  /** The first 'h' of a label follows its hour digits. */
  lemma HourMarkAfterDigits(hs: string, tail: string)
    requires IsDigits(hs)
    ensures FindIndex(IsHourMark, hs + "h" + tail) == |hs|
    ensures (hs + "h" + tail)[..|hs|] == hs && (hs + "h" + tail)[|hs| + 1..] == tail
  {
    var s := hs + "h" + tail;
    assert s[|hs|] == 'h';
    forall i | 0 <= i < |hs|
      ensures s[i] != 'h'
    {
      assert s[i] == hs[i];
    }
  }

  /** The label shows a minute part exactly when the duration is not a whole number of hours. */
  lemma FormatDurationMinutePart(minutes: nat)
    ensures 'm' in FormatDuration(minutes) <==> minutes % 60 != 0
  {
    var hs := NatToString(minutes / 60);
    assert 'm' !in hs by {
      assert forall i :: 0 <= i < |hs| ==> '0' <= hs[i] <= '9';
    }
    if minutes % 60 != 0 {
      var s := FormatDuration(minutes);
      assert s[|s| - 1] == 'm';
    }
  }

  // ---------------------------------------------------------------------------
  // The component

  function SampleActivities(): (r: seq<Activity>)
    ensures |r| == 6
  {
    [ Activity("act-1", "Museum Visit", 120, "bg-blue-100 border-blue-300", Some("🏛️"), Some("Visit the National Museum of Art")),
      Activity("act-2", "City Tour", 180, "bg-green-100 border-green-300", Some("🚶"), Some("Walking tour of historic downtown")),
      Activity("act-3", "Lunch", 90, "bg-yellow-100 border-yellow-300", Some("🍽️"), Some("Lunch at local restaurant")),
      Activity("act-4", "Beach", 240, "bg-cyan-100 border-cyan-300", Some("🏖️"), Some("Relaxing time at the beach")),
      Activity("act-5", "Shopping", 120, "bg-purple-100 border-purple-300", Some("🛍️"), Some("Shopping at local markets")),
      Activity("act-6", "Dinner", 120, "bg-red-100 border-red-300", Some("🍷"), Some("Dinner at recommended restaurant")) ]
  }

  /** Four empty days of 12 hours each. */
  function InitialDays(): (r: seq<DaySchedule>)
    ensures DaysValid(r)
  {
    [ DaySchedule("day-1", "2023-10-15", "Monday", [], 720, 0),
      DaySchedule("day-2", "2023-10-16", "Tuesday", [], 720, 0),
      DaySchedule("day-3", "2023-10-17", "Wednesday", [], 720, 0),
      DaySchedule("day-4", "2023-10-18", "Thursday", [], 720, 0) ]
  }

  class Puzzle {
    var days: seq<DaySchedule>
    var availableActivities: seq<Activity>
    var recentlyCompleted: Option<string>

    ghost predicate Valid()
      reads this
    {
      DaysValid(days)
    }

    constructor ()
      ensures Valid()
      ensures days == InitialDays() && availableActivities == SampleActivities()
      ensures recentlyCompleted == None
    {
      days := InitialDays();
      availableActivities := SampleActivities();
      recentlyCompleted := None;
    }

    /**
      `onDragEnd`: applies a drop to the days and the pool, records a just-completed
      day and returns it.
     */
    method OnDragEnd(drop: DropResult) returns (justCompleted: Option<string>)
      requires Valid()
      requires SourceInRange(days, availableActivities, drop)
      modifies this
      ensures Valid()
      ensures var r := Drag(old(days), old(availableActivities), drop);
              days == r.days && availableActivities == r.pool && justCompleted == r.completed
      ensures recentlyCompleted == if justCompleted.Some? then justCompleted else old(recentlyCompleted)
    {
      DragKeepsDaysValid(days, availableActivities, drop);
      PoolIsNotADay();
      justCompleted := None;
      if drop.destination.None? {
        return;
      }
      var source, destination := drop.source, drop.destination.value;
      if source.droppableId == destination.droppableId && source.index == destination.index {
        return;
      }

      if source.droppableId == PoolId && StartsWith(destination.droppableId, DayPrefix) {
        var activityIndex := source.index;
        var activity := availableActivities[activityIndex];
        var dayId := destination.droppableId;
        var dayIndex := DayIndex(days, dayId);
        if dayIndex == -1 {
          return;
        }
        var day := days[dayIndex];
        if day.currentCapacity + activity.duration > day.maxCapacity {
          return;
        }
        var updatedDay := day.(activities := day.activities + [activity],
                               currentCapacity := day.currentCapacity + activity.duration);
        if IsComplete(updatedDay.currentCapacity, updatedDay.maxCapacity)
           && !IsComplete(day.currentCapacity, day.maxCapacity) {
          recentlyCompleted := Some(dayId);
          justCompleted := Some(dayId);
        }
        var newDays := days;
        newDays := newDays[dayIndex := updatedDay];
        days := newDays;
        availableActivities := RemoveAt(availableActivities, activityIndex);
      }

      if StartsWith(source.droppableId, DayPrefix) && destination.droppableId == PoolId {
        var dayId := source.droppableId;
        var dayIndex := DayIndex(days, dayId);
        if dayIndex == -1 {
          return;
        }
        var day := days[dayIndex];
        var activityIndex := source.index;
        var activity := day.activities[activityIndex];
        var updatedDay := day.(activities := RemoveAt(day.activities, activityIndex),
                               currentCapacity := day.currentCapacity - activity.duration);
        var newDays := days;
        newDays := newDays[dayIndex := updatedDay];
        days := newDays;
        availableActivities := availableActivities + [activity];
      }
    }
  }
}

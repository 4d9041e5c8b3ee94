/**
  The trip planner: a live countdown to the departure date, shown as zero-padded
  day, hour, minute and second digits, and one plan per day of the trip with
  editable notes. Dates are whole day numbers and times are whole seconds; the
  current time is a parameter.
 */
module TripCountdown {
  import opened Lists
  import opened Text

  const SecondsPerDay := 86400
  const SecondsPerHour := 3600
  const SecondsPerMinute := 60

  // ---------------------------------------------------------------------------
  // The countdown

  datatype Countdown = Countdown(days: nat, hours: nat, minutes: nat, seconds: nat)

  function Clamp(secondsToGo: int): nat
  {
    if secondsToGo < 0 then 0 else secondsToGo
  }

  /** The seconds a countdown stands for. */
  function SecondsOf(c: Countdown): nat
  {
    c.days * SecondsPerDay + c.hours * SecondsPerHour + c.minutes * SecondsPerMinute + c.seconds
  }

  predicate InRange(c: Countdown)
  {
    c.hours < 24 && c.minutes < 60 && c.seconds < 60
  }

  /**
    `updateCountdown`: the seconds until departure, never below zero, as whole days,
    hours, minutes and seconds.
   */
  function Decompose(secondsToGo: int): (c: Countdown)
    ensures InRange(c)
    ensures SecondsOf(c) == Clamp(secondsToGo)
  {
    var total := Clamp(secondsToGo);
    DecomposeSplits(total);
    Countdown(total / SecondsPerDay, (total % SecondsPerDay) / SecondsPerHour,
              (total % SecondsPerHour) / SecondsPerMinute, total % SecondsPerMinute)
  }

  lemma MulAtLeast(k: int, b: int)
    requires k >= 1 && b > 0
    ensures k * b >= b
  {
    assert k * b == (k - 1) * b + b;
    assert (k - 1) * b >= 0;
  }

  /** Quotient and remainder are the only pair with the remainder in range. */
  lemma DivModUnique(a: int, b: int, q: int, r: int)
    requires b > 0 && 0 <= r < b && a == q * b + r
    ensures a / b == q && a % b == r
  {
    var q', r' := a / b, a % b;
    assert a == q' * b + r';
    assert (q - q') * b == r' - r by {
      assert q * b - q' * b == (q - q') * b;
    }
    if q > q' {
      MulAtLeast(q - q', b);
    } else if q < q' {
      MulAtLeast(q' - q, b);
    }
  }

  /** The hours taken from the day's remainder are below 24, and the four parts add up again. */
  lemma DecomposeSplits(total: nat)
    ensures (total % 86400) / 3600 < 24
    ensures (total / 86400) * 86400 + ((total % 86400) / 3600) * 3600
            + ((total % 3600) / 60) * 60 + total % 60 == total
  {
    var d, r := total / 86400, total % 86400;
    var h, r2 := r / 3600, r % 3600;
    var m, sec := r2 / 60, r2 % 60;
    assert total == d * 86400 + r;
    assert r == h * 3600 + r2;
    assert r2 == m * 60 + sec;
    DivModUnique(total, 3600, d * 24 + h, r2);
    DivModUnique(total, 60, d * 1440 + h * 60 + m, sec);
    DivModUnique(r, 3600, h, r2);
  }

  /** A departure already past shows all zeros. */
  lemma PastDepartureShowsZero(secondsToGo: int)
    requires secondsToGo <= 0
    ensures Decompose(secondsToGo) == Countdown(0, 0, 0, 0)
  {
  }

  /** There is only one way to write a number of seconds as days, hours, minutes and seconds in range. */
  lemma DecomposeUnique(secondsToGo: int, c: Countdown)
    requires InRange(c) && SecondsOf(c) == Clamp(secondsToGo)
    ensures Decompose(secondsToGo) == c
  {
    var d := Decompose(secondsToGo);
    var rest, restD := c.hours * 3600 + c.minutes * 60 + c.seconds, d.hours * 3600 + d.minutes * 60 + d.seconds;
    assert rest < 86400 && restD < 86400;
    assert c.days == d.days;
    assert c.hours == d.hours;
    assert c.minutes == d.minutes;
  }

  /** The digit strings: days padded to three digits, the other fields to two. */
  datatype Display = Display(days: string, hours: string, minutes: string, seconds: string)

  function Pad(n: nat, width: nat): string
  {
    PadStart(NatToString(n), width, '0')
  }

  function DisplayOf(c: Countdown): (r: Display)
    ensures IsDigits(r.days) && IsDigits(r.hours) && IsDigits(r.minutes) && IsDigits(r.seconds)
    ensures ValueOf(r.days) == c.days && ValueOf(r.hours) == c.hours
            && ValueOf(r.minutes) == c.minutes && ValueOf(r.seconds) == c.seconds
  {
    PadDigits(c.days, 3);
    PadDigits(c.hours, 2);
    PadDigits(c.minutes, 2);
    PadDigits(c.seconds, 2);
    Display(Pad(c.days, 3), Pad(c.hours, 2), Pad(c.minutes, 2), Pad(c.seconds, 2))
  }

  /** A padded field keeps its value and is exactly `width` digits long when it fits in them. */
  lemma PadDigits(n: nat, width: nat)
    requires width >= 1
    ensures IsDigits(Pad(n, width)) && ValueOf(Pad(n, width)) == n
    ensures |Pad(n, width)| >= width
    ensures |Pad(n, width)| == width <==> n < Pow10(width)
  {
    PadStartKeepsValue(n, width);
    NatToStringLength(n, width);
  }

  /**
    Padding keeps each field's value; hours, minutes and seconds are exactly two digits,
    and the days exactly three when there are fewer than 1000 of them (never fewer).
   */
  lemma DisplayDigits(c: Countdown)
    requires InRange(c)
    ensures var s := DisplayOf(c);
            IsDigits(s.days) && IsDigits(s.hours) && IsDigits(s.minutes) && IsDigits(s.seconds)
            && ValueOf(s.days) == c.days && ValueOf(s.hours) == c.hours
            && ValueOf(s.minutes) == c.minutes && ValueOf(s.seconds) == c.seconds
            && |s.hours| == 2 && |s.minutes| == 2 && |s.seconds| == 2
            && |s.days| >= 3 && (|s.days| == 3 <==> c.days < 1000)
  {
    assert Pow10(2) == 100 && Pow10(3) == 1000;
    PadDigits(c.days, 3);
    PadDigits(c.hours, 2);
    PadDigits(c.minutes, 2);
    PadDigits(c.seconds, 2);
  }

  /** The three day digits on the board: the first three characters of the day string. */
  function ShownDays(c: Countdown): (r: string)
    ensures |r| == 3 && IsDigits(r)
  {
    PadDigits(c.days, 3);
    Pad(c.days, 3)[..3]
  }

  /** The board shows the true number of days exactly when it is below 1000. */
  lemma ShownDaysExact(c: Countdown)
    ensures ValueOf(ShownDays(c)) == c.days <==> c.days < 1000
  {
    assert Pow10(3) == 1000;
    PadDigits(c.days, 3);
    var s := Pad(c.days, 3);
    if c.days >= 1000 {
      var t := NatToString(c.days);
      assert s == t;
      ValueOfPrefixBelow(t, 3);
    } else {
      assert s[..3] == s;
    }
  }

  /** The first `k` digits of a longer digit string stand for less than the whole. */
  lemma {:induction false} ValueOfPrefixBelow(s: string, k: nat)
    requires IsDigits(s) && k < |s| && s[0] != '0'
    ensures IsDigits(s[..k]) && ValueOf(s[..k]) < ValueOf(s)
    decreases |s|
  {
    var init := s[..|s| - 1];
    if k < |init| {
      assert init[..k] == s[..k];
      ValueOfPrefixBelow(init, k);
    } else {
      assert init == s[..k];
      if |init| > 0 {
        assert init[0] == s[0];
        ValueOfLeadingDigit(init);
      } else {
        ValueOfLeadingDigit(s);
      }
    }
  }

  /** A digit string that starts with a non-zero digit stands for a positive number. */
  lemma {:induction false} ValueOfLeadingDigit(s: string)
    requires IsDigits(s) && |s| > 0 && s[0] != '0'
    ensures ValueOf(s) > 0
    decreases |s|
  {
    if |s| > 1 {
      var init := s[..|s| - 1];
      assert init[0] == s[0];
      ValueOfLeadingDigit(init);
    }
  }

  // ---------------------------------------------------------------------------
  // Day plans

  datatype DayPlan = DayPlan(id: string, date: int, notes: string)

  const ArrivalNote := "Arrival day - Check in to hotel"
  const DepartureNote := "Departure day - Check out and head to airport"

  /** `differenceInDays(returnDate, departureDate) + 1`: the number of plans. */
  function TripLength(departure: int, returnDate: int): int
  {
    returnDate - departure + 1
  }

  /** The plan the loop builds for day `i` of an `n`-day trip. */
  function PlanFor(departure: int, n: int, i: nat): DayPlan
  {
    DayPlan("day-" + NatToString(i + 1), departure + i,
            if i == 0 then ArrivalNote else if i == n - 1 then DepartureNote else "")
  }

  /** All the plans for the trip, one per day from departure to return; none if return comes first. */
  function Plans(departure: int, returnDate: int): (r: seq<DayPlan>)
    ensures |r| == if returnDate < departure then 0 else returnDate - departure + 1
    ensures forall i :: 0 <= i < |r| ==> r[i].date == departure + i
  {
    var n := TripLength(departure, returnDate);
    seq(if n < 0 then 0 else n, i requires 0 <= i => PlanFor(departure, n, i))
  }

  /** The plan-building loop. */
  method BuildPlans(departure: int, returnDate: int) returns (plans: seq<DayPlan>)
    ensures plans == Plans(departure, returnDate)
  {
    var days := TripLength(departure, returnDate);
    plans := [];
    var i := 0;
    while i < days
      invariant 0 <= i <= if days < 0 then 0 else days
      invariant |plans| == i
      invariant forall k :: 0 <= k < i ==> plans[k] == PlanFor(departure, days, k)
    {
      var date := departure + i;
      var notes := if i == 0 then ArrivalNote else if i == days - 1 then DepartureNote else "";
      plans := plans + [DayPlan("day-" + NatToString(i + 1), date, notes)];
      i := i + 1;
    }
    assert |plans| == |Plans(departure, returnDate)|;
  }

  /**
    A trip has one plan per day, dated from the departure on, with ids "day-1" onwards;
    the first day carries the arrival note (even on a one-day trip), the last the
    departure note, and the rest none.
   */
  lemma PlansShape(departure: int, returnDate: int)
    ensures var plans, n := Plans(departure, returnDate), TripLength(departure, returnDate);
            (plans == [] <==> returnDate < departure)
            && (n >= 0 ==> |plans| == n)
            && forall i :: 0 <= i < |plans| ==>
                 plans[i].date == departure + i
                 && plans[i].id == "day-" + NatToString(i + 1)
                 && plans[i].notes == (if i == 0 then ArrivalNote
                                       else if i == |plans| - 1 then DepartureNote else "")
  {
  }

  /** No two plans share an id. */
  lemma PlanIdsDistinct(departure: int, returnDate: int)
    ensures var plans := Plans(departure, returnDate);
            forall i, j :: 0 <= i < |plans| && 0 <= j < |plans| && plans[i].id == plans[j].id ==> i == j
  {
    var plans := Plans(departure, returnDate);
    forall i, j | 0 <= i < |plans| && 0 <= j < |plans| && plans[i].id == plans[j].id
      ensures i == j
    {
      var a, b := NatToString(i + 1), NatToString(j + 1);
      assert ("day-" + a)[4..] == a && ("day-" + b)[4..] == b;
      assert ValueOf(a) == i + 1 && ValueOf(b) == j + 1;
    }
  }

  /** `getDayNumber`: which day of the trip a date is. */
  function DayNumber(departure: int, date: int): (r: int)
    ensures r >= 1 <==> date >= departure
    ensures departure + (r - 1) == date
  {
    date - departure + 1
  }

  lemma DayNumberOfPlan(departure: int, returnDate: int, i: nat)
    requires i < |Plans(departure, returnDate)|
    ensures DayNumber(departure, Plans(departure, returnDate)[i].date) == i + 1
  {
  }

  /** `saveNotes`'s effect on the plans: the selected day's notes replaced, nothing else touched. */
  function WithNotes(plans: seq<DayPlan>, selected: Option<DayPlan>, notes: string): (r: seq<DayPlan>)
    ensures |r| == |plans|
    ensures forall k :: 0 <= k < |plans| ==> r[k].id == plans[k].id && r[k].date == plans[k].date
  {
    if selected.None? then plans
    else seq(|plans|, k requires 0 <= k < |plans| =>
           if plans[k].id == selected.value.id then plans[k].(notes := notes) else plans[k])
  }

  lemma SaveNotesEffect(plans: seq<DayPlan>, selected: Option<DayPlan>, notes: string)
    ensures var r := WithNotes(plans, selected, notes);
            forall k :: 0 <= k < |plans| ==>
              if selected.Some? && plans[k].id == selected.value.id
              then r[k] == DayPlan(plans[k].id, plans[k].date, notes)
              else r[k] == plans[k]
  {
  }

  /**
    The plan the effect opens for editing once it has built the plans: the first one,
    or none when no plans were built.
   */
  function FirstSelection(plans: seq<DayPlan>): (r: Option<DayPlan>)
  {
    if plans == [] then None else Some(plans[0])
  }

  /**
    The effect opens a plan exactly when the trip has at least one day, and that plan is
    the departure day with the arrival note.
   */
  lemma FirstSelectionIsArrivalDay(departure: int, returnDate: int)
    ensures var r := FirstSelection(Plans(departure, returnDate));
            (r.Some? <==> departure <= returnDate)
            && (r.Some? ==> r.value.date == departure && r.value.notes == ArrivalNote
                            && r.value.id == "day-1")
  {
    assert NatToString(1) == "1";
  }

  /**
    As written, the effect reads the notes of `initialPlans[0]` without checking that a
    plan was built. A return date one day before the departure builds none, so that read
    has no plan to read from.
   */
  lemma AsWrittenFirstPlanMissing(departure: int)
    ensures Plans(departure, departure - 1) == []
    ensures FirstSelection(Plans(departure, departure - 1)) == None
  {
    assert TripLength(departure, departure - 1) == 0;
  }

  /** The dates the planner starts with, 45 and 59 days from today, make a fifteen-day trip. */
  lemma InitialTripHasFifteenDays(today: int)
    ensures |Plans(today + 45, today + 59)| == 15
    ensures Plans(today + 45, today + 59)[0].notes == ArrivalNote
  {
  }

  class Planner {
    var departure: int
    var returnDate: int
    var daysLeft: int
    var dayPlans: seq<DayPlan>
    var selectedDay: Option<DayPlan>
    var editingNotes: string

    /** The initial state, followed by the date effect's first run on mount. */
    constructor (today: int)
      ensures departure == today + 45 && returnDate == today + 59 && daysLeft == 45
      ensures dayPlans == Plans(departure, returnDate) && |dayPlans| == 15
      ensures selectedDay == Some(dayPlans[0]) && editingNotes == ArrivalNote
    {
      departure := today + 45;
      returnDate := today + 59;
      daysLeft := 0;
      dayPlans := [];
      selectedDay := None;
      editingNotes := "";
      new;
      InitialTripHasFifteenDays(today);
      OnDatesChanged(today);
    }

    /**
      The effect that runs when the trip dates change: the days left, and, only when
      there are no plans yet, the plans with the first one selected. When the return
      date comes before the departure no plan is built and none is selected.
     */
    method OnDatesChanged(today: int)
      modifies this
      ensures daysLeft == departure - today && departure == old(departure) && returnDate == old(returnDate)
      ensures old(dayPlans) != [] ==>
                dayPlans == old(dayPlans) && selectedDay == old(selectedDay) && editingNotes == old(editingNotes)
      ensures old(dayPlans) == [] ==>
                dayPlans == Plans(departure, returnDate)
                && selectedDay == FirstSelection(dayPlans)
                && editingNotes == (if dayPlans == [] then old(editingNotes) else dayPlans[0].notes)
    {
      daysLeft := departure - today;
      if |dayPlans| == 0 {
        var initialPlans := BuildPlans(departure, returnDate);
        dayPlans := initialPlans;
        if |initialPlans| > 0 {
          selectedDay := Some(initialPlans[0]);
          editingNotes := initialPlans[0].notes;
        } else {
          selectedDay := None;
        }
      }
    }

    /** `handleDepartureDateChange` and the effect it triggers. */
    method ChangeDepartureDate(date: int, today: int)
      modifies this
      ensures departure == date && returnDate == old(returnDate) && daysLeft == date - today
      ensures old(dayPlans) != [] ==>
                dayPlans == old(dayPlans) && selectedDay == old(selectedDay) && editingNotes == old(editingNotes)
      ensures old(dayPlans) == [] ==> dayPlans == Plans(date, returnDate) && selectedDay == FirstSelection(dayPlans)
    {
      departure := date;
      OnDatesChanged(today);
    }

    /** Picking a return date and the effect it triggers. */
    method ChangeReturnDate(date: int, today: int)
      modifies this
      ensures returnDate == date && departure == old(departure) && daysLeft == departure - today
      ensures old(dayPlans) != [] ==>
                dayPlans == old(dayPlans) && selectedDay == old(selectedDay) && editingNotes == old(editingNotes)
      ensures old(dayPlans) == [] ==> dayPlans == Plans(departure, date) && selectedDay == FirstSelection(dayPlans)
    {
      returnDate := date;
      OnDatesChanged(today);
    }

    method SaveNotes()
      modifies this
      ensures dayPlans == WithNotes(old(dayPlans), old(selectedDay), old(editingNotes))
      ensures selectedDay == old(selectedDay) && editingNotes == old(editingNotes)
      ensures departure == old(departure) && returnDate == old(returnDate) && daysLeft == old(daysLeft)
    {
      dayPlans := WithNotes(dayPlans, selectedDay, editingNotes);
    }

    /** `selectDay`: saves the notes being edited, then opens `day` for editing. */
    method SelectDay(day: DayPlan)
      modifies this
      ensures dayPlans == WithNotes(old(dayPlans), old(selectedDay), old(editingNotes))
      ensures selectedDay == Some(day) && editingNotes == day.notes
      ensures departure == old(departure) && returnDate == old(returnDate) && daysLeft == old(daysLeft)
    {
      SaveNotes();
      selectedDay := Some(day);
      editingNotes := day.notes;
    }
  }
}

/**
  `days_to_weeks`: one pass over the days that keeps the Monday-to-Sunday
  window of the week being filled, appends a day that falls inside it, and
  otherwise opens a new week anchored on that day's own Monday.
 */
module Weeks {
  import opened Calendar
  import opened Schedule

  /** `RangeInclusive<NaiveDate>`, with its two ends as day numbers. */
  datatype Window = Window(first: int, last: int)

  /** `date.week(Weekday::Mon).days()`: the Monday to Sunday around `d`. */
  function WeekWindow(d: Date): (w: Window)
    ensures w.first == MondayOf(d) && w.last == w.first + 6
    ensures w.first <= DayNumber(d) <= w.last
  {
    Window(MondayOf(d), MondayOf(d) + 6)
  }

  /** `RangeInclusive::contains`: the date lies between the window's two ends. */
  predicate Contains(w: Window, d: Date) {
    w.first <= DayNumber(d) <= w.last
  }

  /**
    A seven-day window that starts on a Monday holds exactly the dates whose
    own Monday is its first day.
   */
  lemma AlignedContains(w: Window, d: Date)
    requires w.first % 7 == 0 && w.last == w.first + 6
    ensures Contains(w, d) <==> w.first == MondayOf(d)
  {
    if Contains(w, d) {
      SameBlock(w.first, MondayOf(d), DayNumber(d));
    }
  }

  /** A week window holds exactly the dates that share its Monday. */
  lemma WindowIsSameMonday(a: Date, b: Date)
    ensures Contains(WeekWindow(a), b) <==> MondayOf(a) == MondayOf(b)
  {
    AlignedContains(WeekWindow(a), b);
  }

  function Flatten(weeks: seq<seq<Day>>): seq<Day> {
    if |weeks| == 0 then [] else weeks[0] + Flatten(weeks[1..])
  }

  lemma {:induction false} FlattenAppend(weeks: seq<seq<Day>>, w: seq<Day>)
    ensures Flatten(weeks + [w]) == Flatten(weeks) + w
    decreases |weeks|
  {
    if |weeks| == 0 {
      assert weeks + [w] == [w];
      assert Flatten([w]) == w + Flatten([]);
    } else {
      assert (weeks + [w])[1..] == weeks[1..] + [w];
      FlattenAppend(weeks[1..], w);
    }
  }

  /**
    The weeks split the days: read in order they give back the days, none is
    empty, every day of a week lies in the window of that week's first day,
    and the first day of each week lies outside the window of the week
    before it.
   */
  predicate IsWeekPartition(days: seq<Day>, weeks: seq<seq<Day>>) {
    && Flatten(weeks) == days
    && (forall i :: 0 <= i < |weeks| ==> |weeks[i]| > 0)
    && (forall i, j :: 0 <= i < |weeks| && 0 <= j < |weeks[i]| ==>
          Contains(WeekWindow(weeks[i][0].date), weeks[i][j].date))
    && (forall i :: 0 <= i < |weeks| - 1 ==>
          !Contains(WeekWindow(weeks[i][0].date), weeks[i + 1][0].date))
  }

  /** `days_to_weeks`; the program indexes `days[0]`, so no days is a failure. */
  method DaysToWeeks(days: seq<Day>) returns (r: Result<seq<seq<Day>>>)
    ensures r.Err? <==> days == []
    ensures r.Err? ==> r.error == NoDays
    ensures r.Ok? ==> IsWeekPartition(days, r.value)
  {
    if |days| == 0 {
      return Err(NoDays);
    }
    var weeks: seq<seq<Day>> := [[]];
    var counter: nat := 0;
    var window := WeekWindow(days[0].date);
    for i := 0 to |days|
      invariant counter == |weeks| - 1
      invariant i == 0 ==> weeks == [[]] && window == WeekWindow(days[0].date)
      invariant i > 0 ==> IsWeekPartition(days[..i], weeks)
      invariant i > 0 ==> window == WeekWindow(weeks[counter][0].date)
    {
      var day := days[i];
      assert days[..i + 1] == days[..i] + [day];
      ghost var before := weeks;
      if Contains(window, day.date) {
        weeks := weeks[counter := weeks[counter] + [day]];
        if i == 0 {
          assert before[0] + [day] == [day];
          assert weeks == [[day]];
          assert Flatten([[day]]) == [day] + Flatten([]);
        } else {
          ExtendLastWeek(days[..i], before, day);
        }
      } else {
        weeks := weeks + [[]];
        counter := counter + 1;
        window := WeekWindow(day.date);
        assert weeks[counter] + [day] == [day];
        weeks := weeks[counter := weeks[counter] + [day]];
        assert weeks == before + [[day]];
        OpenWeek(days[..i], before, day);
      }
    }
    assert days[..|days|] == days;
    r := Ok(weeks);
  }

  /** Appending a day inside the last week's window keeps the partition. */
  lemma ExtendLastWeek(days: seq<Day>, weeks: seq<seq<Day>>, day: Day)
    requires IsWeekPartition(days, weeks) && |weeks| > 0
    requires Contains(WeekWindow(weeks[|weeks| - 1][0].date), day.date)
    ensures IsWeekPartition(days + [day], weeks[|weeks| - 1 := weeks[|weeks| - 1] + [day]])
  {
    AppendToLast(weeks, day);
  }

  /** Opening a new week for a day outside the last week's window keeps the partition. */
  lemma OpenWeek(days: seq<Day>, weeks: seq<seq<Day>>, day: Day)
    requires IsWeekPartition(days, weeks) && |weeks| > 0
    requires !Contains(WeekWindow(weeks[|weeks| - 1][0].date), day.date)
    ensures IsWeekPartition(days + [day], weeks + [[day]])
  {
    FlattenAppend(weeks, [day]);
  }

  lemma AppendToLast(weeks: seq<seq<Day>>, day: Day)
    requires |weeks| > 0
    ensures Flatten(weeks[|weeks| - 1 := weeks[|weeks| - 1] + [day]]) == Flatten(weeks) + [day]
  {
    var n := |weeks| - 1;
    assert weeks == weeks[..n] + [weeks[n]];
    assert weeks[n := weeks[n] + [day]] == weeks[..n] + [weeks[n] + [day]];
    FlattenAppend(weeks[..n], weeks[n]);
    FlattenAppend(weeks[..n], weeks[n] + [day]);
  }

  /** The four conditions leave no choice: a sequence of days has one week partition. */
  lemma {:induction false} PartitionUnique(days: seq<Day>, w1: seq<seq<Day>>, w2: seq<seq<Day>>)
    requires IsWeekPartition(days, w1) && IsWeekPartition(days, w2)
    ensures w1 == w2
    decreases |days|
  {
    if |w1| == 0 || |w2| == 0 {
    } else {
      var a, b := w1[0], w2[0];
      assert days == a + Flatten(w1[1..]) == b + Flatten(w2[1..]);
      assert a[0] == days[0] == b[0];
      if |a| < |b| {
        FirstOfNextWeek(days, w1);
        assert false;
      }
      if |b| < |a| {
        FirstOfNextWeek(days, w2);
        assert false;
      }
      assert a == days[..|a|] == b;
      var rest := days[|a|..];
      assert Flatten(w1[1..]) == rest && Flatten(w2[1..]) == rest;
      TailPartition(days, w1);
      TailPartition(days, w2);
      PartitionUnique(rest, w1[1..], w2[1..]);
      assert w1 == [a] + w1[1..] && w2 == [b] + w2[1..];
    }
  }

  /** The day right after the first week, if there is one, opens the second week. */
  lemma FirstOfNextWeek(days: seq<Day>, weeks: seq<seq<Day>>)
    requires IsWeekPartition(days, weeks) && |weeks| > 0 && |weeks[0]| < |days|
    ensures |weeks| > 1 && days[|weeks[0]|] == weeks[1][0]
    ensures !Contains(WeekWindow(days[0].date), days[|weeks[0]|].date)
  {
    assert days == weeks[0] + Flatten(weeks[1..]);
    if |weeks| > 1 {
      assert Flatten(weeks[1..]) == weeks[1] + Flatten(weeks[2..]);
    }
  }

  /** Dropping the first week leaves a partition of the remaining days. */
  lemma TailPartition(days: seq<Day>, weeks: seq<seq<Day>>)
    requires IsWeekPartition(days, weeks) && |weeks| > 0
    ensures IsWeekPartition(days[|weeks[0]|..], weeks[1..])
  {
    assert days == weeks[0] + Flatten(weeks[1..]);
    assert days[|weeks[0]|..] == Flatten(weeks[1..]);
  }

  /** Partitioning the days of a partition again gives the same weeks. */
  lemma RepartitionIsIdentity(days: seq<Day>, weeks: seq<seq<Day>>, again: seq<seq<Day>>)
    requires IsWeekPartition(days, weeks)
    requires IsWeekPartition(Flatten(weeks), again)
    ensures again == weeks
  {
    PartitionUnique(days, weeks, again);
  }

  /** Days in ascending calendar order (ties allowed). */
  predicate Ascending(days: seq<Day>) {
    forall i, j :: 0 <= i < j < |days| ==> DayNumber(days[i].date) <= DayNumber(days[j].date)
  }

  /**
    On ascending days the weeks come out in ascending order of their
    Mondays, so no Monday-to-Sunday window is used by two weeks.
   */
  lemma {:induction false} AscendingWeeks(days: seq<Day>, weeks: seq<seq<Day>>)
    requires IsWeekPartition(days, weeks) && Ascending(days)
    ensures forall i, j :: 0 <= i < j < |weeks| ==> MondayOf(weeks[i][0].date) < MondayOf(weeks[j][0].date)
    decreases |weeks|
  {
    if |weeks| > 1 {
      var rest := days[|weeks[0]|..];
      TailPartition(days, weeks);
      assert Ascending(rest);
      AscendingWeeks(rest, weeks[1..]);
      FirstOfNextWeek(days, weeks);
      var d0, d1 := days[0].date, weeks[1][0].date;
      assert DayNumber(d0) <= DayNumber(d1);
      WindowIsSameMonday(d0, d1);
      assert MondayOf(d0) < MondayOf(d1);
      forall j | 1 <= j < |weeks| ensures MondayOf(weeks[0][0].date) < MondayOf(weeks[j][0].date) {
        if j > 1 { assert MondayOf(weeks[1..][0][0].date) < MondayOf(weeks[1..][j - 1][0].date); }
      }
      forall i, j | 1 <= i < j < |weeks| ensures MondayOf(weeks[i][0].date) < MondayOf(weeks[j][0].date) {
        assert weeks[1..][i - 1] == weeks[i] && weeks[1..][j - 1] == weeks[j];
      }
    }
  }

  /** On ascending days, two days share a week exactly when they share a Monday. */
  lemma SameWeekIff(days: seq<Day>, weeks: seq<seq<Day>>, i1: nat, j1: nat, i2: nat, j2: nat)
    requires IsWeekPartition(days, weeks) && Ascending(days)
    requires i1 < |weeks| && j1 < |weeks[i1]| && i2 < |weeks| && j2 < |weeks[i2]|
    ensures i1 == i2 <==> MondayOf(weeks[i1][j1].date) == MondayOf(weeks[i2][j2].date)
  {
    WindowIsSameMonday(weeks[i1][0].date, weeks[i1][j1].date);
    WindowIsSameMonday(weeks[i2][0].date, weeks[i2][j2].date);
    AscendingWeeks(days, weeks);
  }

  /**
    2025-01-06 (Monday) and 2025-01-07 share a week; 2025-01-13 (Monday)
    opens the next, whatever the days hold.
   */
  lemma ExampleWeeks(days: seq<Day>, weeks: seq<seq<Day>>)
    requires |days| == 3
    requires days[0].date == Ymd(2025, 1, 6) && days[1].date == Ymd(2025, 1, 7) && days[2].date == Ymd(2025, 1, 13)
    requires IsWeekPartition(days, weeks)
    ensures weeks == [[days[0], days[1]], [days[2]]]
  {
    var d1, d2, d3 := days[0], days[1], days[2];
    assert DaysBeforeMonth(2025, 1) == 0;
    assert DayNumber(d1.date) == 739256;
    assert DayNumber(d2.date) == 739257;
    assert DayNumber(d3.date) == 739263;
    var expected := [[d1, d2], [d3]];
    assert expected[1..] == [[d3]] && expected[1..][1..] == [];
    assert Flatten([[d3]]) == [d3] + Flatten([]);
    assert Flatten(expected) == [d1, d2] + Flatten([[d3]]);
    assert Flatten(expected) == [d1, d2, d3] == days;
    assert IsWeekPartition(days, expected);
    PartitionUnique(days, weeks, expected);
  }
}

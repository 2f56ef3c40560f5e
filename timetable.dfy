/**
  The two stages in sequence, as the program's entry point runs them:
  records to days, then days to weeks.
 */
module Timetable {
  import opened Calendar
  import opened Schedule
  import opened Days
  import opened Weeks

  /** Records to weeks; the first failure of either stage stops the run. */
  method RawToWeeks(raw: seq<RawLesson>) returns (r: Result<seq<seq<Day>>>)
    ensures DaysSpec(raw).Err? ==> r == Err(DaysSpec(raw).error)
    ensures DaysSpec(raw) == Ok([]) ==> r == Err(NoDays)
    ensures r.Ok? <==> DaysSpec(raw).Ok? && DaysSpec(raw).value != []
    ensures r.Ok? ==> IsWeekPartition(DaysSpec(raw).value, r.value)
  {
    var days := RawToDays(raw);
    if days.Err? {
      return Err(days.error);
    }
    r := DaysToWeeks(days.value);
  }

  /**
    With zero-padded date strings, the weeks of a run are in ascending order
    of their Mondays, and two records' days share a week exactly when their
    dates share a Monday.
   */
  lemma IsoPipelineWeeks(raw: seq<RawLesson>, days: seq<Day>, weeks: seq<seq<Day>>)
    requires forall j :: 0 <= j < |raw| ==> IsIsoKey(raw[j].dateLesson)
    requires DaysSpec(raw) == Ok(days) && IsWeekPartition(days, weeks)
    ensures forall i, j :: 0 <= i < j < |weeks| ==> MondayOf(weeks[i][0].date) < MondayOf(weeks[j][0].date)
    ensures forall i1, j1, i2, j2 :: 0 <= i1 < |weeks| && 0 <= j1 < |weeks[i1]| && 0 <= i2 < |weeks| && 0 <= j2 < |weeks[i2]| ==>
      (i1 == i2 <==> MondayOf(weeks[i1][j1].date) == MondayOf(weeks[i2][j2].date))
  {
    IsoDaysAscending(raw, days);
    AscendingWeeks(days, weeks);
    forall i1, j1, i2, j2 | 0 <= i1 < |weeks| && 0 <= j1 < |weeks[i1]| && 0 <= i2 < |weeks| && 0 <= j2 < |weeks[i2]|
      ensures i1 == i2 <==> MondayOf(weeks[i1][j1].date) == MondayOf(weeks[i2][j2].date)
    {
      SameWeekIff(days, weeks, i1, j1, i2, j2);
    }
  }

  /**
    The feed 2025-01-13, 2025-01-06, 2025-01-07 runs to two weeks: the
    Monday and Tuesday of 6 January, then the Monday of 13 January.
   */
  method ExampleRun(teacher: string, room: string) returns (r: Result<seq<seq<Day>>>)
    ensures var days := ExampleDays(teacher, room);
      r == Ok([[days[0], days[1]], [days[2]]])
  {
    r := RawToWeeks(ExampleFeed(teacher, room));
    ExampleFeedDays(teacher, room);
    ExampleWeeks(ExampleDays(teacher, room), r.value);
  }

  /** A lesson number "abc" stops the whole run with `BadLessonNumber`. */
  method ExampleBadLessonRun(date: string, teacher: string, room: string) returns (r: Result<seq<seq<Day>>>)
    ensures r == Err(BadLessonNumber)
  {
    r := RawToWeeks([RawLesson(date, "1", "abc", "Lecture", "Algebra", teacher, room, "0")]);
    ExampleBadLessonNumber(date, teacher, room);
  }

  /** The date string "2025-04-31" stops the whole run with `BadDateKey`. */
  method ExampleBadDateRun(teacher: string, room: string) returns (r: Result<seq<seq<Day>>>)
    ensures r == Err(BadDateKey)
  {
    r := RawToWeeks([ExampleRecord("2025-04-31", teacher, room)]);
    ExampleBadDateKey(teacher, room);
  }
}

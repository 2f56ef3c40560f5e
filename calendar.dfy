/**
  Proleptic Gregorian calendar arithmetic standing in for the date library:
  calendar validity of a year/month/day triple, a day number counted from
  0001-01-01 (a Monday), the weekday, and the Monday that opens a date's
  week.
 */
module Calendar {
  import opened Wrappers

  /** The range of years the date library represents. */
  const MinYear: int := -262143
  const MaxYear: int := 262142

  predicate IsLeapYear(y: int) {
    y % 4 == 0 && (y % 100 != 0 || y % 400 == 0)
  }

  function YearLength(y: int): int {
    if IsLeapYear(y) then 366 else 365
  }

  function MonthLength(y: int, m: int): (n: int)
    requires 1 <= m <= 12
    ensures 28 <= n <= 31
    ensures n == 29 <==> m == 2 && IsLeapYear(y)
  {
    if m == 2 then (if IsLeapYear(y) then 29 else 28)
    else if m == 4 || m == 6 || m == 9 || m == 11 then 30
    else 31
  }

  datatype Ymd = Ymd(year: int, month: int, day: int)

  predicate IsValidDate(d: Ymd) {
    && MinYear <= d.year <= MaxYear
    && 1 <= d.month <= 12
    && 1 <= d.day <= MonthLength(d.year, d.month)
  }

  /** A calendar date: only real dates inside the library's range exist. */
  type Date = d: Ymd | IsValidDate(d) witness Ymd(1970, 1, 1)

  /**
    The library's `from_ymd_opt`: the date when the triple names one,
    nothing when the month, the day or the year is out of range.
   */
  function FromYmd(year: int, month: int, day: int): (r: Option<Date>)
    ensures r.Some? <==> IsValidDate(Ymd(year, month, day))
    ensures r.Some? ==> r.value.year == year && r.value.month == month && r.value.day == day
  {
    var d := Ymd(year, month, day);
    if IsValidDate(d) then Some(d) else None
  }

  /** Days in the years before `y`, counted from the start of year 1. */
  function DaysBeforeYear(y: int): int {
    365 * (y - 1) + (y - 1) / 4 - (y - 1) / 100 + (y - 1) / 400
  }

  /** Days in the months of year `y` before month `m`. */
  function DaysBeforeMonth(y: int, m: int): int
    requires 1 <= m <= 13
    decreases m
  {
    if m == 1 then 0 else DaysBeforeMonth(y, m - 1) + MonthLength(y, m - 1)
  }

  /** Days since 0001-01-01, which is day 0. */
  function DayNumber(d: Date): int {
    DaysBeforeYear(d.year) + DaysBeforeMonth(d.year, d.month) + d.day - 1
  }

  lemma DivStep(y: int, k: int)
    requires k == 4 || k == 100 || k == 400
    ensures y / k - (y - 1) / k == if y % k == 0 then 1 else 0
  {
  }

  /** A year holds exactly its length in days. */
  lemma {:induction false} YearStep(y: int)
    ensures DaysBeforeYear(y + 1) == DaysBeforeYear(y) + YearLength(y)
  {
    DivStep(y, 4);
    DivStep(y, 100);
    DivStep(y, 400);
  }

  /** The twelve months add up to the year's length. */
  lemma {:induction false} MonthsFillYear(y: int)
    ensures DaysBeforeMonth(y, 13) == YearLength(y)
  {
    var leap := if IsLeapYear(y) then 1 else 0;
    assert DaysBeforeMonth(y, 2) == 31;
    assert DaysBeforeMonth(y, 3) == 59 + leap;
    assert DaysBeforeMonth(y, 4) == 90 + leap;
    assert DaysBeforeMonth(y, 5) == 120 + leap;
    assert DaysBeforeMonth(y, 6) == 151 + leap;
    assert DaysBeforeMonth(y, 7) == 181 + leap;
    assert DaysBeforeMonth(y, 8) == 212 + leap;
    assert DaysBeforeMonth(y, 9) == 243 + leap;
    assert DaysBeforeMonth(y, 10) == 273 + leap;
    assert DaysBeforeMonth(y, 11) == 304 + leap;
    assert DaysBeforeMonth(y, 12) == 334 + leap;
  }

  lemma {:induction false} MonthsGrow(y: int, m1: int, m2: int)
    requires 1 <= m1 <= m2 <= 13
    ensures DaysBeforeMonth(y, m1) <= DaysBeforeMonth(y, m2)
    decreases m2 - m1
  {
    if m1 < m2 { MonthsGrow(y, m1, m2 - 1); }
  }

  lemma {:induction false} YearsGrow(y1: int, y2: int)
    requires y1 < y2
    ensures DaysBeforeYear(y1) + YearLength(y1) <= DaysBeforeYear(y2)
    decreases y2 - y1
  {
    YearStep(y1);
    if y1 + 1 < y2 {
      YearsGrow(y1 + 1, y2);
    }
  }

  /** A date's day number lies inside its own year. */
  lemma DayNumberInYear(d: Date)
    ensures DaysBeforeYear(d.year) <= DayNumber(d) < DaysBeforeYear(d.year) + YearLength(d.year)
  {
    MonthsGrow(d.year, d.month + 1, 13);
    MonthsFillYear(d.year);
  }

  /** Calendar order: year first, then month, then day. */
  predicate Before(a: Ymd, b: Ymd) {
    a.year < b.year
    || (a.year == b.year && (a.month < b.month || (a.month == b.month && a.day < b.day)))
  }

  lemma {:induction false} BeforeImpliesSmaller(a: Date, b: Date)
    requires Before(a, b)
    ensures DayNumber(a) < DayNumber(b)
  {
    DayNumberInYear(a);
    DayNumberInYear(b);
    if a.year < b.year {
      YearsGrow(a.year, b.year);
    } else if a.month < b.month {
      MonthsGrow(a.year, a.month + 1, b.month);
    }
  }

  /** Day numbers are ordered exactly as the dates are. */
  lemma DayNumberOrder(a: Date, b: Date)
    ensures DayNumber(a) < DayNumber(b) <==> Before(a, b)
    ensures DayNumber(a) == DayNumber(b) <==> a == b
  {
    if Before(a, b) {
      BeforeImpliesSmaller(a, b);
    } else if Before(b, a) {
      BeforeImpliesSmaller(b, a);
    }
  }

  /** The last date the library represents. */
  const LastDate: Date := Ymd(MaxYear, 12, 31)

  /** The calendar's successor of a date. */
  function Next(d: Date): (e: Date)
    requires d != LastDate
    ensures Before(d, e)
  {
    if d.day < MonthLength(d.year, d.month) then Ymd(d.year, d.month, d.day + 1)
    else if d.month < 12 then Ymd(d.year, d.month + 1, 1)
    else Ymd(d.year + 1, 1, 1)
  }

  /** Consecutive calendar dates have consecutive day numbers. */
  lemma NextIsOneDayLater(d: Date)
    requires d != LastDate
    ensures DayNumber(Next(d)) == DayNumber(d) + 1
  {
    if d.day == MonthLength(d.year, d.month) && d.month == 12 {
      MonthsFillYear(d.year);
      YearStep(d.year);
    }
  }

  datatype Weekday = Mon | Tue | Wed | Thu | Fri | Sat | Sun

  /** Days after the week's Monday: 0 for a Monday, 6 for a Sunday. */
  function DaysFromMonday(d: Date): (k: int)
    ensures 0 <= k < 7
  {
    DayNumber(d) % 7
  }

  /**
    The weekday of a date; day 0, 0001-01-01, is a Monday. A date is a Monday
    exactly when it opens its own week, and a Sunday exactly when it closes it.
   */
  function WeekdayOf(d: Date): (w: Weekday)
    ensures w == Mon <==> DayNumber(d) == MondayOf(d)
    ensures w == Sun <==> DayNumber(d) == MondayOf(d) + 6
  {
    match DaysFromMonday(d)
    case 0 => Mon
    case 1 => Tue
    case 2 => Wed
    case 3 => Thu
    case 4 => Fri
    case 5 => Sat
    case _ => Sun
  }

  function Succ(w: Weekday): Weekday {
    match w
    case Mon => Tue
    case Tue => Wed
    case Wed => Thu
    case Thu => Fri
    case Fri => Sat
    case Sat => Sun
    case Sun => Mon
  }

  /** The weekday advances by one each calendar day. */
  lemma WeekdayOfNext(d: Date)
    requires d != LastDate
    ensures WeekdayOf(Next(d)) == Succ(WeekdayOf(d))
  {
    NextIsOneDayLater(d);
    var n := DayNumber(d);
    ModSevenStep(n);
    assert DaysFromMonday(Next(d)) == if DaysFromMonday(d) == 6 then 0 else DaysFromMonday(d) + 1;
  }

  lemma ModSevenStep(n: int)
    ensures (n + 1) % 7 == if n % 7 == 6 then 0 else n % 7 + 1
  {
  }

  /** Two fixed points of the weekday cycle: 1970-01-01 and 2025-01-06. */
  lemma KnownWeekdays()
    ensures WeekdayOf(Ymd(1970, 1, 1)) == Thu
    ensures WeekdayOf(Ymd(2025, 1, 6)) == Mon
  {
    assert DaysBeforeMonth(1970, 1) == 0;
    assert DaysBeforeMonth(2025, 1) == 0;
  }

  /** The day number of the Monday that opens the week containing `d`. */
  function MondayOf(d: Date): (first: int)
    ensures first <= DayNumber(d) < first + 7
    ensures first % 7 == 0
  {
    var n := DayNumber(d);
    FloorToWeek(n);
    n - n % 7
  }

  lemma FloorToWeek(n: int)
    ensures 0 <= n % 7 < 7 && (n - n % 7) % 7 == 0
  {
  }

  /** Two multiples of seven that both lie within six below the same number are equal. */
  lemma SameBlock(x: int, y: int, n: int)
    requires x % 7 == 0 && y % 7 == 0
    requires x <= n <= x + 6 && y <= n <= y + 6
    ensures x == y
  {
    assert x == 7 * (x / 7) && y == 7 * (y / 7);
  }
}

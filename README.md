# Student timetable: records to days to weeks

This project models the data core of a small program that downloads a
university group's timetable feed and groups its lessons into weeks. The
program writes the weeks to a debug file, then renders a page template
whose context holds only the group's name. The feed is a flat list of
lesson records. Every field of a record is a string: the date
(`YYYY-MM-DD`), the day number, the lesson number, the kind of lesson, the
subject, the teacher, the room and the subgroup. The day number is carried
but never read. The core turns the feed into
weeks in three stages:

- `raw_to_lesson` parses the subgroup and the lesson number as `u8`. It
  builds the title "{kind} {subject}{suffix}", where the suffix is
  `", 1 п/г"` for subgroup 1, `", 2 п/г"` for subgroup 2 and empty
  otherwise. Teacher and room are copied unchanged.
- `raw_to_days` groups the records by date string in a hash map and sorts
  the distinct date strings. For each one it converts the group's records
  in feed order, parses the string into a calendar date, and records the
  ISO weekday (Monday 1 … Sunday 7).
- `days_to_weeks` makes one pass over the days. It keeps the
  Monday-to-Sunday window of the week it is filling. A day inside that
  window joins the week; any other day opens a new week around its own
  Monday.

The program panics on a subgroup or lesson number that is not a `u8`
(not numeric, or above 255), on a date string that does not name a
calendar date, and on an empty list of days. The model returns these as an
`Err` carrying one of `BadSubgroup`, `BadLessonNumber`, `BadDateKey` or
`NoDays`.

Modules, one per file except `Wrappers`:

- `Wrappers` (`text.dfy`, declared before `Text`): the `Option` type.
- `Text` (`text.dfy`): digit strings, bounded decimal parsing, split and
  join, and string order.
- `Calendar` (`calendar.dfy`): proleptic Gregorian dates, day numbers,
  weekdays and Mondays. It stands in for the date library.
- `Schedule` (`schedule.dfy`): the three record types, the failures, and
  `MapAll`, which maps and stops at the first failure.
- `Lessons` (`lessons.dfy`): `raw_to_lesson`.
- `Days` (`days.dfy`): `raw_to_days`. It has a specification (`DaysSpec`)
  and methods that follow the source's loops.
- `Weeks` (`weeks.dfy`): `days_to_weeks`. It has a partition predicate and
  the loop.
- `Timetable` (`timetable.dfy`): the two stages in the order the entry
  point runs them.

The program's loops are methods. Each is proved against a specification
function or predicate, and the properties are lemmas about that
specification:

- `RawToDays` ensures its result equals `DaysSpec`, its specification.
- `DaysToWeeks` ensures its result is the unique week partition of its
  input.

## Model

| member | source | states |
|---|---|---|
| Lessons.SubgroupSuffix | src/main.rs:86-90 | the suffix is ", 1 п/г" iff the subgroup is 1, ", 2 п/г" iff it is 2, and empty iff it is anything else |
| Lessons.RawToLesson | src/main.rs:85-97 | fails with BadSubgroup iff the subgroup is not a u8. Otherwise it fails with BadLessonNumber iff the lesson number is not a u8. On success the position is the decimal value of the lesson number, the title is kind + " " + subject + the subgroup's suffix, and teacher and place are copied |
| Lessons.RenderedRecordConverts | src/main.rs:85-97 | a record whose numeric fields are the decimal renderings of two u8 values converts to the lesson carrying exactly those values |
| Lessons.OutOfRangeRejected | src/main.rs:92 | a lesson number above 255 is rejected, not truncated or wrapped |
| Lessons.Examples | src/main.rs:85-97 | "Lecture"/"Algebra" with subgroup "1" is titled "Lecture Algebra, 1 п/г". Subgroup "0" gives no suffix and "02" has position 2. "abc" as the lesson number fails with BadLessonNumber; an empty subgroup fails with BadSubgroup |
| Text.ParseDecimal | src/main.rs:86 | returns a value iff the string is non-empty, all decimal digits and at most the type's maximum; the value is the string's decimal value |
| Text.ParseToDecimal | src/main.rs:92 | parsing a number's decimal rendering gives the number back iff it fits the type, and fails otherwise |
| Text.JoinSplit | src/main.rs:60 | joining the pieces of a split on '-' with '-' gives back the original string |
| Text.SplitJoin | src/main.rs:60 | splitting a join of pieces with no '-' in them gives back the pieces |
| Text.Split | src/main.rs:60 | `split("-")` always yields at least one piece and no piece contains the separator; `JoinSplit` and `SplitJoin` pin down which pieces |
| Text.Less | src/main.rs:51 | the order `sort()` puts strings in is lexicographic order: `a` comes first iff it is a proper prefix of `b` or has the smaller character at their first difference |
| Text.LessTotal | src/main.rs:51 | the order the key sort uses is total on distinct strings |
| Text.LessTransitive | src/main.rs:51 | the order the key sort uses is transitive |
| Text.DigitsLess | src/main.rs:51 | on digit strings of equal length, string order is numeric order and string equality is numeric equality |
| Text.SortedUnique | src/main.rs:50-51 | a strictly sorted key sequence is determined by its set of keys, so the sorted key vector is unique |
| Calendar.MonthLength | src/main.rs:62-67 | every month has 28 to 31 days, and 29 only for February of a leap year |
| Calendar.FromYmd | src/main.rs:62-67 | gives a date iff year, month and day name a real date in the library's range, and that date carries exactly those three numbers |
| Calendar.DayNumberOrder | src/main.rs:106 | day numbers compare exactly as dates do (year, then month, then day), and are equal only for the same date |
| Calendar.NextIsOneDayLater | src/main.rs:103 | the calendar's next date has the next day number |
| Calendar.WeekdayOfNext | src/main.rs:69 | the weekday moves one step forward each day, from Sunday back to Monday |
| Calendar.KnownWeekdays | src/main.rs:69 | 1970-01-01 is a Thursday and 2025-01-06 is a Monday |
| Calendar.WeekdayOf | src/main.rs:69 | a date is a Monday iff it is the first day of its Monday-to-Sunday week, and a Sunday iff it is the last |
| Calendar.MondayOf | src/main.rs:103 | a date's Monday is at most six days before it and is itself a Monday |
| Schedule.MapAll | src/main.rs:53-58 | on success every element maps to the output at the same index. It fails iff some element fails, and then with the error of the first element that fails |
| Schedule.MapAllStops | src/main.rs:53-80 | a failure within the first elements is the failure of the whole run |
| Days.KeySet | src/main.rs:42-50 | a string is a key iff some record carries it as its date |
| Days.SortedKeys | src/main.rs:50-51 | the keys come out strictly ascending, with exactly the distinct date strings as members |
| Days.WeekdayNumber | src/main.rs:69-77 | the weekday number is 1 to 7, 1 iff Monday and 7 iff Sunday; `IsoWeekdayNumber` fixes the numbers between |
| Days.IsoWeekdayNumber | src/main.rs:69-77 | the weekday number is the ISO one, Monday 1 through Sunday 7: one more than the days since the date's Monday |
| Days.ParseKey | src/main.rs:60-67 | a date is produced iff the key has at least three '-'-separated pieces, the first parses as an `i32` and the next two as `u32`, and the three values name a calendar date; that date carries those three values |
| Days.IsoKeyDate | src/main.rs:60-67 | a zero-padded `YYYY-MM-DD` key names the date of its three numeric fields, or nothing if they name no date |
| Days.MakeDay | src/main.rs:53-79 | a day succeeds iff all its records convert and its key parses. Its date is the parsed key, its weekday number is the date's weekday, and its lessons are the group's records converted in order. The records are converted before the key is parsed: a failing record gives its own failure, and only when every record converts does an unparseable key give `BadDateKey` |
| Days.InsertKey | src/main.rs:51 | inserting a new key into strictly sorted keys keeps them strictly sorted and adds exactly that key |
| Days.SortKeys | src/main.rs:50-51 | the sorted keys are strictly ascending and are exactly the map's keys |
| Days.GroupByDate | src/main.rs:42-48 | the map's keys are the distinct dates, and each entry holds the records with that date in feed order |
| Days.ConvertGroup | src/main.rs:54-58 | the result is converting the group's records in order, stopping at the first failure |
| Days.BuildDay | src/main.rs:53-79 | the day built for a key is the specification's day for that key |
| Days.RawToDays | src/main.rs:39-83 | the result is the specification: one day per sorted key, or the first failure |
| Days.GroupMembers | src/main.rs:44-48 | every record of a group carries the group's date and comes from the feed |
| Days.GroupConcat | src/main.rs:44-48 | grouping a concatenated feed concatenates the groups of its parts |
| Days.GroupHoldsRecord | src/main.rs:44-48 | every record sits in its date's group, at the position given by how many earlier records share its date |
| Days.RankKeepsFeedOrder | src/main.rs:44-48 | two records with the same date keep their feed order inside the group |
| Days.SameDayIff | src/main.rs:44-51 | two records land in the same day iff their date strings are equal |
| Days.DaysFollowKeys | src/main.rs:53-80 | a successful run has one day per sorted key, and each day is built from its own key |
| Days.DayContents | src/main.rs:53-79 | each day's date is its key parsed, and its weekday number is in 1..7 and is one more than the days since the date's Monday (the ISO weekday). It holds one lesson per record of its group (at least one), each being that record converted |
| Days.RecordPlacement | src/main.rs:44-79 | every record of the feed appears, converted, in the day of its date, at its position among that date's records |
| Days.LessonsConserved | src/main.rs:39-83 | the days hold exactly as many lessons as the feed has records |
| Days.EmptyFeed | src/main.rs:39-83 | an empty feed gives no days and no failure |
| Days.FailsIff | src/main.rs:56-67 | the stage fails iff some record does not convert or carries a date string that does not parse |
| Days.IsoKeyOrder | src/main.rs:51 | for zero-padded YYYY-MM-DD keys, string order is calendar order |
| Days.IsoDaysAscending | src/main.rs:50-51 | with zero-padded keys the days come out in strictly ascending date order |
| Days.UnpaddedKeysMisorder | src/main.rs:51 | without zero padding, string order puts 2025-1-10 before 2025-1-9 |
| Days.SortedKeysOf | src/main.rs:50-51 | a strictly ascending sequence holding exactly a set's strings is the sorted key vector of that set |
| Days.DaysOfKeys | src/main.rs:53-80 | when every sorted key makes its day, the stage's result is exactly those days, in key order |
| Days.ExampleBadLessonNumber | src/main.rs:56-58 | a one-record feed whose lesson number is "abc" fails with `BadLessonNumber`, whatever its date string, since the records are converted before the date is parsed |
| Days.ExampleBadDateKey | src/main.rs:60-67 | a one-record feed dated "2025-04-31" fails with `BadDateKey`, since April has 30 days |
| Days.ExampleFeedDays | src/main.rs:39-83 | lectures fed for 2025-01-13, 2025-01-06 and 2025-01-07 give three days in date order, numbered Monday 1, Tuesday 2 and Monday 1, each holding its lecture titled "Lecture Algebra" |
| Weeks.WeekWindow | src/main.rs:103 | a date's week window starts on the date's Monday, spans seven days to its Sunday, and contains the date |
| Weeks.AlignedContains | src/main.rs:106 | a seven-day window starting on a Monday holds exactly the dates whose own Monday is its first day |
| Weeks.WindowIsSameMonday | src/main.rs:106 | a date lies in another date's week window iff the two share a Monday |
| Weeks.DaysToWeeks | src/main.rs:99-117 | fails with NoDays iff there are no days. Otherwise the weeks concatenate back to the days and none is empty. Each week's days lie in the window of its first day, and each week's first day lies outside the previous week's window |
| Weeks.ExtendLastWeek | src/main.rs:106-107 | appending a day inside the current window to the last week keeps the partition |
| Weeks.OpenWeek | src/main.rs:108-112 | opening a new week for a day outside the current window keeps the partition |
| Weeks.FlattenAppend | src/main.rs:105-114 | concatenating the weeks after adding one more week appends that week's days |
| Weeks.PartitionUnique | src/main.rs:99-117 | given a list of days, only one list of weeks satisfies the partition conditions |
| Weeks.RepartitionIsIdentity | src/main.rs:99-117 | partitioning the concatenation of a partition's weeks gives the same weeks back |
| Weeks.AscendingWeeks | src/main.rs:99-117 | on ascending days, the weeks' Mondays strictly increase |
| Weeks.SameWeekIff | src/main.rs:105-113 | on ascending days, two days are in the same week iff they share a Monday |
| Weeks.ExampleWeeks | src/main.rs:99-117 | days dated 2025-01-06, 2025-01-07 and 2025-01-13 make one week of the first two and a second of the third, whatever the days hold |
| Timetable.RawToWeeks | src/main.rs:128-130 | the first stage's failure is the run's failure, and no days means NoDays. A success happens iff the first stage yields at least one day, and then the weeks partition those days |
| Timetable.IsoPipelineWeeks | src/main.rs:128-130 | with zero-padded dates, the weeks' Mondays strictly increase, and two days are in the same week iff they share a Monday |
| Timetable.ExampleBadLessonRun | src/main.rs:128-130 | the whole run on a record with lesson number "abc" returns `Err(BadLessonNumber)` |
| Timetable.ExampleBadDateRun | src/main.rs:128-130 | the whole run on a record dated "2025-04-31" returns `Err(BadDateKey)` |
| Timetable.ExampleRun | src/main.rs:128-130 | the feed of `Days.ExampleFeedDays` runs to two weeks: 6 and 7 January 2025, then 13 January 2025 |

## Left out

- The entry point's I/O is not modelled: the HTTP fetch, JSON decoding, the debug dump to a file, template rendering and printing. The model begins at the decoded list of records and ends at the list of weeks.
- The date library is replaced by its own Gregorian arithmetic. `MaxYear` 262142 and `MinYear` −262143 are the library's limits as assumed here, and the library's internal representation is not part of this model.
- The model does not capture the panic the date library can raise when a week window would run past its last representable date. `WeekWindow` is computed on unbounded day numbers.
- Hash-map iteration order is left out because it cannot be observed: the keys are sorted before use. The map is a Dafny `map` and the collected keys a set.
- Days.SortKeys: builds a new sorted sequence by insertion instead of sorting the key vector in place, so the in-place update of the vector is not modelled. Its result (strictly ascending, exactly the keys) is what the in-place sort produces.
- Text.ParseDecimal: accepts only plain decimal digits. It does not model the leading '+' that the standard integer parser also accepts ("+1" parses there and fails here).
- The record's `dayNumber` field is carried but never read, as in the program.
- Each panic becomes an `Err` value. The program aborts the process instead, so the model says what it refuses, not how it stops.
- `Days.DaysSpec` and `Days.SortedKeys` are ghost specifications; the program's behaviour is the methods `RawToDays` and `SortKeys` proved equal to them.

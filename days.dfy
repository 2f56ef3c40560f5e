/**
  `raw_to_days`: groups the feed's records by their date string, sorts the
  distinct date strings, and turns every group into one `Day` whose date is
  parsed from the string and whose lessons keep the feed's order.
 */
module Days {
  import opened Wrappers
  import opened Text
  import opened Calendar
  import opened Schedule
  import opened Lessons

  // ---------------------------------------------------------------------
  // Specification: the distinct keys, the group of each key, and the days

  /** The distinct date strings of the records. */
  function KeySet(raw: seq<RawLesson>): (keys: set<string>)
    ensures forall k :: k in keys <==> exists j :: 0 <= j < |raw| && raw[j].dateLesson == k
    decreases |raw|
  {
    if |raw| == 0 then {}
    else
      var n := |raw| - 1;
      assert forall j :: 0 <= j < n ==> raw[..n][j] == raw[j];
      KeySet(raw[..n]) + {raw[n].dateLesson}
  }

  /** The records carrying date string `k`, in feed order. */
  function Group(raw: seq<RawLesson>, k: string): seq<RawLesson>
    decreases |raw|
  {
    if |raw| == 0 then []
    else
      var n := |raw| - 1;
      Group(raw[..n], k) + (if raw[n].dateLesson == k then [raw[n]] else [])
  }

  /** How many records before index `j` share its date string. */
  function Rank(raw: seq<RawLesson>, j: nat): nat
    requires j < |raw|
  {
    |Group(raw[..j], raw[j].dateLesson)|
  }

  /** `date_keys` after sorting: the distinct date strings in ascending string order. */
  ghost function SortedKeys(keys: set<string>): (r: seq<string>)
    ensures StrictlySorted(r)
    ensures forall k :: k in r <==> k in keys
    decreases |keys|
  {
    if keys == {} then []
    else
      MinimumExists(keys);
      var m :| m in keys && forall k :: k in keys && k != m ==> Less(m, k);
      var rest := SortedKeys(keys - {m});
      assert forall j :: 0 <= j < |rest| ==> Less(m, rest[j]) by {
        forall j | 0 <= j < |rest| ensures Less(m, rest[j]) {
          assert rest[j] in keys - {m};
        }
      }
      [m] + rest
  }

  /** A strictly sorted sequence holding exactly a set's members is that set's sorted keys. */
  lemma SortedKeysOf(keys: seq<string>, s: set<string>)
    requires StrictlySorted(keys) && forall x :: x in keys <==> x in s
    ensures SortedKeys(s) == keys
  {
    SortedUnique(keys, SortedKeys(s));
  }

  lemma {:induction false} MinimumExists(keys: set<string>)
    requires keys != {}
    ensures exists m :: m in keys && forall k :: k in keys && k != m ==> Less(m, k)
    decreases |keys|
  {
    var x :| x in keys;
    if keys != {x} {
      var rest := keys - {x};
      MinimumExists(rest);
      var m :| m in rest && forall k :: k in rest && k != m ==> Less(m, k);
      LessTotal(x, m);
      if Less(x, m) {
        forall k | k in keys && k != x ensures Less(x, k) {
          if k != m { LessTransitive(x, m, k); }
        }
      } else {
        assert forall k :: k in keys && k != m ==> Less(m, k);
      }
    }
  }

  /** `match day_date.weekday()`: Monday is 1, Sunday is 7. */
  function WeekdayNumber(w: Weekday): (n: U8)
    ensures 1 <= n <= 7
    ensures n == 1 <==> w == Mon
    ensures n == 7 <==> w == Sun
  {
    match w
    case Mon => 1
    case Tue => 2
    case Wed => 3
    case Thu => 4
    case Fri => 5
    case Sat => 6
    case Sun => 7
  }

  /**
    The weekday number is the ISO one: one more than the number of days
    since the Monday that opens the date's week.
   */
  lemma IsoWeekdayNumber(d: Date)
    ensures WeekdayNumber(WeekdayOf(d)) == DaysFromMonday(d) + 1
  {
  }

  /**
    The date of a key: split on '-', parse the first three pieces as year
    (`i32`), month and day (`u32`), and ask the calendar whether they name a
    date. Pieces after the third are ignored.
   */
  function ParseKey(key: string): (r: Option<Date>)
    ensures r.Some? ==> |Split(key, '-')| >= 3
    ensures r.Some? ==>
      var parts := Split(key, '-');
      && ParseDecimal(parts[0], I32Max) == Some(r.value.year)
      && ParseDecimal(parts[1], U32Max) == Some(r.value.month)
      && ParseDecimal(parts[2], U32Max) == Some(r.value.day)
    ensures r.Some? <==>
      var parts := Split(key, '-');
      && |parts| >= 3
      && ParseDecimal(parts[0], I32Max).Some?
      && ParseDecimal(parts[1], U32Max).Some?
      && ParseDecimal(parts[2], U32Max).Some?
      && IsValidDate(Ymd(ParseDecimal(parts[0], I32Max).value,
                         ParseDecimal(parts[1], U32Max).value,
                         ParseDecimal(parts[2], U32Max).value))
  {
    var parts := Split(key, '-');
    if |parts| < 3 then None
    else
      match (ParseDecimal(parts[0], I32Max), ParseDecimal(parts[1], U32Max), ParseDecimal(parts[2], U32Max))
      case (Some(y), Some(m), Some(d)) => FromYmd(y, m, d)
      case _ => None
  }

  /** The day built for one key: its lessons first, then its date. */
  function MakeDay(raw: seq<RawLesson>, key: string): (r: Result<Day>)
    ensures r.Ok? ==>
      && ParseKey(key) == Some(r.value.date)
      && r.value.dayOfWeek == WeekdayNumber(WeekdayOf(r.value.date))
      && MapAll(RawToLesson, Group(raw, key)) == Ok(r.value.lessons)
    ensures r.Err? <==> MapAll(RawToLesson, Group(raw, key)).Err? || ParseKey(key).None?
    ensures MapAll(RawToLesson, Group(raw, key)).Err? ==>
      r == Err(MapAll(RawToLesson, Group(raw, key)).error)
    ensures MapAll(RawToLesson, Group(raw, key)).Ok? && ParseKey(key).None? ==>
      r == Err(BadDateKey)
  {
    match MapAll(RawToLesson, Group(raw, key))
    case Err(e) => Err(e)
    case Ok(lessons) =>
      match ParseKey(key)
      case None => Err(BadDateKey)
      case Some(date) => Ok(Day(date, WeekdayNumber(WeekdayOf(date)), lessons))
  }

  function DayMaker(raw: seq<RawLesson>): string -> Result<Day> {
    (key: string) => MakeDay(raw, key)
  }

  /** What `raw_to_days` computes: one day per sorted key, or the first failure. */
  ghost function DaysSpec(raw: seq<RawLesson>): Result<seq<Day>> {
    MapAll(DayMaker(raw), SortedKeys(KeySet(raw)))
  }

  // ---------------------------------------------------------------------
  // The program

  /** Inserts a new key into a strictly sorted sequence of keys. */
  method InsertKey(s: seq<string>, x: string) returns (r: seq<string>)
    requires StrictlySorted(s) && x !in s
    ensures StrictlySorted(r)
    ensures forall k :: k in r <==> k in s || k == x
  {
    var i := 0;
    while i < |s| && Less(s[i], x)
      invariant 0 <= i <= |s|
      invariant forall j :: 0 <= j < i ==> Less(s[j], x)
    {
      i := i + 1;
    }
    if i < |s| {
      LessTotal(s[i], x);
      forall j | i < j < |s| ensures Less(x, s[j]) {
        LessTransitive(x, s[i], s[j]);
      }
    }
    r := s[..i] + [x] + s[i..];
    assert forall j :: 0 <= j < |r| ==> r[j] == if j < i then s[j] else if j == i then x else s[j - 1];
  }

  /** Collects the map's keys into `date_keys` and sorts them, one insertion at a time. */
  method SortKeys(keys: set<string>) returns (sorted: seq<string>)
    ensures StrictlySorted(sorted)
    ensures forall k :: k in sorted <==> k in keys
  {
    sorted := [];
    var rest := keys;
    while rest != {}
      invariant rest <= keys
      invariant StrictlySorted(sorted)
      invariant forall k :: k in sorted <==> k in keys && k !in rest
      decreases |rest|
    {
      var k :| k in rest;
      sorted := InsertKey(sorted, k);
      rest := rest - {k};
    }
  }

  /** Pushes every record onto the map's vector for its date string (`entry().or_insert_with().push()`). */
  method GroupByDate(raw: seq<RawLesson>) returns (groups: map<string, seq<RawLesson>>)
    ensures groups.Keys == KeySet(raw)
    ensures forall k :: k in groups ==> groups[k] == Group(raw, k)
  {
    groups := map[];
    for i := 0 to |raw|
      invariant groups.Keys == KeySet(raw[..i])
      invariant forall k :: k in groups ==> groups[k] == Group(raw[..i], k)
    {
      assert raw[..i + 1][..i] == raw[..i];
      var k := raw[i].dateLesson;
      var bucket := if k in groups then groups[k] else [];
      if k !in groups { GroupEmptyOutsideKeys(raw[..i], k); }
      groups := groups[k := bucket + [raw[i]]];
    }
    assert raw[..|raw|] == raw;
  }

  /** Converts the records of one date string in feed order into `this_date_lessons`. */
  method ConvertGroup(group: seq<RawLesson>) returns (r: Result<seq<Lesson>>)
    ensures r == MapAll(RawToLesson, group)
  {
    var lessons: seq<Lesson> := [];
    for j := 0 to |group|
      invariant MapAll(RawToLesson, group[..j]) == Ok(lessons)
    {
      var lesson := RawToLesson(group[j]);
      MapAllStep(RawToLesson, group, j, lessons);
      if lesson.Err? {
        return Err(lesson.error);
      }
      lessons := lessons + [lesson.value];
    }
    assert group[..|group|] == group;
    r := Ok(lessons);
  }

  /** Builds one day: the lessons of its date string first, then its date and weekday number. */
  method BuildDay(ghost raw: seq<RawLesson>, group: seq<RawLesson>, key: string) returns (r: Result<Day>)
    requires group == Group(raw, key)
    ensures r == MakeDay(raw, key)
  {
    var lessons := ConvertGroup(group);
    if lessons.Err? {
      return Err(lessons.error);
    }
    var date := ParseKey(key);
    if date.None? {
      return Err(BadDateKey);
    }
    var dayOfWeek := WeekdayNumber(WeekdayOf(date.value));
    r := Ok(Day(date.value, dayOfWeek, lessons.value));
  }

  /** `raw_to_days`. */
  method RawToDays(raw: seq<RawLesson>) returns (r: Result<seq<Day>>)
    ensures r == DaysSpec(raw)
  {
    var groups := GroupByDate(raw);
    var keys := SortKeys(groups.Keys);
    SortedUnique(keys, SortedKeys(KeySet(raw)));

    var days: seq<Day> := [];
    for i := 0 to |keys|
      invariant MapAll(DayMaker(raw), keys[..i]) == Ok(days)
    {
      var day := BuildDay(raw, groups[keys[i]], keys[i]);
      assert DayMaker(raw)(keys[i]) == day;
      MapAllStep(DayMaker(raw), keys, i, days);
      if day.Err? {
        return Err(day.error);
      }
      days := days + [day.value];
    }
    assert keys[..|keys|] == keys;
    r := Ok(days);
  }

  // ---------------------------------------------------------------------
  // Grouping

  lemma {:induction false} GroupEmptyOutsideKeys(raw: seq<RawLesson>, k: string)
    requires k !in KeySet(raw)
    ensures Group(raw, k) == []
    decreases |raw|
  {
    if |raw| > 0 {
      var n := |raw| - 1;
      assert forall j :: 0 <= j < n ==> raw[..n][j] == raw[j];
      GroupEmptyOutsideKeys(raw[..n], k);
    }
  }

  /** Grouping a concatenation groups each part. */
  lemma {:induction false} GroupConcat(a: seq<RawLesson>, b: seq<RawLesson>, k: string)
    ensures Group(a + b, k) == Group(a, k) + Group(b, k)
    decreases |b|
  {
    if |b| == 0 {
      assert a + b == a;
    } else {
      var n := |b| - 1;
      assert (a + b)[..|a| + n] == a + b[..n];
      GroupConcat(a, b[..n], k);
    }
  }

  /** Every record of a group carries the group's key. */
  lemma {:induction false} GroupMembers(raw: seq<RawLesson>, k: string)
    ensures forall x :: x in Group(raw, k) ==> x.dateLesson == k && x in raw
    decreases |raw|
  {
    if |raw| > 0 {
      var n := |raw| - 1;
      GroupMembers(raw[..n], k);
    }
  }

  /** Record `j` sits in its key's group at index `Rank(raw, j)`. */
  lemma {:induction false} GroupHoldsRecord(raw: seq<RawLesson>, j: nat)
    requires j < |raw|
    ensures Rank(raw, j) < |Group(raw, raw[j].dateLesson)|
    ensures Group(raw, raw[j].dateLesson)[Rank(raw, j)] == raw[j]
  {
    var k := raw[j].dateLesson;
    assert raw == raw[..j + 1] + raw[j + 1..];
    GroupConcat(raw[..j + 1], raw[j + 1..], k);
    assert raw[..j + 1][..j] == raw[..j];
  }

  /** Records of one date keep their feed order inside the group. */
  lemma {:induction false} RankKeepsFeedOrder(raw: seq<RawLesson>, j1: nat, j2: nat)
    requires j1 < j2 < |raw| && raw[j1].dateLesson == raw[j2].dateLesson
    ensures Rank(raw, j1) < Rank(raw, j2)
  {
    var k := raw[j1].dateLesson;
    assert raw[..j2] == raw[..j1 + 1] + raw[j1 + 1..j2];
    GroupConcat(raw[..j1 + 1], raw[j1 + 1..j2], k);
    assert raw[..j1 + 1][..j1] == raw[..j1];
  }

  /** The index, among the sorted keys, of key `k`. */
  ghost function KeyIndex(keys: seq<string>, k: string): (i: nat)
    requires k in keys
    ensures i < |keys| && keys[i] == k
  {
    var i :| 0 <= i < |keys| && keys[i] == k; i
  }

  /** The index of the day that record `j` lands in. */
  ghost function DayOf(raw: seq<RawLesson>, j: nat): (i: nat)
    requires j < |raw|
    ensures i < |SortedKeys(KeySet(raw))| && SortedKeys(KeySet(raw))[i] == raw[j].dateLesson
  {
    KeyIndex(SortedKeys(KeySet(raw)), raw[j].dateLesson)
  }

  lemma SortedDistinct(keys: seq<string>)
    requires StrictlySorted(keys)
    ensures forall i, j :: 0 <= i < j < |keys| ==> keys[i] != keys[j]
  {
    forall i, j | 0 <= i < j < |keys| ensures keys[i] != keys[j] {
      LessIrreflexive(keys[i]);
    }
  }

  /** Exact grouping: two records share a day exactly when their date strings are equal. */
  lemma SameDayIff(raw: seq<RawLesson>, j1: nat, j2: nat)
    requires j1 < |raw| && j2 < |raw|
    ensures DayOf(raw, j1) == DayOf(raw, j2) <==> raw[j1].dateLesson == raw[j2].dateLesson
  {
    var keys := SortedKeys(KeySet(raw));
    SortedDistinct(keys);
  }

  /** The days of a successful run, one per sorted key, each built from its own group. */
  lemma DaysFollowKeys(raw: seq<RawLesson>, days: seq<Day>)
    requires DaysSpec(raw) == Ok(days)
    ensures |days| == |SortedKeys(KeySet(raw))|
    ensures forall i :: 0 <= i < |days| ==> MakeDay(raw, SortedKeys(KeySet(raw))[i]) == Ok(days[i])
  {
    var keys := SortedKeys(KeySet(raw));
    forall i | 0 <= i < |days| ensures MakeDay(raw, keys[i]) == Ok(days[i]) {
      assert DayMaker(raw)(keys[i]) == Ok(days[i]);
    }
  }

  /**
    Contents of each day: its date is its key's date, its weekday number is
    the date's weekday (1..7), and its lessons are its key's records
    converted one by one, in feed order.
   */
  lemma DayContents(raw: seq<RawLesson>, days: seq<Day>, i: nat)
    requires DaysSpec(raw) == Ok(days) && i < |days|
    ensures i < |SortedKeys(KeySet(raw))|
    ensures ParseKey(SortedKeys(KeySet(raw))[i]) == Some(days[i].date)
    ensures 1 <= days[i].dayOfWeek <= 7
    ensures days[i].dayOfWeek == WeekdayNumber(WeekdayOf(days[i].date))
    ensures days[i].dayOfWeek == DaysFromMonday(days[i].date) + 1
    ensures |days[i].lessons| == |Group(raw, SortedKeys(KeySet(raw))[i])| > 0
    ensures forall p :: 0 <= p < |days[i].lessons| ==>
      RawToLesson(Group(raw, SortedKeys(KeySet(raw))[i])[p]) == Ok(days[i].lessons[p])
  {
    DaysFollowKeys(raw, days);
    var keys := SortedKeys(KeySet(raw));
    var key := keys[i];
    var day := days[i];
    assert MakeDay(raw, key) == Ok(day);
    var group := Group(raw, key);
    assert MapAll(RawToLesson, group) == Ok(day.lessons);
    assert key in KeySet(raw);
    var j :| 0 <= j < |raw| && raw[j].dateLesson == key;
    GroupHoldsRecord(raw, j);
    IsoWeekdayNumber(day.date);
  }

  /**
    Where each record goes: record `j` becomes lesson `Rank(raw, j)` of day
    `DayOf(raw, j)`, and that day's date is the one its date string names.
   */
  lemma RecordPlacement(raw: seq<RawLesson>, days: seq<Day>, j: nat)
    requires DaysSpec(raw) == Ok(days) && j < |raw|
    ensures DayOf(raw, j) < |days|
    ensures ParseKey(raw[j].dateLesson) == Some(days[DayOf(raw, j)].date)
    ensures Rank(raw, j) < |days[DayOf(raw, j)].lessons|
    ensures RawToLesson(raw[j]) == Ok(days[DayOf(raw, j)].lessons[Rank(raw, j)])
  {
    DaysFollowKeys(raw, days);
    var i := DayOf(raw, j);
    DayContents(raw, days, i);
    GroupHoldsRecord(raw, j);
  }

  // ---------------------------------------------------------------------
  // Conservation of lessons

  function TotalLessons(days: seq<Day>): nat {
    if |days| == 0 then 0 else |days[0].lessons| + TotalLessons(days[1..])
  }

  function GroupSizes(raw: seq<RawLesson>, keys: seq<string>): nat {
    if |keys| == 0 then 0 else |Group(raw, keys[0])| + GroupSizes(raw, keys[1..])
  }

  function Occurrences(keys: seq<string>, k: string): nat {
    if |keys| == 0 then 0 else (if keys[0] == k then 1 else 0) + Occurrences(keys[1..], k)
  }

  lemma {:induction false} OccursOnce(keys: seq<string>, k: string)
    requires StrictlySorted(keys)
    ensures Occurrences(keys, k) == if k in keys then 1 else 0
    decreases |keys|
  {
    if |keys| > 0 {
      OccursOnce(keys[1..], k);
      if keys[0] == k {
        LessIrreflexive(k);
        forall j | 0 <= j < |keys[1..]| ensures keys[1..][j] != k {
          assert Less(keys[0], keys[j + 1]);
        }
      }
      assert keys == [keys[0]] + keys[1..];
    }
  }

  lemma {:induction false} GroupSizesStep(raw: seq<RawLesson>, x: RawLesson, keys: seq<string>)
    ensures GroupSizes(raw + [x], keys) == GroupSizes(raw, keys) + Occurrences(keys, x.dateLesson)
    decreases |keys|
  {
    if |keys| > 0 {
      assert (raw + [x])[..|raw|] == raw;
      GroupSizesStep(raw, x, keys[1..]);
    }
  }

  lemma {:induction false} GroupSizesCount(raw: seq<RawLesson>, keys: seq<string>)
    requires StrictlySorted(keys)
    requires forall j :: 0 <= j < |raw| ==> raw[j].dateLesson in keys
    ensures GroupSizes(raw, keys) == |raw|
    decreases |raw|
  {
    if |raw| == 0 {
      NoGroups(keys);
    } else {
      var n := |raw| - 1;
      assert raw == raw[..n] + [raw[n]];
      GroupSizesCount(raw[..n], keys);
      GroupSizesStep(raw[..n], raw[n], keys);
      OccursOnce(keys, raw[n].dateLesson);
    }
  }

  lemma {:induction false} NoGroups(keys: seq<string>)
    ensures GroupSizes([], keys) == 0
    decreases |keys|
  {
    if |keys| > 0 { NoGroups(keys[1..]); }
  }

  lemma {:induction false} TotalIsGroupSizes(raw: seq<RawLesson>, keys: seq<string>, days: seq<Day>)
    requires |days| == |keys|
    requires forall i :: 0 <= i < |days| ==> |days[i].lessons| == |Group(raw, keys[i])|
    ensures TotalLessons(days) == GroupSizes(raw, keys)
    decreases |days|
  {
    if |days| > 0 {
      TotalIsGroupSizes(raw, keys[1..], days[1..]);
    }
  }

  /** No lesson is lost or duplicated: the days hold as many lessons as there were records. */
  lemma LessonsConserved(raw: seq<RawLesson>, days: seq<Day>)
    requires DaysSpec(raw) == Ok(days)
    ensures TotalLessons(days) == |raw|
  {
    var keys := SortedKeys(KeySet(raw));
    DaysFollowKeys(raw, days);
    forall i | 0 <= i < |days| ensures |days[i].lessons| == |Group(raw, keys[i])| {
      DayContents(raw, days, i);
    }
    TotalIsGroupSizes(raw, keys, days);
    GroupSizesCount(raw, keys);
  }

  /** An empty feed gives no days. */
  lemma EmptyFeed()
    ensures DaysSpec([]) == Ok([])
  {
    assert SortedKeys(KeySet([])) == [];
  }

  // ---------------------------------------------------------------------
  // Failure

  /**
    The whole run fails exactly when some record has a subgroup or lesson
    number that is not a `u8`, or a date string that names no date.
   */
  lemma FailsIff(raw: seq<RawLesson>)
    ensures DaysSpec(raw).Err? <==>
      exists j :: 0 <= j < |raw| && (RawToLesson(raw[j]).Err? || ParseKey(raw[j].dateLesson).None?)
  {
    if DaysSpec(raw).Err? {
      FailureHasCause(raw);
    }
    if exists j :: 0 <= j < |raw| && (RawToLesson(raw[j]).Err? || ParseKey(raw[j].dateLesson).None?) {
      var j :| 0 <= j < |raw| && (RawToLesson(raw[j]).Err? || ParseKey(raw[j].dateLesson).None?);
      CauseFails(raw, j);
    }
  }

  lemma FailureHasCause(raw: seq<RawLesson>)
    requires DaysSpec(raw).Err?
    ensures exists j :: 0 <= j < |raw| && (RawToLesson(raw[j]).Err? || ParseKey(raw[j].dateLesson).None?)
  {
    var key := FailingKey(raw);
    var j0 :| 0 <= j0 < |raw| && raw[j0].dateLesson == key;
    if ParseKey(key).Some? {
      assert MapAll(RawToLesson, Group(raw, key)).Err?;
      BadRecordInGroup(raw, key);
    } else {
      assert ParseKey(raw[j0].dateLesson).None?;
    }
  }

  /** A failed run has a date string whose day fails. */
  lemma FailingKey(raw: seq<RawLesson>) returns (key: string)
    requires DaysSpec(raw).Err?
    ensures key in KeySet(raw) && MakeDay(raw, key).Err?
  {
    var keys := SortedKeys(KeySet(raw));
    var f := DayMaker(raw);
    assert MapAll(f, keys).Err?;
    var i :| 0 <= i < |keys| && f(keys[i]).Err?;
    key := keys[i];
  }

  lemma BadRecordInGroup(raw: seq<RawLesson>, key: string)
    requires MapAll(RawToLesson, Group(raw, key)).Err?
    ensures exists j :: 0 <= j < |raw| && RawToLesson(raw[j]).Err?
  {
    var group := Group(raw, key);
    var p :| 0 <= p < |group| && RawToLesson(group[p]).Err?;
    GroupMembers(raw, key);
    assert group[p] in raw;
  }

  lemma CauseFails(raw: seq<RawLesson>, j: nat)
    requires j < |raw| && (RawToLesson(raw[j]).Err? || ParseKey(raw[j].dateLesson).None?)
    ensures DaysSpec(raw).Err?
  {
    var keys := SortedKeys(KeySet(raw));
    var f := DayMaker(raw);
    var i := DayOf(raw, j);
    var key := keys[i];
    GroupHoldsRecord(raw, j);
    var group := Group(raw, key);
    if RawToLesson(raw[j]).Err? {
      assert RawToLesson(group[Rank(raw, j)]).Err?;
      assert MapAll(RawToLesson, group).Err?;
    }
    assert MakeDay(raw, key).Err?;
    assert f(keys[i]).Err?;
  }

  // ---------------------------------------------------------------------
  // Order of the days

  /** A zero-padded `YYYY-MM-DD` string. */
  predicate IsIsoKey(k: string) {
    && |k| == 10 && k[4] == '-' && k[7] == '-'
    && AllDigits(k[..4]) && AllDigits(k[5..7]) && AllDigits(k[8..])
  }

  lemma {:induction false} IsoKeyParts(k: string)
    requires IsIsoKey(k)
    ensures Split(k, '-') == [k[..4], k[5..7], k[8..]]
  {
    var parts := [k[..4], k[5..7], k[8..]];
    forall i | 0 <= i < 3 ensures '-' !in parts[i] {
      if i == 0 { assert forall c :: c in k[..4] ==> IsDigit(c); }
      if i == 1 { assert forall c :: c in k[5..7] ==> IsDigit(c); }
      if i == 2 { assert forall c :: c in k[8..] ==> IsDigit(c); }
    }
    assert Join(parts, '-') == k by {
      assert Join(parts[2..], '-') == k[8..];
      assert Join(parts[1..], '-') == k[5..7] + "-" + k[8..];
      assert k == k[..4] + "-" + (k[5..7] + "-" + k[8..]);
    }
    SplitJoin(parts, '-');
  }

  /** Cutting two strings of one length at the same place splits their order. */
  lemma LessSplit(a: string, b: string, n: nat)
    requires |a| == |b| && n <= |a|
    ensures Less(a, b) <==> Less(a[..n], b[..n]) || (a[..n] == b[..n] && Less(a[n..], b[n..]))
  {
    assert a == a[..n] + a[n..];
    assert b == b[..n] + b[n..];
    LessConcat(a[..n], a[n..], b[..n], b[n..]);
  }

  /** A character the two strings share at the front does not affect their order. */
  lemma LessSkip(a: string, b: string, n: nat)
    requires |a| == |b| && n < |a| && a[n] == b[n]
    ensures Less(a[n..], b[n..]) <==> Less(a[n + 1..], b[n + 1..])
  {
    assert a[n..] == [a[n]] + a[n + 1..];
    assert b[n..] == [b[n]] + b[n + 1..];
    LessConcat([a[n]], a[n + 1..], [b[n]], b[n + 1..]);
    LessIrreflexive([a[n]]);
  }

  /** Splits string order on keys of one shape into the order of their fields. */
  lemma {:induction false} IsoKeyLess(a: string, b: string)
    requires IsIsoKey(a) && IsIsoKey(b)
    ensures Less(a, b) <==>
      || Less(a[..4], b[..4])
      || (a[..4] == b[..4] && Less(a[5..7], b[5..7]))
      || (a[..4] == b[..4] && a[5..7] == b[5..7] && Less(a[8..], b[8..]))
  {
    LessSplit(a, b, 4);
    LessSkip(a, b, 4);
    var a5, b5 := a[5..], b[5..];
    LessSplit(a5, b5, 2);
    assert a5[..2] == a[5..7] && b5[..2] == b[5..7];
    assert a5[2..] == a[7..] && b5[2..] == b[7..];
    LessSkip(a, b, 7);
  }

  /**
    For zero-padded `YYYY-MM-DD` keys that name dates, string order is
    calendar order; this is what makes sorting the keys as text correct.
   */
  lemma {:induction false} IsoKeyOrder(a: string, b: string)
    requires IsIsoKey(a) && IsIsoKey(b)
    requires ParseKey(a).Some? && ParseKey(b).Some?
    ensures Less(a, b) <==> Before(ParseKey(a).value, ParseKey(b).value)
  {
    IsoKeyParts(a);
    IsoKeyParts(b);
    IsoKeyLess(a, b);
    DigitsLess(a[..4], b[..4]);
    DigitsLess(a[5..7], b[5..7]);
    DigitsLess(a[8..], b[8..]);
  }

  /** With zero-padded keys, the days come out strictly ascending by date. */
  lemma IsoDaysAscending(raw: seq<RawLesson>, days: seq<Day>)
    requires forall j :: 0 <= j < |raw| ==> IsIsoKey(raw[j].dateLesson)
    requires DaysSpec(raw) == Ok(days)
    ensures forall i1, i2 :: 0 <= i1 < i2 < |days| ==> DayNumber(days[i1].date) < DayNumber(days[i2].date)
  {
    var keys := SortedKeys(KeySet(raw));
    forall i1, i2 | 0 <= i1 < i2 < |days| ensures DayNumber(days[i1].date) < DayNumber(days[i2].date) {
      DayContents(raw, days, i1);
      DayContents(raw, days, i2);
      assert keys[i1] in KeySet(raw) && keys[i2] in KeySet(raw);
      IsoKeyOrder(keys[i1], keys[i2]);
      DayNumberOrder(days[i1].date, days[i2].date);
    }
  }

  // ---------------------------------------------------------------------
  // A worked example: three lectures, fed out of date order

  /** A lecture record for the given date string: lesson 1, no subgroup. */
  function ExampleRecord(date: string, teacher: string, room: string): RawLesson {
    RawLesson(date, "1", "1", "Lecture", "Algebra", teacher, room, "0")
  }

  /** The day `ExampleRecord` gives on a date with the given weekday number. */
  function ExampleDay(date: Date, dayOfWeek: U8, teacher: string, room: string): Day {
    Day(date, dayOfWeek, [Lesson(1, "Lecture Algebra", teacher, room)])
  }

  /** Lectures for 2025-01-13, 2025-01-06 and 2025-01-07, in that order. */
  function ExampleFeed(teacher: string, room: string): seq<RawLesson> {
    [ExampleRecord("2025-01-13", teacher, room),
     ExampleRecord("2025-01-06", teacher, room),
     ExampleRecord("2025-01-07", teacher, room)]
  }

  /** A zero-padded key names the date of its three fields. */
  lemma IsoKeyDate(k: string, y: nat, m: nat, d: nat)
    requires IsIsoKey(k)
    requires DigitsValue(k[..4]) == y && DigitsValue(k[5..7]) == m && DigitsValue(k[8..]) == d
    requires y <= I32Max && m <= U32Max && d <= U32Max
    ensures ParseKey(k) == FromYmd(y, m, d)
  {
    IsoKeyParts(k);
  }

  /** The example key "2025-01-DD" names 2025-01-DD. */
  lemma ExampleKey(k: string, d: nat, d1: char, d2: char)
    requires k == "2025-01-" + [d1, d2]
    requires IsDigit(d1) && IsDigit(d2) && d == DigitValue(d1) * 10 + DigitValue(d2)
    requires 1 <= d <= 31
    ensures ParseKey(k) == Some(Ymd(2025, 1, d))
  {
    assert k[..4] == "2025" && k[5..7] == "01" && k[8..] == [d1, d2];
    assert [d1, d2][..1] == [d1];
    assert "2025"[..3] == "202" && "202"[..2] == "20" && "20"[..1] == "2" && "2"[..0] == "";
    assert DigitsValue("2025") == 2025;
    assert "01"[..1] == "0" && "0"[..0] == "";
    assert DigitsValue("01") == 1;
    assert [d1, d2][..1] == [d1] && [d1][..0] == [];
    assert IsIsoKey(k);
    IsoKeyDate(k, 2025, 1, d);
  }

  lemma ExampleSortedKeys(teacher: string, room: string)
    ensures SortedKeys(KeySet(ExampleFeed(teacher, room))) == ExampleKeys()
  {
    var k1, k2, k3 := "2025-01-06", "2025-01-07", "2025-01-13";
    var raw := ExampleFeed(teacher, room);
    assert raw[..2][..1] == [raw[0]] && raw[..2][..1][..0] == [];
    assert KeySet(raw[..2][..1][..0]) == {};
    assert KeySet(raw) == {k1, k2, k3};
    assert k1[..9] == k2[..9] && k1[9] < k2[9];
    assert k1[..8] == k3[..8] && k1[8] < k3[8];
    assert k2[..8] == k3[..8] && k2[8] < k3[8];
    assert LexBefore(k1, k2) && LexBefore(k1, k3) && LexBefore(k2, k3);
    var keys := [k1, k2, k3];
    assert StrictlySorted(keys) by {
      forall i, j | 0 <= i < j < 3 ensures Less(keys[i], keys[j]) {
      }
    }
    SortedKeysOf(keys, {k1, k2, k3});
  }

  /** The example's record converts to lecture 1 with no subgroup suffix. */
  lemma ExampleLesson(date: string, teacher: string, room: string)
    ensures MapAll(RawToLesson, [ExampleRecord(date, teacher, room)])
      == Ok([Lesson(1, "Lecture Algebra", teacher, room)])
  {
    var r := ExampleRecord(date, teacher, room);
    assert ToDecimal(1) == "1" && ToDecimal(0) == "0";
    RenderedRecordConverts(r, 1, 0);
    assert "Lecture" + " " + "Algebra" + "" == "Lecture Algebra";
    assert [r][..0] == [] && [r][..1] == [r];
    var lesson := Lesson(1, "Lecture Algebra", teacher, room);
    assert RawToLesson(r) == Ok(lesson);
    MapAllStep(RawToLesson, [r], 0, []);
    assert [] + [lesson] == [lesson];
  }

  /** 2025-01-06 and 2025-01-13 are Mondays, 2025-01-07 a Tuesday. */
  lemma ExampleWeekdays()
    ensures WeekdayNumber(WeekdayOf(Ymd(2025, 1, 6))) == 1
    ensures WeekdayNumber(WeekdayOf(Ymd(2025, 1, 7))) == 2
    ensures WeekdayNumber(WeekdayOf(Ymd(2025, 1, 13))) == 1
  {
    assert DaysBeforeMonth(2025, 1) == 0;
    assert DayNumber(Ymd(2025, 1, 6)) == 739256;
    assert DayNumber(Ymd(2025, 1, 7)) == 739257;
    assert DayNumber(Ymd(2025, 1, 13)) == 739263;
  }

  /** Each date string of the example feed has its one record as its group. */
  lemma ExampleGroups(teacher: string, room: string)
    ensures forall k :: k in {"2025-01-06", "2025-01-07", "2025-01-13"} ==>
      Group(ExampleFeed(teacher, room), k) == [ExampleRecord(k, teacher, room)]
  {
    var raw := ExampleFeed(teacher, room);
    var k1, k2, k3 := "2025-01-06", "2025-01-07", "2025-01-13";
    assert k1[9] != k2[9] && k1[8] != k3[8] && k2[8] != k3[8];
    assert raw[..2][..1] == [raw[0]] && raw[..2][..1][..0] == [];
    forall k | k in {k1, k2, k3} ensures Group(raw, k) == [ExampleRecord(k, teacher, room)] {
      var r0, r1, r2 := raw[..2][..1][..0], raw[..2][..1], raw[..2];
      assert Group(r0, k) == [];
      assert Group(r1, k) == Group(r0, k) + (if raw[0].dateLesson == k then [raw[0]] else []);
      assert Group(r2, k) == Group(r1, k) + (if raw[1].dateLesson == k then [raw[1]] else []);
      assert Group(raw, k) == Group(r2, k) + (if raw[2].dateLesson == k then [raw[2]] else []);
    }
  }

  /** The day of one example key: its one lecture, its date and its weekday. */
  lemma ExampleDayFor(teacher: string, room: string, k: string, d: nat, d1: char, d2: char, dayOfWeek: U8)
    requires k in {"2025-01-06", "2025-01-07", "2025-01-13"}
    requires k == "2025-01-" + [d1, d2]
    requires IsDigit(d1) && IsDigit(d2) && d == DigitValue(d1) * 10 + DigitValue(d2)
    requires 1 <= d <= 31 && WeekdayNumber(WeekdayOf(Ymd(2025, 1, d))) == dayOfWeek
    ensures MakeDay(ExampleFeed(teacher, room), k) == Ok(ExampleDay(Ymd(2025, 1, d), dayOfWeek, teacher, room))
  {
    ExampleKey(k, d, d1, d2);
    ExampleGroups(teacher, room);
    ExampleLesson(k, teacher, room);
  }

  lemma ExampleMonday(teacher: string, room: string)
    ensures MakeDay(ExampleFeed(teacher, room), "2025-01-06") == Ok(ExampleDay(Ymd(2025, 1, 6), 1, teacher, room))
  {
    ExampleWeekdays();
    ExampleDayFor(teacher, room, "2025-01-06", 6, '0', '6', 1);
  }

  lemma ExampleTuesday(teacher: string, room: string)
    ensures MakeDay(ExampleFeed(teacher, room), "2025-01-07") == Ok(ExampleDay(Ymd(2025, 1, 7), 2, teacher, room))
  {
    ExampleWeekdays();
    ExampleDayFor(teacher, room, "2025-01-07", 7, '0', '7', 2);
  }

  lemma ExampleNextMonday(teacher: string, room: string)
    ensures MakeDay(ExampleFeed(teacher, room), "2025-01-13") == Ok(ExampleDay(Ymd(2025, 1, 13), 1, teacher, room))
  {
    ExampleWeekdays();
    ExampleDayFor(teacher, room, "2025-01-13", 13, '1', '3', 1);
  }

  /** When every sorted key makes its day, the days are exactly those, in key order. */
  lemma DaysOfKeys(raw: seq<RawLesson>, keys: seq<string>, days: seq<Day>)
    requires SortedKeys(KeySet(raw)) == keys && |days| == |keys|
    requires forall i :: 0 <= i < |keys| ==> MakeDay(raw, keys[i]) == Ok(days[i])
    ensures DaysSpec(raw) == Ok(days)
  {
    var f := DayMaker(raw);
    var r := MapAll(f, keys);
    assert forall i :: 0 <= i < |keys| ==> f(keys[i]) == Ok(days[i]);
    assert r.Ok?;
    assert forall i :: 0 <= i < |keys| ==> Ok(r.value[i]) == Ok(days[i]);
    assert r.value == days;
  }

  /** The example's date strings in sorted order. */
  function ExampleKeys(): seq<string> {
    ["2025-01-06", "2025-01-07", "2025-01-13"]
  }

  /** The days the example feed should give: Monday, Tuesday, then Monday. */
  function ExampleDays(teacher: string, room: string): seq<Day> {
    [ExampleDay(Ymd(2025, 1, 6), 1, teacher, room),
     ExampleDay(Ymd(2025, 1, 7), 2, teacher, room),
     ExampleDay(Ymd(2025, 1, 13), 1, teacher, room)]
  }

  lemma ExampleDaysMade(teacher: string, room: string)
    ensures |ExampleDays(teacher, room)| == |ExampleKeys()|
    ensures forall i :: 0 <= i < |ExampleKeys()| ==>
      MakeDay(ExampleFeed(teacher, room), ExampleKeys()[i]) == Ok(ExampleDays(teacher, room)[i])
  {
    var raw, keys, days := ExampleFeed(teacher, room), ExampleKeys(), ExampleDays(teacher, room);
    forall i | 0 <= i < |keys| ensures MakeDay(raw, keys[i]) == Ok(days[i]) {
      if i == 0 {
        ExampleMonday(teacher, room);
      } else if i == 1 {
        ExampleTuesday(teacher, room);
      } else {
        ExampleNextMonday(teacher, room);
      }
    }
  }

  /**
    The feed 2025-01-13, 2025-01-06, 2025-01-07 gives three days sorted by
    date, Monday, Tuesday, then Monday, each holding its one lecture.
   */
  lemma ExampleFeedDays(teacher: string, room: string)
    ensures DaysSpec(ExampleFeed(teacher, room)) == Ok(ExampleDays(teacher, room))
  {
    ExampleDaysMade(teacher, room);
    ExampleSortedKeys(teacher, room);
    DaysOfKeys(ExampleFeed(teacher, room), ExampleKeys(), ExampleDays(teacher, room));
  }

  /** A feed of one record has one key, whose day, or whose failure, is the whole result. */
  lemma OneRecordFeed(r: RawLesson)
    ensures MapAll(RawToLesson, Group([r], r.dateLesson)) == MapAll(RawToLesson, [r])
    ensures DaysSpec([r]) ==
      match MakeDay([r], r.dateLesson)
      case Err(e) => Err(e)
      case Ok(day) => Ok([day])
  {
    var k := r.dateLesson;
    assert [r][..0] == [];
    assert Group([r], k) == [r];
    assert KeySet([r]) == {k};
    SortedKeysOf([k], {k});
    var f := DayMaker([r]);
    assert [k][..0] == [] && [k][..1] == [k];
    MapAllStep(f, [k], 0, []);
    if f(k).Ok? {
      assert [] + [f(k).value] == [f(k).value];
    }
  }

  /**
    A record whose lesson number is "abc" stops the run with
    `BadLessonNumber`, whatever its date string: the lessons of a day are
    converted before its date is parsed.
   */
  lemma ExampleBadLessonNumber(date: string, teacher: string, room: string)
    ensures DaysSpec([RawLesson(date, "1", "abc", "Lecture", "Algebra", teacher, room, "0")])
      == Err(BadLessonNumber)
  {
    var r := RawLesson(date, "1", "abc", "Lecture", "Algebra", teacher, room, "0");
    assert ToDecimal(0) == "0";
    ParseToDecimal(0, U8Max);
    assert !IsDigit('a');
    assert RawToLesson(r) == Err(BadLessonNumber);
    assert [r][..0] == [];
    MapAllStep(RawToLesson, [r], 0, []);
    OneRecordFeed(r);
  }

  /** The date string "2025-04-31" names no date, so the run stops with `BadDateKey`. */
  lemma ExampleBadDateKey(teacher: string, room: string)
    ensures DaysSpec([ExampleRecord("2025-04-31", teacher, room)]) == Err(BadDateKey)
  {
    var k := "2025-04-31";
    assert k[..4] == "2025" && k[5..7] == "04" && k[8..] == "31";
    assert "2025"[..3] == "202" && "202"[..2] == "20" && "20"[..1] == "2" && "2"[..0] == "";
    assert DigitsValue("2025") == 2025;
    assert "04"[..1] == "0" && "0"[..0] == "";
    assert DigitsValue("04") == 4;
    assert "31"[..1] == "3" && "3"[..0] == "";
    assert DigitsValue("31") == 31;
    assert IsIsoKey(k);
    IsoKeyDate(k, 2025, 4, 31);
    assert MonthLength(2025, 4) == 30;
    ExampleLesson(k, teacher, room);
    OneRecordFeed(ExampleRecord(k, teacher, room));
  }

  /** Without zero padding, text order and calendar order disagree. */
  lemma UnpaddedKeysMisorder()
    ensures Less("2025-1-10", "2025-1-9")
    ensures Before(Ymd(2025, 1, 9), Ymd(2025, 1, 10))
  {
  }
}

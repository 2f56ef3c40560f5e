/** `raw_to_lesson`: one feed record becomes one display lesson. */
module Lessons {
  import opened Wrappers
  import opened Text
  import opened Schedule

  const FirstSubgroup: string := ", 1 п/г"
  const SecondSubgroup: string := ", 2 п/г"

  /** The title suffix for a subgroup number: only 1 and 2 are marked. */
  function SubgroupSuffix(g: U8): (s: string)
    ensures s == FirstSubgroup <==> g == 1
    ensures s == SecondSubgroup <==> g == 2
    ensures s == "" <==> g != 1 && g != 2
  {
    if g == 1 then FirstSubgroup
    else if g == 2 then SecondSubgroup
    else ""
  }

  /**
    Parses the subgroup, then the lesson number, both as `u8`; builds the
    title "{type} {subject}{suffix}" and copies teacher and place.
   */
  function RawToLesson(raw: RawLesson): (r: Result<Lesson>)
    ensures r == Err(BadSubgroup) <==> ParseDecimal(raw.subgroup, U8Max).None?
    ensures r == Err(BadLessonNumber) <==>
      ParseDecimal(raw.subgroup, U8Max).Some? && ParseDecimal(raw.lessonNumber, U8Max).None?
    ensures r.Ok? <==>
      ParseDecimal(raw.subgroup, U8Max).Some? && ParseDecimal(raw.lessonNumber, U8Max).Some?
    ensures r.Ok? ==>
      && AllDigits(raw.subgroup) && AllDigits(raw.lessonNumber)
      && r.value.position == DigitsValue(raw.lessonNumber)
      && r.value.name == raw.kind + " " + raw.subject + SubgroupSuffix(DigitsValue(raw.subgroup))
      && r.value.teacher == raw.teacherName
      && r.value.place == raw.place
  {
    match ParseDecimal(raw.subgroup, U8Max)
    case None => Err(BadSubgroup)
    case Some(g) =>
      match ParseDecimal(raw.lessonNumber, U8Max)
      case None => Err(BadLessonNumber)
      case Some(n) =>
        Ok(Lesson(n, raw.kind + " " + raw.subject + SubgroupSuffix(g), raw.teacherName, raw.place))
  }

  /**
    A record whose numeric fields are the decimal renderings of two `u8`
    values converts to the lesson carrying exactly those values.
   */
  lemma {:induction false} RenderedRecordConverts(raw: RawLesson, n: U8, g: U8)
    requires raw.lessonNumber == ToDecimal(n) && raw.subgroup == ToDecimal(g)
    ensures RawToLesson(raw) ==
      Ok(Lesson(n, raw.kind + " " + raw.subject + SubgroupSuffix(g), raw.teacherName, raw.place))
  {
    ParseToDecimal(n, U8Max);
    ParseToDecimal(g, U8Max);
  }

  /** Numbers past 255 are rejected, not truncated. */
  lemma {:induction false} OutOfRangeRejected(raw: RawLesson, n: nat)
    requires ParseDecimal(raw.subgroup, U8Max).Some?
    requires raw.lessonNumber == ToDecimal(n) && n > U8Max
    ensures RawToLesson(raw) == Err(BadLessonNumber)
  {
    ParseToDecimal(n, U8Max);
  }

  /** Worked cases: a subgroup-1 lecture, subgroup 0, and non-numeric fields. */
  lemma Examples()
    ensures RawToLesson(RawLesson("2025-01-06", "1", "2", "Lecture", "Algebra", "T", "P", "1"))
      == Ok(Lesson(2, "Lecture Algebra, 1 п/г", "T", "P"))
    ensures RawToLesson(RawLesson("2025-01-06", "1", "02", "Lab", "Physics", "T", "P", "0"))
      == Ok(Lesson(2, "Lab Physics", "T", "P"))
    ensures RawToLesson(RawLesson("2025-01-06", "1", "abc", "Lecture", "Algebra", "T", "P", "1"))
      == Err(BadLessonNumber)
    ensures RawToLesson(RawLesson("2025-01-06", "1", "1", "Lecture", "Algebra", "T", "P", ""))
      == Err(BadSubgroup)
  {
    assert ToDecimal(1) == "1" && ToDecimal(2) == "2" && ToDecimal(0) == "0";
    ParseToDecimal(1, U8Max);
    ParseToDecimal(2, U8Max);
    ParseToDecimal(0, U8Max);
    assert "02"[..1] == "0";
    assert DigitsValue("02") == 2;
    assert "Lecture" + " " + "Algebra" + FirstSubgroup == "Lecture Algebra, 1 п/г";
    assert "Lab" + " " + "Physics" + "" == "Lab Physics";
  }
}

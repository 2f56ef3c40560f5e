/**
  The records the timetable pipeline works on, the ways it can fail, and the
  "map or stop at the first failure" combinator that its loops follow.
 */
module Schedule {
  import opened Calendar

  /** An unsigned 8-bit integer. */
  type U8 = x: int | 0 <= x < 256

  const U8Max: nat := 255
  const U32Max: nat := 4294967295
  const I32Max: nat := 2147483647

  /** One entry of the timetable feed; every field arrives as a string. */
  datatype RawLesson = RawLesson(
    dateLesson: string,
    dayNumber: string,
    lessonNumber: string,
    kind: string,
    subject: string,
    teacherName: string,
    place: string,
    subgroup: string)

  /** A lesson ready for display. */
  datatype Lesson = Lesson(position: U8, name: string, teacher: string, place: string)

  /** All lessons of one date, with its weekday (1 = Monday ... 7 = Sunday). */
  datatype Day = Day(date: Date, dayOfWeek: U8, lessons: seq<Lesson>)

  /**
    Every way the pipeline stops. The program panics in each of these
    situations; the model returns the reason instead.
   */
  datatype Failure =
    | BadSubgroup      // `subgroup` is not a `u8`
    | BadLessonNumber  // `lesson_number` is not a `u8`
    | BadDateKey       // the date string does not name a calendar date
    | NoDays           // week partitioning was given no days

  datatype Result<+T> = Ok(value: T) | Err(error: Failure)

  /**
    Applies `f` to every element in order and collects the results; the first
    failure, scanning from the front, stops the whole computation.
   */
  function MapAll<A, B>(f: A -> Result<B>, xs: seq<A>): (r: Result<seq<B>>)
    ensures r.Ok? ==> |r.value| == |xs| && forall i :: 0 <= i < |xs| ==> f(xs[i]) == Ok(r.value[i])
    ensures r.Err? <==> exists i :: 0 <= i < |xs| && f(xs[i]).Err?
    ensures r.Err? ==> exists i :: 0 <= i < |xs| && f(xs[i]) == Err(r.error)
                                 && forall j :: 0 <= j < i ==> f(xs[j]).Ok?
    decreases |xs|
  {
    if |xs| == 0 then Ok([])
    else
      var n := |xs| - 1;
      assert forall i :: 0 <= i < n ==> xs[..n][i] == xs[i];
      match MapAll(f, xs[..n])
      case Err(e) => Err(e)
      case Ok(ys) =>
        match f(xs[n])
        case Err(e) => Err(e)
        case Ok(y) => Ok(ys + [y])
  }

  /** One more element: the prefix's result, extended or replaced by that element's failure. */
  lemma MapAllExtend<A, B>(f: A -> Result<B>, xs: seq<A>, i: nat)
    requires i < |xs|
    ensures MapAll(f, xs[..i + 1]) ==
      match MapAll(f, xs[..i])
      case Err(e) => Err(e)
      case Ok(ys) => (match f(xs[i]) case Err(e) => Err(e) case Ok(y) => Ok(ys + [y]))
  {
    assert xs[..i + 1][..i] == xs[..i];
  }

  /** The loop step: the next element extends the results so far, or its failure is the whole result. */
  lemma MapAllStep<A, B>(f: A -> Result<B>, xs: seq<A>, i: nat, ys: seq<B>)
    requires i < |xs| && MapAll(f, xs[..i]) == Ok(ys)
    ensures f(xs[i]).Err? ==> MapAll(f, xs) == Err(f(xs[i]).error)
    ensures f(xs[i]).Ok? ==> MapAll(f, xs[..i + 1]) == Ok(ys + [f(xs[i]).value])
  {
    MapAllExtend(f, xs, i);
    if f(xs[i]).Err? {
      MapAllStops(f, xs, i + 1);
    }
  }

  /** A failure in a prefix is the failure of the whole sequence. */
  lemma {:induction false} MapAllStops<A, B>(f: A -> Result<B>, xs: seq<A>, i: nat)
    requires i <= |xs| && MapAll(f, xs[..i]).Err?
    ensures MapAll(f, xs) == MapAll(f, xs[..i])
    decreases |xs| - i
  {
    if i < |xs| {
      MapAllExtend(f, xs, i);
      MapAllStops(f, xs, i + 1);
    } else {
      assert xs[..i] == xs;
    }
  }
}

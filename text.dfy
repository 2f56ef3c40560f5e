/** The optional value used wherever a parse can fail. */
module Wrappers {
  datatype Option<+T> = None | Some(value: T)
}

/**
  Character-level helpers the timetable code relies on through the Rust
  standard library: decimal parsing with a range check (`str::parse`),
  splitting on a separator (`str::split`), and the ordering `String`s are
  sorted by. Rust orders strings byte-wise over their UTF-8 encoding; UTF-8
  preserves code point order, so comparing `char` by `char` is the same order.
 */
module Text {
  import opened Wrappers

  predicate IsDigit(c: char) { '0' <= c <= '9' }

  predicate AllDigits(s: string) {
    forall i :: 0 <= i < |s| ==> IsDigit(s[i])
  }

  function DigitValue(c: char): (v: nat)
    requires IsDigit(c)
    ensures v <= 9
  {
    (c as int) - ('0' as int)
  }

  function DigitChar(v: nat): (c: char)
    requires v <= 9
    ensures IsDigit(c) && DigitValue(c) == v
  {
    (('0' as int) + v) as char
  }

  /** The number a digit string denotes, most significant digit first. */
  function DigitsValue(s: string): nat
    requires AllDigits(s)
  {
    if |s| == 0 then 0 else DigitsValue(s[..|s| - 1]) * 10 + DigitValue(s[|s| - 1])
  }

  /**
    One step of the library's parse loop: `acc` is the value of the digits
    read so far; every step multiplies by ten, adds the next digit and fails
    as soon as the value leaves the target type's range.
   */
  function ParseFrom(s: string, acc: nat, max: nat): Option<nat>
    decreases |s|
  {
    if |s| == 0 then Some(acc)
    else if !IsDigit(s[0]) then None
    else
      var next := acc * 10 + DigitValue(s[0]);
      if next > max then None else ParseFrom(s[1..], next, max)
  }

  /**
    Parses an unsigned decimal into the range 0..max (255 for `u8`,
    4294967295 for `u32`, 2147483647 for a non-negative `i32`): the string
    must be non-empty and digits only, and the value must fit.
   */
  function ParseDecimal(s: string, max: nat): (r: Option<nat>)
    ensures r.Some? <==> |s| > 0 && AllDigits(s) && DigitsValue(s) <= max
    ensures r.Some? ==> r.value == DigitsValue(s)
  {
    if |s| == 0 then None
    else
      ParseFromCorrect([], s, max);
      assert [] + s == s;
      ParseFrom(s, 0, max)
  }

  lemma {:induction false} DigitsValueAppend(p: string, c: char)
    requires AllDigits(p) && IsDigit(c)
    ensures AllDigits(p + [c])
    ensures DigitsValue(p + [c]) == DigitsValue(p) * 10 + DigitValue(c)
  {
    assert (p + [c])[..|p|] == p;
  }

  /** Appending digits never makes the value smaller. */
  lemma {:induction false} DigitsValueGrows(p: string, t: string)
    requires AllDigits(p) && AllDigits(t)
    ensures AllDigits(p + t) && DigitsValue(p + t) >= DigitsValue(p)
    decreases |t|
  {
    if |t| == 0 {
      assert p + t == p;
    } else {
      var t' := t[..|t| - 1];
      DigitsValueGrows(p, t');
      assert p + t == (p + t') + [t[|t| - 1]];
      DigitsValueAppend(p + t', t[|t| - 1]);
    }
  }

  lemma {:induction false} ParseFromCorrect(p: string, s: string, max: nat)
    requires AllDigits(p) && DigitsValue(p) <= max
    ensures ParseFrom(s, DigitsValue(p), max) ==
      if AllDigits(p + s) && DigitsValue(p + s) <= max then Some(DigitsValue(p + s)) else None
    decreases |s|
  {
    if |s| == 0 {
      assert p + s == p;
    } else if !IsDigit(s[0]) {
      assert (p + s)[|p|] == s[0];
    } else {
      var p' := p + [s[0]];
      DigitsValueAppend(p, s[0]);
      assert p' + s[1..] == p + s;
      if DigitsValue(p') > max {
        if AllDigits(p + s) {
          assert AllDigits(s[1..]) by {
            forall i | 0 <= i < |s[1..]| ensures IsDigit(s[1..][i]) {
              assert s[1..][i] == (p + s)[|p| + 1 + i];
            }
          }
          DigitsValueGrows(p', s[1..]);
        }
      } else {
        ParseFromCorrect(p', s[1..], max);
      }
    }
  }

  /** The canonical decimal rendering of a number, without leading zeros. */
  function ToDecimal(n: nat): (s: string)
    ensures |s| > 0 && AllDigits(s) && DigitsValue(s) == n
  {
    if n < 10 then [DigitChar(n)]
    else
      var hi := ToDecimal(n / 10);
      DigitsValueAppend(hi, DigitChar(n % 10));
      hi + [DigitChar(n % 10)]
  }

  /** Rendering then parsing gives the number back exactly when it is in range. */
  lemma ParseToDecimal(n: nat, max: nat)
    ensures ParseDecimal(ToDecimal(n), max) == if n <= max then Some(n) else None
  {
  }

  /**
    `s.split(sep)`: the pieces between separators, empty pieces included;
    there is always at least one piece.
   */
  function Split(s: string, sep: char): (parts: seq<string>)
    ensures |parts| >= 1
    ensures forall i :: 0 <= i < |parts| ==> sep !in parts[i]
    decreases |s|
  {
    if |s| == 0 then [""]
    else
      var rest := Split(s[1..], sep);
      if s[0] == sep then [""] + rest else [[s[0]] + rest[0]] + rest[1..]
  }

  /** Puts the pieces back together with the separator between them. */
  function Join(parts: seq<string>, sep: char): string
    requires |parts| >= 1
  {
    if |parts| == 1 then parts[0] else parts[0] + [sep] + Join(parts[1..], sep)
  }

  /** Joining the pieces of a split restores the string. */
  lemma {:induction false} JoinSplit(s: string, sep: char)
    ensures Join(Split(s, sep), sep) == s
    decreases |s|
  {
    if |s| > 0 {
      JoinSplit(s[1..], sep);
      var rest := Split(s[1..], sep);
      if s[0] != sep {
        var parts := [[s[0]] + rest[0]] + rest[1..];
        assert parts[1..] == rest[1..];
        if |rest| > 1 {
          assert Join(rest, sep) == rest[0] + [sep] + Join(rest[1..], sep);
        }
      } else {
        assert ([""] + rest)[1..] == rest;
      }
    }
  }

  /** Splitting a join of separator-free pieces gives the pieces back. */
  lemma {:induction false} SplitJoin(parts: seq<string>, sep: char)
    requires |parts| >= 1
    requires forall i :: 0 <= i < |parts| ==> sep !in parts[i]
    ensures Split(Join(parts, sep), sep) == parts
    decreases |parts|
  {
    if |parts| == 1 {
      SplitPlain(parts[0], [], sep);
      assert parts[0] + [] == parts[0];
      assert Split([], sep) == [""];
      assert parts[0] + "" == parts[0];
      assert parts == [parts[0]];
    } else {
      SplitJoin(parts[1..], sep);
      var tail := Join(parts[1..], sep);
      SplitPlain(parts[0], [sep] + tail, sep);
      assert parts[0] + [sep] + tail == parts[0] + ([sep] + tail);
      assert ([sep] + tail)[1..] == tail;
      assert ([sep] + tail)[0] == sep;
      assert Split([sep] + tail, sep) == [""] + parts[1..];
      assert parts[0] + "" == parts[0];
      assert parts == [parts[0]] + parts[1..];
    }
  }

  /** A separator-free prefix ends up at the front of the first piece. */
  lemma {:induction false} SplitPlain(a: string, rest: string, sep: char)
    requires sep !in a
    ensures Split(a + rest, sep) ==
      [a + Split(rest, sep)[0]] + Split(rest, sep)[1..]
    decreases |a|
  {
    if |a| > 0 {
      assert (a + rest)[1..] == a[1..] + rest;
      assert (a + rest)[0] == a[0];
      SplitPlain(a[1..], rest, sep);
      assert [a[0]] + (a[1..] + Split(rest, sep)[0]) == a + Split(rest, sep)[0];
    } else {
      var parts := Split(rest, sep);
      assert a + rest == rest;
      assert a + parts[0] == parts[0];
      assert parts == [parts[0]] + parts[1..];
    }
  }

  /**
    The textbook definition of lexicographic order: `a` is a proper prefix
    of `b`, or at the first position where they differ `a` has the smaller
    character.
   */
  predicate LexBefore(a: string, b: string) {
    || (|a| < |b| && a == b[..|a|])
    || exists i :: 0 <= i < |a| && i < |b| && a[..i] == b[..i] && a[i] < b[i]
  }

  /** The first characters decide, or, when they are equal, the rests do. */
  lemma LexBeforeCases(a: string, b: string)
    ensures LexBefore(a, b) ==
      if |a| == 0 then |b| > 0
      else if |b| == 0 then false
      else if a[0] == b[0] then LexBefore(a[1..], b[1..])
      else a[0] < b[0]
  {
    if |a| > 0 && |b| > 0 {
      if a[0] == b[0] {
        if |a| < |b| && a == b[..|a|] {
          assert a[1..] == b[1..][..|a[1..]|];
        }
        if |a[1..]| < |b[1..]| && a[1..] == b[1..][..|a[1..]|] {
          assert a == [a[0]] + a[1..] && b[..|a|] == [b[0]] + b[1..][..|a[1..]|];
        }
        if exists i :: 0 <= i < |a| && i < |b| && a[..i] == b[..i] && a[i] < b[i] {
          var i :| 0 <= i < |a| && i < |b| && a[..i] == b[..i] && a[i] < b[i];
          assert i > 0;
          assert a[1..][..i - 1] == a[..i][1..] && b[1..][..i - 1] == b[..i][1..];
          assert a[1..][i - 1] < b[1..][i - 1];
        }
        if exists i :: 0 <= i < |a[1..]| && i < |b[1..]| && a[1..][..i] == b[1..][..i] && a[1..][i] < b[1..][i] {
          var i :| 0 <= i < |a[1..]| && i < |b[1..]| && a[1..][..i] == b[1..][..i] && a[1..][i] < b[1..][i];
          assert a[..i + 1] == [a[0]] + a[1..][..i] && b[..i + 1] == [b[0]] + b[1..][..i];
          assert a[i + 1] < b[i + 1];
        }
      } else {
        assert a[..0] == b[..0];
        if |a| < |b| {
          assert b[..|a|][0] == b[0];
        }
        forall i | 0 < i < |a| && i < |b| ensures a[..i] != b[..i] {
          assert a[..i][0] == a[0] && b[..i][0] == b[0];
        }
      }
    }
  }

  /**
    The order `String`s are sorted by, computed one character at a time; it
    is the lexicographic order of `LexBefore`.
   */
  predicate Less(a: string, b: string)
    ensures Less(a, b) <==> LexBefore(a, b)
    decreases |a|
  {
    LexBeforeCases(a, b);
    if |a| == 0 then |b| > 0
    else if |b| == 0 then false
    else if a[0] == b[0] then Less(a[1..], b[1..])
    else a[0] < b[0]
  }

  lemma {:induction false} LessIrreflexive(a: string)
    ensures !Less(a, a)
    decreases |a|
  {
    if |a| > 0 { LessIrreflexive(a[1..]); }
  }

  lemma {:induction false} LessAsymmetric(a: string, b: string)
    ensures !(Less(a, b) && Less(b, a))
    decreases |a|
  {
    if |a| > 0 && |b| > 0 && a[0] == b[0] { LessAsymmetric(a[1..], b[1..]); }
  }

  lemma {:induction false} LessTransitive(a: string, b: string, c: string)
    requires Less(a, b) && Less(b, c)
    ensures Less(a, c)
    decreases |a|
  {
    if |a| > 0 && a[0] == b[0] && b[0] == c[0] {
      LessTransitive(a[1..], b[1..], c[1..]);
    }
  }

  /** Any two different strings are ordered one way or the other. */
  lemma {:induction false} LessTotal(a: string, b: string)
    requires a != b
    ensures Less(a, b) || Less(b, a)
    decreases |a|
  {
    if |a| > 0 && |b| > 0 && a[0] == b[0] {
      assert a == [a[0]] + a[1..] && b == [b[0]] + b[1..];
      LessTotal(a[1..], b[1..]);
    }
  }

  /** With prefixes of equal length, the prefixes decide unless they are equal. */
  lemma {:induction false} LessConcat(a1: string, a2: string, b1: string, b2: string)
    requires |a1| == |b1|
    ensures Less(a1 + a2, b1 + b2) <==> Less(a1, b1) || (a1 == b1 && Less(a2, b2))
    decreases |a1|
  {
    if |a1| == 0 {
      assert a1 + a2 == a2 && b1 + b2 == b2;
    } else {
      assert (a1 + a2)[0] == a1[0] && (b1 + b2)[0] == b1[0];
      assert (a1 + a2)[1..] == a1[1..] + a2 && (b1 + b2)[1..] == b1[1..] + b2;
      LessConcat(a1[1..], a2, b1[1..], b2);
      if a1[0] == b1[0] {
        assert a1 == b1 <==> a1[1..] == b1[1..] by {
          assert a1 == [a1[0]] + a1[1..] && b1 == [b1[0]] + b1[1..];
        }
      }
    }
  }

  /**
    For digit strings of the same width, string order is numeric order; this
    is why zero-padded numbers sort correctly as text.
   */
  lemma {:induction false} DigitsLess(a: string, b: string)
    requires |a| == |b| && AllDigits(a) && AllDigits(b)
    ensures Less(a, b) <==> DigitsValue(a) < DigitsValue(b)
    ensures a == b <==> DigitsValue(a) == DigitsValue(b)
    decreases |a|
  {
    if |a| == 0 {
    } else {
      var n := |a| - 1;
      var a', b' := a[..n], b[..n];
      DigitsLess(a', b');
      DigitsLess(b', a');
      if a' != b' { LessTotal(a', b'); }
      if Less(b', a') { LessAsymmetric(a', b'); }
      assert a == a' + [a[n]] && b == b' + [b[n]];
      LessConcat(a', [a[n]], b', [b[n]]);
      assert Less([a[n]], [b[n]]) <==> a[n] < b[n] by {
        assert [a[n]][1..] == [] && [b[n]][1..] == [];
      }
      assert a == b <==> a' == b' && a[n] == b[n];
    }
  }

  /** Strictly ascending in string order, hence free of duplicates. */
  predicate StrictlySorted(s: seq<string>) {
    forall i, j :: 0 <= i < j < |s| ==> Less(s[i], s[j])
  }

  /**
    The first element of a non-empty sequence is one of its members; as a
    lemma, it keeps the index `b[0]` out of the impossible branch below.
   */
  lemma MemberOfNonEmpty(b: seq<string>)
    ensures |b| > 0 ==> b[0] in b
  {
  }

  /** A strictly sorted sequence is determined by the set of its elements. */
  lemma {:induction false} SortedUnique(a: seq<string>, b: seq<string>)
    requires StrictlySorted(a) && StrictlySorted(b)
    requires forall x :: x in a <==> x in b
    ensures a == b
    decreases |a|
  {
    if |a| == 0 {
      MemberOfNonEmpty(b);
    } else {
      assert a[0] in b;
      assert |b| > 0;
      if a[0] != b[0] {
        assert b[0] in a;
        var i :| 0 <= i < |a| && a[i] == b[0];
        var j :| 0 <= j < |b| && b[j] == a[0];
        assert Less(a[0], b[0]) && Less(b[0], a[0]);
        LessAsymmetric(a[0], b[0]);
      }
      forall x ensures x in a[1..] <==> x in b[1..] {
        if x in a[1..] {
          var i :| 1 <= i < |a| && a[i] == x;
          assert x in b;
        }
        if x in b[1..] {
          var j :| 1 <= j < |b| && b[j] == x;
          assert x in a;
        }
      }
      SortedUnique(a[1..], b[1..]);
      assert a == [a[0]] + a[1..] && b == [b[0]] + b[1..];
    }
  }
}

/** The string operations the wire format is made of: stripping, splitting, joining and decimal integers. */
module Text {
  import opened Common

  // ---------------------------------------------------------------- strip

  /** The ASCII characters `str.strip` removes. */
  predicate IsSpace(c: char) {
    ('\t' <= c <= '\r') || ('\U{1c}' <= c <= ' ')
  }

  predicate IsNul(c: char) {
    c == '\0'
  }

  function DropFront(s: string, drop: char -> bool): string {
    if |s| > 0 && drop(s[0]) then DropFront(s[1..], drop) else s
  }

  function DropBack(s: string, drop: char -> bool): string {
    if |s| > 0 && drop(s[|s| - 1]) then DropBack(s[..|s| - 1], drop) else s
  }

  function StripBy(s: string, drop: char -> bool): string {
    DropBack(DropFront(s, drop), drop)
  }

  function Strip(s: string): string {
    StripBy(s, IsSpace)
  }

  ghost predicate TrimmedBy(s: string, drop: char -> bool) {
    |s| > 0 ==> !drop(s[0]) && !drop(s[|s| - 1])
  }

  ghost predicate Trimmed(s: string) {
    TrimmedBy(s, IsSpace)
  }

  lemma {:induction false} TrimmedStays(s: string, drop: char -> bool)
    requires TrimmedBy(s, drop)
    ensures StripBy(s, drop) == s
  {
  }

  lemma {:induction false} DropFrontTrims(s: string, drop: char -> bool)
    ensures var r := DropFront(s, drop); |r| > 0 ==> !drop(r[0])
  {
    if |s| > 0 && drop(s[0]) {
      DropFrontTrims(s[1..], drop);
    }
  }

  lemma {:induction false} DropBackTrims(s: string, drop: char -> bool)
    ensures var r := DropBack(s, drop);
            && (|r| > 0 ==> !drop(r[|r| - 1])) && |r| <= |s| && (|r| > 0 ==> r[0] == s[0])
  {
    if |s| > 0 && drop(s[|s| - 1]) {
      DropBackTrims(s[..|s| - 1], drop);
    }
  }

  lemma {:induction false} StripTrims(s: string)
    ensures Trimmed(Strip(s))
  {
    DropFrontTrims(s, IsSpace);
    DropBackTrims(DropFront(s, IsSpace), IsSpace);
  }

  ghost predicate AllDropped(s: string, drop: char -> bool) {
    forall k :: 0 <= k < |s| ==> drop(s[k])
  }

  lemma {:induction false} DropFrontLeaves(s: string, drop: char -> bool) returns (front: string)
    ensures s == front + DropFront(s, drop) && AllDropped(front, drop)
  {
    if |s| > 0 && drop(s[0]) {
      var rest := DropFrontLeaves(s[1..], drop);
      front := [s[0]] + rest;
    } else {
      front := "";
    }
  }

  lemma {:induction false} DropBackLeaves(s: string, drop: char -> bool) returns (back: string)
    ensures s == DropBack(s, drop) + back && AllDropped(back, drop)
  {
    if |s| > 0 && drop(s[|s| - 1]) {
      var rest := DropBackLeaves(s[..|s| - 1], drop);
      back := rest + [s[|s| - 1]];
      assert s == s[..|s| - 1] + [s[|s| - 1]];
    } else {
      back := "";
    }
  }

  /** Stripping takes nothing but dropped characters off the two ends, and all of them. */
  lemma {:induction false} StripTakesTheEnds(s: string, drop: char -> bool) returns (front: string, back: string)
    ensures s == front + StripBy(s, drop) + back && AllDropped(front, drop) && AllDropped(back, drop)
    ensures TrimmedBy(StripBy(s, drop), drop)
  {
    front := DropFrontLeaves(s, drop);
    back := DropBackLeaves(DropFront(s, drop), drop);
    assert front + (StripBy(s, drop) + back) == front + StripBy(s, drop) + back;
    DropFrontTrims(s, drop);
    DropBackTrims(DropFront(s, drop), drop);
  }

  lemma {:induction false} StripTwice(s: string)
    ensures Strip(Strip(s)) == Strip(s)
  {
    StripTrims(s);
    TrimmedStays(Strip(s), IsSpace);
  }

  // ---------------------------------------------------------------- split and join

  /** `s.split(sep)`: always at least one part. */
  function Split(s: string, sep: char): (parts: seq<string>)
    ensures |parts| >= 1
  {
    if |s| == 0 then [""]
    else
      var parts := Split(s[..|s| - 1], sep);
      var last := |parts| - 1;
      if s[|s| - 1] == sep then parts + [""] else parts[..last] + [parts[last] + [s[|s| - 1]]]
  }

  /** `sep.join(parts)`. */
  function Join(parts: seq<string>, sep: char): string
    requires |parts| >= 1
  {
    if |parts| == 1 then parts[0] else Join(parts[..|parts| - 1], sep) + [sep] + parts[|parts| - 1]
  }

  ghost predicate Free(s: string, sep: char) {
    forall k :: 0 <= k < |s| ==> s[k] != sep
  }

  lemma {:induction false} SplitFree(s: string, sep: char)
    requires Free(s, sep)
    ensures Split(s, sep) == [s]
  {
    if |s| == 0 {
    } else {
      SplitFree(s[..|s| - 1], sep);
      assert s == s[..|s| - 1] + [s[|s| - 1]];
    }
  }

  lemma {:induction false} SplitOn(s: string, c: char, sep: char)
    ensures var parts := Split(s, sep);
            var last := |parts| - 1;
            Split(s + [c], sep) == if c == sep then parts + [""] else parts[..last] + [parts[last] + [c]]
  {
    assert (s + [c])[..|s|] == s;
  }

  lemma {:induction false} LastLetter(front: string, part: string)
    requires |part| > 0
    ensures front + part == (front + part[..|part| - 1]) + [part[|part| - 1]]
  {
  }

  lemma {:induction false} LongerPart(parts: seq<string>, part: string, c: char)
    ensures var all := parts + [part]; all[..|all| - 1] + [all[|all| - 1] + [c]] == parts + [part + [c]]
  {
  }

  lemma {:induction false} SplitLast(front: string, part: string, sep: char)
    requires Free(part, sep)
    ensures Split(front + [sep] + part, sep) == Split(front, sep) + [part]
    decreases |part|
  {
    if |part| == 0 {
      SplitOn(front, sep, sep);
      assert front + [sep] + part == front + [sep];
    } else {
      var shorter, c := part[..|part| - 1], part[|part| - 1];
      SplitLast(front, shorter, sep);
      SplitOn(front + [sep] + shorter, c, sep);
      LastLetter(front + [sep], part);
      LongerPart(Split(front, sep), shorter, c);
      assert shorter + [c] == part;
    }
  }

  ghost predicate AllFree(parts: seq<string>, sep: char) {
    forall k :: 0 <= k < |parts| ==> Free(parts[k], sep)
  }

  /** Splitting undoes joining when no part holds the separator. */
  lemma {:induction false} SplitUndoesJoin(parts: seq<string>, sep: char)
    requires |parts| >= 1 && AllFree(parts, sep)
    ensures Split(Join(parts, sep), sep) == parts
  {
    var front, last := parts[..|parts| - 1], parts[|parts| - 1];
    if |parts| == 1 {
      SplitFree(last, sep);
      assert parts == [last];
    } else {
      SplitUndoesJoin(front, sep);
      SplitLast(Join(front, sep), last, sep);
      assert parts == front + [last];
    }
  }

  function Occurrences(s: string, c: char): nat {
    if |s| == 0 then 0 else Occurrences(s[..|s| - 1], c) + (if s[|s| - 1] == c then 1 else 0)
  }

  /** There is one part more than there are separators. */
  lemma {:induction false} SplitCounts(s: string, sep: char)
    ensures |Split(s, sep)| == Occurrences(s, sep) + 1
  {
    if |s| == 0 {
    } else {
      SplitCounts(s[..|s| - 1], sep);
    }
  }

  // ---------------------------------------------------------------- integers

  predicate IsDigit(c: char) {
    '0' <= c <= '9'
  }

  /** Digits, with single underscores between them. */
  predicate IsDigits(s: string) {
    && |s| > 0 && IsDigit(s[|s| - 1])
    && (|s| == 1 || IsDigits(s[..|s| - 1]) || (s[|s| - 2] == '_' && |s| > 2 && IsDigits(s[..|s| - 2])))
  }

  function DigitsValue(s: string): nat
    requires IsDigits(s)
  {
    var d := (s[|s| - 1] - '0') as nat;
    if |s| == 1 then d
    else if IsDigits(s[..|s| - 1]) then 10 * DigitsValue(s[..|s| - 1]) + d
    else 10 * DigitsValue(s[..|s| - 2]) + d
  }

  /** `int(s)` for text that is already stripped. */
  function IntOf(s: string): Option<int> {
    if |s| > 0 && (s[0] == '-' || s[0] == '+') then
      if IsDigits(s[1..]) then
        var value: int := DigitsValue(s[1..]);
        Some(if s[0] == '-' then -value else value)
      else None
    else if IsDigits(s) then Some(DigitsValue(s))
    else None
  }

  /** A digit, or an underscore between two digits. */
  ghost predicate InNumeral(s: string, k: nat)
    requires k < |s|
  {
    IsDigit(s[k]) || (s[k] == '_' && 0 < k < |s| - 1 && IsDigit(s[k - 1]) && IsDigit(s[k + 1]))
  }

  /** Digits, with underscores only between two of them. */
  ghost predicate Numeral(s: string) {
    |s| > 0 && forall k :: 0 <= k < |s| ==> InNumeral(s, k)
  }

  lemma {:induction false} NumeralOn(s: string)
    requires |s| > 1 && IsDigit(s[|s| - 1]) && IsDigit(s[|s| - 2])
    ensures Numeral(s) <==> Numeral(s[..|s| - 1])
  {
    var front := s[..|s| - 1];
    if Numeral(s) {
      forall k | 0 <= k < |front| ensures InNumeral(front, k) {
        assert InNumeral(s, k);
      }
    }
    if Numeral(front) {
      forall k | 0 <= k < |s| ensures InNumeral(s, k) {
        assert k < |front| ==> InNumeral(front, k);
      }
    }
  }

  lemma {:induction false} NumeralOverUnderscore(s: string)
    requires |s| > 2 && IsDigit(s[|s| - 1]) && s[|s| - 2] == '_'
    ensures Numeral(s) <==> Numeral(s[..|s| - 2])
  {
    var front := s[..|s| - 2];
    if Numeral(s) {
      assert InNumeral(s, |s| - 2);
      forall k | 0 <= k < |front| ensures InNumeral(front, k) {
        assert InNumeral(s, k);
      }
    }
    if Numeral(front) {
      assert InNumeral(front, |front| - 1);
      forall k | 0 <= k < |s| ensures InNumeral(s, k) {
        assert k < |front| ==> InNumeral(front, k);
      }
    }
  }

  /** What is read as digits is exactly a numeral. */
  lemma {:induction false} DigitsAreANumeral(s: string)
    ensures IsDigits(s) <==> Numeral(s)
  {
    if |s| == 0 || !IsDigit(s[|s| - 1]) {
      assert Numeral(s) ==> InNumeral(s, |s| - 1);
    } else if |s| == 1 {
    } else if IsDigit(s[|s| - 2]) {
      NumeralOn(s);
      DigitsAreANumeral(s[..|s| - 1]);
    } else if s[|s| - 2] == '_' && |s| > 2 {
      NumeralOverUnderscore(s);
      DigitsAreANumeral(s[..|s| - 2]);
    } else {
      assert Numeral(s) ==> InNumeral(s, |s| - 2);
    }
  }

  /** The value read from the left: ten times what went before, and the next digit. */
  function ValueFrom(s: string, before: nat): nat {
    if |s| == 0 then before
    else ValueFrom(s[1..], if IsDigit(s[0]) then 10 * before + (s[0] - '0') as nat else before)
  }

  lemma {:induction false} ValueOn(s: string, c: char, before: nat)
    ensures ValueFrom(s + [c], before)
         == if IsDigit(c) then 10 * ValueFrom(s, before) + (c - '0') as nat else ValueFrom(s, before)
  {
    if |s| == 0 {
      assert (s + [c])[1..] == "";
    } else {
      assert (s + [c])[1..] == s[1..] + [c];
      ValueOn(s[1..], c, if IsDigit(s[0]) then 10 * before + (s[0] - '0') as nat else before);
    }
  }

  lemma {:induction false} DigitsValueFromTheLeft(s: string)
    requires IsDigits(s)
    ensures DigitsValue(s) == ValueFrom(s, 0)
  {
    var last := |s| - 1;
    assert s == s[..last] + [s[last]];
    ValueOn(s[..last], s[last], 0);
    if |s| == 1 {
    } else if IsDigits(s[..last]) {
      DigitsValueFromTheLeft(s[..last]);
    } else {
      DigitsValueFromTheLeft(s[..last - 1]);
      assert s[..last] == s[..last - 1] + [s[last - 1]];
      ValueOn(s[..last - 1], s[last - 1], 0);
    }
  }

  /** What `int` reads: a numeral with at most one sign before it, at its value. */
  lemma {:induction false} IntMeaning(s: string)
    ensures var signed := |s| > 0 && (s[0] == '-' || s[0] == '+');
            var digits := if signed then s[1..] else s;
            && (IntOf(s).Some? <==> Numeral(digits))
            && (IntOf(s).Some? ==> IntOf(s).value == (if signed && s[0] == '-' then -1 else 1) * ValueFrom(digits, 0))
  {
    var digits := if |s| > 0 && (s[0] == '-' || s[0] == '+') then s[1..] else s;
    DigitsAreANumeral(digits);
    if IsDigits(digits) {
      DigitsValueFromTheLeft(digits);
    }
  }

  function Decimal(n: nat): (s: string)
    ensures IsDigits(s) && forall k :: 0 <= k < |s| ==> IsDigit(s[k])
    ensures DigitsValue(s) == n
  {
    var d := '0' + (n % 10) as char;
    if n < 10 then [d]
    else
      var front := Decimal(n / 10);
      var s := front + [d];
      assert s[..|s| - 1] == front;
      s
  }

  function IntText(n: int): string {
    if n < 0 then ['-'] + Decimal(-n) else Decimal(n)
  }

  lemma {:induction false} IntRoundTrip(n: int)
    ensures IntOf(IntText(n)) == Some(n)
    ensures |IntText(n)| > 0 && forall k :: 0 <= k < |IntText(n)| ==> IsDigit(IntText(n)[k]) || IntText(n)[k] == '-'
  {
    if n < 0 {
      assert IntText(n)[1..] == Decimal(-n);
    }
  }
}

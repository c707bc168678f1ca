// String helpers shared by the key builders and the size checks.
module Text {

  /** Number of bytes one Unicode scalar value takes in UTF-8 (what String.getBytes() produces). */
  function Utf8Width(c: char): (n: nat)
    ensures 1 <= n <= 4
    ensures n == 1 <==> c as int < 0x80
  {
    if c as int < 0x80 then 1
    else if c as int < 0x800 then 2
    else if c as int < 0x10000 then 3
    else 4
  }

  /** Length in bytes of the UTF-8 encoding of s. */
  function Utf8Length(s: string): (n: nat)
    ensures |s| <= n <= 4 * |s|
  {
    if s == [] then 0 else Utf8Width(s[0]) + Utf8Length(s[1..])
  }

  predicate IsAscii(s: string)
  {
    forall i :: 0 <= i < |s| ==> s[i] as int < 0x80
  }

  lemma {:induction false} Utf8LengthAppend(a: string, b: string)
    ensures Utf8Length(a + b) == Utf8Length(a) + Utf8Length(b)
  {
    if a == [] {
      assert a + b == b;
    } else {
      assert (a + b)[0] == a[0];
      assert (a + b)[1..] == a[1..] + b;
      Utf8LengthAppend(a[1..], b);
    }
  }

  /** An ASCII string has exactly one byte per character, and only an ASCII string does. */
  lemma {:induction false} Utf8LengthAscii(s: string)
    ensures Utf8Length(s) == |s| <==> IsAscii(s)
  {
    if s != [] {
      Utf8LengthAscii(s[1..]);
      assert IsAscii(s) <==> s[0] as int < 0x80 && IsAscii(s[1..]);
    }
  }

  /** The composite key "a:b" used by the buffer, metric and rate-limit maps. */
  function Join(a: string, b: string): string
  {
    a + ":" + b
  }

  /** Position of the first occurrence of c in s, or |s| when there is none. */
  function FirstIndexOf(s: string, c: char): (i: nat)
    ensures i <= |s|
    ensures i < |s| ==> s[i] == c
    ensures forall k :: 0 <= k < i ==> s[k] != c
  {
    if s == [] then 0 else if s[0] == c then 0 else 1 + FirstIndexOf(s[1..], c)
  }

  /** The first c in "a" + [c] + "b" is the separator when a holds no c. */
  lemma FirstIndexOfSeparator(a: string, c: char, b: string)
    requires c !in a
    ensures FirstIndexOf(a + [c] + b, c) == |a|
  {
    var s := a + [c] + b;
    var i := FirstIndexOf(s, c);
    assert s[|a|] == c;
  }

  /** When the left parts hold no colon, "a:b" determines both parts. */
  lemma JoinInjective(a1: string, b1: string, a2: string, b2: string)
    requires ':' !in a1 && ':' !in a2
    requires Join(a1, b1) == Join(a2, b2)
    ensures a1 == a2 && b1 == b2
  {
    var k := Join(a1, b1);
    FirstIndexOfSeparator(a1, ':', b1);
    FirstIndexOfSeparator(a2, ':', b2);
    assert a1 == k[..|a1|] == a2;
    assert b1 == k[|a1| + 1..] == b2;
  }

  /** The pieces of s between occurrences of sep (String.split without dropping empty pieces). */
  function Split(s: string, sep: char): (parts: seq<string>)
    ensures |parts| >= 1
    ensures forall i :: 0 <= i < |parts| ==> sep !in parts[i]
    decreases |s|
  {
    var i := FirstIndexOf(s, sep);
    if i == |s| then [s] else [s[..i]] + Split(s[i + 1..], sep)
  }

  /** A string without the separator is one piece. */
  lemma SplitNone(s: string, sep: char)
    requires sep !in s
    ensures Split(s, sep) == [s]
  {
    assert FirstIndexOf(s, sep) == |s|;
  }

  /** Splitting "a" + [sep] + rest, with no sep in a, yields a and then the pieces of rest. */
  lemma SplitCons(a: string, sep: char, rest: string)
    requires sep !in a
    ensures Split(a + [sep] + rest, sep) == [a] + Split(rest, sep)
  {
    var s := a + [sep] + rest;
    FirstIndexOfSeparator(a, sep, rest);
    assert s[..|a|] == a;
    assert s[|a| + 1..] == rest;
  }

  /** Without the colon restriction two different (app, endpoint) pairs can share one key. */
  lemma JoinCollides()
    ensures Join("a:b", "c") == Join("a", "b:c")
  {
  }

  predicate IsAsciiLetter(c: char)
  {
    'a' <= c <= 'z' || 'A' <= c <= 'Z'
  }

  predicate IsAsciiDigit(c: char)
  {
    '0' <= c <= '9'
  }

  /** The character class [a-zA-Z0-9_-] used by the id and key patterns. */
  predicate IsWordOrDash(c: char)
  {
    IsAsciiLetter(c) || IsAsciiDigit(c) || c == '_' || c == '-'
  }

  /**
   * Whole-input match of the regular expression `[cls]{lo,hi}`, one character at a time:
   * each character must be in the class, and the count must land in [lo, hi].
   */
  function MatchRepeat(s: string, cls: char -> bool, lo: nat, hi: nat): bool
  {
    if s == [] then lo == 0
    else hi > 0 && cls(s[0]) && MatchRepeat(s[1..], cls, if lo > 0 then lo - 1 else 0, hi - 1)
  }

  /** `[cls]{lo,hi}` matches exactly the strings of lo to hi characters, all in the class. */
  lemma {:induction false} MatchRepeatMeaning(s: string, cls: char -> bool, lo: nat, hi: nat)
    ensures MatchRepeat(s, cls, lo, hi) <==> lo <= |s| <= hi && forall i :: 0 <= i < |s| ==> cls(s[i])
  {
    if s != [] && hi > 0 {
      MatchRepeatMeaning(s[1..], cls, if lo > 0 then lo - 1 else 0, hi - 1);
      assert (forall i :: 0 <= i < |s| ==> cls(s[i]))
         <==> cls(s[0]) && forall i :: 0 <= i < |s[1..]| ==> cls(s[1..][i]);
    }
  }

  predicate AllDigits(s: string)
  {
    forall i :: 0 <= i < |s| ==> IsAsciiDigit(s[i])
  }

  function DigitValue(c: char): nat
    requires IsAsciiDigit(c)
  {
    c as int - '0' as int
  }

  /** The number a string of decimal digits denotes (leading zeros allowed). */
  function DecimalValue(s: string): nat
    requires AllDigits(s)
  {
    if s == [] then 0 else DecimalValue(s[..|s| - 1]) * 10 + DigitValue(s[|s| - 1])
  }
}

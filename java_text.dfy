/** The optional value that stands for Java's nullable references. */
module Optional {
  datatype Option<+T> = None | Some(value: T)
}

/**
 * The pieces of Java's `int` and `String` behaviour that the chunk key text
 * format rests on: the 32-bit `int` range, `Integer.toString`,
 * `Integer.parseInt`, `String.split` with a one-character separator and
 * `String.endsWith`.
 */
module JavaText {
  import opened Optional

  const MIN_INT: int := -0x8000_0000
  const MAX_INT: int := 0x7fff_ffff

  /** A Java `int`. */
  type Int32 = i: int | -0x8000_0000 <= i <= 0x7fff_ffff

  predicate IsDigit(c: char) {
    '0' <= c <= '9'
  }

  predicate AllDigits(s: string) {
    forall i :: 0 <= i < |s| ==> IsDigit(s[i])
  }

  function DigitValue(c: char): (d: nat)
    requires IsDigit(c)
    ensures d < 10
  {
    (c as int) - ('0' as int)
  }

  function DigitChar(d: nat): (c: char)
    requires d < 10
    ensures IsDigit(c) && DigitValue(c) == d
  {
    (('0' as int) + d) as char
  }

  /** The decimal digits of `n`, most significant first, with no leading zero. */
  function NatToString(n: nat): (s: string)
    ensures |s| >= 1 && AllDigits(s)
    ensures s[0] == '0' ==> n == 0
    decreases n
  {
    if n < 10 then [DigitChar(n)] else NatToString(n / 10) + [DigitChar(n % 10)]
  }

  /** The value of a string of decimal digits. */
  function DigitsValue(s: string): nat
    requires AllDigits(s)
  {
    if s == [] then 0 else DigitsValue(s[..|s| - 1]) * 10 + DigitValue(s[|s| - 1])
  }

  lemma {:induction false} DigitsValueOfNatToString(n: nat)
    ensures DigitsValue(NatToString(n)) == n
    decreases n
  {
    if n >= 10 {
      var s := NatToString(n);
      assert s[..|s| - 1] == NatToString(n / 10);
      DigitsValueOfNatToString(n / 10);
    }
  }

  /** `Integer.toString(i)`: a minus sign for negative values, then the digits of the magnitude. */
  function IntToString(i: int): string {
    if i < 0 then "-" + NatToString(-i) else NatToString(i)
  }

  /**
   * `Integer.parseInt(s)`: an optional leading `-` or `+`, then at least one
   * digit, and a value inside the `int` range; anything else is the
   * `NumberFormatException` path, here `None`.
   */
  function ParseInt(s: string): Option<Int32> {
    if |s| == 0 then None
    else
      var digits := if s[0] == '-' || s[0] == '+' then s[1..] else s;
      if |digits| == 0 || !AllDigits(digits) then None
      else
        var v: int := if s[0] == '-' then -(DigitsValue(digits) as int) else DigitsValue(digits);
        if MIN_INT <= v <= MAX_INT then Some(v) else None
  }

  /** Every `int` written by `Integer.toString` is read back by `Integer.parseInt`. */
  lemma ParseIntOfIntToString(i: Int32)
    ensures ParseInt(IntToString(i)) == Some(i)
  {
    var s := IntToString(i);
    if i < 0 {
      var m := NatToString(-(i as int));
      assert s == "-" + m && s[0] == '-' && s[1..] == m;
      DigitsValueOfNatToString(-(i as int));
    } else {
      assert s == NatToString(i) && IsDigit(s[0]);
      DigitsValueOfNatToString(i);
    }
  }

  /** `Integer.toString` never writes the character `c` unless it is a digit or `-`. */
  lemma IntToStringAlphabet(i: int, c: char)
    requires !IsDigit(c) && c != '-'
    ensures c !in IntToString(i)
  {
  }

  /**
   * All the fields of `s` between occurrences of `sep`, empty ones included
   * (Java's `split` before trailing empty strings are dropped).
   */
  function SplitFields(s: string, sep: char): (parts: seq<string>)
    ensures |parts| >= 1
    ensures forall i :: 0 <= i < |parts| ==> sep !in parts[i]
    ensures sep !in s ==> parts == [s]
  {
    if |s| == 0 then [""]
    else if s[0] == sep then [""] + SplitFields(s[1..], sep)
    else
      var rest := SplitFields(s[1..], sep);
      assert sep !in s ==> [s[0]] + s[1..] == s;
      [[s[0]] + rest[0]] + rest[1..]
  }

  /** Puts the fields back together with `sep` between them. */
  function JoinFields(parts: seq<string>, sep: char): string
    requires |parts| >= 1
  {
    if |parts| == 1 then parts[0] else parts[0] + [sep] + JoinFields(parts[1..], sep)
  }

  lemma {:induction false} JoinSplitFields(s: string, sep: char)
    ensures JoinFields(SplitFields(s, sep), sep) == s
  {
    if |s| > 0 {
      JoinSplitFields(s[1..], sep);
      if s[0] != sep {
        var rest := SplitFields(s[1..], sep);
        if |rest| > 1 {
          assert ([[s[0]] + rest[0]] + rest[1..])[1..] == rest[1..];
        }
      }
    }
  }

  /** Splitting at the first separator peels off the text before it as one field. */
  lemma {:induction false} SplitFieldsFirst(a: string, sep: char, b: string)
    requires sep !in a
    ensures SplitFields(a + [sep] + b, sep) == [a] + SplitFields(b, sep)
  {
    if |a| == 0 {
      assert a + [sep] + b == [sep] + b;
      assert ([sep] + b)[1..] == b;
    } else {
      assert (a + [sep] + b)[1..] == a[1..] + [sep] + b;
      SplitFieldsFirst(a[1..], sep, b);
      assert [a[0]] + a[1..] == a;
    }
  }

  /** The fields with every trailing empty one removed, and nothing else removed. */
  function DropTrailingEmpty(parts: seq<string>): (r: seq<string>)
    ensures |r| <= |parts| && r == parts[..|r|]
    ensures r != [] ==> r[|r| - 1] != ""
    ensures forall i :: |r| <= i < |parts| ==> parts[i] == ""
  {
    if parts != [] && parts[|parts| - 1] == "" then DropTrailingEmpty(parts[..|parts| - 1]) else parts
  }

  /** One trailing empty field after a non-empty one is dropped, and nothing more. */
  lemma DropOneTrailingEmpty(a: seq<string>)
    requires a != [] && a[|a| - 1] != ""
    ensures DropTrailingEmpty(a + [""]) == a
  {
    assert (a + [""])[..|a|] == a;
  }

  /**
   * `s.split(":")`-style splitting with limit 0: when `sep` does not occur the
   * result is `s` itself; otherwise the fields, with trailing empty ones dropped.
   */
  function Split(s: string, sep: char): (parts: seq<string>)
    ensures forall i :: 0 <= i < |parts| ==> sep !in parts[i]
    ensures sep !in s ==> parts == [s]
    ensures sep in s && parts != [] ==> parts[|parts| - 1] != ""
  {
    if sep !in s then [s] else DropTrailingEmpty(SplitFields(s, sep))
  }

  /** `n` copies of `sep`. */
  function Seps(sep: char, n: nat): string {
    seq(n, _ => sep)
  }

  /** The fields joined with `sep`; no fields at all join to the empty text. */
  function JoinAll(parts: seq<string>, sep: char): string {
    if parts == [] then "" else JoinFields(parts, sep)
  }

  /** Fields that are all empty join to one separator fewer than there are fields. */
  lemma {:induction false} JoinEmptyFields(f: seq<string>, sep: char)
    requires |f| >= 1 && forall i :: 0 <= i < |f| ==> f[i] == ""
    ensures JoinFields(f, sep) == Seps(sep, |f| - 1)
    decreases |f|
  {
    if |f| > 1 {
      JoinEmptyFields(f[1..], sep);
      assert [sep] + Seps(sep, |f| - 2) == Seps(sep, |f| - 1);
    }
  }

  /** Dropping empty fields from the end removes one separator per dropped field. */
  lemma {:induction false} JoinDroppedEmpty(f: seq<string>, m: nat, sep: char)
    requires 1 <= m <= |f|
    requires forall i :: m <= i < |f| ==> f[i] == ""
    ensures JoinFields(f, sep) == JoinFields(f[..m], sep) + Seps(sep, |f| - m)
    decreases m
  {
    if m == |f| {
      assert f[..m] == f;
    } else if m == 1 {
      JoinEmptyFields(f[1..], sep);
      assert [sep] + Seps(sep, |f| - 2) == Seps(sep, |f| - 1);
    } else {
      JoinDroppedEmpty(f[1..], m - 1, sep);
      assert f[..m][1..] == f[1..][..m - 1];
    }
  }

  /**
   * `split` loses only separators at the end: the fields joined with `sep`,
   * followed by some number of separators, give back the text.
   */
  lemma SplitJoin(s: string, sep: char)
    ensures var j := JoinAll(Split(s, sep), sep);
      |j| <= |s| && s == j + Seps(sep, |s| - |j|)
  {
    var f := SplitFields(s, sep);
    JoinSplitFields(s, sep);
    if sep in s {
      var r := DropTrailingEmpty(f);
      if r == [] {
        JoinEmptyFields(f, sep);
      } else {
        JoinDroppedEmpty(f, |r|, sep);
      }
    }
  }

  /** `s.endsWith(suffix)`. */
  predicate EndsWith(s: string, suffix: string) {
    |suffix| <= |s| && s[|s| - |suffix|..] == suffix
  }
}

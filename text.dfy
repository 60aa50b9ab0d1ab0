/**
 * The pieces of Python string formatting the reports rely on: `str(n)` for
 * integers, `f"{x:.2f}"` for fixed-point numbers, and the newline-terminated
 * lines that a report accumulates with `+=`.
 */
module Text {

  predicate IsDigit(c: char) { '0' <= c <= '9' }

  predicate AllDigits(s: string) {
    forall i :: 0 <= i < |s| ==> IsDigit(s[i])
  }

  function DigitChar(d: int): (c: char)
    requires 0 <= d < 10
    ensures IsDigit(c) && c as int - '0' as int == d
  {
    (d + '0' as int) as char
  }

  function DigitValue(c: char): (d: nat)
    requires IsDigit(c)
    ensures d < 10
  {
    c as int - '0' as int
  }

  /** The decimal digits of `n`, as `str(n)` writes them. */
  function NatToString(n: nat): (s: string)
    ensures 1 <= |s| && AllDigits(s)
    ensures n < 10 <==> |s| == 1
  {
    if n < 10 then [DigitChar(n)] else NatToString(n / 10) + [DigitChar(n % 10)]
  }

  /** The number that a string of decimal digits denotes; the inverse of NatToString. */
  function DigitsValue(s: string): nat
    requires AllDigits(s)
  {
    if s == [] then 0 else 10 * DigitsValue(s[..|s| - 1]) + DigitValue(s[|s| - 1])
  }

  lemma {:induction false} NatToStringRoundTrip(n: nat)
    ensures DigitsValue(NatToString(n)) == n
  {
    if n >= 10 {
      var s := NatToString(n);
      assert s[..|s| - 1] == NatToString(n / 10);
      NatToStringRoundTrip(n / 10);
    }
  }

  /** `str(i)` for any integer, with a leading minus sign when negative. */
  function IntToString(i: int): (s: string)
    ensures 1 <= |s|
    ensures i < 0 <==> s[0] == '-'
    ensures i >= 0 ==> AllDigits(s)
  {
    if i < 0 then "-" + NatToString(-i) else NatToString(i)
  }

  /** Different integers print differently. */
  lemma IntToStringInjective(i: int, j: int)
    requires IntToString(i) == IntToString(j)
    ensures i == j
  {
    var s := IntToString(i);
    if i < 0 {
      assert s[1..] == NatToString(-i) == NatToString(-j);
    } else {
      assert s == NatToString(i) == NatToString(j);
    }
    NatToStringRoundTrip(if i < 0 then -i else i);
    NatToStringRoundTrip(if j < 0 then -j else j);
  }

  /** `f"{x:.2f}"` where `x` is the non-negative number `h / 100`, held exactly in hundredths. */
  function FormatFixed2(h: nat): (s: string)
    ensures 4 <= |s| && s[|s| - 3] == '.'
    ensures AllDigits(s[..|s| - 3]) && AllDigits(s[|s| - 2..])
    ensures '\n' !in s
  {
    NatToString(h / 100) + "." + [DigitChar(h / 10 % 10), DigitChar(h % 10)]
  }

  /** Reads back a number written by FormatFixed2, in hundredths. */
  function ParseFixed2(s: string): nat
    requires 4 <= |s|
    requires AllDigits(s[..|s| - 3]) && AllDigits(s[|s| - 2..])
  {
    100 * DigitsValue(s[..|s| - 3]) + DigitsValue(s[|s| - 2..])
  }

  /** Two digits read back as the number they write. */
  lemma TwoDigitsValue(a: int, b: int)
    requires 0 <= a < 10 && 0 <= b < 10
    ensures DigitsValue([DigitChar(a), DigitChar(b)]) == 10 * a + b
  {
    var t := [DigitChar(a), DigitChar(b)];
    assert t[..1] == [DigitChar(a)] && t[..1][..0] == [];
    assert DigitsValue(t[..1]) == a;
    assert DigitValue(t[1]) == b;
  }

  /** A value in hundredths is its whole part, its tenths digit and its hundredths digit. */
  lemma HundredthsDigits(h: nat)
    ensures h == 100 * (h / 100) + 10 * (h / 10 % 10) + h % 10
  {
    var q, r := h / 100, h % 100;
    assert h == 100 * q + r;
    assert h / 10 == 10 * q + r / 10;
    assert h / 10 % 10 == r / 10;
    assert h % 10 == r % 10;
  }

  /** Two decimals lose nothing of a value held in hundredths. */
  lemma FormatFixed2RoundTrip(h: nat)
    ensures ParseFixed2(FormatFixed2(h)) == h
  {
    var s := FormatFixed2(h);
    assert s[..|s| - 3] == NatToString(h / 100);
    NatToStringRoundTrip(h / 100);
    assert s[|s| - 2..] == [DigitChar(h / 10 % 10), DigitChar(h % 10)];
    TwoDigitsValue(h / 10 % 10, h % 10);
    HundredthsDigits(h);
  }

  /** The lines in `lines`, each followed by a newline: how a report grows by `+= line + "\n"`. */
  function Join(lines: seq<string>): string
  {
    if lines == [] then "" else lines[0] + "\n" + Join(lines[1..])
  }

  lemma {:induction false} JoinSnoc(lines: seq<string>, line: string)
    ensures Join(lines + [line]) == Join(lines) + line + "\n"
  {
    if lines == [] {
      assert lines + [line] == [line];
      assert Join([line][1..]) == "";
    } else {
      assert (lines + [line])[1..] == lines[1..] + [line];
      JoinSnoc(lines[1..], line);
    }
  }

  /** The index of the first newline in `s`. */
  function FirstNewline(s: string): (k: nat)
    requires '\n' in s
    ensures k < |s| && s[k] == '\n' && '\n' !in s[..k]
  {
    if s[0] == '\n' then 0
    else
      assert '\n' in s[1..] by { var j :| 0 <= j < |s| && s[j] == '\n'; assert s[1..][j - 1] == '\n'; }
      assert s[1..][..FirstNewline(s[1..])] == s[1..1 + FirstNewline(s[1..])];
      1 + FirstNewline(s[1..])
  }

  /** `s.split("\n")`. */
  function SplitLines(s: string): (r: seq<string>)
    ensures 1 <= |r|
    ensures forall i :: 0 <= i < |r| ==> '\n' !in r[i]
    decreases |s|
  {
    if '\n' !in s then [s]
    else
      var k := FirstNewline(s);
      [s[..k]] + SplitLines(s[k + 1..])
  }

  lemma FirstNewlineAfter(a: string, b: string)
    requires '\n' !in a
    ensures '\n' in a + "\n" + b && FirstNewline(a + "\n" + b) == |a|
  {
    assert (a + "\n" + b)[|a|] == '\n';
  }

  /** Splitting a joined report gives back its lines, then the empty text after the last newline. */
  lemma {:induction false} SplitJoin(lines: seq<string>)
    requires forall i :: 0 <= i < |lines| ==> '\n' !in lines[i]
    ensures SplitLines(Join(lines)) == lines + [""]
  {
    if lines != [] {
      var s := Join(lines);
      FirstNewlineAfter(lines[0], Join(lines[1..]));
      assert s[..|lines[0]|] == lines[0];
      assert s[|lines[0]| + 1..] == Join(lines[1..]);
      SplitJoin(lines[1..]);
      assert lines == [lines[0]] + lines[1..];
    }
  }

  /** A newline-free header followed by newline-free lines splits back into the header, the lines and a final empty piece. */
  lemma SplitJoinAfter(header: string, lines: seq<string>)
    requires '\n' !in header
    requires forall k :: 0 <= k < |lines| ==> '\n' !in lines[k]
    ensures SplitLines(Join([header] + lines)) == [header] + lines + [""]
  {
    var all := [header] + lines;
    forall k | 0 <= k < |all| ensures '\n' !in all[k] {
      if k > 0 {
        assert all[k] == lines[k - 1];
      }
    }
    SplitJoin(all);
  }

  /** A text without newlines is a single line; one newline between two such texts makes two lines. */
  lemma SplitTwo(a: string, b: string)
    requires '\n' !in a && '\n' !in b
    ensures SplitLines(a) == [a]
    ensures SplitLines(a + "\n" + b) == [a, b]
  {
    FirstNewlineAfter(a, b);
    var s := a + "\n" + b;
    assert s[..|a|] == a && s[|a| + 1..] == b;
  }
}

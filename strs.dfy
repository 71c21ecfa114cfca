/**
 * The few pieces of Python's `str` behaviour that the subtitle pipeline leans on:
 * `isspace`/`strip`, `split(sep)`, `startswith`, decimal digits, `str(int)`,
 * `int(text)`, `float(text)` and the `:.0f` / `:02d` format specifiers.
 * Strings are sequences of Unicode scalar values, as Python's `str` is.
 */
module Strs {
  import opened Options

  // ---------------------------------------------------------------------------
  // Character classes
  // ---------------------------------------------------------------------------

  /** `c.isspace()` in Python, which is also what `\s` and `strip()` use. */
  predicate IsSpace(c: char) {
    c == ' ' || ('\t' <= c <= '\r') || ('\U{1c}' <= c <= '\U{1f}') || c == '\U{85}' || c == '\U{a0}'
    || c == '\U{1680}' || ('\U{2000}' <= c <= '\U{200a}') || c == '\U{2028}' || c == '\U{2029}'
    || c == '\U{202f}' || c == '\U{205f}' || c == '\U{3000}'
  }

  predicate AllSpace(s: string) {
    forall i | 0 <= i < |s| :: IsSpace(s[i])
  }

  /** An ASCII decimal digit (the `\d` of the patterns, restricted to ASCII). */
  predicate IsDigit(c: char) {
    '0' <= c <= '9'
  }

  predicate AllDigits(s: string) {
    forall i | 0 <= i < |s| :: IsDigit(s[i])
  }

  /** What `\d+` matches. */
  predicate IsNumeral(s: string) {
    s != [] && AllDigits(s)
  }

  /** Text made only of digits and minus signs: never holds a comma, a newline or a brace. */
  predicate IsSignedText(s: string) {
    forall i | 0 <= i < |s| :: s[i] == '-' || IsDigit(s[i])
  }

  lemma SignedTextChars(s: string)
    requires IsSignedText(s)
    ensures ',' !in s && '\n' !in s && '{' !in s && '}' !in s
  {
    forall i | 0 <= i < |s| ensures s[i] != ',' && s[i] != '\n' && s[i] != '{' && s[i] != '}' {
      assert s[i] == '-' || IsDigit(s[i]);
    }
  }

  // ---------------------------------------------------------------------------
  // Decimal numerals
  // ---------------------------------------------------------------------------

  function DigitValue(c: char): nat
    requires IsDigit(c)
  {
    (c as int) - ('0' as int)
  }

  function Digit(n: nat): (c: char)
    requires n < 10
    ensures IsDigit(c) && DigitValue(c) == n
  {
    ('0' as int + n) as char
  }

  /** `int(s)` for a string of ASCII digits. */
  function DigitsValue(s: string): nat
    requires AllDigits(s)
    decreases |s|
  {
    if s == [] then 0 else 10 * DigitsValue(s[..|s| - 1]) + DigitValue(s[|s| - 1])
  }

  /** `str(n)` for a natural number: the digits, most significant first, without padding. */
  function NatToString(n: nat): (r: string)
    ensures IsNumeral(r) && DigitsValue(r) == n
    ensures |r| == 1 || r[0] != '0'
    decreases n
  {
    if n < 10 then [Digit(n)]
    else
      var r := NatToString(n / 10) + [Digit(n % 10)];
      assert r[..|r| - 1] == NatToString(n / 10);
      r
  }

  /** `str(i)` for an integer. */
  function IntToString(i: int): (r: string)
    ensures r != [] && IsSignedText(r)
  {
    if i < 0 then "-" + NatToString(-i) else NatToString(i)
  }

  /** `f"{n:02d}"` for 0 <= n < 100: always exactly two digits. */
  function Pad2(n: nat): (r: string)
    requires n < 100
    ensures |r| == 2 && AllDigits(r) && DigitsValue(r) == n
  {
    var r := [Digit(n / 10), Digit(n % 10)];
    assert r[..1] == [Digit(n / 10)];
    assert DigitsValue(r[..1]) == n / 10 by {
      assert r[..1][..0] == [];
    }
    r
  }

  // ---------------------------------------------------------------------------
  // Searching
  // ---------------------------------------------------------------------------

  /** Length of the longest prefix of `s` made of digits (a greedy `\d*`). */
  function DigitRun(s: string): (n: nat)
    ensures n <= |s| && AllDigits(s[..n])
    ensures n < |s| ==> !IsDigit(s[n])
    decreases |s|
  {
    if s != [] && IsDigit(s[0]) then
      var n := 1 + DigitRun(s[1..]);
      assert s[..n] == [s[0]] + s[1..][..n - 1];
      n
    else 0
  }

  /** Length of the longest prefix of `s` made of whitespace (a greedy `\s*`). */
  function SpaceRun(s: string): (n: nat)
    ensures n <= |s| && AllSpace(s[..n])
    ensures n < |s| ==> !IsSpace(s[n])
    decreases |s|
  {
    if s != [] && IsSpace(s[0]) then
      var n := 1 + SpaceRun(s[1..]);
      assert s[..n] == [s[0]] + s[1..][..n - 1];
      n
    else 0
  }

  /** Index of the first `c` in `s`, or `|s|` when there is none. */
  function IndexOf(s: string, c: char): (i: nat)
    ensures i <= |s| && c !in s[..i]
    ensures i < |s| ==> s[i] == c
    decreases |s|
  {
    if s == [] || s[0] == c then 0
    else
      var i := 1 + IndexOf(s[1..], c);
      assert s[..i] == [s[0]] + s[1..][..i - 1];
      i
  }

  /** `s` is the text before index `i`, the character at `i`, and the text after it. */
  lemma SplitAround(s: string, i: nat)
    requires i < |s|
    ensures s == s[..i] + ([s[i]] + s[i + 1..])
  {
    assert s == s[..i] + s[i..];
    assert s[i..] == [s[i]] + s[i + 1..];
  }

  /** Everything before the first `c` is free of `c`, and `s` splits around it. */
  lemma IndexOfSplit(s: string, c: char)
    ensures c !in s[..IndexOf(s, c)]
    ensures IndexOf(s, c) < |s| ==> s == s[..IndexOf(s, c)] + ([c] + s[IndexOf(s, c) + 1..])
  {
    if IndexOf(s, c) < |s| {
      SplitAround(s, IndexOf(s, c));
    }
  }

  lemma IndexOfAfter(a: string, c: char, b: string)
    requires c !in a
    ensures IndexOf(a + b, c) == |a| + IndexOf(b, c)
  {
    if a == [] {
      assert a + b == b;
    } else {
      assert (a + b)[0] == a[0] && a[0] in a;
      assert (a + b)[1..] == a[1..] + b;
      assert c !in a[1..] by {
        assert forall x | x in a[1..] :: x in a;
      }
      IndexOfAfter(a[1..], c, b);
    }
  }

  lemma DigitRunOf(a: string, b: string)
    requires AllDigits(a)
    requires b == [] || !IsDigit(b[0])
    ensures DigitRun(a + b) == |a|
  {
    if a != [] {
      assert (a + b)[1..] == a[1..] + b;
      DigitRunOf(a[1..], b);
    }
  }

  lemma SpaceRunOf(a: string, b: string)
    requires AllSpace(a)
    requires b == [] || !IsSpace(b[0])
    ensures SpaceRun(a + b) == |a|
  {
    if a != [] {
      assert (a + b)[1..] == a[1..] + b;
      SpaceRunOf(a[1..], b);
    }
  }

  /** `s.startswith(p)`. */
  predicate StartsWith(s: string, p: string) {
    |p| <= |s| && s[..|p|] == p
  }

  // ---------------------------------------------------------------------------
  // strip()
  // ---------------------------------------------------------------------------

  /** Length of the longest suffix of `s` made of whitespace. */
  function TrailingSpaceRun(s: string): (n: nat)
    ensures n <= |s| && forall i | |s| - n <= i < |s| :: IsSpace(s[i])
    ensures n < |s| ==> !IsSpace(s[|s| - n - 1])
    decreases |s|
  {
    if s != [] && IsSpace(s[|s| - 1]) then
      var n := 1 + TrailingSpaceRun(s[..|s| - 1]);
      assert forall i | |s| - n <= i < |s| - 1 :: s[..|s| - 1][i] == s[i];
      n
    else 0
  }

  /** `s.lstrip()`: drops the leading whitespace and keeps the rest. */
  function TrimLeft(s: string): string {
    s[SpaceRun(s)..]
  }

  /** `s.rstrip()`: drops the trailing whitespace and keeps the rest. */
  function TrimRight(s: string): string {
    s[..|s| - TrailingSpaceRun(s)]
  }

  /** `s.strip()`: the text between the leading and the trailing whitespace. */
  function Strip(s: string): (r: string)
    ensures r == [] || (!IsSpace(r[0]) && !IsSpace(r[|r| - 1]))
    ensures |r| <= |s|
    ensures exists i, j | 0 <= i <= j <= |s| :: r == s[i..j] && AllSpace(s[..i]) && AllSpace(s[j..])
  {
    var i := SpaceRun(s);
    var j := |s| - TrailingSpaceRun(s[i..]);
    assert s[i..][..j - i] == s[i..j];
    assert forall k | 0 <= k < |s| - j :: s[j..][k] == s[i..][j - i + k];
    TrimRight(TrimLeft(s))
  }

  /** `not s.strip()` holds exactly of the whitespace-only strings (the empty one included). */
  lemma StripEmptyIffAllSpace(s: string)
    ensures Strip(s) == [] <==> AllSpace(s)
  {
    var k := SpaceRun(s);
    if AllSpace(s) {
      SpaceRunOf(s, []);
      assert s + [] == s;
    } else {
      var i :| 0 <= i < |s| && !IsSpace(s[i]);
      assert k <= i;
      var t := s[k..];
      assert t != [] && !IsSpace(t[0]);
    }
  }

  /** A string without whitespace at either end is its own `strip()`. */
  lemma StripTrimmed(s: string)
    requires s == [] || (!IsSpace(s[0]) && !IsSpace(s[|s| - 1]))
    ensures Strip(s) == s
  {
    if s != [] {
      assert SpaceRun(s) == 0;
      assert s[0..] == s;
      assert TrailingSpaceRun(s) == 0;
    }
  }

  /** Signed numeric text has nothing to strip. */
  lemma SignedTextStripped(s: string)
    requires s != [] && IsSignedText(s)
    ensures Strip(s) == s
  {
    assert s[0] == '-' || IsDigit(s[0]);
    assert s[|s| - 1] == '-' || IsDigit(s[|s| - 1]);
    StripTrimmed(s);
  }

  // ---------------------------------------------------------------------------
  // split(sep) and its inverse, sep.join
  // ---------------------------------------------------------------------------

  /** `sep.join(parts)`, with `[]` for no parts. */
  function Join(parts: seq<string>, sep: char): string
    decreases |parts|
  {
    if |parts| == 0 then []
    else if |parts| == 1 then parts[0]
    else parts[0] + [sep] + Join(parts[1..], sep)
  }

  predicate SepFree(parts: seq<string>, sep: char) {
    forall k | 0 <= k < |parts| :: sep !in parts[k]
  }

  /** `s.split(sep)` for a one-character separator: never empty, and joining it gives `s` back. */
  function Split(s: string, sep: char): (r: seq<string>)
    ensures |r| >= 1
    ensures SepFree(r, sep)
    ensures Join(r, sep) == s
    decreases |s|
  {
    if s == [] then [[]]
    else
      var rest := Split(s[1..], sep);
      if s[0] == sep then
        var r := [[]] + rest;
        assert r[1..] == rest;
        r
      else
        var r := [[s[0]] + rest[0]] + rest[1..];
        assert |rest| > 1 ==> r[1..] == rest[1..];
        assert s == [s[0]] + s[1..];
        r
  }

  /** The first piece of a join is everything before the first separator. */
  lemma JoinHead(p: seq<string>, sep: char)
    requires |p| >= 1 && SepFree(p, sep)
    ensures IndexOf(Join(p, sep), sep) == |p[0]|
    ensures p[0] == Join(p, sep)[..|p[0]|]
    ensures |p| == 1 <==> |p[0]| == |Join(p, sep)|
    ensures |p| > 1 ==> Join(p[1..], sep) == Join(p, sep)[|p[0]| + 1..]
  {
    if |p| == 1 {
      IndexOfAfter(p[0], sep, []);
      assert p[0] + [] == p[0];
    } else {
      var tail := [sep] + Join(p[1..], sep);
      assert Join(p, sep) == p[0] + tail;
      IndexOfAfter(p[0], sep, tail);
    }
  }

  lemma JoinInjective(p: seq<string>, q: seq<string>, sep: char)
    requires |p| >= 1 && |q| >= 1
    requires SepFree(p, sep) && SepFree(q, sep)
    requires Join(p, sep) == Join(q, sep)
    ensures p == q
    decreases |p|
  {
    JoinHead(p, sep);
    JoinHead(q, sep);
    if |p| > 1 {
      JoinInjective(p[1..], q[1..], sep);
      assert p == [p[0]] + p[1..] && q == [q[0]] + q[1..];
    }
  }

  /** Splitting a joined list of separator-free pieces gives the pieces back. */
  lemma {:induction false} SplitJoin(parts: seq<string>, sep: char)
    requires |parts| >= 1 && SepFree(parts, sep)
    ensures Split(Join(parts, sep), sep) == parts
  {
    JoinInjective(Split(Join(parts, sep), sep), parts, sep);
  }

  /** `[p.strip() for p in parts]`. */
  function StripEach(parts: seq<string>): (r: seq<string>)
    ensures |r| == |parts|
    ensures forall k | 0 <= k < |r| :: r[k] == Strip(parts[k])
  {
    seq(|parts|, k requires 0 <= k < |parts| => Strip(parts[k]))
  }

  /** `[f.strip() for f in s.strip().split(',')]`: the comma-separated fields of a `Format:` or `Style:` line. */
  function CommaFields(s: string): (r: seq<string>)
    ensures |r| >= 1
  {
    StripEach(Split(Strip(s), ','))
  }

  // ---------------------------------------------------------------------------
  // int(text), float(text) and the `:.0f` format
  // ---------------------------------------------------------------------------

  /**
   * `int(text)` for base-10 text: surrounding whitespace, an optional sign, then ASCII digits.
   * `None` stands for the `ValueError` Python raises on anything else.
   */
  function ParseIntLiteral(text: string): Option<int> {
    var t := Strip(text);
    if t != [] && (t[0] == '-' || t[0] == '+') then
      if IsNumeral(t[1..]) then
        var v: int := DigitsValue(t[1..]);
        Some(if t[0] == '-' then -v else v)
      else None
    else if IsNumeral(t) then Some(DigitsValue(t))
    else None
  }

  function Power10(n: nat): (r: nat)
    ensures r >= 1
  {
    if n == 0 then 1 else 10 * Power10(n - 1)
  }

  /** The unsigned decimal forms `d`, `d.`, `d.d` and `.d` that `float()` reads. */
  function UnsignedDecimal(b: string): Option<real> {
    var i := IndexOf(b, '.');
    if i == |b| then
      if IsNumeral(b) then Some(DigitsValue(b) as real) else None
    else
      var whole, frac := b[..i], b[i + 1..];
      if AllDigits(whole) && AllDigits(frac) && (whole != [] || frac != []) then
        Some(DigitsValue(whole) as real + (DigitsValue(frac) as real) / (Power10(|frac|) as real))
      else None
  }

  /**
   * `float(text)` for plain decimal text with an optional sign and surrounding whitespace.
   * `None` stands for the `ValueError` Python raises.
   */
  function ParseFloatLiteral(text: string): Option<real> {
    var t := Strip(text);
    if t != [] && (t[0] == '-' || t[0] == '+') then
      match UnsignedDecimal(t[1..])
      case None => None
      case Some(v) => Some(if t[0] == '-' then -v else v)
    else UnsignedDecimal(t)
  }

  /** `int(str(i)) == i`. */
  lemma {:induction false} IntLiteralRoundTrip(i: int)
    ensures ParseIntLiteral(IntToString(i)) == Some(i)
  {
    var s := IntToString(i);
    SignedTextStripped(s);
    if i < 0 {
      assert s[1..] == NatToString(-i);
    }
  }

  lemma IndexOfAbsent(s: string, c: char)
    requires c !in s
    ensures IndexOf(s, c) == |s|
  {
    if s != [] {
      assert s[0] in s && s[1..] <= s[1..];
      assert forall x | x in s[1..] :: x in s;
      IndexOfAbsent(s[1..], c);
    }
  }

  /** A numeral reads as the same number through `float()`. */
  lemma UnsignedDecimalOfNumeral(d: string)
    requires IsNumeral(d)
    ensures UnsignedDecimal(d) == Some(DigitsValue(d) as real)
  {
    assert '.' !in d by {
      assert forall k | 0 <= k < |d| :: IsDigit(d[k]);
    }
    IndexOfAbsent(d, '.');
  }

  /** `float(str(i)) == i` for an integer `i`. */
  lemma {:induction false} FloatLiteralOfInt(i: int)
    ensures ParseFloatLiteral(IntToString(i)) == Some(i as real)
  {
    var s := IntToString(i);
    SignedTextStripped(s);
    var d := NatToString(if i < 0 then -i else i);
    UnsignedDecimalOfNumeral(d);
    if i < 0 {
      assert s[0] == '-' && s[1..] == d;
    } else {
      assert s == d && IsDigit(s[0]);
    }
  }

  /** Python's round-half-to-even, which `:.0f` applies (on exact values). */
  function RoundHalfEven(x: real): int {
    var f := x.Floor;
    var d := x - f as real;
    if d < 0.5 then f
    else if d > 0.5 then f + 1
    else if f % 2 == 0 then f
    else f + 1
  }

  /** The rounded value is at most half away from `x`, and on a tie it is even. */
  lemma RoundsToNearest(x: real)
    ensures var n := RoundHalfEven(x);
      && n as real - x <= 0.5 && x - n as real <= 0.5
      && ((n as real - x == 0.5 || x - n as real == 0.5) ==> n % 2 == 0)
  {
  }

  /** `f"{x:.0f}"`: the nearest integer, ties to even, written with a minus sign for negative `x` (so `-0`). */
  function ShowRounded(x: real): (r: string)
    ensures r != [] && IsSignedText(r)
  {
    var n := RoundHalfEven(x);
    if x < 0.0 && n == 0 then "-0" else IntToString(n)
  }
}

/**
 * The subtitle timestamp codec `H:MM:SS.CS` <-> milliseconds: `parse_time` and
 * `format_time`, which exist twice, with the same text, in the processor and in
 * the stand-alone effect script.
 */
module TimeCodec {
  import opened Options
  import opened Strs

  /** The four digit groups that `(\d+):(\d+):(\d+)\.(\d+)` captures. */
  datatype TimeText = TimeText(h: string, m: string, s: string, cs: string)

  predicate WellFormed(t: TimeText) {
    IsNumeral(t.h) && IsNumeral(t.m) && IsNumeral(t.s) && IsNumeral(t.cs)
  }

  /** The text the four groups cover. */
  function Render(t: TimeText): string {
    t.h + ":" + t.m + ":" + t.s + "." + t.cs
  }

  lemma RenderThen(t: TimeText, rest: string)
    ensures Render(t) + rest == t.h + (":" + (t.m + (":" + (t.s + ("." + (t.cs + rest))))))
  {
  }

  lemma NumeralThenOf(d: string, sep: char, rest: string)
    requires IsNumeral(d) && !IsDigit(sep)
    ensures NumeralThen(d + ([sep] + rest), sep) == Some((d, rest))
  {
    var text := d + ([sep] + rest);
    DigitRunOf(d, [sep] + rest);
    assert text[|d|] == sep;
    assert text[..|d|] == d;
    assert text[|d| + 1..] == rest;
  }

  /** A greedy `(\d+)` followed by `sep`: the digits and what follows the separator. */
  function NumeralThen(text: string, sep: char): (r: Option<(string, string)>)
    ensures r.Some? ==> IsNumeral(r.value.0) && text == r.value.0 + ([sep] + r.value.1)
  {
    var n := DigitRun(text);
    if n > 0 && n < |text| && text[n] == sep then
      assert text == text[..n] + ([sep] + text[n + 1..]);
      Some((text[..n], text[n + 1..]))
    else None
  }

  /**
   * `re.match(r'(\d+):(\d+):(\d+)\.(\d+)', text)`: anchored at the start, not at the end;
   * the last group takes every digit that follows the dot.
   */
  function MatchTime(text: string): (r: Option<TimeText>)
    ensures r.Some? ==> WellFormed(r.value)
  {
    match NumeralThen(text, ':')
    case None => None
    case Some((h, r1)) =>
      match NumeralThen(r1, ':')
      case None => None
      case Some((m, r2)) =>
        match NumeralThen(r2, '.')
        case None => None
        case Some((s, r3)) =>
          var n := DigitRun(r3);
          if n == 0 then None
          else
            Some(TimeText(h, m, s, r3[..n]))
  }

  /** A match covers a prefix of the text, and what follows it does not begin with a digit. */
  lemma MatchTimeSound(text: string, t: TimeText) returns (rest: string)
    requires MatchTime(text) == Some(t)
    ensures text == Render(t) + rest
    ensures rest == [] || !IsDigit(rest[0])
  {
    match NumeralThen(text, ':')
    case Some((h, r1)) =>
      match NumeralThen(r1, ':')
      case Some((m, r2)) =>
        match NumeralThen(r2, '.')
        case Some((s, r3)) =>
          var n := DigitRun(r3);
          rest := r3[n..];
          GroupsCover(text, r1, r2, r3, t, n);
  }

  /** The three separators and the digits after the dot put back together. */
  lemma GroupsCover(text: string, r1: string, r2: string, r3: string, t: TimeText, n: nat)
    requires text == t.h + ([':'] + r1) && r1 == t.m + ([':'] + r2) && r2 == t.s + (['.'] + r3)
    requires n <= |r3| && t.cs == r3[..n]
    ensures text == Render(t) + r3[n..]
  {
    assert r3 == t.cs + r3[n..];
    RenderThen(t, r3[n..]);
  }

  /** The milliseconds a matched timestamp denotes. */
  function Millis(t: TimeText): nat
    requires WellFormed(t)
  {
    (DigitsValue(t.h) * 3600 + DigitsValue(t.m) * 60 + DigitsValue(t.s)) * 1000 + DigitsValue(t.cs) * 10
  }

  /**
   * `parse_time`: the timestamp at the start of `text` in milliseconds, and 0
   * when there is none; centiseconds are the finest unit, so it is a whole
   * number of them.
   */
  function ParseTime(text: string): (r: nat)
    ensures r % 10 == 0
    ensures MatchTime(text).None? ==> r == 0
  {
    match MatchTime(text)
    case None => 0
    case Some(t) => MillisWholeCentis(t); Millis(t)
  }

  /** `format_time`: negative input is clamped to 0; hours unpadded, the other fields two digits. */
  function FormatTime(ms: int): (r: string)
    ensures r != [] && ',' !in r && '\n' !in r && '-' !in r && '{' !in r
  {
    var n: nat := if ms < 0 then 0 else ms;
    var r := NatToString(n / 3600000) + ":" + Pad2((n / 60000) % 60) + ":" + Pad2((n / 1000) % 60)
             + "." + Pad2((n % 1000) / 10);
    NoneOfInDigits(NatToString(n / 3600000));
    NoneOfInDigits(Pad2((n / 60000) % 60));
    NoneOfInDigits(Pad2((n / 1000) % 60));
    NoneOfInDigits(Pad2((n % 1000) / 10));
    r
  }

  lemma NoneOfInDigits(s: string)
    requires AllDigits(s)
    ensures ',' !in s && '\n' !in s && '-' !in s && '{' !in s && ':' !in s && '.' !in s
  {
  }

  // ---------------------------------------------------------------------------
  // Properties
  // ---------------------------------------------------------------------------

  /** Every text that begins with `digits:digits:digits.digits` is matched, exactly when the digits stop there. */
  lemma {:induction false} MatchTimeComplete(t: TimeText, rest: string)
    requires WellFormed(t)
    ensures MatchTime(Render(t) + rest).Some?
    ensures rest == [] || !IsDigit(rest[0]) ==> MatchTime(Render(t) + rest) == Some(t)
  {
    var r3 := t.cs + rest;
    var r2 := t.s + ("." + r3);
    var r1 := t.m + (":" + r2);
    var text := t.h + (":" + r1);
    RenderThen(t, rest);
    assert Render(t) + rest == text;
    NumeralThenOf(t.h, ':', r1);
    NumeralThenOf(t.m, ':', r2);
    NumeralThenOf(t.s, '.', r3);
    assert r3[0] == t.cs[0];
    if rest == [] || !IsDigit(rest[0]) {
      DigitRunOf(t.cs, rest);
      assert r3[..|t.cs|] == t.cs;
    }
  }

  /** `parse_time` is 0 unless the text begins with a timestamp (so a nonzero result always comes from one). */
  lemma ParseTimeNonzeroHasTimestamp(text: string)
    ensures ParseTime(text) != 0 ==> exists t, rest :: WellFormed(t) && text == Render(t) + rest
  {
    if MatchTime(text).Some? {
      var t := MatchTime(text).value;
      var rest := MatchTimeSound(text, t);
      assert WellFormed(t) && text == Render(t) + rest;
    }
  }

  /** On a match the result is `(h*3600 + m*60 + s)*1000 + cs*10`. */
  lemma {:induction false} ParseTimeValue(t: TimeText, rest: string)
    requires WellFormed(t)
    requires rest == [] || !IsDigit(rest[0])
    ensures ParseTime(Render(t) + rest)
            == (DigitsValue(t.h) * 3600 + DigitsValue(t.m) * 60 + DigitsValue(t.s)) * 1000 + DigitsValue(t.cs) * 10
  {
    MatchTimeComplete(t, rest);
  }

  lemma ClockArithmetic(n: nat)
    ensures ((n / 3600000) * 3600 + ((n / 60000) % 60) * 60 + (n / 1000) % 60) * 1000 + ((n % 1000) / 10) * 10
            == n - n % 10
  {
    var q1, r1 := n / 1000, n % 1000;
    var q2, s := q1 / 60, q1 % 60;
    var h, m := q2 / 60, q2 % 60;
    assert n == 60000 * q2 + 1000 * s + r1;
    assert n / 60000 == q2;
    assert n == 3600000 * h + 60000 * m + 1000 * s + r1;
    assert n / 3600000 == h;
    assert r1 == 10 * (r1 / 10) + r1 % 10;
    assert n % 10 == r1 % 10;
  }

  /** The output of `format_time` is one whole timestamp with two-digit minutes, seconds (both below 60) and centiseconds, and unpadded hours. */
  lemma {:induction false} FormatTimeShape(ms: int)
    ensures MatchTime(FormatTime(ms)).Some?
    ensures var t := MatchTime(FormatTime(ms)).value;
      && Render(t) == FormatTime(ms)
      && |t.m| == 2 && |t.s| == 2 && |t.cs| == 2
      && DigitsValue(t.m) < 60 && DigitsValue(t.s) < 60
      && t.h == NatToString(DigitsValue(t.h))
  {
    var n: nat := if ms < 0 then 0 else ms;
    var t := TimeText(NatToString(n / 3600000), Pad2((n / 60000) % 60), Pad2((n / 1000) % 60), Pad2((n % 1000) / 10));
    assert FormatTime(ms) == Render(t) + [];
    MatchTimeComplete(t, []);
  }

  /** `parse_time(format_time(ms))` is `ms` truncated to whole centiseconds, and 0 for negative `ms`. */
  lemma {:induction false} RoundTrip(ms: int)
    ensures ParseTime(FormatTime(ms)) == if ms < 0 then 0 else ms - ms % 10
  {
    var n: nat := if ms < 0 then 0 else ms;
    var t := TimeText(NatToString(n / 3600000), Pad2((n / 60000) % 60), Pad2((n / 1000) % 60), Pad2((n % 1000) / 10));
    assert FormatTime(ms) == Render(t) + [];
    MatchTimeComplete(t, []);
    ClockArithmetic(n);
  }

  /** On whole centiseconds the codec is exact: `parse_time(format_time(ms)) == ms`. */
  lemma RoundTripExact(ms: int)
    requires ms >= 0 && ms % 10 == 0
    ensures ParseTime(FormatTime(ms)) == ms
  {
    RoundTrip(ms);
  }

  /** `parse_time` always yields whole centiseconds. */
  lemma MillisWholeCentis(t: TimeText)
    requires WellFormed(t)
    ensures Millis(t) % 10 == 0
  {
    var a := DigitsValue(t.h) * 3600 + DigitsValue(t.m) * 60 + DigitsValue(t.s);
    var k := a * 100 + DigitsValue(t.cs);
    assert Millis(t) == 10 * k;
  }

  /** Negative inputs are formatted as zero. */
  lemma FormatTimeClamps(ms: int)
    requires ms < 0
    ensures FormatTime(ms) == "0:00:00.00"
  {
    assert NatToString(0) == "0";
    assert Pad2(0) == "00";
  }
}

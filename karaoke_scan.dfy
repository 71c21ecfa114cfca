/**
 * `re.finditer(r'\{[^}]*\\[kK]f?(\d+)[^}]*\}([^{]*)', text)` as a scanner, shared
 * by both `extract_syllables`, and `get_clean_text`'s `re.sub(r'\{[^}]*\}', '', text)`.
 *
 * A match starts at a `{`; its override block runs to the first `}` after it,
 * since neither `[^}]*` can cross one. The first `[^}]*` is greedy, so of all
 * the karaoke markers (`\k`, `\K`, `\kf`, `\Kf` followed by digits) in the block
 * the rightmost one supplies the duration. The syllable text is everything after
 * the `}` up to the next `{`. A block without a marker matches nowhere: every
 * later `{` inside it sees a suffix of the same marker-free content, so the
 * search resumes after its `}`, and the text that follows it is dropped. When a
 * `{` has no `}` after it, no later `{` has one either and the search ends.
 */
module KaraokeScan {
  import opened Options
  import opened Strs

  /** One match: group 1 read as an integer (centiseconds) and group 2. */
  datatype KMatch = KMatch(duration: nat, text: string)

  /** Where the digits of a marker at `j` begin: after `\k` or after `\kf`. */
  function DigitsStart(c: string, j: nat): nat
    requires j + 2 < |c|
  {
    if IsDigit(c[j + 2]) then j + 2 else j + 3
  }

  /** `\\[kK]f?(\d+)` matches at `j` of the block content `c`. */
  predicate MarkerAt(c: string, j: nat) {
    && j + 2 < |c| && c[j] == '\\' && (c[j + 1] == 'k' || c[j + 1] == 'K')
    && (IsDigit(c[j + 2]) || (c[j + 2] == 'f' && j + 3 < |c| && IsDigit(c[j + 3])))
  }

  /** The value of the greedy `(\d+)` of the marker at `j`. */
  function MarkerValue(c: string, j: nat): nat
    requires MarkerAt(c, j)
  {
    var d := DigitsStart(c, j);
    DigitsValue(c[d..][..DigitRun(c[d..])])
  }

  /** The rightmost marker position below `n`. */
  function LastMarkerBelow(c: string, n: nat): (r: Option<nat>)
    requires n <= |c|
    ensures r.Some? ==> r.value < n && MarkerAt(c, r.value)
    ensures r.Some? ==> forall j | r.value < j < n :: !MarkerAt(c, j)
    ensures r.None? ==> forall j | 0 <= j < n :: !MarkerAt(c, j)
  {
    if n == 0 then None
    else if MarkerAt(c, n - 1) then Some(n - 1)
    else LastMarkerBelow(c, n - 1)
  }

  /** The duration a block supplies, or `None` when it holds no marker. */
  function BlockDuration(c: string): Option<nat> {
    match LastMarkerBelow(c, |c|)
    case None => None
    case Some(j) => Some(MarkerValue(c, j))
  }

  /**
   * The first override block of `s`: the text before its `{`, the content up to
   * the first `}` after it, and what follows that `}`; `None` when there is no
   * `{` or no `}` after the first one.
   */
  function NextBlock(s: string): (r: Option<(string, string, string)>)
    ensures r.Some? ==> '{' !in r.value.0 && '}' !in r.value.1
    ensures r.Some? ==> s == r.value.0 + ("{" + (r.value.1 + ("}" + r.value.2)))
  {
    var p := IndexOf(s, '{');
    if p == |s| then None
    else
      var after := s[p + 1..];
      var q := IndexOf(after, '}');
      if q == |after| then None
      else
        BlockSplit(s, p, q);
        Some((s[..p], after[..q], after[q + 1..]))
  }

  /** Cutting `s` at a `{` and at a later `}` and putting the pieces back together. */
  lemma BlockSplit(s: string, p: nat, q: nat)
    requires p < |s| && s[p] == '{'
    requires q < |s[p + 1..]| && s[p + 1..][q] == '}'
    ensures s == s[..p] + ("{" + (s[p + 1..][..q] + ("}" + s[p + 1..][q + 1..])))
  {
    var after := s[p + 1..];
    assert after == after[..q] + ("}" + after[q + 1..]);
    assert s == s[..p] + ("{" + after);
  }

  /** The syllable text after a block, `[^{]*`, and where the scan goes on. */
  function TextRun(s: string): (r: (string, string))
    ensures '{' !in r.0 && s == r.0 + r.1 && (r.1 == [] || r.1[0] == '{')
  {
    var e := IndexOf(s, '{');
    IndexOfSplit(s, '{');
    assert s == s[..e] + s[e..];
    (s[..e], s[e..])
  }

  /** All matches, in order, of the karaoke pattern in `s`; no syllable text holds a `{`. */
  function Scan(s: string): (r: seq<KMatch>)
    ensures BraceFree(r)
    decreases |s|
  {
    match NextBlock(s)
    case None => []
    case Some((_, c, rest)) =>
      match BlockDuration(c)
      case None => Scan(rest)
      case Some(d) =>
        var (text, more) := TextRun(rest);
        BraceFreeCons(KMatch(d, text), Scan(more));
        [KMatch(d, text)] + Scan(more)
  }

  /** `get_clean_text`: every `{...}` block removed; a `{` with no `}` after it stays. */
  function CleanText(s: string): (r: string)
    ensures |r| <= |s|
    ensures |r| == |s| <==> r == s
    decreases |s|
  {
    match NextBlock(s)
    case None => s
    case Some((before, _, rest)) => before + CleanText(rest)
  }

  /** The shape of a karaoke line: one `{\k<d>}` block before each syllable. */
  function RenderK(m: KMatch): string {
    "{\\k" + NatToString(m.duration) + "}" + m.text
  }

  function RenderAll(ms: seq<KMatch>): string
    decreases |ms|
  {
    if ms == [] then [] else RenderK(ms[0]) + RenderAll(ms[1..])
  }

  /** Texts a match can carry: `[^{]*`. */
  predicate BraceFree(ms: seq<KMatch>) {
    forall k | 0 <= k < |ms| :: '{' !in ms[k].text
  }

  function Texts(ms: seq<KMatch>): string
    decreases |ms|
  {
    if ms == [] then [] else ms[0].text + Texts(ms[1..])
  }

  /** No `}` ever follows a `{`: the text `get_clean_text` leaves. */
  predicate Clean(s: string) {
    forall i, j | 0 <= i < j < |s| && s[i] == '{' :: s[j] != '}'
  }

  // ---------------------------------------------------------------------------
  // The block splitter
  // ---------------------------------------------------------------------------

  /** The block splitter finds exactly the block that was written. */
  lemma NextBlockOf(before: string, c: string, rest: string)
    requires '{' !in before && '}' !in c
    ensures NextBlock(before + ("{" + (c + ("}" + rest)))) == Some((before, c, rest))
  {
    var s := before + ("{" + (c + ("}" + rest)));
    IndexOfAfter(before, '{', "{" + (c + ("}" + rest)));
    assert IndexOf("{" + (c + ("}" + rest)), '{') == 0;
    var after := s[|before| + 1..];
    assert after == c + ("}" + rest);
    IndexOfAfter(c, '}', "}" + rest);
    assert IndexOf("}" + rest, '}') == 0;
    assert s[..|before|] == before;
    assert after[..|c|] == c && after[|c| + 1..] == rest;
  }

  /** There is no block exactly when no `}` follows a `{`. */
  lemma NextBlockNoneIffClean(s: string)
    ensures NextBlock(s).None? <==> Clean(s)
  {
    var p := IndexOf(s, '{');
    if p < |s| {
      var after := s[p + 1..];
      var q := IndexOf(after, '}');
      if q == |after| {
        forall i, j | 0 <= i < j < |s| && s[i] == '{' ensures s[j] != '}' {
          assert s[j] == after[j - p - 1];
        }
      } else {
        assert s[p] == '{' && s[p + 1 + q] == '}';
      }
    }
  }

  /** Prefixing `{`-free text keeps a text clean. */
  lemma CleanPrefix(a: string, s: string)
    requires '{' !in a && Clean(s)
    ensures Clean(a + s)
  {
    var t := a + s;
    assert forall i | 0 <= i < |a| :: t[i] == a[i];
    forall i, j | 0 <= i < j < |t| && t[i] == '{' ensures t[j] != '}' {
      assert t[i] == s[i - |a|] && t[j] == s[j - |a|];
    }
  }

  /** Prefixing `{`-free text only lengthens the text before the first block. */
  lemma NextBlockAfterPlain(a: string, s: string)
    requires '{' !in a
    ensures NextBlock(s).None? ==> NextBlock(a + s).None?
    ensures NextBlock(s).Some? ==>
      var (b, c, r) := NextBlock(s).value; NextBlock(a + s) == Some((a + b, c, r))
  {
    match NextBlock(s)
    case None =>
      NextBlockNoneIffClean(s);
      CleanPrefix(a, s);
      NextBlockNoneIffClean(a + s);
    case Some((b, c, r)) =>
      assert a + s == (a + b) + ("{" + (c + ("}" + r)));
      assert '{' !in a + b;
      NextBlockOf(a + b, c, r);
  }

  /** The syllable text runs to the next block. */
  lemma TextRunOf(t: string, s: string)
    requires '{' !in t && (s == [] || s[0] == '{')
    ensures TextRun(t + s) == (t, s)
  {
    IndexOfAfter(t, '{', s);
    assert s != [] ==> IndexOf(s, '{') == 0;
    assert (t + s)[..|t|] == t && (t + s)[|t|..] == s;
  }

  // ---------------------------------------------------------------------------
  // Properties of the scanner
  // ---------------------------------------------------------------------------

  /** Text before the first `{` never matters to the scan. */
  lemma ScanSkipsPlainText(a: string, s: string)
    requires '{' !in a
    ensures Scan(a + s) == Scan(s)
  {
    NextBlockAfterPlain(a, s);
  }

  /** A text with no complete `{...}` block has no syllables. */
  lemma NoBlockNoMatches(s: string)
    requires Clean(s)
    ensures Scan(s) == []
  {
    NextBlockNoneIffClean(s);
  }

  /** A marker-free block matches nowhere, and the text after it is dropped up to the next `{`. */
  lemma UnmarkedBlockDropsText(c: string, text: string, s: string)
    requires '}' !in c && BlockDuration(c).None?
    requires '{' !in text
    ensures Scan("{" + c + "}" + text + s) == Scan(s)
  {
    assert "{" + c + "}" + text + s == [] + ("{" + (c + ("}" + (text + s))));
    NextBlockOf([], c, text + s);
    ScanSkipsPlainText(text, s);
  }

  /**
   * Whatever precedes it in the block, a final `\k<digits>` is the rightmost
   * marker and supplies the duration (the greedy first `[^}]*` backtracks to it).
   */
  lemma TrailingMarkerWins(x: string, digits: string)
    requires IsNumeral(digits)
    ensures BlockDuration(x + "\\k" + digits) == Some(DigitsValue(digits))
  {
    var c := x + "\\k" + digits;
    var j := |x|;
    assert c[j] == '\\' && c[j + 1] == 'k' && c[j + 2] == digits[0];
    assert MarkerAt(c, j);
    forall i | j < i < |c| ensures !MarkerAt(c, i) {
      assert c[i] == 'k' || c[i] == digits[i - j - 2];
    }
    assert LastMarkerBelow(c, |c|) == Some(j) by {
      LastBelowIsOnly(c, |c|, j);
    }
    assert c[j + 2..] == digits;
    assert DigitRun(digits) == |digits| by {
      DigitRunOf(digits, []);
      assert digits + [] == digits;
    }
    assert digits[..|digits|] == digits;
  }

  /** The block `\k<digits>` alone. */
  lemma SingleMarker(digits: string)
    requires IsNumeral(digits)
    ensures BlockDuration("\\k" + digits) == Some(DigitsValue(digits))
  {
    TrailingMarkerWins([], digits);
    assert [] + "\\k" + digits == "\\k" + digits;
  }

  lemma {:induction false} LastBelowIsOnly(c: string, n: nat, j: nat)
    requires j < n <= |c| && MarkerAt(c, j)
    requires forall i | j < i < n :: !MarkerAt(c, i)
    ensures LastMarkerBelow(c, n) == Some(j)
    decreases n
  {
    if n - 1 != j {
      LastBelowIsOnly(c, n - 1, j);
    }
  }

  /** With several markers in one block the rightmost wins: `{\k10\k20}` has duration 20. */
  lemma RightmostMarkerWins()
    ensures BlockDuration("\\k10\\k20") == Some(20)
  {
    assert "\\k10\\k20" == "\\k10" + "\\k" + "20";
    TrailingMarkerWins("\\k10", "20");
    assert DigitsValue("20") == 20 by {
      assert "20"[..1] == "2";
    }
  }

  /** The block `{\k<d>}` in front of every rendered syllable. */
  lemma KBlock(d: nat)
    ensures '}' !in "\\k" + NatToString(d)
    ensures BlockDuration("\\k" + NatToString(d)) == Some(d)
  {
    var digits := NatToString(d);
    var c := "\\k" + digits;
    forall i | 0 <= i < |c| ensures c[i] != '}' {
      if i >= 2 { assert c[i] == digits[i - 2]; }
    }
    SingleMarker(digits);
  }

  lemma RenderKShape(m: KMatch, s: string)
    ensures RenderK(m) + s == [] + ("{" + (("\\k" + NatToString(m.duration)) + ("}" + (m.text + s))))
  {
  }

  /** A block with a marker gives one match: its duration and the text up to the next `{`. */
  lemma MarkedBlockMatches(c: string, text: string, s: string, d: nat)
    requires '}' !in c && BlockDuration(c) == Some(d)
    requires '{' !in text && (s == [] || s[0] == '{')
    ensures Scan("{" + c + "}" + text + s) == [KMatch(d, text)] + Scan(s)
  {
    var head := "{" + c + "}";
    AppendAssoc(head, text, s);
    MarkedBlockFirst(c, text + s);
    TextRunOf(text, s);
    ScanMarked(head + (text + s), c, text + s, d);
  }

  lemma AppendAssoc(a: string, b: string, c: string)
    ensures a + b + c == a + (b + c)
  {
  }

  /** The block at the very start is found first. */
  lemma MarkedBlockFirst(c: string, rest: string)
    requires '}' !in c
    ensures NextBlock("{" + c + "}" + (rest)) == Some(([], c, rest))
  {
    assert "{" + c + "}" + rest == [] + ("{" + (c + ("}" + rest)));
    NextBlockOf([], c, rest);
  }

  /** One scan step over a block with a marker. */
  lemma ScanMarked(s: string, c: string, rest: string, d: nat)
    requires NextBlock(s) == Some(([], c, rest)) && BlockDuration(c) == Some(d)
    ensures Scan(s) == [KMatch(d, TextRun(rest).0)] + Scan(TextRun(rest).1)
  {
  }

  /** One rendered syllable followed by more karaoke. */
  lemma ScanRenderK(m: KMatch, s: string)
    requires '{' !in m.text
    requires s == [] || s[0] == '{'
    ensures Scan(RenderK(m) + s) == [m] + Scan(s)
  {
    var c := "\\k" + NatToString(m.duration);
    assert RenderK(m) + s == "{" + c + "}" + m.text + s by {
      assert "{\\k" + NatToString(m.duration) == "{" + c;
    }
    assert Scan("{" + c + "}" + m.text + s) == [m] + Scan(s) by {
      KBlock(m.duration);
      MarkedBlockMatches(c, m.text, s, m.duration);
    }
  }

  /** Rendering a karaoke line and scanning it gives back every duration and text. */
  lemma {:induction false} ScanRenderAll(ms: seq<KMatch>)
    requires BraceFree(ms)
    ensures Scan(RenderAll(ms)) == ms
    decreases |ms|
  {
    if ms != [] {
      BraceFreeTail(ms);
      ScanRenderCons(ms);
      ScanRenderAll(ms[1..]);
      assert [ms[0]] + ms[1..] == ms;
    }
  }

  /** The first rendered syllable is scanned first. */
  lemma ScanRenderCons(ms: seq<KMatch>)
    requires ms != [] && BraceFree(ms)
    ensures Scan(RenderAll(ms)) == [ms[0]] + Scan(RenderAll(ms[1..]))
  {
    var tail := RenderAll(ms[1..]);
    assert RenderAll(ms) == RenderK(ms[0]) + tail;
    BraceFreeTail(ms);
    RenderAllStart(ms[1..]);
    ScanRenderK(ms[0], tail);
  }

  lemma BraceFreeCons(m: KMatch, ms: seq<KMatch>)
    requires '{' !in m.text && BraceFree(ms)
    ensures BraceFree([m] + ms)
  {
    forall k | 1 <= k < 1 + |ms| ensures '{' !in ([m] + ms)[k].text {
      assert ([m] + ms)[k] == ms[k - 1];
    }
  }

  lemma BraceFreeTail(ms: seq<KMatch>)
    requires ms != [] && BraceFree(ms)
    ensures '{' !in ms[0].text && BraceFree(ms[1..])
  {
    forall k | 0 <= k < |ms| - 1 ensures '{' !in ms[1..][k].text {
      assert ms[1..][k] == ms[k + 1];
    }
  }

  /** A rendered karaoke line is empty or starts with a block. */
  lemma RenderAllStart(ms: seq<KMatch>)
    ensures RenderAll(ms) == [] || RenderAll(ms)[0] == '{'
  {
    if ms != [] {
      assert RenderAll(ms) == RenderK(ms[0]) + RenderAll(ms[1..]);
    }
  }

  // ---------------------------------------------------------------------------
  // Properties of get_clean_text
  // ---------------------------------------------------------------------------

  /** The result of `get_clean_text` holds no complete `{...}` block. */
  lemma {:induction false} CleanTextIsClean(s: string)
    ensures Clean(CleanText(s))
    decreases |s|
  {
    match NextBlock(s)
    case None =>
      NextBlockNoneIffClean(s);
    case Some((before, _, rest)) =>
      CleanTextIsClean(rest);
      CleanPrefix(before, CleanText(rest));
  }

  /** Text that is already clean is left unchanged. */
  lemma CleanTextOfClean(s: string)
    requires Clean(s)
    ensures CleanText(s) == s
  {
    NextBlockNoneIffClean(s);
  }

  /** `get_clean_text` is idempotent. */
  lemma CleanTextIdempotent(s: string)
    ensures CleanText(CleanText(s)) == CleanText(s)
  {
    CleanTextIsClean(s);
    CleanTextOfClean(CleanText(s));
  }

  /** One step of `get_clean_text`: the text before the first block, then the rest cleaned. */
  lemma CleanTextStep(s: string, b: string, c: string, r: string)
    requires NextBlock(s) == Some((b, c, r))
    ensures CleanText(s) == b + CleanText(r)
  {
  }

  /** Text before the first `{` is kept as it is. */
  lemma CleanPlainPrefix(a: string, s: string)
    requires '{' !in a
    ensures CleanText(a + s) == a + CleanText(s)
  {
    if NextBlock(s).None? {
      assert NextBlock(a + s).None? by {
        NextBlockAfterPlain(a, s);
      }
    } else {
      var (b, c, r) := NextBlock(s).value;
      assert NextBlock(a + s) == Some((a + b, c, r)) by {
        NextBlockAfterPlain(a, s);
      }
      assert CleanText(s) == b + CleanText(r) by {
        CleanTextStep(s, b, c, r);
      }
      assert CleanText(a + s) == (a + b) + CleanText(r) by {
        CleanTextStep(a + s, a + b, c, r);
      }
    }
  }

  /** On a karaoke line written as `{\k..}` blocks, the clean text is the syllable texts joined. */
  lemma {:induction false} CleanRenderAll(ms: seq<KMatch>)
    requires BraceFree(ms)
    ensures CleanText(RenderAll(ms)) == Texts(ms)
    decreases |ms|
  {
    if ms != [] {
      var m := ms[0];
      var tail := RenderAll(ms[1..]);
      BraceFreeTail(ms);
      assert CleanText(tail) == Texts(ms[1..]) by {
        CleanRenderAll(ms[1..]);
      }
      var c := "\\k" + NatToString(m.duration);
      assert NextBlock(RenderAll(ms)) == Some(([], c, m.text + tail)) by {
        assert RenderAll(ms) == RenderK(m) + tail;
        RenderKShape(m, tail);
        KBlock(m.duration);
        NextBlockOf([], c, m.text + tail);
      }
      assert CleanText(m.text + tail) == m.text + CleanText(tail) by {
        CleanPlainPrefix(m.text, tail);
      }
    }
  }
}

/**
 * The stand-alone effect script (py/process_effect.py): its own width table
 * and syllable extraction, the line-by-line `[V4` style scanner, the style
 * metrics lookup, and `generate_syllable_lines`, which writes one `fx`
 * dialogue line per syllable.
 *
 * Configuration and style entries are text, as read from the files; `int()`
 * and `float()` of such text give `None` where Python raises `ValueError`,
 * and every operation that reads them returns `None` then.
 */
module ProcessEffect {
  import opened Options
  import opened Strs
  import opened TimeCodec
  import opened Color
  import opened Dialogue
  import opened KaraokeScan

  type Config = map<string, string>
  type Style = map<string, string>
  type StyleTable = map<string, Style>

  // ---------------------------------------------------------------------------
  // Style metrics and widths
  // ---------------------------------------------------------------------------

  /** `get_style_metrics`: `(48, 0)` for an unknown style; a missing key takes the same default. */
  function StyleMetrics(styles: StyleTable, name: string): (r: Option<(int, real)>)
    ensures name !in styles ==> r == Some((48, 0.0))
    ensures name in styles && "Fontsize" !in styles[name] && "Spacing" !in styles[name] ==> r == Some((48, 0.0))
    ensures name in styles && "Fontsize" !in styles[name] && r.Some? ==> r.value.0 == 48
    ensures name in styles && "Spacing" !in styles[name] && r.Some? ==> r.value.1 == 0.0
    ensures name in styles && "Fontsize" in styles[name] && r.Some? ==> ParseIntLiteral(styles[name]["Fontsize"]) == Some(r.value.0)
    ensures name in styles && "Spacing" in styles[name] && r.Some? ==> ParseFloatLiteral(styles[name]["Spacing"]) == Some(r.value.1)
    ensures r.None? <==>
      && name in styles
      && (|| ("Fontsize" in styles[name] && ParseIntLiteral(styles[name]["Fontsize"]).None?)
          || ("Spacing" in styles[name] && ParseFloatLiteral(styles[name]["Spacing"]).None?))
  {
    if name in styles then
      var style := styles[name];
      var fontsize := if "Fontsize" in style then ParseIntLiteral(style["Fontsize"]) else Some(48);
      var spacing := if "Spacing" in style then ParseFloatLiteral(style["Spacing"]) else Some(0.0);
      if fontsize.None? || spacing.None? then None else Some((fontsize.value, spacing.value))
    else Some((48, 0.0))
  }

  /** A style whose size and spacing were written by `str()` of integers gives those integers back. */
  lemma StyleMetricsOf(styles: StyleTable, name: string, fontsize: int, spacing: int)
    requires name in styles
    requires "Fontsize" in styles[name] && styles[name]["Fontsize"] == IntToString(fontsize)
    requires "Spacing" in styles[name] && styles[name]["Spacing"] == IntToString(spacing)
    ensures StyleMetrics(styles, name) == Some((fontsize, spacing as real))
  {
    IntLiteralRoundTrip(fontsize);
    FloatLiteralOfInt(spacing);
  }

  const Narrow: set<char> := {'i', 'I', 'l', 'L', '1', '|', '!', '.', ',', ';', ':', '\'', '"'}
  const Wide: set<char> := {'m', 'M', 'w', 'W'}

  /** The factor of `estimate_char_width`, classified in the order narrow, wide, space, non-ASCII. */
  function Factor(c: char): real {
    if c in Narrow then 0.3
    else if c in Wide then 0.6
    else if c == ' ' then 0.25
    else if c as int > 127 then 1.0
    else 0.5
  }

  /** Every factor lies between a quarter and one; exactly the non-ASCII characters outside the named classes get one. */
  lemma FactorRange(c: char)
    ensures 0.25 <= Factor(c) <= 1.0
    ensures Factor(c) == 1.0 <==> c !in Narrow && c !in Wide && c != ' ' && c as int > 127
  {
  }

  /** `estimate_char_width`: the font size times the character's factor, plus the spacing. */
  function CharWidth(fontsize: int, spacing: real, c: char): real {
    fontsize as real * Factor(c) + spacing
  }

  /** `estimate_text_width`: the character widths added up. */
  function TextWidth(fontsize: int, spacing: real, s: string): real
    decreases |s|
  {
    if s == [] then 0.0 else CharWidth(fontsize, spacing, s[0]) + TextWidth(fontsize, spacing, s[1..])
  }

  /** The factors of a text's characters, in order. */
  function Factors(s: string): (r: seq<real>)
    ensures |r| == |s| && forall i :: 0 <= i < |s| ==> r[i] == Factor(s[i])
  {
    seq(|s|, i requires 0 <= i < |s| => Factor(s[i]))
  }

  function Sum(xs: seq<real>): real
    decreases |xs|
  {
    if xs == [] then 0.0 else xs[0] + Sum(xs[1..])
  }

  /** Widths added up for given factors, a font size `f` and a spacing. */
  function ScaledWidth(f: real, spacing: real, xs: seq<real>): real
    decreases |xs|
  {
    if xs == [] then 0.0 else (f * xs[0] + spacing) + ScaledWidth(f, spacing, xs[1..])
  }

  /** A text's width is the font size times the sum of its factors, plus the spacing once per character. */
  lemma TextWidthClosedForm(fontsize: int, spacing: real, s: string)
    ensures TextWidth(fontsize, spacing, s) == fontsize as real * Sum(Factors(s)) + |s| as real * spacing
  {
    WidthByFactors(fontsize, spacing, s);
    ScaledClosedForm(fontsize as real, spacing, Factors(s));
  }

  lemma {:induction false} WidthByFactors(fontsize: int, spacing: real, s: string)
    ensures TextWidth(fontsize, spacing, s) == ScaledWidth(fontsize as real, spacing, Factors(s))
    decreases |s|
  {
    if s != [] {
      WidthByFactors(fontsize, spacing, s[1..]);
      assert Factors(s)[1..] == Factors(s[1..]);
    }
  }

  lemma {:induction false} ScaledClosedForm(f: real, spacing: real, xs: seq<real>)
    ensures ScaledWidth(f, spacing, xs) == f * Sum(xs) + |xs| as real * spacing
    decreases |xs|
  {
    if xs != [] {
      ScaledClosedForm(f, spacing, xs[1..]);
      WidthStep(f, spacing, xs[0], Sum(xs[1..]), Sum(xs),
        ScaledWidth(f, spacing, xs[1..]), ScaledWidth(f, spacing, xs), |xs[1..]|, |xs|);
    }
  }

  /** One more character in the closed form: its factor joins the sum and the spacing is counted once more. */
  lemma WidthStep(f: real, spacing: real, factor: real, rest: real, total: real,
                  restWidth: real, width: real, n: nat, m: nat)
    requires total == factor + rest && m == n + 1
    requires width == (f * factor + spacing) + restWidth
    requires restWidth == f * rest + n as real * spacing
    ensures width == f * total + m as real * spacing
  {
  }

  /** The width of two texts written one after the other is the sum of their widths. */
  lemma {:induction false} TextWidthAppend(fontsize: int, spacing: real, a: string, b: string)
    ensures TextWidth(fontsize, spacing, a + b) == TextWidth(fontsize, spacing, a) + TextWidth(fontsize, spacing, b)
    decreases |a|
  {
    if a == [] {
      assert a + b == b;
    } else {
      assert (a + b)[0] == a[0] && (a + b)[1..] == a[1..] + b;
      TextWidthAppend(fontsize, spacing, a[1..], b);
    }
  }

  // ---------------------------------------------------------------------------
  // Syllable extraction
  // ---------------------------------------------------------------------------

  /** One syllable: duration in centiseconds, times in milliseconds from the line start. */
  datatype Syllable = Syllable(text: string, duration: nat, startTime: int, endTime: int, x: real, y: real)

  /** The loop's accumulators: clock (ms) and x cursor. */
  datatype Cursor = Cursor(time: int, x: real)

  /** The cursor starts at the left margin, 10. */
  const Origin: Cursor := Cursor(0, 10.0)

  /** One iteration: an empty text is passed over; any other, blank or not, becomes a syllable. */
  function Step(fontsize: int, spacing: real, lineY: real, acc: (seq<Syllable>, Cursor), m: KMatch): (seq<Syllable>, Cursor) {
    var (syls, cur) := acc;
    if |m.text| == 0 then acc
    else
      var w := TextWidth(fontsize, spacing, m.text);
      var syl := Syllable(m.text, m.duration, cur.time, cur.time + m.duration * 10, cur.x + w / 2.0, lineY);
      (syls + [syl], Cursor(cur.time + m.duration * 10, cur.x + w))
  }

  function Run(fontsize: int, spacing: real, lineY: real, ms: seq<KMatch>): (seq<Syllable>, Cursor)
    decreases |ms|
  {
    if ms == [] then ([], Origin)
    else Step(fontsize, spacing, lineY, Run(fontsize, spacing, lineY, ms[..|ms| - 1]), ms[|ms| - 1])
  }

  /** The syllables of a karaoke text. */
  function Syllables(text: string, fontsize: int, spacing: real, lineY: real): seq<Syllable> {
    Run(fontsize, spacing, lineY, Scan(text)).0
  }

  /** `extract_syllables`. */
  method ExtractSyllables(text: string, fontsize: int, spacing: real, lineY: real) returns (syllables: seq<Syllable>)
    ensures syllables == Syllables(text, fontsize, spacing, lineY)
  {
    var matches := Scan(text);
    syllables := LayOutMatches(matches, fontsize, spacing, lineY);
  }

  /** The loop of `extract_syllables` over the matches, in order. */
  method LayOutMatches(matches: seq<KMatch>, fontsize: int, spacing: real, lineY: real) returns (syllables: seq<Syllable>)
    ensures syllables == Run(fontsize, spacing, lineY, matches).0
  {
    syllables := [];
    var currentTime := 0;
    var currentX := 10.0;
    for i := 0 to |matches|
      invariant (syllables, Cursor(currentTime, currentX)) == Run(fontsize, spacing, lineY, matches[..i])
    {
      var m := matches[i];
      RunSnoc(fontsize, spacing, lineY, matches, i);
      if |m.text| == 0 {
        continue;
      }
      var durationMs := m.duration * 10;
      var width := TextWidth(fontsize, spacing, m.text);
      var syllable := Syllable(m.text, m.duration, currentTime, currentTime + durationMs,
                               currentX + width / 2.0, lineY);
      syllables := syllables + [syllable];
      currentTime := currentTime + durationMs;
      currentX := currentX + width;
    }
    assert matches[..|matches|] == matches;
  }

  /** One more iteration of the loop. */
  lemma RunSnoc(fontsize: int, spacing: real, lineY: real, ms: seq<KMatch>, i: nat)
    requires i < |ms|
    ensures Run(fontsize, spacing, lineY, ms[..i + 1]) == Step(fontsize, spacing, lineY, Run(fontsize, spacing, lineY, ms[..i]), ms[i])
  {
    assert ms[..i + 1][..i] == ms[..i];
  }

  function Elapsed(syls: seq<Syllable>): int
    decreases |syls|
  {
    if syls == [] then 0 else Elapsed(syls[..|syls| - 1]) + 10 * syls[|syls| - 1].duration
  }

  function Advance(fontsize: int, spacing: real, syls: seq<Syllable>): real
    decreases |syls|
  {
    if syls == [] then 0.0
    else Advance(fontsize, spacing, syls[..|syls| - 1]) + TextWidth(fontsize, spacing, syls[|syls| - 1].text)
  }

  /** Each syllable starts when the ones before it have run out, lasts its duration and is centred after the widths before it. */
  predicate LaidOut(fontsize: int, spacing: real, lineY: real, syls: seq<Syllable>) {
    forall k | 0 <= k < |syls| ::
      && syls[k].startTime == Elapsed(syls[..k])
      && syls[k].endTime == syls[k].startTime + 10 * syls[k].duration
      && syls[k].x == 10.0 + Advance(fontsize, spacing, syls[..k]) + TextWidth(fontsize, spacing, syls[k].text) / 2.0
      && syls[k].y == lineY
  }

  /** The matches that become syllables: those with a non-empty text. */
  function Kept(ms: seq<KMatch>): seq<KMatch>
    decreases |ms|
  {
    if ms == [] then []
    else Kept(ms[..|ms| - 1]) + (if |ms[|ms| - 1].text| == 0 then [] else [ms[|ms| - 1]])
  }

  lemma Appended(syls: seq<Syllable>, s: Syllable)
    ensures (syls + [s])[..|syls|] == syls
    ensures forall k | 0 <= k < |syls| :: (syls + [s])[..k] == syls[..k] && (syls + [s])[k] == syls[k]
  {
    forall k | 0 <= k < |syls| ensures (syls + [s])[..k] == syls[..k] {
      assert (syls + [s])[..k] == syls[..k];
    }
  }

  lemma LaidOutAppend(fontsize: int, spacing: real, lineY: real, syls: seq<Syllable>, s: Syllable)
    requires LaidOut(fontsize, spacing, lineY, syls)
    requires s.startTime == Elapsed(syls) && s.endTime == s.startTime + 10 * s.duration
    requires s.x == 10.0 + Advance(fontsize, spacing, syls) + TextWidth(fontsize, spacing, s.text) / 2.0
    requires s.y == lineY
    ensures LaidOut(fontsize, spacing, lineY, syls + [s])
    ensures Elapsed(syls + [s]) == Elapsed(syls) + 10 * s.duration
    ensures Advance(fontsize, spacing, syls + [s]) == Advance(fontsize, spacing, syls) + TextWidth(fontsize, spacing, s.text)
  {
    Appended(syls, s);
  }

  /** The accumulators are the sums over the syllables emitted so far, and those are laid out one after another. */
  lemma {:induction false} RunLaidOut(fontsize: int, spacing: real, lineY: real, ms: seq<KMatch>)
    ensures var (syls, cur) := Run(fontsize, spacing, lineY, ms);
      && LaidOut(fontsize, spacing, lineY, syls)
      && cur == Cursor(Elapsed(syls), 10.0 + Advance(fontsize, spacing, syls))
    decreases |ms|
  {
    if ms != [] {
      var init, m := ms[..|ms| - 1], ms[|ms| - 1];
      var prev := Run(fontsize, spacing, lineY, init);
      var syls, cur := prev.0, prev.1;
      assert LaidOut(fontsize, spacing, lineY, syls) && cur == Cursor(Elapsed(syls), 10.0 + Advance(fontsize, spacing, syls)) by {
        RunLaidOut(fontsize, spacing, lineY, init);
      }
      if |m.text| != 0 {
        var w := TextWidth(fontsize, spacing, m.text);
        var syl := Syllable(m.text, m.duration, cur.time, cur.time + m.duration * 10, cur.x + w / 2.0, lineY);
        assert Run(fontsize, spacing, lineY, ms) == (syls + [syl], Cursor(cur.time + m.duration * 10, cur.x + w)) by {
          assert Run(fontsize, spacing, lineY, ms) == Step(fontsize, spacing, lineY, prev, m);
        }
        LaidOutAppend(fontsize, spacing, lineY, syls, syl);
      } else {
        assert Run(fontsize, spacing, lineY, ms) == prev by {
          assert Run(fontsize, spacing, lineY, ms) == Step(fontsize, spacing, lineY, prev, m);
        }
      }
    }
  }

  /** The syllables are exactly the matches with a non-empty text, blank ones included, in order. */
  lemma {:induction false} RunKeeps(fontsize: int, spacing: real, lineY: real, ms: seq<KMatch>)
    ensures var syls := Run(fontsize, spacing, lineY, ms).0;
      |syls| == |Kept(ms)| && forall k | 0 <= k < |syls| :: Kept(ms)[k] == KMatch(syls[k].duration, syls[k].text)
    decreases |ms|
  {
    if ms != [] {
      var init := ms[..|ms| - 1];
      RunKeeps(fontsize, spacing, lineY, init);
      var syls := Run(fontsize, spacing, lineY, init).0;
      if |ms[|ms| - 1].text| != 0 {
        var next := Run(fontsize, spacing, lineY, ms).0;
        assert |next| == |syls| + 1;
        assert forall k | 0 <= k < |syls| :: next[k] == syls[k];
      }
    }
  }

  lemma PrefixStep(syls: seq<Syllable>, k: nat)
    requires k < |syls|
    ensures Elapsed(syls[..k + 1]) == Elapsed(syls[..k]) + 10 * syls[k].duration
  {
    assert syls[..k + 1][..k] == syls[..k];
  }

  /** The first syllable starts at 0, each lasts ten times its duration, and each starts where the previous one ends. */
  lemma SyllableTiming(fontsize: int, spacing: real, lineY: real, ms: seq<KMatch>)
    ensures var syls := Run(fontsize, spacing, lineY, ms).0;
      && (|syls| > 0 ==> syls[0].startTime == 0)
      && (forall k | 0 <= k < |syls| :: syls[k].endTime - syls[k].startTime == 10 * syls[k].duration)
      && (forall k | 0 <= k < |syls| - 1 :: syls[k + 1].startTime == syls[k].endTime)
  {
    RunLaidOut(fontsize, spacing, lineY, ms);
    var syls := Run(fontsize, spacing, lineY, ms).0;
    forall k | 0 <= k < |syls| - 1 ensures syls[k + 1].startTime == syls[k].endTime {
      PrefixStep(syls, k);
    }
  }

  /** Unlike the processor's extraction, a whitespace-only text is kept and moves both the clock and the cursor. */
  lemma BlankTextKept(fontsize: int, spacing: real, lineY: real, ms: seq<KMatch>, m: KMatch)
    requires m.text != [] && AllSpace(m.text)
    ensures var (before, c0) := Run(fontsize, spacing, lineY, ms);
      var (after, c1) := Run(fontsize, spacing, lineY, ms + [m]);
      && |after| == |before| + 1 && after[|before|].text == m.text
      && c1.time == c0.time + 10 * m.duration
      && c1.x == c0.x + TextWidth(fontsize, spacing, m.text)
  {
    assert (ms + [m])[..|ms|] == ms;
  }

  // ---------------------------------------------------------------------------
  // Dialogue lines
  // ---------------------------------------------------------------------------

  /** The dictionary `parse_dialogue` returns. */
  datatype DialogueRecord = DialogueRecord(
    layer: int, start: string, end: string, style: string, actor: string,
    marginL: int, marginR: int, marginV: int, effect: string, text: string)

  /** `parse_dialogue`: `None` when the line does not fit the grammar; integers for the layer and margins. */
  function ParseDialogue(line: string): (r: Option<DialogueRecord>)
    ensures r.None? <==> MatchDialogue(line).None?
    ensures r.Some? ==> r.value.layer >= 0 && r.value.marginL >= 0 && r.value.marginR >= 0 && r.value.marginV >= 0
    ensures r.Some? ==> ',' !in r.value.style && '\n' !in r.value.text
  {
    match MatchDialogue(line)
    case None => None
    case Some(d) =>
      assert ',' !in d.style by {
        assert Fields(d)[3] == d.style;
      }
      Some(DialogueRecord(
        DigitsValue(d.layer), d.start, d.end, d.style, d.actor,
        DigitsValue(d.marginL), DigitsValue(d.marginR), DigitsValue(d.marginV), d.effect, d.text))
  }

  /** A well-formed line gives back its groups; the text keeps every comma after the ninth. */
  lemma ParseDialogueOf(d: DialogueMatch, indent: string, tail: string)
    requires Dialogue.WellFormed(d) && AllSpace(indent)
    requires tail == [] || tail[0] == '\n'
    ensures ParseDialogue(Dialogue.Render(d, indent, tail))
            == Some(DialogueRecord(
                 DigitsValue(d.layer), d.start, d.end, d.style, d.actor,
                 DigitsValue(d.marginL), DigitsValue(d.marginR), DigitsValue(d.marginV), d.effect, d.text))
  {
    MatchDialogueComplete(d, indent, tail);
  }

  // ---------------------------------------------------------------------------
  // The style scanner
  // ---------------------------------------------------------------------------

  /** The scanner's variables: the styles so far, whether a `[V4` line was seen, the current field list, and whether it stopped. */
  datatype ScanState = ScanState(styles: StyleTable, inStyles: bool, fields: seq<string>, stopped: bool)

  const ScanStart: ScanState := ScanState(map[], false, [], false)

  /** The style one `Style:` line builds: each field with a value at its index; a later duplicate field wins. */
  function StyleOf(fields: seq<string>, values: seq<string>): Style
    decreases |fields|
  {
    if fields == [] then map[]
    else
      var i := |fields| - 1;
      var style := StyleOf(fields[..i], values);
      if i < |values| then style[fields[i] := values[i]] else style
  }

  /** What one stripped line of the file does to the scanner; before the section a line changes nothing. */
  function ScanStripped(st: ScanState, line: string): (r: ScanState)
    ensures !r.inStyles ==> r == st
    ensures r.stopped ==> st.stopped || r.inStyles
    ensures !st.stopped && st.inStyles && StartsWith(line, "[") && !StartsWith(line, "[V4") ==> r.stopped && r.styles == st.styles
    ensures r.stopped && !st.stopped ==> StartsWith(line, "[") && !StartsWith(line, "[V4")
  {
    if st.stopped then st
    else if StartsWith(line, "[V4") then st.(inStyles := true)
    else if StartsWith(line, "[") && st.inStyles then st.(stopped := true)
    else if !st.inStyles then st
    else if StartsWith(line, "Format:") then st.(fields := CommaFields(line[7..]))
    else if StartsWith(line, "Style:") then
      var values := CommaFields(line[6..]);
      if st.fields != [] && |values| >= 3 then
        var style := StyleOf(st.fields, values);
        if "Name" in style then st.(styles := st.styles[style["Name"] := style]) else st
      else st
    else st
  }

  /** Each line is stripped before it is looked at. */
  function ScanLine(st: ScanState, raw: string): ScanState {
    ScanStripped(st, Strip(raw))
  }

  /** The scanner after `lines`; nothing is kept before the section starts, and it stops only inside the section. */
  function ScanLines(lines: seq<string>): (r: ScanState)
    ensures !r.inStyles ==> r.styles == map[] && r.fields == []
    ensures r.stopped ==> r.inStyles
    decreases |lines|
  {
    if lines == [] then ScanStart else ScanLine(ScanLines(lines[..|lines| - 1]), lines[|lines| - 1])
  }

  /** `parse_styles`, over the lines of the file. */
  method ParseStyles(lines: seq<string>) returns (styles: StyleTable)
    ensures styles == ScanLines(lines).styles
  {
    styles := map[];
    var inStyles := false;
    var formatFields: seq<string> := [];
    var i := 0;
    while i < |lines|
      invariant i <= |lines|
      invariant ScanLines(lines[..i]) == ScanState(styles, inStyles, formatFields, false)
    {
      var line := Strip(lines[i]);
      ghost var before := ScanState(styles, inStyles, formatFields, false);
      ghost var after := ScanStripped(before, line);
      assert ScanLines(lines[..i + 1]) == after by {
        assert lines[..i + 1][..i] == lines[..i];
      }
      if StartsWith(line, "[V4") {
        inStyles := true;
        i := i + 1;
        continue;
      } else if StartsWith(line, "[") && inStyles {
        assert after.stopped && after.styles == styles;
        assert ScanLines(lines).styles == styles by {
          StopsAt(lines, i + 1);
        }
        return;
      }
      if inStyles {
        if StartsWith(line, "Format:") {
          formatFields := CommaFields(line[7..]);
        } else if StartsWith(line, "Style:") {
          var values := CommaFields(line[6..]);
          if formatFields != [] && |values| >= 3 {
            var style := BuildStyle(formatFields, values);
            if "Name" in style {
              styles := styles[style["Name"] := style];
              assert after.styles == styles;
            } else {
              assert after.styles == styles;
            }
          }
        }
      }
      assert after == ScanState(styles, inStyles, formatFields, false);
      i := i + 1;
    }
    assert lines[..i] == lines;
  }

  /** The inner loop of `parse_styles` that fills one style's dictionary. */
  method BuildStyle(fields: seq<string>, values: seq<string>) returns (style: Style)
    ensures style == StyleOf(fields, values)
  {
    style := map[];
    for i := 0 to |fields|
      invariant style == StyleOf(fields[..i], values)
    {
      assert fields[..i + 1][..i] == fields[..i];
      if i < |values| {
        style := style[fields[i] := values[i]];
      }
    }
    assert fields[..|fields|] == fields;
  }

  /** Once the scanner has stopped at the next section, no later line changes anything. */
  lemma {:induction false} StoppedStays(a: seq<string>, b: seq<string>)
    requires ScanLines(a).stopped
    ensures ScanLines(a + b) == ScanLines(a)
    decreases |b|
  {
    if b == [] {
      assert a + b == a;
    } else {
      var init := b[..|b| - 1];
      assert (a + b)[..|a + b| - 1] == a + init;
      assert (a + b)[|a + b| - 1] == b[|b| - 1];
      StoppedStays(a, init);
      assert ScanLines(a + b) == ScanLine(ScanLines(a + init), b[|b| - 1]);
    }
  }

  lemma StopsAt(lines: seq<string>, n: nat)
    requires n <= |lines| && ScanLines(lines[..n]).stopped
    ensures ScanLines(lines) == ScanLines(lines[..n])
  {
    StoppedStays(lines[..n], lines[n..]);
    assert lines[..n] + lines[n..] == lines;
  }

  /** A field is in the style exactly when it has a value at its index. */
  lemma {:induction false} StyleOfKeys(fields: seq<string>, values: seq<string>, key: string)
    ensures key in StyleOf(fields, values) <==> exists i | 0 <= i < |fields| && i < |values| :: fields[i] == key
    decreases |fields|
  {
    if fields != [] {
      var n := |fields| - 1;
      StyleOfKeys(fields[..n], values, key);
      if key in StyleOf(fields, values) && key !in StyleOf(fields[..n], values) {
        assert fields[n] == key;
      }
      if exists i | 0 <= i < |fields| && i < |values| :: fields[i] == key {
        var i :| 0 <= i < |fields| && i < |values| && fields[i] == key;
        if i < n {
          assert fields[..n][i] == key;
        }
      }
    }
  }

  /** A field's value is the one at the index of its last occurrence in the field list. */
  lemma {:induction false} StyleOfValue(fields: seq<string>, values: seq<string>, i: nat)
    requires i < |fields| && i < |values|
    requires forall j | i < j < |fields| :: fields[j] != fields[i]
    ensures fields[i] in StyleOf(fields, values) && StyleOf(fields, values)[fields[i]] == values[i]
    decreases |fields|
  {
    var n := |fields| - 1;
    if i < n {
      assert forall j | i < j < n :: fields[..n][j] == fields[j];
      StyleOfValue(fields[..n], values, i);
      assert fields[..n][i] == fields[i];
    }
  }

  /** Every style is stored under its own `Name`. */
  predicate KeyedByName(styles: StyleTable) {
    forall n | n in styles :: "Name" in styles[n] && styles[n]["Name"] == n
  }

  lemma ScanStrippedKeyed(st: ScanState, line: string)
    requires KeyedByName(st.styles)
    ensures KeyedByName(ScanStripped(st, line).styles)
  {
    var next := ScanStripped(st, line).styles;
    if && !st.stopped && st.inStyles && StartsWith(line, "Style:")
       && !StartsWith(line, "[V4") && !StartsWith(line, "[") && !StartsWith(line, "Format:") {
      var values := CommaFields(line[6..]);
      var style := StyleOf(st.fields, values);
      if st.fields != [] && |values| >= 3 && "Name" in style {
        assert next == st.styles[style["Name"] := style];
      } else {
        assert next == st.styles;
      }
    } else {
      assert next == st.styles;
    }
  }

  lemma {:induction false} StylesKeyedByName(lines: seq<string>)
    ensures KeyedByName(ScanLines(lines).styles)
    decreases |lines|
  {
    if lines != [] {
      StylesKeyedByName(lines[..|lines| - 1]);
      ScanStrippedKeyed(ScanLines(lines[..|lines| - 1]), Strip(lines[|lines| - 1]));
    }
  }

  /** Without a `[V4` line nothing is read. */
  lemma {:induction false} NoSectionNoStyles(lines: seq<string>)
    requires forall k | 0 <= k < |lines| :: !StartsWith(Strip(lines[k]), "[V4")
    ensures ScanLines(lines) == ScanStart
    decreases |lines|
  {
    if lines != [] {
      var init := lines[..|lines| - 1];
      assert forall k | 0 <= k < |init| :: init[k] == lines[k];
      NoSectionNoStyles(init);
      var line := Strip(lines[|lines| - 1]);
      assert !StartsWith(line, "[V4");
      assert ScanLines(lines) == ScanStripped(ScanStart, line);
    }
  }

  /** Without a `Format:` line no style is kept. */
  lemma {:induction false} NoFormatNoStyles(lines: seq<string>)
    requires forall k | 0 <= k < |lines| :: !StartsWith(Strip(lines[k]), "Format:")
    ensures ScanLines(lines).styles == map[] && ScanLines(lines).fields == []
    decreases |lines|
  {
    if lines != [] {
      var init := lines[..|lines| - 1];
      assert forall k | 0 <= k < |init| :: init[k] == lines[k];
      NoFormatNoStyles(init);
      NoFormatStep(ScanLines(init), Strip(lines[|lines| - 1]));
    }
  }

  lemma NoFormatStep(st: ScanState, line: string)
    requires st.styles == map[] && st.fields == [] && !StartsWith(line, "Format:")
    ensures ScanStripped(st, line).styles == map[] && ScanStripped(st, line).fields == []
  {
  }

  /** A kept `Style:` line replaces any earlier style of the same name. */
  lemma LaterStyleWins(st: ScanState, line: string)
    requires !st.stopped && st.inStyles && st.fields != []
    requires StartsWith(line, "Style:") && |CommaFields(line[6..])| >= 3
    requires "Name" in StyleOf(st.fields, CommaFields(line[6..]))
    ensures var style := StyleOf(st.fields, CommaFields(line[6..]));
      && style["Name"] in ScanStripped(st, line).styles
      && ScanStripped(st, line).styles[style["Name"]] == style
  {
    StartsWithHead(line, "Style:");
    HeadMismatch(line, "[V4");
    HeadMismatch(line, "[");
    HeadMismatch(line, "Format:");
  }

  /** A `Style:` line read inside the section, after a `Format:` line, with three values or more and a `Name`. */
  predicate Keeps(st: ScanState, line: string) {
    && !st.stopped && st.inStyles && st.fields != [] && StartsWith(line, "Style:")
    && |CommaFields(line[6..])| >= 3 && "Name" in StyleOf(st.fields, CommaFields(line[6..]))
  }

  /** One line stores a style under its `Name` exactly when it is a kept `Style:` line, and otherwise leaves the styles alone. */
  lemma ScanStep(st: ScanState, line: string)
    ensures Keeps(st, line) ==>
      var style := StyleOf(st.fields, CommaFields(line[6..]));
      ScanStripped(st, line).styles == st.styles[style["Name"] := style]
    ensures !Keeps(st, line) ==> ScanStripped(st, line).styles == st.styles
  {
    if StartsWith(line, "Style:") {
      StartsWithHead(line, "Style:");
      HeadMismatch(line, "[V4");
      HeadMismatch(line, "[");
      HeadMismatch(line, "Format:");
    }
  }

  /** A `Style:` line with fewer than three values changes nothing. */
  lemma FewValuesIgnored(st: ScanState, line: string)
    requires StartsWith(line, "Style:") && |CommaFields(line[6..])| < 3
    ensures ScanStripped(st, line) == st
  {
    StartsWithHead(line, "Style:");
    HeadMismatch(line, "[V4");
    HeadMismatch(line, "[");
    HeadMismatch(line, "Format:");
  }

  /** Lines before the first `[V4` line are ignored, whatever they hold. */
  lemma {:induction false} IgnoredBeforeSection(a: seq<string>, b: seq<string>)
    requires forall k | 0 <= k < |a| :: !StartsWith(Strip(a[k]), "[V4")
    ensures ScanLines(a + b) == ScanLines(b)
    decreases |b|
  {
    if b == [] {
      assert a + b == a;
      NoSectionNoStyles(a);
    } else {
      var init := b[..|b| - 1];
      assert (a + b)[..|a + b| - 1] == a + init;
      assert (a + b)[|a + b| - 1] == b[|b| - 1];
      IgnoredBeforeSection(a, init);
    }
  }

  lemma StartsWithHead(s: string, p: string)
    requires p != [] && StartsWith(s, p)
    ensures s != [] && s[0] == p[0]
  {
    assert s[..|p|][0] == p[0];
  }

  lemma HeadMismatch(s: string, p: string)
    requires s != [] && p != [] && s[0] != p[0]
    ensures !StartsWith(s, p)
  {
  }

  // ---------------------------------------------------------------------------
  // generate_syllable_lines
  // ---------------------------------------------------------------------------

  /** The settings read from the configuration, with their defaults. */
  datatype Settings = Settings(
    entryDuration: int, fadeoutDuration: int,
    primary: string, borderColor: string, shadowColor: string,
    borderSize: string, shadowSize: string, blur: string)

  /** Settings with no newline in any text they put into a line. */
  predicate OneLine(s: Settings) {
    && '\n' !in s.blur && '\n' !in s.borderSize && '\n' !in s.shadowSize
    && '\n' !in s.primary && '\n' !in s.borderColor && '\n' !in s.shadowColor
  }

  /** `int(config.get(key, default))`. */
  function ConfigInt(config: Config, key: string, default: int): Option<int> {
    if key in config then ParseIntLiteral(config[key]) else Some(default)
  }

  function ConfigText(config: Config, key: string, default: string): string {
    if key in config then config[key] else default
  }

  function ReadSettings(config: Config): (r: Option<Settings>)
    ensures config == map[] ==> r == Some(Settings(300, 300, "#FFFFFF", "#FC76F2", "#000000", "2", "0", "3"))
    ensures r.None? <==>
      || ("ENTRY_DURATION" in config && ParseIntLiteral(config["ENTRY_DURATION"]).None?)
      || ("FADEOUT_DURATION" in config && ParseIntLiteral(config["FADEOUT_DURATION"]).None?)
    ensures "ENTRY_DURATION" in config && r.Some? ==> Some(r.value.entryDuration) == ParseIntLiteral(config["ENTRY_DURATION"])
    ensures "ENTRY_DURATION" !in config && r.Some? ==> r.value.entryDuration == 300
    ensures "FADEOUT_DURATION" in config && r.Some? ==> Some(r.value.fadeoutDuration) == ParseIntLiteral(config["FADEOUT_DURATION"])
    ensures "FADEOUT_DURATION" !in config && r.Some? ==> r.value.fadeoutDuration == 300
    ensures "PRIMARY_COLOR" in config && r.Some? ==> r.value.primary == config["PRIMARY_COLOR"]
    ensures "BORDER_COLOR" in config && r.Some? ==> r.value.borderColor == config["BORDER_COLOR"]
    ensures "SHADOW_COLOR" in config && r.Some? ==> r.value.shadowColor == config["SHADOW_COLOR"]
    ensures "BORDER_SIZE" in config && r.Some? ==> r.value.borderSize == config["BORDER_SIZE"]
    ensures "SHADOW_SIZE" in config && r.Some? ==> r.value.shadowSize == config["SHADOW_SIZE"]
    ensures "BLUR" in config && r.Some? ==> r.value.blur == config["BLUR"]
  {
    var entry := ConfigInt(config, "ENTRY_DURATION", 300);
    var fadeout := ConfigInt(config, "FADEOUT_DURATION", 300);
    if entry.None? || fadeout.None? then None
    else Some(Settings(
      entry.value, fadeout.value,
      ConfigText(config, "PRIMARY_COLOR", "#FFFFFF"),
      ConfigText(config, "BORDER_COLOR", "#FC76F2"),
      ConfigText(config, "SHADOW_COLOR", "#000000"),
      ConfigText(config, "BORDER_SIZE", "2"),
      ConfigText(config, "SHADOW_SIZE", "0"),
      ConfigText(config, "BLUR", "3")))
  }

  /** `\an5\pos(x,y)`: the syllable's centre, rounded half to even. */
  function PositionTags(syl: Syllable): (r: string)
    ensures '\n' !in r
  {
    SignedTextChars(ShowRounded(syl.x));
    SignedTextChars(ShowRounded(syl.y));
    PositionFrame(ShowRounded(syl.x), ShowRounded(syl.y));
    "\\an5\\pos(" + ShowRounded(syl.x) + "," + ShowRounded(syl.y) + ")"
  }

  /** `\fad(entry,fadeout)` and the border, shadow and blur sizes. */
  function FadeTags(s: Settings): (r: string)
    ensures OneLine(s) ==> '\n' !in r
  {
    SignedTextChars(IntToString(s.entryDuration));
    SignedTextChars(IntToString(s.fadeoutDuration));
    FadeFrame(IntToString(s.entryDuration), IntToString(s.fadeoutDuration), s.blur, s.borderSize, s.shadowSize);
    "\\fad(" + IntToString(s.entryDuration) + "," + IntToString(s.fadeoutDuration) + ")"
    + "\\blur" + s.blur + "\\bord" + s.borderSize + "\\shad" + s.shadowSize
  }

  /** The primary, border and shadow colours in ASS notation. */
  function ColorTags(s: Settings): (r: string)
    ensures OneLine(s) ==> '\n' !in r
  {
    HexToAssAvoids(s.primary, '\n');
    HexToAssAvoids(s.borderColor, '\n');
    HexToAssAvoids(s.shadowColor, '\n');
    ColorFrame(HexToAss(s.primary), HexToAss(s.borderColor), HexToAss(s.shadowColor));
    "\\c" + HexToAss(s.primary) + "\\3c" + HexToAss(s.borderColor) + "\\4c" + HexToAss(s.shadowColor)
  }

  /** The override tags of one syllable's line (without the braces); one line when the settings are. */
  function SyllableTags(s: Settings, syl: Syllable): (r: string)
    ensures OneLine(s) ==> '\n' !in r
  {
    JoinOneLine(PositionTags(syl), FadeTags(s), ColorTags(s));
    PositionTags(syl) + FadeTags(s) + ColorTags(s)
  }

  /**
   * One syllable's line: from the line start plus the syllable's start to the
   * end of the line. It parses back as a dialogue line with the source's layer
   * and style and those two times.
   */
  function SyllableLine(d: DialogueRecord, s: Settings, lineStartMs: int, lineEndMs: int, syl: Syllable): (r: string)
    ensures d.layer >= 0 && ',' !in d.style && '\n' !in syl.text && OneLine(s) ==>
      MatchDialogue(r)
      == Some(DialogueMatch(IntToString(d.layer), FormatTime(lineStartMs + syl.startTime), FormatTime(lineEndMs),
                            d.style, "", "0", "0", "0", "fx", "{" + SyllableTags(s, syl) + "}" + syl.text))
  {
    BracedLineParses(d.layer, lineStartMs + syl.startTime, lineEndMs, d.style, SyllableTags(s, syl), syl.text);
    FxLine(IntToString(d.layer), FormatTime(lineStartMs + syl.startTime), FormatTime(lineEndMs), d.style,
           "{" + SyllableTags(s, syl) + "}" + syl.text)
  }

  /** `f` applied to every element, in order. */
  function MapSeq<A, B>(f: A -> B, xs: seq<A>): (r: seq<B>)
    ensures |r| == |xs|
    ensures forall k | 0 <= k < |xs| :: r[k] == f(xs[k])
    decreases |xs|
  {
    if xs == [] then [] else MapSeq(f, xs[..|xs| - 1]) + [f(xs[|xs| - 1])]
  }

  /** Mapping one more element appends its image. */
  lemma MapSeqPrefix<A, B>(f: A -> B, xs: seq<A>, i: nat)
    requires i < |xs|
    ensures MapSeq(f, xs[..i + 1]) == MapSeq(f, xs[..i]) + [f(xs[i])]
  {
    assert xs[..i + 1][..i] == xs[..i];
  }

  /** The lines of a sequence of syllables, one each, in order. */
  function SyllableLines(d: DialogueRecord, s: Settings, lineStartMs: int, lineEndMs: int, syls: seq<Syllable>): seq<string> {
    MapSeq(syl => SyllableLine(d, s, lineStartMs, lineEndMs, syl), syls)
  }

  /** The y every syllable of this script is placed at. */
  const LineY: real := 29.0

  /**
   * `generate_syllable_lines`: `None` where reading the settings or the style
   * metrics raises; otherwise one line per syllable, in order.
   */
  method GenerateSyllableLines(dialogue: DialogueRecord, config: Config, styles: StyleTable)
    returns (r: Option<seq<string>>)
    ensures r.None? <==> ReadSettings(config).None? || StyleMetrics(styles, dialogue.style).None?
    ensures r.Some? ==>
      var (fontsize, spacing) := StyleMetrics(styles, dialogue.style).value;
      r.value == SyllableLines(dialogue, ReadSettings(config).value, ParseTime(dialogue.start), ParseTime(dialogue.end),
                               Syllables(dialogue.text, fontsize, spacing, LineY))
  {
    var settings := ReadSettings(config);
    var metrics := StyleMetrics(styles, dialogue.style);
    if settings.None? || metrics.None? {
      return None;
    }
    var (fontsize, spacing) := metrics.value;
    var lineStartMs := ParseTime(dialogue.start);
    var lineEndMs := ParseTime(dialogue.end);
    var syllables := ExtractSyllables(dialogue.text, fontsize, spacing, LineY);
    if |syllables| == 0 {
      return Some([]);
    }
    var lines := EmitLines(dialogue, settings.value, lineStartMs, lineEndMs, syllables);
    return Some(lines);
  }

  /** The loop of `generate_syllable_lines`: one line appended per syllable. */
  method EmitLines(d: DialogueRecord, s: Settings, lineStartMs: int, lineEndMs: int, syllables: seq<Syllable>)
    returns (lines: seq<string>)
    ensures lines == SyllableLines(d, s, lineStartMs, lineEndMs, syllables)
  {
    var line := syl => SyllableLine(d, s, lineStartMs, lineEndMs, syl);
    lines := [];
    for i := 0 to |syllables|
      invariant lines == MapSeq(line, syllables[..i])
    {
      MapSeqPrefix(line, syllables, i);
      lines := lines + [SyllableLine(d, s, lineStartMs, lineEndMs, syllables[i])];
    }
    assert syllables[..|syllables|] == syllables;
  }

  // The fixed text around each tag's values holds no line break; these take the
  // values as plain strings, so that none of the arithmetic behind them is in view.

  lemma PositionFrame(x: string, y: string)
    requires '\n' !in x && '\n' !in y
    ensures '\n' !in "\\an5\\pos(" + x + "," + y + ")"
  {
  }

  lemma FadeFrame(entry: string, fadeout: string, blur: string, bord: string, shad: string)
    ensures '\n' !in entry && '\n' !in fadeout && '\n' !in blur && '\n' !in bord && '\n' !in shad ==>
      '\n' !in "\\fad(" + entry + "," + fadeout + ")" + "\\blur" + blur + "\\bord" + bord + "\\shad" + shad
  {
  }

  lemma ColorFrame(primary: string, border: string, shadow: string)
    ensures '\n' !in primary && '\n' !in border && '\n' !in shadow ==>
      '\n' !in "\\c" + primary + "\\3c" + border + "\\4c" + shadow
  {
  }

  lemma JoinOneLine(a: string, b: string, c: string)
    ensures '\n' !in a && '\n' !in b && '\n' !in c ==>
      '\n' !in a + b + c
  {
  }

  /** A line of the given layer and style, with one-line tags in braces, parses back. */
  lemma BracedLineParses(layer: int, start: int, end: int, style: string, tags: string, text: string)
    ensures layer >= 0 && ',' !in style && '\n' !in tags && '\n' !in text ==>
      MatchDialogue(FxLine(IntToString(layer), FormatTime(start), FormatTime(end), style, "{" + tags + "}" + text))
      == Some(DialogueMatch(IntToString(layer), FormatTime(start), FormatTime(end),
                            style, "", "0", "0", "0", "fx", "{" + tags + "}" + text))
  {
    if layer >= 0 && ',' !in style && '\n' !in tags && '\n' !in text {
      assert IsNumeral(IntToString(layer));
      FxLineParses(IntToString(layer), FormatTime(start), FormatTime(end), style, "{" + tags + "}" + text);
    }
  }
}

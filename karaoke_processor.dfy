/**
 * `KaraokeProcessor` (py/karaoke_processor.py): a processor configured with a
 * font size and a line height, the character-width heuristic, the parse of a
 * `Dialogue:` line into a `KaraokeLine`, and the extraction of timed and
 * positioned syllables from its `{\k..}` text.
 *
 * The processor's three attributes are set once by its constructor and never
 * changed, so it is a value here. Widths are exact reals: the coefficients are
 * the decimals the source writes.
 */
module KaraokeProcessor {
  import opened Options
  import opened Strs
  import opened TimeCodec
  import opened Dialogue
  import opened KaraokeScan

  /** The left margin every line's cursor starts at. */
  const MarginLeft: real := 10.0
  const DefaultFontsize: int := 48
  const DefaultLineY: real := 29.0

  datatype Processor = Processor(fontsize: int, lineY: real)

  /** One emitted syllable: duration in centiseconds, times in milliseconds from the line start. */
  datatype Syllable = Syllable(
    text: string, duration: nat, startTime: int, endTime: int,
    x: real, y: real, index: nat, charIndex: nat)

  datatype KaraokeLine = KaraokeLine(
    layer: int, startTime: string, endTime: string, style: string, name: string,
    marginL: int, marginR: int, marginV: int, effect: string, text: string,
    syllables: seq<Syllable>, duration: int)

  const Narrow: set<char> := {'i', 'I', 'l', 'L', '1', '|', '!', '.', ',', ';', ':', '\'', '"'}
  const Wide: set<char> := {'m', 'M', 'w', 'W', '\U{E6}', '\U{153}'}

  // ---------------------------------------------------------------------------
  // Width estimation
  // ---------------------------------------------------------------------------

  /** `estimate_char_width`: narrow 0.4, wide 0.7, space 0.3, anything else 0.55 of the font size. */
  function CharWidth(p: Processor, c: char): (w: real)
    ensures p.fontsize > 0 ==> 0.3 * p.fontsize as real <= w <= 0.7 * p.fontsize as real
    ensures p.fontsize == 0 ==> w == 0.0
  {
    var f := p.fontsize as real;
    if c in Narrow then f * 0.4
    else if c in Wide then f * 0.7
    else if c == ' ' then f * 0.3
    else f * 0.55
  }

  /** `estimate_text_width`: the widths of the characters added up. */
  function TextWidth(p: Processor, s: string): (w: real)
    ensures p.fontsize > 0 ==> (w > 0.0 <==> s != [])
    ensures p.fontsize > 0 ==> w >= 0.0
    decreases |s|
  {
    if s == [] then 0.0 else CharWidth(p, s[0]) + TextWidth(p, s[1..])
  }

  /** The width of two texts written one after the other is the sum of their widths. */
  lemma {:induction false} TextWidthAppend(p: Processor, a: string, b: string)
    ensures TextWidth(p, a + b) == TextWidth(p, a) + TextWidth(p, b)
    decreases |a|
  {
    if a == [] {
      assert a + b == b;
    } else {
      assert (a + b)[0] == a[0] && (a + b)[1..] == a[1..] + b;
      TextWidthAppend(p, a[1..], b);
    }
  }

  // ---------------------------------------------------------------------------
  // Syllable extraction
  // ---------------------------------------------------------------------------

  /** The three accumulators of the extraction loop: clock (ms), x cursor, character count. */
  datatype Cursor = Cursor(time: int, x: real, chars: nat)

  const Origin: Cursor := Cursor(0, MarginLeft, 0)

  /**
   * One iteration for the `i`-th match: a match whose text is empty after
   * `strip()` (exactly the all-whitespace texts, by `StripEmptyIffAllSpace`)
   * is passed over; any other one becomes a syllable at the cursor, and the
   * clock, the cursor and the character count advance past it.
   */
  function Step(p: Processor, acc: (seq<Syllable>, Cursor), i: nat, m: KMatch): (seq<Syllable>, Cursor) {
    var (syls, cur) := acc;
    if AllSpace(m.text) then acc
    else
      var w := TextWidth(p, m.text);
      var syl := Syllable(m.text, m.duration, cur.time, cur.time + m.duration * 10,
                          cur.x + w / 2.0, p.lineY, i, cur.chars);
      (syls + [syl], Cursor(cur.time + m.duration * 10, cur.x + w, cur.chars + |m.text|))
  }

  /** The syllables and accumulators after the loop has gone over `ms`. */
  function Run(p: Processor, ms: seq<KMatch>): (seq<Syllable>, Cursor)
    decreases |ms|
  {
    if ms == [] then ([], Origin) else Step(p, Run(p, ms[..|ms| - 1]), |ms| - 1, ms[|ms| - 1])
  }

  /** The syllables of a karaoke text. */
  function Syllables(p: Processor, text: string): seq<Syllable> {
    Run(p, Scan(text)).0
  }

  /** `extract_syllables`. The line start it is given plays no part in the result. */
  method ExtractSyllables(p: Processor, text: string, lineStartMs: int) returns (syllables: seq<Syllable>)
    ensures syllables == Syllables(p, text)
  {
    var matches := Scan(text);
    syllables := LayOutMatches(p, matches);
  }

  /** The loop of `extract_syllables` over the matches, in order. */
  method LayOutMatches(p: Processor, matches: seq<KMatch>) returns (syllables: seq<Syllable>)
    ensures syllables == Run(p, matches).0
  {
    syllables := [];
    var currentTime := 0;
    var currentX := MarginLeft;
    var charIndex: nat := 0;
    for i := 0 to |matches|
      invariant syllables == Run(p, matches[..i]).0
      invariant Cursor(currentTime, currentX, charIndex) == Run(p, matches[..i]).1
    {
      var m := matches[i];
      RunSnoc(p, matches, i);
      if AllSpace(m.text) {
        continue;
      }
      var durationMs := m.duration * 10;
      var width := TextWidth(p, m.text);
      var syllable := Syllable(m.text, m.duration, currentTime, currentTime + durationMs,
                               currentX + width / 2.0, p.lineY, i, charIndex);
      syllables := syllables + [syllable];
      currentTime := currentTime + durationMs;
      currentX := currentX + width;
      charIndex := charIndex + |m.text|;
    }
    assert matches[..|matches|] == matches;
  }

  /** One more iteration of the loop. */
  lemma RunSnoc(p: Processor, ms: seq<KMatch>, i: nat)
    requires i < |ms|
    ensures Run(p, ms[..i + 1]) == Step(p, Run(p, ms[..i]), i, ms[i])
  {
    assert ms[..i + 1][..i] == ms[..i];
  }

  /** Total time of `syls`: ten milliseconds per centisecond of duration. */
  function Elapsed(syls: seq<Syllable>): int
    decreases |syls|
  {
    if syls == [] then 0 else Elapsed(syls[..|syls| - 1]) + 10 * syls[|syls| - 1].duration
  }

  /** Total width of the texts of `syls`. */
  function Advance(p: Processor, syls: seq<Syllable>): real
    decreases |syls|
  {
    if syls == [] then 0.0 else Advance(p, syls[..|syls| - 1]) + TextWidth(p, syls[|syls| - 1].text)
  }

  /** Total length of the texts of `syls`. */
  function CharCount(syls: seq<Syllable>): nat
    decreases |syls|
  {
    if syls == [] then 0 else CharCount(syls[..|syls| - 1]) + |syls[|syls| - 1].text|
  }

  /**
   * Every syllable starts when the ones before it have run out, lasts its
   * duration, is centred half its width after the margin plus the widths
   * before it, sits on the processor's line and begins at the character
   * count before it.
   */
  predicate LaidOut(p: Processor, syls: seq<Syllable>) {
    forall k | 0 <= k < |syls| ::
      && syls[k].startTime == Elapsed(syls[..k])
      && syls[k].endTime == syls[k].startTime + 10 * syls[k].duration
      && syls[k].x == MarginLeft + Advance(p, syls[..k]) + TextWidth(p, syls[k].text) / 2.0
      && syls[k].y == p.lineY
      && syls[k].charIndex == CharCount(syls[..k])
  }

  /** The matches that become syllables: those whose text is not blank. */
  function Kept(ms: seq<KMatch>): seq<KMatch>
    decreases |ms|
  {
    if ms == [] then []
    else Kept(ms[..|ms| - 1]) + (if AllSpace(ms[|ms| - 1].text) then [] else [ms[|ms| - 1]])
  }

  // ---------------------------------------------------------------------------
  // Properties of the extraction
  // ---------------------------------------------------------------------------

  lemma Appended(syls: seq<Syllable>, s: Syllable)
    ensures (syls + [s])[..|syls|] == syls
    ensures forall k | 0 <= k < |syls| :: (syls + [s])[..k] == syls[..k] && (syls + [s])[k] == syls[k]
  {
    forall k | 0 <= k < |syls| ensures (syls + [s])[..k] == syls[..k] {
      assert (syls + [s])[..k] == syls[..k];
    }
  }

  /** Appending a syllable placed at the sums so far keeps the layout, and the sums grow by it. */
  lemma LaidOutAppend(p: Processor, syls: seq<Syllable>, s: Syllable)
    requires LaidOut(p, syls)
    requires s.startTime == Elapsed(syls) && s.endTime == s.startTime + 10 * s.duration
    requires s.x == MarginLeft + Advance(p, syls) + TextWidth(p, s.text) / 2.0
    requires s.y == p.lineY && s.charIndex == CharCount(syls)
    ensures LaidOut(p, syls + [s])
    ensures Elapsed(syls + [s]) == Elapsed(syls) + 10 * s.duration
    ensures Advance(p, syls + [s]) == Advance(p, syls) + TextWidth(p, s.text)
    ensures CharCount(syls + [s]) == CharCount(syls) + |s.text|
  {
    Appended(syls, s);
  }

  /** One step of the loop keeps the accumulators equal to the sums over the emitted syllables. */
  lemma StepLaidOut(p: Processor, acc: (seq<Syllable>, Cursor), i: nat, m: KMatch)
    requires LaidOut(p, acc.0)
    requires acc.1 == Cursor(Elapsed(acc.0), MarginLeft + Advance(p, acc.0), CharCount(acc.0))
    ensures var (syls, cur) := Step(p, acc, i, m);
      LaidOut(p, syls) && cur == Cursor(Elapsed(syls), MarginLeft + Advance(p, syls), CharCount(syls))
  {
    var (syls, cur) := acc;
    if !AllSpace(m.text) {
      var w := TextWidth(p, m.text);
      var syl := Syllable(m.text, m.duration, cur.time, cur.time + m.duration * 10,
                          cur.x + w / 2.0, p.lineY, i, cur.chars);
      assert Step(p, acc, i, m) == (syls + [syl], Cursor(cur.time + m.duration * 10, cur.x + w, cur.chars + |m.text|));
      LaidOutAppend(p, syls, syl);
    }
  }

  /** The loop's accumulators are always the sums over the syllables emitted so far, and those are laid out one after another. */
  lemma {:induction false} RunLaidOut(p: Processor, ms: seq<KMatch>)
    ensures var (syls, cur) := Run(p, ms);
      LaidOut(p, syls) && cur == Cursor(Elapsed(syls), MarginLeft + Advance(p, syls), CharCount(syls))
    decreases |ms|
  {
    if ms != [] {
      RunLaidOut(p, ms[..|ms| - 1]);
      StepLaidOut(p, Run(p, ms[..|ms| - 1]), |ms| - 1, ms[|ms| - 1]);
    }
  }

  /**
   * The emitted syllables are exactly the non-blank matches, in order; each
   * keeps its match ordinal as `index`, so indices increase and skip the
   * blank matches.
   */
  lemma {:induction false} RunSelects(p: Processor, ms: seq<KMatch>)
    ensures var syls := Run(p, ms).0;
      && |syls| == |Kept(ms)|
      && (forall k | 0 <= k < |syls| ::
            && Kept(ms)[k] == KMatch(syls[k].duration, syls[k].text)
            && syls[k].index < |ms| && ms[syls[k].index] == Kept(ms)[k]
            && !AllSpace(syls[k].text))
      && (forall k | 0 <= k < |syls| - 1 :: syls[k].index < syls[k + 1].index)
    decreases |ms|
  {
    if ms != [] {
      var init := ms[..|ms| - 1];
      var m := ms[|ms| - 1];
      RunSelects(p, init);
      var syls := Run(p, init).0;
      assert forall j | 0 <= j < |init| :: ms[j] == init[j];
      if !AllSpace(m.text) {
        var next := Run(p, ms).0;
        assert |next| == |syls| + 1 && next[|syls|].index == |ms| - 1;
        assert forall k | 0 <= k < |syls| :: next[k] == syls[k];
        assert Kept(ms) == Kept(init) + [m];
      } else {
        assert Kept(ms) == Kept(init);
      }
    }
  }

  /** A blank match changes nothing: no syllable, and the clock, cursor and character count stay. */
  lemma BlankMatchSkipped(p: Processor, ms: seq<KMatch>, m: KMatch)
    requires Strip(m.text) == []
    ensures Run(p, ms + [m]) == Run(p, ms)
  {
    StripEmptyIffAllSpace(m.text);
    assert (ms + [m])[..|ms|] == ms;
  }

  lemma PrefixStep(p: Processor, syls: seq<Syllable>, k: nat)
    requires k < |syls|
    ensures Elapsed(syls[..k + 1]) == Elapsed(syls[..k]) + 10 * syls[k].duration
    ensures Advance(p, syls[..k + 1]) == Advance(p, syls[..k]) + TextWidth(p, syls[k].text)
  {
    assert syls[..k + 1][..k] == syls[..k];
  }

  /** The first syllable starts at 0, each lasts ten times its duration, and each starts where the previous one ends. */
  lemma SyllableTiming(p: Processor, ms: seq<KMatch>)
    ensures var syls := Run(p, ms).0;
      && (|syls| > 0 ==> syls[0].startTime == 0)
      && (forall k | 0 <= k < |syls| :: syls[k].endTime - syls[k].startTime == 10 * syls[k].duration)
      && (forall k | 0 <= k < |syls| - 1 :: syls[k + 1].startTime == syls[k].endTime)
  {
    RunLaidOut(p, ms);
    var syls := Run(p, ms).0;
    forall k | 0 <= k < |syls| - 1 ensures syls[k + 1].startTime == syls[k].endTime {
      PrefixStep(p, syls, k);
    }
  }

  /** Laid-out syllables with non-empty texts and a positive font size move strictly to the right. */
  lemma LaidOutLeftToRight(p: Processor, syls: seq<Syllable>)
    requires p.fontsize > 0 && LaidOut(p, syls)
    requires forall k | 0 <= k < |syls| :: syls[k].text != []
    ensures forall k | 0 <= k < |syls| - 1 :: syls[k].x < syls[k + 1].x
  {
    forall k | 0 <= k < |syls| - 1 ensures syls[k].x < syls[k + 1].x {
      PrefixStep(p, syls, k);
    }
  }

  /** With a positive font size the syllable centres move strictly to the right. */
  lemma SyllablesLeftToRight(p: Processor, ms: seq<KMatch>)
    requires p.fontsize > 0
    ensures var syls := Run(p, ms).0;
      forall k | 0 <= k < |syls| - 1 :: syls[k].x < syls[k + 1].x
  {
    var syls := Run(p, ms).0;
    RunLaidOut(p, ms);
    assert forall k | 0 <= k < |syls| :: syls[k].text != [] by {
      RunSelects(p, ms);
    }
    LaidOutLeftToRight(p, syls);
  }

  /** The cursor after the loop is the margin plus the widths of all emitted texts, whatever was skipped. */
  lemma FinalCursor(p: Processor, ms: seq<KMatch>)
    ensures var (syls, cur) := Run(p, ms);
      cur.x == MarginLeft + Advance(p, syls) && cur.time == Elapsed(syls) && cur.chars == CharCount(syls)
  {
    RunLaidOut(p, ms);
  }

  /** On a line written as `{\k..}` blocks, the syllables are the non-blank written ones. */
  lemma SyllablesOfRendered(p: Processor, ms: seq<KMatch>)
    requires BraceFree(ms)
    ensures var syls := Syllables(p, RenderAll(ms));
      |syls| == |Kept(ms)| && forall k | 0 <= k < |syls| :: Kept(ms)[k] == KMatch(syls[k].duration, syls[k].text)
  {
    ScanRenderAll(ms);
    RunSelects(p, ms);
  }

  // ---------------------------------------------------------------------------
  // Dialogue lines
  // ---------------------------------------------------------------------------

  /** `parse_dialogue_line`: `None` when the line does not fit the grammar. */
  function ParseDialogueLine(p: Processor, line: string): (r: Option<KaraokeLine>)
    ensures r.None? <==> MatchDialogue(line).None?
    ensures r.Some? ==> r.value.layer >= 0 && r.value.marginL >= 0 && r.value.marginR >= 0 && r.value.marginV >= 0
    ensures r.Some? ==> '\n' !in r.value.text && r.value.syllables == Syllables(p, r.value.text)
  {
    match MatchDialogue(line)
    case None => None
    case Some(d) =>
      var startMs := ParseTime(d.start);
      var endMs := ParseTime(d.end);
      Some(KaraokeLine(
        DigitsValue(d.layer), d.start, d.end, d.style, d.actor,
        DigitsValue(d.marginL), DigitsValue(d.marginR), DigitsValue(d.marginV),
        d.effect, d.text, Syllables(p, d.text), endMs - startMs))
  }

  /**
   * A well-formed line gives back its groups: the start and end text as
   * written, the text with every comma it holds, and the duration as the
   * difference of the two parsed times.
   */
  lemma ParseDialogueLineOf(p: Processor, d: DialogueMatch, indent: string, tail: string)
    requires Dialogue.WellFormed(d) && AllSpace(indent)
    requires tail == [] || tail[0] == '\n'
    ensures var r := ParseDialogueLine(p, Dialogue.Render(d, indent, tail));
      && r.Some?
      && r.value.layer == DigitsValue(d.layer)
      && r.value.startTime == d.start && r.value.endTime == d.end
      && r.value.style == d.style && r.value.name == d.actor && r.value.effect == d.effect
      && r.value.marginL == DigitsValue(d.marginL) && r.value.marginR == DigitsValue(d.marginR)
      && r.value.marginV == DigitsValue(d.marginV)
      && r.value.text == d.text
      && r.value.duration == ParseTime(d.end) - ParseTime(d.start)
  {
    MatchDialogueComplete(d, indent, tail);
  }

  /** `process_karaoke_line`: a processor with the given size and line, applied to one line. */
  function ProcessKaraokeLine(line: string, fontsize: int, lineY: real): (r: Option<KaraokeLine>)
    ensures r.None? <==> MatchDialogue(line).None?
    ensures r.Some? ==> r.value.syllables == Syllables(Processor(fontsize, lineY), r.value.text)
  {
    ParseDialogueLine(Processor(fontsize, lineY), line)
  }
}

/**
 * The three-layer karaoke effect (py/effects.py, `EffectConfig` and
 * `MultiLayerEffectGenerator`). For every syllable of a parsed karaoke line it
 * writes a layer-1 line that shows the syllable until the line ends, one
 * layer-2 line per visible character that flies the character in, and a
 * layer-3 line that highlights the syllable while it is sung.
 *
 * The random entry offsets and rotations are an input: `draw(k)` is the k-th
 * draw of the line. The configuration sizes are kept as the text the source's
 * f-strings print for them.
 */
module Effects {
  import opened Options
  import opened Strs
  import opened TimeCodec
  import opened Color
  import opened Dialogue
  import KP = KaraokeProcessor

  // ---------------------------------------------------------------------------
  // Configuration
  // ---------------------------------------------------------------------------

  datatype EffectConfig = EffectConfig(
    primaryColor: string, secondaryColor: string, borderColor: string, shadowColor: string,
    highlightBorderColor: string, highlightShadowColor: string,
    borderSize: string, shadowSize: string, blur: string,
    entryDuration: int, highlightDuration: int, fadeOutDuration: int,
    entryType: string,
    highlightScaleX: int, highlightScaleY: int, highlightRotation: int,
    highlightPerspectiveY: int, highlightPerspectiveX: int)

  /** The dataclass defaults. */
  const DefaultConfig: EffectConfig := EffectConfig(
    "#FFFFFF", "#000000", "#FC76F2", "#000000", "#FFD9C5", "#FFB792",
    "2", "0", "3",
    400, 300, 300,
    "random_rotate",
    135, 150, 10, -40, -30)

  /** A generator: its configuration and a default processor (font size 48, line 29). */
  datatype Generator = Generator(config: EffectConfig, processor: KP.Processor)

  /** `MultiLayerEffectGenerator(config)`: a missing configuration means the defaults. */
  function NewGenerator(config: Option<EffectConfig>): (g: Generator)
    ensures config.Some? ==> g.config == config.value
    ensures config.None? ==> g.config == DefaultConfig
    ensures g.processor == KP.Processor(KP.DefaultFontsize, KP.DefaultLineY)
  {
    Generator(if config.Some? then config.value else DefaultConfig, KP.Processor(KP.DefaultFontsize, KP.DefaultLineY))
  }

  /** A configuration with no newline in any text it writes into a line. */
  predicate OneLine(c: EffectConfig) {
    && '\n' !in c.primaryColor && '\n' !in c.borderColor
    && '\n' !in c.highlightBorderColor && '\n' !in c.highlightShadowColor
    && '\n' !in c.borderSize && '\n' !in c.shadowSize && '\n' !in c.blur
  }

  // ---------------------------------------------------------------------------
  // Tags
  // ---------------------------------------------------------------------------

  /** `get_base_tags`: blur, border, shadow, then the border and primary colours; one line when the configuration is. */
  function BaseTags(c: EffectConfig): (r: string)
    ensures OneLine(c) ==> '\n' !in r
  {
    HexToAssAvoids(c.borderColor, '\n');
    HexToAssAvoids(c.primaryColor, '\n');
    BaseFrame(c.blur, c.borderSize, c.shadowSize, HexToAss(c.borderColor), HexToAss(c.primaryColor));
    "\\blur" + c.blur + "\\bord" + c.borderSize + "\\shad" + c.shadowSize
    + "\\3c" + HexToAss(c.borderColor) + "\\c" + HexToAss(c.primaryColor)
  }

  /** `\pos` at the rounded centre. */
  function PosTag(x: real, y: real): (r: string)
    ensures '\n' !in r
  {
    SignedTextChars(ShowRounded(x));
    SignedTextChars(ShowRounded(y));
    PosFrame(ShowRounded(x), ShowRounded(y));
    "\\an5\\pos(" + ShowRounded(x) + "," + ShowRounded(y) + ")"
  }

  /** Layer 1's tags: placed at the syllable, faded out at the end. */
  function MainTags(c: EffectConfig, syl: KP.Syllable): (r: string)
    ensures OneLine(c) ==> '\n' !in r
  {
    SignedTextChars(IntToString(c.fadeOutDuration));
    MainFrame(PosTag(syl.x, syl.y), IntToString(c.fadeOutDuration), BaseTags(c));
    "{" + PosTag(syl.x, syl.y) + "\\fad(0," + IntToString(c.fadeOutDuration) + ")" + BaseTags(c) + "}"
  }

  /** One random draw: the entry offset from the character's place and the start rotation. */
  datatype EntryDraw = EntryDraw(dx: real, dy: real, rotation: int)

  /** The `\move` from the drawn entry point to the character's place. */
  function MoveTag(c: EffectConfig, y: real, centerX: real, d: EntryDraw): (r: string)
    ensures '\n' !in r
  {
    SignedTextChars(ShowRounded(centerX + d.dx));
    SignedTextChars(ShowRounded(y + d.dy));
    SignedTextChars(ShowRounded(centerX));
    SignedTextChars(ShowRounded(y));
    SignedTextChars(IntToString(c.entryDuration));
    MoveFrame(ShowRounded(centerX + d.dx), ShowRounded(y + d.dy), ShowRounded(centerX), ShowRounded(y),
              IntToString(c.entryDuration));
    "\\an5\\move(" + ShowRounded(centerX + d.dx) + "," + ShowRounded(y + d.dy) + ","
    + ShowRounded(centerX) + "," + ShowRounded(y) + ",0," + IntToString(c.entryDuration) + ")"
  }

  /** The fade in and the rotation back to zero over the entry. */
  function SpinTags(c: EffectConfig, d: EntryDraw): (r: string)
    ensures '\n' !in r
  {
    SignedTextChars(IntToString(c.entryDuration));
    SignedTextChars(IntToString(d.rotation));
    SpinFrame(IntToString(c.entryDuration), IntToString(d.rotation));
    "\\fad(" + IntToString(c.entryDuration) + ",0)" + "\\frz" + IntToString(d.rotation)
    + "\\t(0," + IntToString(c.entryDuration) + ",\\frz0)"
  }

  /** Layer 2's tags for one character. */
  function EntryTags(c: EffectConfig, y: real, centerX: real, d: EntryDraw): (r: string)
    ensures OneLine(c) ==> '\n' !in r
  {
    EntryFrame(BaseTags(c), MoveTag(c, y, centerX, d), SpinTags(c, d));
    "{" + BaseTags(c) + MoveTag(c, y, centerX, d) + SpinTags(c, d) + "}"
  }

  /** The drop from ten pixels above onto the syllable's place. */
  function DropTag(syl: KP.Syllable): (r: string)
    ensures '\n' !in r
  {
    SignedTextChars(ShowRounded(syl.x));
    SignedTextChars(ShowRounded(syl.y - 10.0));
    SignedTextChars(ShowRounded(syl.y));
    DropFrame(ShowRounded(syl.x), ShowRounded(syl.y - 10.0), ShowRounded(syl.x), ShowRounded(syl.y));
    "\\an5\\move(" + ShowRounded(syl.x) + "," + ShowRounded(syl.y - 10.0) + ","
    + ShowRounded(syl.x) + "," + ShowRounded(syl.y) + ")"
  }

  /** The enlarged size with a thicker border and more blur. */
  function GrowTags(c: EffectConfig): (r: string)
    ensures '\n' !in r
  {
    SignedTextChars(IntToString(c.highlightScaleX));
    SignedTextChars(IntToString(c.highlightScaleY));
    GrowFrame(IntToString(c.highlightScaleX), IntToString(c.highlightScaleY));
    "\\fscx" + IntToString(c.highlightScaleX) + "\\fscy" + IntToString(c.highlightScaleY) + "\\bord3\\blur4"
  }

  /** The highlight border colour and the raised shadow in the highlight shadow colour. */
  function GlowTags(c: EffectConfig): (r: string)
    ensures OneLine(c) ==> '\n' !in r
  {
    GlowFrame(ColorTag("3c", c.highlightBorderColor), ColorTag("4c", c.highlightShadowColor));
    ColorTag("3c", c.highlightBorderColor) + "\\xshad0\\yshad-4" + ColorTag("4c", c.highlightShadowColor)
  }

  /** A colour override such as `\3c&H00BBGGRR&`. */
  function ColorTag(name: string, hex: string): (r: string)
    ensures '\n' !in name && '\n' !in hex ==> '\n' !in r
  {
    HexToAssAvoids(hex, '\n');
    "\\" + name + HexToAss(hex)
  }

  /** Over the first half: tilt by the configured rotation and perspective. */
  function TiltTag(c: EffectConfig): (r: string)
    ensures '\n' !in r
  {
    SignedTextChars(IntToString(c.highlightDuration / 2));
    SignedTextChars(IntToString(c.highlightRotation));
    SignedTextChars(IntToString(c.highlightPerspectiveY));
    SignedTextChars(IntToString(c.highlightPerspectiveX));
    TiltFrame(IntToString(c.highlightDuration / 2), IntToString(c.highlightRotation),
              IntToString(c.highlightPerspectiveY), IntToString(c.highlightPerspectiveX));
    "\\t(0," + IntToString(c.highlightDuration / 2) + ",\\frz" + IntToString(c.highlightRotation)
    + "\\fry" + IntToString(c.highlightPerspectiveY) + "\\frx" + IntToString(c.highlightPerspectiveX) + ")"
  }

  /** Over the second half: back to the primary colour. */
  function RecolorTag(c: EffectConfig): (r: string)
    ensures OneLine(c) ==> '\n' !in r
  {
    SignedTextChars(IntToString(c.highlightDuration / 2));
    SignedTextChars(IntToString(c.highlightDuration));
    HexToAssAvoids(c.primaryColor, '\n');
    RecolorFrame(IntToString(c.highlightDuration / 2), IntToString(c.highlightDuration), HexToAss(c.primaryColor));
    "\\t(" + IntToString(c.highlightDuration / 2) + "," + IntToString(c.highlightDuration) + ",\\c" + HexToAss(c.primaryColor) + ")"
  }

  /** From 100 ms on: back to normal size and no rotation. */
  function SettleTag(c: EffectConfig): (r: string)
    ensures '\n' !in r
  {
    SignedTextChars(IntToString(c.highlightDuration));
    SettleFrame(IntToString(c.highlightDuration));
    "\\t(100," + IntToString(c.highlightDuration) + ",\\fscx100\\fscy100\\fry0\\frz0\\frx0)"
  }

  /** Layer 3's tags. */
  function HighlightTags(c: EffectConfig, syl: KP.Syllable): (r: string)
    ensures OneLine(c) ==> '\n' !in r
  {
    HighlightFrame(DropTag(syl), GrowTags(c), GlowTags(c), TiltTag(c), RecolorTag(c), SettleTag(c));
    "{" + DropTag(syl) + GrowTags(c) + GlowTags(c) + TiltTag(c) + RecolorTag(c) + SettleTag(c) + "}"
  }

  // ---------------------------------------------------------------------------
  // The three layers of one syllable
  // ---------------------------------------------------------------------------

  // The generators add a syllable's start, which is measured from the start of
  // its line, to `origin`. The source uses 0 (`ProcessLine`, see the findings in
  // the README); `ProcessLineFromLineStart` uses the line's start.

  /**
   * `generate_layer1_main`: from the end of the highlight to the line's end, as
   * written in the line. It parses back as layer 1 with those times.
   */
  function MainLine(c: EffectConfig, line: KP.KaraokeLine, origin: int, syl: KP.Syllable): (r: string)
    ensures OneLine(c) && '\n' !in syl.text && line.endTime != [] && ',' !in line.endTime && ',' !in line.style ==>
      MatchDialogue(r)
      == Some(DialogueMatch("1", FormatTime(origin + syl.startTime + c.highlightDuration), line.endTime,
                            line.style, "", "0", "0", "0", "fx", MainTags(c, syl) + syl.text))
  {
    MainFxParses(MainTags(c, syl), origin + syl.startTime + c.highlightDuration, line.endTime, line.style, syl.text);
    FxLine("1", FormatTime(origin + syl.startTime + c.highlightDuration), line.endTime, line.style,
           MainTags(c, syl) + syl.text)
  }

  /** When the characters start flying in: one entry duration before the syllable, but not before 0. */
  function EntryStart(c: EffectConfig, origin: int, syl: KP.Syllable): int {
    if 0 <= origin + syl.startTime - c.entryDuration then origin + syl.startTime - c.entryDuration else 0
  }

  /**
   * One layer-2 line: the character flies in over the entry before its
   * syllable starts. It parses back as layer 2 with those times and the one
   * character as its text.
   */
  function EntryLine(c: EffectConfig, line: KP.KaraokeLine, origin: int, syl: KP.Syllable,
                     ch: char, centerX: real, d: EntryDraw): (r: string)
    ensures OneLine(c) && ch != '\n' && ',' !in line.style ==>
      MatchDialogue(r)
      == Some(DialogueMatch("2", FormatTime(EntryStart(c, origin, syl)), FormatTime(origin + syl.startTime),
                            line.style, "", "0", "0", "0", "fx", EntryTags(c, syl.y, centerX, d) + [ch]))
  {
    EntryFxParses(EntryTags(c, syl.y, centerX, d), line.style, EntryStart(c, origin, syl), origin + syl.startTime, ch);
    FxLine("2", FormatTime(EntryStart(c, origin, syl)), FormatTime(origin + syl.startTime), line.style,
           EntryTags(c, syl.y, centerX, d) + [ch])
  }

  /**
   * `generate_layer3_highlight`: over the highlight from the syllable's start.
   * It parses back as layer 3 with those times.
   */
  function HighlightLine(c: EffectConfig, line: KP.KaraokeLine, origin: int, syl: KP.Syllable): (r: string)
    ensures OneLine(c) && '\n' !in syl.text && ',' !in line.style ==>
      MatchDialogue(r)
      == Some(DialogueMatch("3", FormatTime(origin + syl.startTime),
                            FormatTime(origin + syl.startTime + c.highlightDuration),
                            line.style, "", "0", "0", "0", "fx", HighlightTags(c, syl) + syl.text))
  {
    HighlightFxParses(HighlightTags(c, syl), line.style, origin + syl.startTime, c.highlightDuration, syl.text);
    FxLine("3", FormatTime(origin + syl.startTime), FormatTime(origin + syl.startTime + c.highlightDuration),
           line.style, HighlightTags(c, syl) + syl.text)
  }

  // ---------------------------------------------------------------------------
  // Layer 2: one line per visible character
  // ---------------------------------------------------------------------------

  /** The entry loop's variables: the lines so far, the character cursor, and the draws used. */
  datatype EntryState = EntryState(lines: seq<string>, charX: real, drawn: nat)

  /**
   * How the entry loop writes the line of a visible character from the
   * character, its centre and the number of draws used before it.
   */
  type Writer = (char, real, nat) -> string

  /** One character: a blank one only moves the cursor; any other also gets a line, centred on itself. */
  function EntryStep(p: KP.Processor, write: Writer, st: EntryState, ch: char): EntryState {
    var w := KP.CharWidth(p, ch);
    if IsSpace(ch) then EntryState(st.lines, st.charX + w, st.drawn)
    else EntryState(st.lines + [write(ch, st.charX + w / 2.0, st.drawn)], st.charX + w, st.drawn + 1)
  }

  /** The loop over `t` from the cursor `x0`. */
  function EntryRun(p: KP.Processor, write: Writer, x0: real, t: string): EntryState
    decreases |t|
  {
    if t == [] then EntryState([], x0, 0)
    else EntryStep(p, write, EntryRun(p, write, x0, t[..|t| - 1]), t[|t| - 1])
  }

  /** Where the character cursor starts: the left edge of the syllable. */
  function EntryOrigin(g: Generator, syl: KP.Syllable): real {
    syl.x - KP.TextWidth(g.processor, syl.text) / 2.0
  }

  /** The writer of a syllable's layer-2 lines, using the draws from `base` on. */
  function EntryWriter(g: Generator, line: KP.KaraokeLine, origin: int, syl: KP.Syllable,
                       draw: nat -> EntryDraw, base: nat): Writer
  {
    (ch: char, centerX: real, k: nat) => EntryLine(g.config, line, origin, syl, ch, centerX, draw(base + k))
  }

  /** The layer-2 lines of a syllable, using the draws from `base` on. */
  function EntryLines(g: Generator, line: KP.KaraokeLine, origin: int, syl: KP.Syllable,
                      draw: nat -> EntryDraw, base: nat): seq<string>
  {
    EntryRun(g.processor, EntryWriter(g, line, origin, syl, draw, base), EntryOrigin(g, syl), syl.text).lines
  }

  /** The loop of `generate_layer2_entry`: the cursor walks the text and each visible character gets a line. */
  method EntryLoop(p: KP.Processor, write: Writer, x0: real, text: string) returns (lines: seq<string>)
    ensures lines == EntryRun(p, write, x0, text).lines
  {
    lines := [];
    var charX := x0;
    var drawn: nat := 0;
    for i := 0 to |text|
      invariant EntryState(lines, charX, drawn) == EntryRun(p, write, x0, text[..i])
    {
      var ch := text[i];
      assert text[..i + 1][..i] == text[..i];
      if !IsSpace(ch) {
        var charWidth := KP.CharWidth(p, ch);
        var charCenterX := charX + charWidth / 2.0;
        lines := lines + [write(ch, charCenterX, drawn)];
        drawn := drawn + 1;
      }
      charX := charX + KP.CharWidth(p, ch);
    }
    assert text[..|text|] == text;
  }

  /** `generate_layer2_entry`: the loop from the left edge of the syllable, writing `EntryLine`s. */
  method GenerateLayer2Entry(g: Generator, syl: KP.Syllable, line: KP.KaraokeLine, origin: int,
                             draw: nat -> EntryDraw, base: nat)
    returns (lines: seq<string>)
    ensures lines == EntryLines(g, line, origin, syl, draw, base)
  {
    var charX := syl.x - KP.TextWidth(g.processor, syl.text) / 2.0;
    lines := EntryLoop(g.processor, EntryWriter(g, line, origin, syl, draw, base), charX, syl.text);
  }

  /** The characters that are not whitespace. */
  function NonSpaceCount(t: string): nat
    decreases |t|
  {
    if t == [] then 0 else NonSpaceCount(t[..|t| - 1]) + (if IsSpace(t[|t| - 1]) then 0 else 1)
  }

  /**
   * The cursor has moved over the widths of the characters seen, and one line
   * and one draw were used per visible character.
   */
  lemma {:induction false} EntryRunCounts(p: KP.Processor, write: Writer, x0: real, t: string)
    ensures var st := EntryRun(p, write, x0, t);
      && st.charX == x0 + KP.TextWidth(p, t)
      && |st.lines| == st.drawn == NonSpaceCount(t)
    decreases |t|
  {
    if t != [] {
      var init, ch := t[..|t| - 1], t[|t| - 1];
      EntryRunCounts(p, write, x0, init);
      assert t == init + [ch];
      KP.TextWidthAppend(p, init, [ch]);
    }
  }

  /** A syllable gets one layer-2 line per visible character, and the cursor ends at its right edge. */
  lemma EntryLinesCount(g: Generator, line: KP.KaraokeLine, origin: int, syl: KP.Syllable,
                        draw: nat -> EntryDraw, base: nat)
    ensures |EntryLines(g, line, origin, syl, draw, base)| == NonSpaceCount(syl.text)
    ensures EntryRun(g.processor, EntryWriter(g, line, origin, syl, draw, base), EntryOrigin(g, syl), syl.text).charX
            == syl.x + KP.TextWidth(g.processor, syl.text) / 2.0
  {
    EntryRunCounts(g.processor, EntryWriter(g, line, origin, syl, draw, base), EntryOrigin(g, syl), syl.text);
  }

  /**
   * The line of a visible character is written at the cursor plus half its
   * width, where the cursor has moved over every character before it, and
   * with the count of the visible characters before it.
   */
  lemma EntryRunNext(p: KP.Processor, write: Writer, x0: real, t: string, ch: char)
    requires !IsSpace(ch)
    ensures EntryRun(p, write, x0, t + [ch]).lines
            == EntryRun(p, write, x0, t).lines + [write(ch, x0 + KP.TextWidth(p, t) + KP.CharWidth(p, ch) / 2.0, NonSpaceCount(t))]
  {
    assert (t + [ch])[..|t|] == t;
    EntryRunCounts(p, write, x0, t);
  }

  /** A whitespace character writes no line. */
  lemma EntryRunBlank(p: KP.Processor, write: Writer, x0: real, t: string, ch: char)
    requires IsSpace(ch)
    ensures EntryRun(p, write, x0, t + [ch]).lines == EntryRun(p, write, x0, t).lines
  {
    assert (t + [ch])[..|t|] == t;
  }

  // ---------------------------------------------------------------------------
  // All layers of a line
  // ---------------------------------------------------------------------------

  /** The lines of one syllable: main, the entries, then the highlight. */
  function SyllableBlock(g: Generator, line: KP.KaraokeLine, origin: int, draw: nat -> EntryDraw,
                         base: nat, syl: KP.Syllable): seq<string>
  {
    [MainLine(g.config, line, origin, syl)] + EntryLines(g, line, origin, syl, draw, base)
    + [HighlightLine(g.config, line, origin, syl)]
  }

  /** The visible characters of a sequence of syllables: the draws they use. */
  function DrawsUsed(syls: seq<KP.Syllable>): nat
    decreases |syls|
  {
    if syls == [] then 0 else DrawsUsed(syls[..|syls| - 1]) + NonSpaceCount(syls[|syls| - 1].text)
  }

  /** How the loop over the syllables writes a syllable's block, given the draws used before it. */
  type BlockWriter = (nat, KP.Syllable) -> seq<string>

  /** The blocks of a sequence of syllables, each syllable's draws following the previous ones'. */
  function Blocks(block: BlockWriter, syls: seq<KP.Syllable>): seq<string>
    decreases |syls|
  {
    if syls == [] then []
    else
      var init := syls[..|syls| - 1];
      Blocks(block, init) + block(DrawsUsed(init), syls[|syls| - 1])
  }

  /** The block writer of a line. */
  function LineBlocks(g: Generator, line: KP.KaraokeLine, origin: int, draw: nat -> EntryDraw): BlockWriter {
    (base: nat, syl: KP.Syllable) => SyllableBlock(g, line, origin, draw, base, syl)
  }

  /** Every line of every layer, syllable by syllable. */
  function AllLayers(g: Generator, line: KP.KaraokeLine, origin: int, draw: nat -> EntryDraw,
                     syls: seq<KP.Syllable>): seq<string>
  {
    Blocks(LineBlocks(g, line, origin, draw), syls)
  }

  /** One syllable's block, as the loop body of `generate_all_layers` writes it. */
  method EmitSyllable(g: Generator, line: KP.KaraokeLine, origin: int, draw: nat -> EntryDraw,
                      base: nat, syl: KP.Syllable)
    returns (block: seq<string>, entryCount: nat)
    ensures block == LineBlocks(g, line, origin, draw)(base, syl)
    ensures entryCount == NonSpaceCount(syl.text)
  {
    block := [MainLine(g.config, line, origin, syl)];
    var entries := GenerateLayer2Entry(g, syl, line, origin, draw, base);
    block := block + entries;
    block := block + [HighlightLine(g.config, line, origin, syl)];
    EntryLinesCount(g, line, origin, syl, draw, base);
    entryCount := |entries|;
  }

  /** The next syllable's block is appended, and its visible characters counted. */
  lemma BlocksStep(block: BlockWriter, syls: seq<KP.Syllable>, i: nat)
    requires i < |syls|
    ensures Blocks(block, syls[..i + 1]) == Blocks(block, syls[..i]) + block(DrawsUsed(syls[..i]), syls[i])
    ensures DrawsUsed(syls[..i + 1]) == DrawsUsed(syls[..i]) + NonSpaceCount(syls[i].text)
  {
    assert syls[..i + 1][..i] == syls[..i];
  }

  /** `generate_all_layers`, with the syllable offsets added to `origin`. */
  method GenerateAllLayers(g: Generator, line: KP.KaraokeLine, origin: int, draw: nat -> EntryDraw)
    returns (result: seq<string>)
    ensures result == AllLayers(g, line, origin, draw, line.syllables)
  {
    ghost var block := LineBlocks(g, line, origin, draw);
    result := [];
    var drawn: nat := 0;
    var syls := line.syllables;
    for i := 0 to |syls|
      invariant result == Blocks(block, syls[..i])
      invariant drawn == DrawsUsed(syls[..i])
    {
      var lines, entryCount := EmitSyllable(g, line, origin, draw, drawn, syls[i]);
      BlocksStep(block, syls, i);
      result := result + lines;
      drawn := drawn + entryCount;
    }
    assert syls[..|syls|] == syls;
  }

  /** Two lines per syllable plus one per visible character. */
  lemma {:induction false} AllLayersCount(g: Generator, line: KP.KaraokeLine, origin: int, draw: nat -> EntryDraw,
                                          syls: seq<KP.Syllable>)
    ensures |AllLayers(g, line, origin, draw, syls)| == 2 * |syls| + DrawsUsed(syls)
    decreases |syls|
  {
    if syls != [] {
      var init := syls[..|syls| - 1];
      AllLayersCount(g, line, origin, draw, init);
      EntryLinesCount(g, line, origin, syls[|syls| - 1], draw, DrawsUsed(init));
    }
  }

  /** Adding a syllable appends its block, with the draws of all syllables before it used up. */
  lemma BlocksSnoc(block: BlockWriter, syls: seq<KP.Syllable>, syl: KP.Syllable)
    ensures Blocks(block, syls + [syl]) == Blocks(block, syls) + block(DrawsUsed(syls), syl)
  {
    assert (syls + [syl])[..|syls|] == syls;
  }

  /** A syllable's block starts with its main line, ends with its highlight, and has its entries between. */
  lemma SyllableBlockShape(g: Generator, line: KP.KaraokeLine, origin: int, draw: nat -> EntryDraw,
                           base: nat, syl: KP.Syllable)
    ensures var b := SyllableBlock(g, line, origin, draw, base, syl);
      && |b| == 2 + NonSpaceCount(syl.text)
      && b[0] == MainLine(g.config, line, origin, syl)
      && b[1..|b| - 1] == EntryLines(g, line, origin, syl, draw, base)
      && b[|b| - 1] == HighlightLine(g.config, line, origin, syl)
  {
    EntryLinesCount(g, line, origin, syl, draw, base);
  }

  /**
   * `process_line` as written: nothing for a line that does not parse or has
   * no syllables; otherwise every layer, with the syllables' starts, which are
   * measured from the start of their line, used as times of the whole track.
   */
  method ProcessLine(g: Generator, dialogueLine: string, draw: nat -> EntryDraw) returns (lines: seq<string>)
    ensures var k := KP.ParseDialogueLine(g.processor, dialogueLine);
      lines == if k.None? || k.value.syllables == [] then []
               else AllLayers(g, k.value, 0, draw, k.value.syllables)
  {
    var karaokeLine := KP.ParseDialogueLine(g.processor, dialogueLine);
    if karaokeLine.Some? && |karaokeLine.value.syllables| > 0 {
      lines := GenerateAllLayers(g, karaokeLine.value, 0, draw);
    } else {
      lines := [];
    }
  }

  /**
   * `process_line` with every layer timed from the start of its line, so that a
   * syllable is highlighted when it is sung (see `HighlightAtSyllableStart`).
   */
  method ProcessLineFromLineStart(g: Generator, dialogueLine: string, draw: nat -> EntryDraw) returns (lines: seq<string>)
    ensures var k := KP.ParseDialogueLine(g.processor, dialogueLine);
      lines == if k.None? || k.value.syllables == [] then []
               else AllLayers(g, k.value, ParseTime(k.value.startTime), draw, k.value.syllables)
  {
    var karaokeLine := KP.ParseDialogueLine(g.processor, dialogueLine);
    if karaokeLine.Some? && |karaokeLine.value.syllables| > 0 {
      lines := GenerateAllLayers(g, karaokeLine.value, ParseTime(karaokeLine.value.startTime), draw);
    } else {
      lines := [];
    }
  }

  // ---------------------------------------------------------------------------
  // The written lines parse back
  // ---------------------------------------------------------------------------

  // The fixed text around each tag's values holds no line break; these take the
  // values as plain strings, so that none of the arithmetic behind them is in view.

  lemma BaseFrame(blur: string, bord: string, shad: string, border: string, primary: string)
    ensures '\n' !in blur && '\n' !in bord && '\n' !in shad && '\n' !in border && '\n' !in primary ==>
      '\n' !in "\\blur" + blur + "\\bord" + bord + "\\shad" + shad + "\\3c" + border + "\\c" + primary
  {
  }

  lemma PosFrame(x: string, y: string)
    requires '\n' !in x && '\n' !in y
    ensures '\n' !in "\\an5\\pos(" + x + "," + y + ")"
  {
  }

  lemma MainFrame(pos: string, fade: string, base: string)
    ensures '\n' !in pos && '\n' !in fade && '\n' !in base ==>
      '\n' !in "{" + pos + "\\fad(0," + fade + ")" + base + "}"
  {
  }

  lemma MoveFrame(x0: string, y0: string, x1: string, y1: string, t: string)
    requires '\n' !in x0 && '\n' !in y0 && '\n' !in x1 && '\n' !in y1 && '\n' !in t
    ensures '\n' !in "\\an5\\move(" + x0 + "," + y0 + "," + x1 + "," + y1 + ",0," + t + ")"
  {
  }

  lemma SpinFrame(t: string, r: string)
    requires '\n' !in t && '\n' !in r
    ensures '\n' !in "\\fad(" + t + ",0)" + "\\frz" + r + "\\t(0," + t + ",\\frz0)"
  {
  }

  lemma EntryFrame(base: string, move: string, spin: string)
    ensures '\n' !in base && '\n' !in move && '\n' !in spin ==>
      '\n' !in "{" + base + move + spin + "}"
  {
  }

  lemma DropFrame(x0: string, y0: string, x1: string, y1: string)
    requires '\n' !in x0 && '\n' !in y0 && '\n' !in x1 && '\n' !in y1
    ensures '\n' !in "\\an5\\move(" + x0 + "," + y0 + "," + x1 + "," + y1 + ")"
  {
  }

  lemma GrowFrame(sx: string, sy: string)
    requires '\n' !in sx && '\n' !in sy
    ensures '\n' !in "\\fscx" + sx + "\\fscy" + sy + "\\bord3\\blur4"
  {
  }

  lemma GlowFrame(border: string, shadow: string)
    ensures '\n' !in border && '\n' !in shadow ==>
      '\n' !in border + "\\xshad0\\yshad-4" + shadow
  {
  }

  lemma TiltFrame(t: string, z: string, y: string, x: string)
    requires '\n' !in t && '\n' !in z && '\n' !in y && '\n' !in x
    ensures '\n' !in "\\t(0," + t + ",\\frz" + z + "\\fry" + y + "\\frx" + x + ")"
  {
  }

  lemma RecolorFrame(t0: string, t1: string, color: string)
    ensures '\n' !in t0 && '\n' !in t1 && '\n' !in color ==>
      '\n' !in "\\t(" + t0 + "," + t1 + ",\\c" + color + ")"
  {
  }

  lemma SettleFrame(t: string)
    requires '\n' !in t
    ensures '\n' !in "\\t(100," + t + ",\\fscx100\\fscy100\\fry0\\frz0\\frx0)"
  {
  }

  lemma HighlightFrame(drop: string, grow: string, glow: string, tilt: string, recolor: string, settle: string)
    ensures '\n' !in drop && '\n' !in grow && '\n' !in glow && '\n' !in tilt && '\n' !in recolor && '\n' !in settle ==>
      '\n' !in "{" + drop + grow + glow + tilt + recolor + settle + "}"
  {
  }

  // The three lemmas below take the tags as a plain string: the arithmetic
  // behind the positions and times in them plays no part in the parse.

  lemma MainFxParses(tags: string, start: int, end: string, style: string, text: string)
    ensures '\n' !in tags && '\n' !in text && end != [] && ',' !in end && ',' !in style ==>
      MatchDialogue(FxLine("1", FormatTime(start), end, style, tags + text))
      == Some(DialogueMatch("1", FormatTime(start), end, style, "", "0", "0", "0", "fx", tags + text))
  {
    if '\n' !in tags && '\n' !in text && end != [] && ',' !in end && ',' !in style {
      FxLineParses("1", FormatTime(start), end, style, tags + text);
    }
  }

  lemma EntryFxParses(tags: string, style: string, start: int, end: int, ch: char)
    ensures '\n' !in tags && ch != '\n' && ',' !in style ==>
      MatchDialogue(FxLine("2", FormatTime(start), FormatTime(end), style, tags + [ch]))
      == Some(DialogueMatch("2", FormatTime(start), FormatTime(end), style, "", "0", "0", "0", "fx", tags + [ch]))
  {
    if '\n' !in tags && ch != '\n' && ',' !in style {
      TimedLineParses("2", start, end, style, tags, [ch]);
    }
  }

  lemma HighlightFxParses(tags: string, style: string, start: int, duration: int, text: string)
    ensures '\n' !in tags && '\n' !in text && ',' !in style ==>
      MatchDialogue(FxLine("3", FormatTime(start), FormatTime(start + duration), style, tags + text))
      == Some(DialogueMatch("3", FormatTime(start), FormatTime(start + duration),
                            style, "", "0", "0", "0", "fx", tags + text))
  {
    if '\n' !in tags && '\n' !in text && ',' !in style {
      TimedLineParses("3", start, start + duration, style, tags, text);
    }
  }

  /** An `fx` line between two formatted times parses back. */
  lemma TimedLineParses(layer: string, startMs: int, endMs: int, style: string, tags: string, text: string)
    requires IsNumeral(layer) && ',' !in style && '\n' !in tags && '\n' !in text
    ensures MatchDialogue(FxLine(layer, FormatTime(startMs), FormatTime(endMs), style, tags + text))
            == Some(DialogueMatch(layer, FormatTime(startMs), FormatTime(endMs), style, "", "0", "0", "0", "fx", tags + text))
  {
    FxLineParses(layer, FormatTime(startMs), FormatTime(endMs), style, tags + text);
  }

  // ---------------------------------------------------------------------------
  // Timing of the highlight
  // ---------------------------------------------------------------------------

  /** The start time, in milliseconds, that a reader of a written line takes from it. */
  function ParsedStart(l: string): Option<nat> {
    match MatchDialogue(l)
    case None => None
    case Some(m) => Some(ParseTime(m.start))
  }

  /** An `fx` line that starts on a whole centisecond is read back as starting then. */
  lemma TimedLineStart(layer: string, startMs: int, endMs: int, style: string, tags: string, text: string)
    requires IsNumeral(layer) && ',' !in style && '\n' !in tags && '\n' !in text
    requires startMs >= 0 && startMs % 10 == 0
    ensures ParsedStart(FxLine(layer, FormatTime(startMs), FormatTime(endMs), style, tags + text)) == Some(startMs)
  {
    TimedLineParses(layer, startMs, endMs, style, tags, text);
    RoundTripExact(startMs);
  }

  /** A syllable's highlight is read back as starting at `origin` plus the syllable's offset. */
  lemma HighlightStart(c: EffectConfig, line: KP.KaraokeLine, origin: int, syl: KP.Syllable)
    requires OneLine(c) && '\n' !in syl.text && ',' !in line.style
    requires origin >= 0 && origin % 10 == 0 && syl.startTime >= 0 && syl.startTime % 10 == 0
    ensures ParsedStart(HighlightLine(c, line, origin, syl)) == Some(origin + syl.startTime)
  {
    HighlightFxStart(c, line.style, origin + syl.startTime, c.highlightDuration, syl);
  }

  lemma HighlightFxStart(c: EffectConfig, style: string, start: int, duration: int, syl: KP.Syllable)
    requires OneLine(c) && '\n' !in syl.text && ',' !in style
    requires start >= 0 && start % 10 == 0
    ensures ParsedStart(FxLine("3", FormatTime(start), FormatTime(start + duration), style, HighlightTags(c, syl) + syl.text))
            == Some(start)
  {
    TimedLineStart("3", start, start + duration, style, HighlightTags(c, syl), syl.text);
  }

  /**
   * As written (origin 0), the highlight is placed at the syllable's offset
   * from the start of its line, whatever the line's start: a syllable of a
   * line that starts later than that offset is highlighted before its line
   * is shown.
   */
  lemma AsWrittenHighlightIgnoresLineStart(c: EffectConfig, line: KP.KaraokeLine, syl: KP.Syllable)
    requires OneLine(c) && '\n' !in syl.text && ',' !in line.style
    requires syl.startTime >= 0 && syl.startTime % 10 == 0
    ensures ParsedStart(HighlightLine(c, line, 0, syl)) == Some(syl.startTime)
    ensures syl.startTime < ParseTime(line.startTime) ==> ParsedStart(HighlightLine(c, line, 0, syl)).value < ParseTime(line.startTime)
  {
    HighlightFxStart(c, line.style, syl.startTime, c.highlightDuration, syl);
    assert 0 + syl.startTime == syl.startTime;
  }

  /**
   * A line that starts a minute in (at `0:01:00.00`) shows it: the highlight
   * of its first syllable is read back as starting at 0, a minute early.
   */
  lemma AsWrittenExample(c: EffectConfig, line: KP.KaraokeLine, syl: KP.Syllable)
    requires OneLine(c) && '\n' !in syl.text && ',' !in line.style
    requires line.startTime == FormatTime(60000) && syl.startTime == 0
    ensures ParseTime(line.startTime) == 60000
    ensures ParsedStart(HighlightLine(c, line, 0, syl)) == Some(0)
  {
    RoundTripExact(60000);
    AsWrittenHighlightIgnoresLineStart(c, line, syl);
  }

  /** Timed from the line's start, as `ProcessLineFromLineStart` does, a syllable's highlight starts exactly when it is sung. */
  lemma HighlightAtSyllableStart(c: EffectConfig, line: KP.KaraokeLine, syl: KP.Syllable)
    requires OneLine(c) && '\n' !in syl.text && ',' !in line.style
    requires syl.startTime >= 0 && syl.startTime % 10 == 0
    ensures ParsedStart(HighlightLine(c, line, ParseTime(line.startTime), syl)) == Some(ParseTime(line.startTime) + syl.startTime)
  {
    HighlightStart(c, line, ParseTime(line.startTime), syl);
  }
}

# py-effector-fx karaoke pipeline in Dafny

A model of the pipeline that turns Advanced SubStation Alpha (ASS) karaoke
lines into animated `fx` lines. It covers four Python files.

- **py/karaoke_processor.py.** `KaraokeProcessor` parses a `Dialogue:` line
  into a `KaraokeLine`. It cuts the `{\k..}` text into `Syllable`s, each
  with its own clock time and a cursor position from a heuristic
  character-width table. `get_clean_text` removes the override blocks.
- **py/process_effect.py.** This is the stand-alone effect script. It has
  its own width table and its own syllable extraction, with a different
  rule for blank syllables. It also has the line-by-line `[V4` style
  scanner, the style metrics lookup, and `generate_syllable_lines`, which
  writes one `fx` line per syllable.
- **py/effects.py.** `MultiLayerEffectGenerator` writes three layers per
  syllable: a main line, one fly-in line per visible character, and a
  highlight line. This file also has the compatibility `KaraokeEffects`
  with its lead-in and lead-out tables, its colour block and
  `get_available_effects`.
- **py/ass_parser.py.** `ASSParser` finds the `[V4 Styles]` or
  `[V4+ Styles]` section and appends one style dictionary per accepted
  `Style:` line. It also provides the `get_style_names` and `get_style`
  lookups.

There is one Dafny module per concern, one file each:

| module | contents |
|---|---|
| `Strs` | the Python `str` behaviour the code relies on: `isspace`, `strip`, `split`, `str(int)`, `int()`, `float()`, `:02d`, `:.0f` |
| `TimeCodec` | `parse_time` and `format_time` |
| `Color` | `hex_to_ass` |
| `Dialogue` | the `Dialogue:` regular expression as a matcher, and the `fx` line shape |
| `KaraokeScan` | the `{\k..}` scanner shared by both extractions, and `get_clean_text` |
| `KaraokeProcessor` | the processor's widths, extraction and dialogue parse |
| `ProcessEffect` | the effect script |
| `Effects` | the three-layer generator |
| `LeadEffects` | `KaraokeEffects` and `get_available_effects` |
| `AssParser` | the `ASSParser` class |

`parse_time`, `format_time` and `hex_to_ass` appear in several files with the
same text. Each is defined once here, and the rows below cite both copies
where a row needs both.

**How the source's state is modelled**

- Where the source updates state step by step, the model is a method with a
  loop:
  - the extraction loops (`LayOutMatches`);
  - the `[V4` scanner (`ProcessEffect.ParseStyles`);
  - the `ASSParser` section loop, over the parser's `styles` field;
  - the per-character entry loop (`EntryLoop`);
  - the syllable loop of `generate_all_layers`;
  - the append loops of `generate_syllable_lines`.

  Each method is proved equal to a function that describes the same
  computation step by step. The properties are proved as lemmas about that
  function.
- The processor and the two generators never change their attributes after
  construction, so they are values here.
- Widths are exact reals. `int()` and `float()` of configuration or style
  text return `None` where Python raises `ValueError`.

**Points of the code the model keeps as written**

- **Timestamps** (py/karaoke_processor.py:59-65). `parse_time` accepts any
  number of digits in every group. A text with no timestamp at its start
  reads as 0.
- **Two extractions** (py/karaoke_processor.py:132-165,
  py/process_effect.py:131-160). Each file has its own width table and its
  own blank-syllable rule. The processor skips a whitespace-only syllable
  without advancing the clock or the cursor. The effect script skips only
  an empty one.
- **Line-relative times in `effects.py`** (py/karaoke_processor.py:139,
  py/effects.py:80-82, 143-144). `extract_syllables` never reads its
  `line_start_ms`, so every syllable time is an offset from the line's
  start. `effects.py` formats those offsets as absolute times (see
  Findings).
- **`ASSParser` styles** (py/ass_parser.py:58-62). A style is appended to a
  list in document order, not keyed by name. A style without a `Name` is
  kept; only `get_style_names` skips it.
- **`parse_styles` styles** (py/process_effect.py:83-89). A style is kept
  when it has at least 3 values, whatever the field count. Fields with no
  value are left out of the style. A style without a `Name` is dropped.

## Model

| member | source | states |
|---|---|---|
| Strs.NatToString | py/karaoke_processor.py:75 | `str(n)` is a numeral without leading zeros that reads back as `n` |
| Strs.Pad2 | py/karaoke_processor.py:75 | `:02d` of a number below 100 is exactly two digits that read back as the number |
| Strs.Strip | py/process_effect.py:69 | `strip()` is the input with its leading and trailing whitespace cut off: a slice of the input, whitespace on both sides of it, and no whitespace at either end of the result |
| Strs.StripEmptyIffAllSpace | py/karaoke_processor.py:147-148 | `not s.strip()` holds exactly of the whitespace-only texts, the empty one included |
| Strs.Split | py/ass_parser.py:51 | `split(sep)` gives at least one piece, no piece holds the separator, and joining the pieces gives the text back |
| Strs.SplitJoin | py/ass_parser.py:56 | splitting a join of separator-free pieces gives the pieces back |
| Strs.IntLiteralRoundTrip | py/process_effect.py:100 | `int(str(i)) == i` for every integer |
| Strs.FloatLiteralOfInt | py/process_effect.py:101 | `float(str(i)) == i` for every integer |
| Strs.RoundsToNearest | py/process_effect.py:219 | `:.0f` rounds to an integer at most one half away, and to the even one on a tie |
| Strs.ShowRounded | py/process_effect.py:219 | `:.0f` text is non-empty and made of digits and minus signs only, so it cannot break a tag or a field |
| TimeCodec.MatchTime | py/karaoke_processor.py:61 | every match of `(\d+):(\d+):(\d+)\.(\d+)` consists of four digit groups |
| TimeCodec.MatchTimeSound | py/karaoke_processor.py:61 | a match covers a prefix of the text, and the text after it does not start with a digit |
| TimeCodec.MatchTimeComplete | py/karaoke_processor.py:61 | every text starting with `digits:digits:digits.digits` matches, and gives exactly those groups when no digit follows |
| TimeCodec.ParseTimeNonzeroHasTimestamp | py/karaoke_processor.py:59-65 | `parse_time` is 0 unless the text starts with a timestamp; it never fails |
| TimeCodec.ParseTimeValue | py/karaoke_processor.py:62-64 | on a match the result is `(h*3600 + m*60 + s)*1000 + cs*10` |
| TimeCodec.ParseTime | py/karaoke_processor.py:59-65 | `parse_time` always gives whole centiseconds, a multiple of 10 ms, and 0 when the text does not start with a timestamp |
| TimeCodec.FormatTime | py/karaoke_processor.py:67-75 | `format_time` text is non-empty and holds no comma, newline, minus sign or `{`, so it fits a `Dialogue:` field |
| TimeCodec.FormatTimeClamps | py/karaoke_processor.py:69-70 | negative input is formatted as `0:00:00.00` |
| TimeCodec.FormatTimeShape | py/karaoke_processor.py:71-75 | the output is one timestamp: minutes and seconds are two digits below 60, centiseconds two digits, hours unpadded |
| TimeCodec.RoundTrip | py/karaoke_processor.py:59-75 | `parse_time(format_time(ms))` is `ms - ms % 10` for `ms >= 0` and 0 for negative `ms` |
| TimeCodec.RoundTripExact | py/process_effect.py:42-57 | on whole centiseconds the round trip through the script's copy is exact |
| Color.LStrip | py/effects.py:54 | `lstrip('#')` removes exactly the leading `#`s and keeps the rest |
| Color.Slice | py/effects.py:55 | a slice is clamped to the text: exact inside it, empty past its end |
| Color.HexToAss | py/effects.py:52-56 | the output is `&H00` … `&`, and it is 11 characters exactly when six or more characters follow the `#`s |
| Color.HexToAssSwaps | py/process_effect.py:36-39 | `#RRGGBB` becomes `&H00BBGGRR&`: red and blue swap, green stays in the middle |
| Color.HexToAssIgnoresHashes | py/effects.py:225-228 | a leading `#` makes no difference |
| Color.HexRoundTrip | py/effects.py:52-56 | converting `#RRGGBB` to ASS and back gives it unchanged |
| Color.AssRoundTrip | py/process_effect.py:36-39 | every `&H00BBGGRR&` whose red pair does not start with `#` is the image of its `#RRGGBB` |
| Color.HexToAssAvoids | py/effects.py:52-56 | apart from `&`, `H` and `0`, the output holds only characters of the input |
| Color.ShortHexTruncates | py/process_effect.py:37-39 | a short input is not rejected: the missing pairs are empty |
| Dialogue.CutFields | py/karaoke_processor.py:93-96 | cutting `n` comma-terminated fields gives comma-free fields that, with the rest, make up the text |
| Dialogue.CutFieldsOf | py/karaoke_processor.py:94 | the cut of comma-free fields, each followed by its comma, finds exactly those fields |
| Dialogue.MatchDialogue | py/process_effect.py:166-171 | every match has a numeric layer and margins and non-empty start and end groups |
| Dialogue.MatchDialogueComplete | py/karaoke_processor.py:93-98 | every line fitting the 10-group grammar matches and gives back exactly its groups, commas of the last one included |
| Dialogue.MatchDialogueSound | py/process_effect.py:166-171 | every match comes from such a line: `Dialogue:`, whitespace, the groups, then the end of the line |
| Dialogue.FxLineRender | py/process_effect.py:229-234 | the written `fx` line is the rendering of its ten groups: margins `0`, empty actor, effect `fx` |
| Dialogue.FxLineParses | py/effects.py:91-94 | a written `fx` line parses back into the layer, times, style and text it was written from |
| KaraokeScan.LastMarkerBelow | py/karaoke_processor.py:137 | finds the rightmost `\k`, `\K`, `\kf` or `\Kf` marker with digits before a position, or proves there is none |
| KaraokeScan.NextBlock | py/karaoke_processor.py:137 | the first block runs from a `{` to the first `}` after it, and the text splits around it |
| KaraokeScan.TextRun | py/karaoke_processor.py:137 | a syllable text (`[^{]*`) runs up to the next `{` |
| KaraokeScan.NextBlockOf | py/karaoke_processor.py:137 | the block splitter finds exactly the block that was written |
| KaraokeScan.Scan | py/karaoke_processor.py:137 | no syllable text found by the pattern holds a `{` |
| KaraokeScan.NextBlockNoneIffClean | py/karaoke_processor.py:173-175 | there is no block exactly when no `}` follows a `{` |
| KaraokeScan.ScanSkipsPlainText | py/karaoke_processor.py:137-143 | text before the first `{` never changes the matches |
| KaraokeScan.NoBlockNoMatches | py/karaoke_processor.py:137-143 | a text with no complete block has no matches |
| KaraokeScan.UnmarkedBlockDropsText | py/karaoke_processor.py:137 | a block without a marker gives no match, and the text after it is dropped |
| KaraokeScan.TrailingMarkerWins | py/karaoke_processor.py:137 | a final `\k<digits>` supplies the duration whatever precedes it in the block |
| KaraokeScan.SingleMarker | py/karaoke_processor.py:137 | the block `\k<digits>` has the duration its digits give |
| KaraokeScan.RightmostMarkerWins | py/karaoke_processor.py:137 | in `{\k10\k20}` the duration is 20 |
| KaraokeScan.MarkedBlockMatches | py/karaoke_processor.py:137-145 | a block with a marker gives one match: its duration and the text up to the next `{` |
| KaraokeScan.ScanRenderAll | py/karaoke_processor.py:137-145 | scanning a line written as `{\k<d>}text` blocks gives back every duration and text, in order |
| KaraokeScan.CleanTextIsClean | py/karaoke_processor.py:173-175 | `get_clean_text` leaves no complete `{...}` block |
| KaraokeScan.CleanText | py/karaoke_processor.py:173-175 | `get_clean_text` never lengthens the text, and keeps its length exactly when it changes nothing |
| KaraokeScan.CleanTextOfClean | py/karaoke_processor.py:175 | a text without blocks is left unchanged |
| KaraokeScan.CleanTextIdempotent | py/karaoke_processor.py:175 | cleaning twice is cleaning once |
| KaraokeScan.CleanTextStep | py/karaoke_processor.py:175 | the text before the first block is kept and the rest is cleaned |
| KaraokeScan.CleanPlainPrefix | py/karaoke_processor.py:175 | text before the first `{` is kept as it is |
| KaraokeScan.CleanRenderAll | py/karaoke_processor.py:173-175 | on a `{\k..}` line the clean text is the syllable texts joined |
| KaraokeProcessor.CharWidth | py/karaoke_processor.py:77-86 | every character width lies between 0.3 and 0.7 of the font size, so it is positive for a positive size |
| KaraokeProcessor.TextWidth | py/karaoke_processor.py:88-90 | for a positive size the width is never negative and is positive exactly for non-empty text |
| KaraokeProcessor.TextWidthAppend | py/karaoke_processor.py:88-90 | the width of a concatenation is the sum of the widths |
| KaraokeProcessor.ExtractSyllables | py/karaoke_processor.py:132-171 | `extract_syllables` gives the syllables of its text; the line start plays no part |
| KaraokeProcessor.LayOutMatches | py/karaoke_processor.py:139-169 | the loop over the matches gives the syllables the step-by-step definition gives |
| KaraokeProcessor.RunLaidOut | py/karaoke_processor.py:139-169 | each syllable starts at the sum of the durations before it, times 10. It is centred at 10 plus the widths before it plus half its own. Its `char_index` is the length of the texts before it. The accumulators end at those sums |
| KaraokeProcessor.RunSelects | py/karaoke_processor.py:143-165 | the syllables are exactly the non-blank matches, in order; `index` is the raw match ordinal, so indices increase and may skip |
| KaraokeProcessor.BlankMatchSkipped | py/karaoke_processor.py:147-148 | a whitespace-only match gives no syllable and leaves the clock, the cursor and the character count unchanged |
| KaraokeProcessor.SyllableTiming | py/karaoke_processor.py:150-167 | the first syllable starts at 0, each lasts `duration*10`, and each starts where the previous one ended |
| KaraokeProcessor.SyllablesLeftToRight | py/karaoke_processor.py:152-168 | with a positive font size the centres strictly increase |
| KaraokeProcessor.FinalCursor | py/karaoke_processor.py:167-169 | the final cursor is the margin plus the widths of the emitted texts, and the final clock is their total time |
| KaraokeProcessor.SyllablesOfRendered | py/karaoke_processor.py:132-171 | on a `{\k..}` line the syllables are the non-blank written ones with their durations |
| KaraokeProcessor.ParseDialogueLine | py/karaoke_processor.py:92-130 | `None` exactly on a grammar mismatch. Otherwise the layer and margins are non-negative, the text is one line, and the syllables are those of the text |
| KaraokeProcessor.ParseDialogueLineOf | py/karaoke_processor.py:92-130 | a well-formed line gives back its groups; the text keeps its commas, and the duration is `parse_time(end) - parse_time(start)` |
| KaraokeProcessor.ProcessKaraokeLine | py/karaoke_processor.py:178-182 | `None` exactly on a mismatch, and otherwise the syllables of a processor with the given size and line |
| ProcessEffect.StyleMetrics | py/process_effect.py:96-103 | an unknown style gives `(48, 0)`; a missing `Fontsize` gives 48 and a missing `Spacing` gives 0; a present key gives the value `int()` or `float()` reads from it; `None` exactly when the style exists and a present key does not read |
| ProcessEffect.StyleMetricsOf | py/process_effect.py:96-103 | a style whose size and spacing are integer text gives those integers |
| ProcessEffect.FactorRange | py/process_effect.py:106-121 | each factor is between 0.25 and 1; it is 1 exactly for non-ASCII characters outside the named classes |
| ProcessEffect.TextWidthClosedForm | py/process_effect.py:106-128 | width is `fontsize * Σ factor + len * spacing` |
| ProcessEffect.TextWidthAppend | py/process_effect.py:126-128 | the width of a concatenation is the sum of the widths |
| ProcessEffect.ExtractSyllables | py/process_effect.py:131-162 | `extract_syllables` gives the syllables of its text with the given metrics |
| ProcessEffect.LayOutMatches | py/process_effect.py:139-160 | the loop over the matches gives the syllables the step-by-step definition gives |
| ProcessEffect.RunLaidOut | py/process_effect.py:136-160 | start times are prefix sums of `duration*10`, centres are 10 plus the widths before plus half their own, and the accumulators end at those sums |
| ProcessEffect.RunKeeps | py/process_effect.py:139-144 | the syllables are exactly the matches with non-empty text, blank ones included, in order |
| ProcessEffect.SyllableTiming | py/process_effect.py:146-159 | the first syllable starts at 0, each lasts `duration*10`, and each starts where the previous one ended |
| ProcessEffect.BlankTextKept | py/process_effect.py:143-144 | a whitespace-only text is emitted and advances both the clock and the cursor |
| ProcessEffect.ParseDialogue | py/process_effect.py:165-184 | `None` exactly on a mismatch. Otherwise the layer and margins are non-negative integers, the style is comma-free, and the text is one line |
| ProcessEffect.ParseDialogueOf | py/process_effect.py:165-184 | a well-formed line gives exactly its groups, with the layer and margins as numbers and every comma of the text kept |
| ProcessEffect.ParseStyles | py/process_effect.py:60-93 | the line loop gives the styles of the step-by-step scanner |
| ProcessEffect.BuildStyle | py/process_effect.py:84-87 | the inner loop builds the style of the field and value lists |
| ProcessEffect.ScanStripped | py/process_effect.py:67-89 | before the `[V4` line a line changes nothing. Inside the section, before the stop, a `[` line that is not a `[V4` line stops the scan and keeps the styles, and no other line stops it |
| ProcessEffect.ScanLines | py/process_effect.py:67-89 | before the section nothing is kept, and the scan stops only inside the section |
| ProcessEffect.ScanStep | py/process_effect.py:80-89 | one line stores a style under its `Name` exactly when it is a `Style:` line inside the section, before the stop, after a field list, with at least 3 values and a `Name`; any other line leaves the styles alone |
| ProcessEffect.FewValuesIgnored | py/process_effect.py:83 | a `Style:` line with fewer than 3 values changes nothing |
| ProcessEffect.IgnoredBeforeSection | py/process_effect.py:70-76 | lines before the first `[V4` line make no difference to the result |
| ProcessEffect.StoppedStays | py/process_effect.py:73-74 | once a `[` line after the section has stopped the scan, later lines change nothing |
| ProcessEffect.StyleOfKeys | py/process_effect.py:84-87 | a field is in the style exactly when a value exists at its index; fields without a value are left out |
| ProcessEffect.StyleOfValue | py/process_effect.py:84-87 | a field's value is the one at its last index in the field list |
| ProcessEffect.StylesKeyedByName | py/process_effect.py:88-89 | every stored style is stored under its own `Name` |
| ProcessEffect.NoSectionNoStyles | py/process_effect.py:70-76 | without a `[V4` line nothing is read |
| ProcessEffect.NoFormatNoStyles | py/process_effect.py:77-83 | without a `Format:` line no style is kept |
| ProcessEffect.LaterStyleWins | py/process_effect.py:88-89 | a kept style replaces any earlier one of the same name |
| ProcessEffect.ReadSettings | py/process_effect.py:191-198 | an empty configuration gives the defaults. A present text key gives its own text, and a present duration is read by `int()`, 300 when absent. `None` exactly when a present duration does not read |
| ProcessEffect.GenerateSyllableLines | py/process_effect.py:187-238 | `None` exactly when `int()` of a setting or the style metrics fails. Otherwise there is one line per syllable, in order, from line start plus syllable start to line end, and no syllables give no lines |
| ProcessEffect.EmitLines | py/process_effect.py:214-236 | the append loop writes each syllable's line, in order |
| ProcessEffect.MapSeq | py/process_effect.py:214-236 | one line per syllable: the `k`-th line is that of the `k`-th syllable |
| ProcessEffect.SyllableLine | py/process_effect.py:214-234 | each written line parses back with the source's layer and style, starting at `format_time(line_start + syl.start)` and ending at `format_time(line_end)` |
| Effects.NewGenerator | py/effects.py:48-50 | no configuration means the defaults; the processor has font size 48 and line y 29 |
| Effects.BaseTags | py/effects.py:58-66 | with one-line sizes and colours the base tags hold no line break, so they cannot end the `Dialogue:` line early |
| Effects.EntryLoop | py/effects.py:106-135 | the cursor loop writes the lines the step-by-step definition gives |
| Effects.GenerateLayer2Entry | py/effects.py:96-137 | the entry layer of a syllable starts its cursor at the syllable's left edge |
| Effects.EntryRunCounts | py/effects.py:106-135 | the cursor moves over every character's width, whitespace included; one line and one draw are used per visible character |
| Effects.EntryLinesCount | py/effects.py:103-137 | a syllable gets one entry line per non-whitespace character, and the cursor ends at `syl.x + width/2` |
| Effects.EntryRunNext | py/effects.py:108-133 | a visible character's line is centred at the cursor plus half its width, using the next draw |
| Effects.EntryRunBlank | py/effects.py:109 | a whitespace character writes no line |
| Effects.EmitSyllable | py/effects.py:172-180 | the loop body writes the syllable's block and counts its visible characters |
| Effects.GenerateAllLayers | py/effects.py:166-182 | the syllable loop writes the blocks of all syllables, in order |
| Effects.AllLayersCount | py/effects.py:166-182 | the output has `Σ (2 + nonspace(text))` lines |
| Effects.BlocksSnoc | py/effects.py:172-180 | a further syllable appends its block, with the draws of the syllables before it used |
| Effects.SyllableBlockShape | py/effects.py:172-180 | a block is the main line, then the entry lines, then the highlight line |
| Effects.ProcessLine | py/effects.py:184-189 | as written: an unparseable line or one without syllables gives nothing; otherwise all layers, with syllable offsets formatted as absolute times (origin 0) |
| Effects.ProcessLineFromLineStart | py/effects.py:184-189 | corrected: the same, with every layer timed from `parse_time(line.start_time)` |
| Effects.MainLine | py/effects.py:75-94 | the main line parses back as layer 1 from `origin + syl.start + highlight_duration` to the line's end text as written, with the main tags and the syllable text |
| Effects.EntryLine | py/effects.py:119-133 | an entry line parses back as layer 2 from `max(0, origin + syl.start - entry_duration)` to `origin + syl.start`, with its one character as text |
| Effects.HighlightLine | py/effects.py:143-164 | the highlight line parses back as layer 3 from `origin + syl.start` to `origin + syl.start + highlight_duration` |
| Effects.HighlightStart | py/effects.py:143-144 | a highlight's start reads back as the origin plus the syllable's offset |
| Effects.AsWrittenHighlightIgnoresLineStart | py/effects.py:143-144 | as written, the highlight starts at the syllable's offset, before a later line is even shown |
| Effects.AsWrittenExample | py/effects.py:143 | for a line starting at `0:01:00.00`, its first syllable's highlight reads back as starting at 0 |
| Effects.HighlightAtSyllableStart | py/effects.py:184-189 | timed from the line's start, a highlight starts exactly when its syllable is sung |
| LeadEffects.Keys | py/effects.py:271 | `list(d.keys())` lists the keys in insertion order |
| LeadEffects.GetMissing | py/effects.py:231 | a missing name gives the default |
| LeadEffects.GetFound | py/effects.py:247 | a listed name gives its own effect |
| LeadEffects.TablesDistinct | py/effects.py:195-212 | the names in each table are distinct |
| LeadEffects.NewKaraokeEffects | py/effects.py:214-223 | no colours, or an empty dictionary, means the default colours; the sizes are kept |
| LeadEffects.GenerateLeadIn | py/effects.py:230-244 | every lead-in is one override block |
| LeadEffects.GenerateLeadOut | py/effects.py:246-256 | every lead-out is one override block |
| LeadEffects.UnknownLeadInFades | py/effects.py:231 | an unlisted name fades in |
| LeadEffects.UnknownLeadOutFades | py/effects.py:247 | an unlisted name fades out |
| LeadEffects.LeadInsWithoutTagFade | py/effects.py:195-244 | `Move Down`, `Move Left`, `Move Right` and `Multi-Layer` are listed but fade in |
| LeadEffects.RotateOutFades | py/effects.py:207-256 | `Rotate Out` is listed but fades out |
| LeadEffects.ScaleInDiffers | py/effects.py:235-236 | `Scale In` has its own tag, different from the fade |
| LeadEffects.ApplyColors | py/effects.py:258-266 | the colour block exists exactly when all four colour roles are present |
| LeadEffects.GetAvailableEffects | py/effects.py:269-274 | `lead_in` and `lead_out` list the names of their table, all of them, in table order; any other type lists nothing |
| LeadEffects.AvailableEffectsListed | py/effects.py:269-274 | a name is listed exactly when it is a key of the table of that type; an unknown type lists nothing |
| LeadEffects.ColorsBlock | py/effects.py:258-266 | with brace-free colours the colour block is one override block |
| LeadEffects.DefaultColorsApply | py/effects.py:214-266 | with the default colours the colour block exists and is one override block |
| AssParser.HeaderLength | py/ass_parser.py:35 | a non-zero length is a `[V4 Styles]` or `[V4+ Styles]` header, in any case; conversely, a header of either form at the position gives its length |
| AssParser.SectionFrom | py/ass_parser.py:35 | a search captures no `[`, and finds nothing exactly when no header starts at or after its start |
| AssParser.LeftmostSection | py/ass_parser.py:35 | the search stops at the leftmost header |
| AssParser.Section | py/ass_parser.py:35-38 | the section holds no `[`; there is none exactly when no header exists |
| AssParser.StylesIn | py/ass_parser.py:32-62 | no more styles than lines in the section |
| AssParser.ScanLines | py/ass_parser.py:45-62 | no more styles than lines |
| AssParser.NamesOf | py/ass_parser.py:66 | at most one name per style |
| AssParser.ASSParser.constructor | py/ass_parser.py:10-16 | a new parser holds the styles of the given script, or none |
| AssParser.ASSParser.Parse | py/ass_parser.py:18-30 | `parse` forgets earlier styles and reads the script's |
| AssParser.ASSParser.ParseStyles | py/ass_parser.py:32-62 | `_parse_styles` appends the section's styles to those already held |
| AssParser.ASSParser.ScanSection | py/ass_parser.py:45-62 | the line loop appends the styles of the step-by-step scanner |
| AssParser.ASSParser.StyleNames | py/ass_parser.py:64-66 | a name is listed exactly when it is non-empty and some style carries it |
| AssParser.ASSParser.GetStyle | py/ass_parser.py:68-73 | gives the first style with the name, or `None` exactly when no style has it |
| AssParser.BuildStyle | py/ass_parser.py:59-61 | the inner loop builds the style of the field and value lists |
| AssParser.NamesListed | py/ass_parser.py:64-66 | a name is listed exactly when it is non-empty and some style carries it |
| AssParser.NamesAppend | py/ass_parser.py:66 | names are listed in document order |
| AssParser.StyleFromKeys | py/ass_parser.py:59-61 | a style has exactly the declared fields |
| AssParser.StyleFromValue | py/ass_parser.py:59-61 | a field's value is the one at its last index in the field list |
| AssParser.ScanStep | py/ass_parser.py:45-62 | a line appends at most one style. It appends one exactly when it is a `Style:` line after a field list with at least as many values. Earlier styles stay |
| AssParser.FormatReplacesFields | py/ass_parser.py:48-51 | a `Format:` line replaces the field list and keeps the styles |
| AssParser.ScanAppends | py/ass_parser.py:62 | styles are only appended: a prefix's styles begin the whole's |
| AssParser.NoFormatNoStyles | py/ass_parser.py:53-58 | without a `Format:` line no style is kept |
| AssParser.KeptStyleFields | py/ass_parser.py:58-61 | an appended style has exactly the fields in force |
| AssParser.SectionOf | py/ass_parser.py:35-41 | the first header, in any letter case and after any text without a header, starts the section, which runs to the next `[` |
| AssParser.NoHeaderNoStyles | py/ass_parser.py:37-38 | a script without a styles header has no styles |

## Left out

- **File and console I/O.** `read_config`, `read_dialogue_lines`, `main`,
  `parse_ass_file`, the file reading and encoding fallback of
  `ASSParser.parse`, and the `__main__` demonstration are left out. The model
  takes the file's text or its lines as a parameter.
- **The `filepath` and `script_info` attributes of `ASSParser`.** Nothing in
  the core reads them.
- **The GUI pages and `gui_script.py`.** They are not part of this model.
- **Random draws.** `get_random_entry_position` and the `random.randint`
  rotation become an input `draw: nat -> EntryDraw`, one draw per visible
  character in order. The cosine, the sine and the `[-360, 360]` range of
  the rotation are not modelled.
- **Floating point.** Widths and positions are exact reals, and `:.0f` is
  exact round-half-to-even.
- **Float sizes as text.** The float sizes of `EffectConfig` (`blur`,
  `border_size`, `shadow_size`) are kept as the text that `str()` prints for
  them.
- **Unicode digits and whitespace.** `\d` is ASCII digits only, while
  Python's also matches other Unicode decimal digits. `\s` and `strip()`
  share one whitespace set.
- **Case-insensitive header matching** folds ASCII letters only.
- Strs.ParseIntLiteral: reads only optional whitespace, an optional sign and
  ASCII digits. It gives `None` for underscores and non-ASCII digits, which
  Python's `int()` accepts.
- Strs.ParseFloatLiteral: reads only `d`, `d.`, `d.d` and `.d` with an
  optional sign. It gives `None` for exponents, `inf`, `nan` and
  underscores, which Python's `float()` accepts.
- **Unused fields.** `EffectConfig.entry_type`,
  `EffectConfig.secondary_color` and `KaraokeEffects.size` are carried but
  never read, as in the source.
- **The `line_end_ms` parameter of `generate_layer1_main`.** It is unused,
  so it is not a parameter here.

## Findings

| source | as written | input that shows it | evidently intended | confidence | as-written member | corrected member |
|---|---|---|---|---|---|---|
| py/effects.py:139-189 | the highlight line (and likewise the main and entry lines) formats `syl.start_time`, an offset from the start of the line, because `extract_syllables` ignores `line_start_ms`, while the main line's end is the line's absolute end time | a line starting at `0:01:00.00` whose first syllable starts at offset 0: its highlight is written from `0:00:00.00`, a minute before the line is shown | times measured from the line's start, `parse_time(line.start_time) + syl.start_time`, as `generate_syllable_lines` does at py/process_effect.py:215 | not executed | Effects.ProcessLine, Effects.AsWrittenExample | Effects.ProcessLineFromLineStart, Effects.HighlightAtSyllableStart |

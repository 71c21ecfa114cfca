/**
 * The style table of an ASS script (py/ass_parser.py, `ASSParser`): the
 * `[V4 Styles]` or `[V4+ Styles]` section is found in the text, its
 * `Format:` line names the fields, and every `Style:` line with enough
 * values becomes one dictionary, appended in document order.
 */
module AssParser {
  import opened Options
  import opened Strs

  /** One style: its fields by the names the `Format:` line gave them. */
  type Style = map<string, string>

  // ---------------------------------------------------------------------------
  // The section header, matched without regard to case
  // ---------------------------------------------------------------------------

  function AsciiLower(c: char): char {
    if 'A' <= c <= 'Z' then (c as int + 32) as char else c
  }

  /** Equal up to ASCII case. */
  predicate SameIgnoringCase(a: string, b: string) {
    |a| == |b| && forall i | 0 <= i < |a| :: AsciiLower(a[i]) == AsciiLower(b[i])
  }

  const ShortHeader: string := "[v4 styles]"
  const LongHeader: string := "[v4+ styles]"

  /** A header the section pattern accepts. */
  predicate IsHeader(h: string) {
    SameIgnoringCase(h, ShortHeader) || SameIgnoringCase(h, LongHeader)
  }

  /** The length of the header starting at `i`, `0` when there is none; the optional `+` is tried first. */
  function HeaderLength(s: string, i: nat): (n: nat)
    requires i <= |s|
    ensures n == 0 || (i + n <= |s| && IsHeader(s[i..i + n]))
    ensures i + |LongHeader| <= |s| && SameIgnoringCase(s[i..i + |LongHeader|], LongHeader) ==> n == |LongHeader|
    ensures i + |ShortHeader| <= |s| && SameIgnoringCase(s[i..i + |ShortHeader|], ShortHeader) ==> n == |ShortHeader|
  {
    HeadersDiffer(s, i);
    if i + |LongHeader| <= |s| && SameIgnoringCase(s[i..i + |LongHeader|], LongHeader) then |LongHeader|
    else if i + |ShortHeader| <= |s| && SameIgnoringCase(s[i..i + |ShortHeader|], ShortHeader) then |ShortHeader|
    else 0
  }

  /** No text starts with both headers: they differ in their fourth character, ` ` against `+`. */
  lemma HeadersDiffer(s: string, i: nat)
    ensures i + |LongHeader| <= |s| ==>
      !(SameIgnoringCase(s[i..i + |ShortHeader|], ShortHeader) && SameIgnoringCase(s[i..i + |LongHeader|], LongHeader))
  {
    if i + |LongHeader| <= |s| {
      assert s[i..i + |ShortHeader|][3] == s[i..i + |LongHeader|][3];
      assert AsciiLower(ShortHeader[3]) != AsciiLower(LongHeader[3]);
    }
  }

  /**
   * What a search from `from` captures: the text after the leftmost header at
   * or after `from`, up to the next `[`; `None` when no header starts there or later.
   */
  function SectionFrom(s: string, from: nat): (r: Option<string>)
    requires from <= |s|
    ensures r.Some? ==> '[' !in r.value
    ensures r.None? <==> forall i | from <= i <= |s| :: HeaderLength(s, i) == 0
    decreases |s| - from
  {
    if from == |s| then None
    else if HeaderLength(s, from) > 0 then Some(SectionAfter(s, from + HeaderLength(s, from)))
    else SectionFrom(s, from + 1)
  }

  /**
   * The section the pattern captures: the text after the first header up to
   * the next `[`, or to the end; `None` when there is no header.
   */
  function Section(content: string): (r: Option<string>)
    ensures r.Some? ==> '[' !in r.value
    ensures r.None? <==> forall i | 0 <= i <= |content| :: HeaderLength(content, i) == 0
  {
    SectionFrom(content, 0)
  }

  /** The text from `start` up to the next `[`, or to the end. */
  function SectionAfter(content: string, start: nat): (r: string)
    requires start <= |content|
    ensures '[' !in r
  {
    var rest := content[start..];
    rest[..IndexOf(rest, '[')]
  }

  // ---------------------------------------------------------------------------
  // The lines of the section
  // ---------------------------------------------------------------------------

  /** The scanner's variables: the styles kept so far and the current field list. */
  datatype ScanState = ScanState(styles: seq<Style>, fields: seq<string>)

  /** The dictionary one `Style:` line builds: every field, with the value at its index or `''`; a later duplicate field wins. */
  function StyleFrom(fields: seq<string>, values: seq<string>): Style
    decreases |fields|
  {
    if fields == [] then map[]
    else
      var i := |fields| - 1;
      StyleFrom(fields[..i], values)[fields[i] := if i < |values| then values[i] else ""]
  }

  /** A `Style:` line is kept when a field list exists and it has at least as many values. */
  predicate Accepted(fields: seq<string>, values: seq<string>) {
    fields != [] && |values| >= |fields|
  }

  /** What one stripped line of the section does to the scanner. */
  function ScanStripped(st: ScanState, line: string): ScanState {
    if StartsWith(line, "Format:") then st.(fields := CommaFields(line[7..]))
    else if StartsWith(line, "Style:") then
      var values := CommaFields(line[6..]);
      if Accepted(st.fields, values) then st.(styles := st.styles + [StyleFrom(st.fields, values)]) else st
    else st
  }

  /** The scanner after `lines`: at most one style per line. */
  function ScanLines(lines: seq<string>): (r: ScanState)
    ensures |r.styles| <= |lines|
    decreases |lines|
  {
    if lines == [] then ScanState([], [])
    else ScanStripped(ScanLines(lines[..|lines| - 1]), Strip(lines[|lines| - 1]))
  }

  /** The lines of a section: stripped as a whole, then cut at each newline. */
  function SectionLines(body: string): seq<string> {
    Split(Strip(body), '\n')
  }

  /** The styles `_parse_styles` appends for a text: at most one per line of the section. */
  function StylesIn(content: string): (r: seq<Style>)
    ensures Section(content).Some? ==> |r| <= |SectionLines(Section(content).value)|
  {
    match Section(content)
    case None => []
    case Some(body) => ScanLines(SectionLines(body)).styles
  }

  /** `get_style_names` over a list of styles: the non-empty names, in order. */
  function NamesOf(styles: seq<Style>): (r: seq<string>)
    ensures |r| <= |styles|
    decreases |styles|
  {
    if styles == [] then []
    else
      var last := styles[|styles| - 1];
      NamesOf(styles[..|styles| - 1]) + (if "Name" in last && last["Name"] != "" then [last["Name"]] else [])
  }

  /** The style is called `name`. */
  predicate Named(style: Style, name: string) {
    "Name" in style && style["Name"] == name
  }

  // ---------------------------------------------------------------------------
  // The parser object
  // ---------------------------------------------------------------------------

  class ASSParser {
    var styles: seq<Style>

    /** A parser, over a script's text when one is given. */
    constructor (content: Option<string>)
      ensures styles == if content.Some? then StylesIn(content.value) else []
    {
      styles := [];
      new;
      if content.Some? {
        Parse(content.value);
      }
    }

    /** `parse`: forgets the styles of any earlier script, then reads this one. */
    method Parse(content: string)
      modifies this
      ensures styles == StylesIn(content)
    {
      styles := [];
      ParseStyles(content);
    }

    /** `_parse_styles`: appends the styles of the section, if there is one. */
    method ParseStyles(content: string)
      modifies this
      ensures styles == old(styles) + StylesIn(content)
    {
      var section := Section(content);
      if section.None? {
        assert StylesIn(content) == [];
        return;
      }
      ScanSection(SectionLines(section.value));
    }

    /** The loop of `_parse_styles` over the lines of the section. */
    method ScanSection(lines: seq<string>)
      modifies this
      ensures styles == old(styles) + ScanLines(lines).styles
    {
      var formatFields: seq<string> := [];
      ghost var kept: seq<Style> := [];
      for i := 0 to |lines|
        invariant ScanLines(lines[..i]) == ScanState(kept, formatFields)
        invariant styles == old(styles) + kept
      {
        var line := Strip(lines[i]);
        ghost var after := ScanStripped(ScanState(kept, formatFields), line);
        assert ScanLines(lines[..i + 1]) == after by {
          assert lines[..i + 1][..i] == lines[..i];
        }
        if StartsWith(line, "Format:") {
          formatFields := CommaFields(line[7..]);
        } else if StartsWith(line, "Style:") {
          var values := CommaFields(line[6..]);
          if formatFields != [] && |values| >= |formatFields| {
            var style := BuildStyle(formatFields, values);
            AppendOne(old(styles), kept, style);
            styles := styles + [style];
            kept := kept + [style];
          }
        }
        assert after == ScanState(kept, formatFields);
      }
      assert lines[..|lines|] == lines;
    }

    /** `get_style_names`: a name is listed exactly when some style carries it and it is not empty. */
    function StyleNames(): (r: seq<string>)
      reads this
      ensures forall n :: n in r <==> n != "" && exists i | 0 <= i < |styles| :: Named(styles[i], n)
    {
      NamesListed(styles);
      NamesOf(styles)
    }

    /** `get_style`: the first style with the name, or nothing. */
    method GetStyle(name: string) returns (r: Option<Style>)
      ensures r.None? <==> forall i | 0 <= i < |styles| :: !Named(styles[i], name)
      ensures r.Some? ==> exists i | 0 <= i < |styles| ::
        styles[i] == r.value && Named(styles[i], name) && forall j | 0 <= j < i :: !Named(styles[j], name)
    {
      for i := 0 to |styles|
        invariant forall j | 0 <= j < i :: !Named(styles[j], name)
      {
        if "Name" in styles[i] && styles[i]["Name"] == name {
          return Some(styles[i]);
        }
      }
      return None;
    }
  }

  /** The inner loop of `_parse_styles` that fills one style's dictionary. */
  method BuildStyle(fields: seq<string>, values: seq<string>) returns (style: Style)
    ensures style == StyleFrom(fields, values)
  {
    style := map[];
    for i := 0 to |fields|
      invariant style == StyleFrom(fields[..i], values)
    {
      assert fields[..i + 1][..i] == fields[..i];
      style := style[fields[i] := if i < |values| then values[i] else ""];
    }
    assert fields[..|fields|] == fields;
  }

  /** Appending to the kept styles appends to the parser's list; stated apart to keep the loop's context small. */
  lemma AppendOne(a: seq<Style>, b: seq<Style>, x: Style)
    ensures (a + b) + [x] == a + (b + [x])
  {
  }

  // ---------------------------------------------------------------------------
  // Properties
  // ---------------------------------------------------------------------------

  /** A name is listed exactly when some style carries it and it is not empty. */
  lemma {:induction false} NamesListed(styles: seq<Style>)
    ensures forall n :: n in NamesOf(styles) <==> n != "" && exists i | 0 <= i < |styles| :: Named(styles[i], n)
    decreases |styles|
  {
    if styles != [] {
      var init := styles[..|styles| - 1];
      NamesListed(init);
      assert forall i | 0 <= i < |init| :: init[i] == styles[i];
    }
  }

  /** Names are listed in the order of their styles. */
  lemma {:induction false} NamesAppend(a: seq<Style>, b: seq<Style>)
    ensures NamesOf(a + b) == NamesOf(a) + NamesOf(b)
    decreases |b|
  {
    if b == [] {
      assert a + b == a;
    } else {
      var init := b[..|b| - 1];
      assert (a + b)[..|a + b| - 1] == a + init;
      NamesAppend(a, init);
    }
  }

  /** A style has exactly the declared fields, each with a value even when the line was short. */
  lemma {:induction false} StyleFromKeys(fields: seq<string>, values: seq<string>, key: string)
    ensures key in StyleFrom(fields, values) <==> key in fields
    decreases |fields|
  {
    if fields != [] {
      var n := |fields| - 1;
      StyleFromKeys(fields[..n], values, key);
      assert fields == fields[..n] + [fields[n]];
    }
  }

  /** A field's value is the one at the index of its last occurrence in the field list. */
  lemma {:induction false} StyleFromValue(fields: seq<string>, values: seq<string>, i: nat)
    requires i < |fields| && i < |values|
    requires forall j | i < j < |fields| :: fields[j] != fields[i]
    ensures fields[i] in StyleFrom(fields, values) && StyleFrom(fields, values)[fields[i]] == values[i]
    decreases |fields|
  {
    var n := |fields| - 1;
    if i < n {
      assert forall j | i < j < n :: fields[..n][j] == fields[j];
      StyleFromValue(fields[..n], values, i);
      assert fields[..n][i] == fields[i];
    }
  }

  /**
   * One line appends at most one style, and only a `Style:` line that follows
   * a field list and has at least as many values; everything kept before stays.
   */
  lemma ScanStep(st: ScanState, line: string)
    ensures var next := ScanStripped(st, line);
      || next.styles == st.styles
      || (StartsWith(line, "Style:") && next.styles == st.styles + [StyleFrom(st.fields, CommaFields(line[6..]))])
    ensures var next := ScanStripped(st, line);
      |next.styles| == |st.styles| + 1 <==>
        !StartsWith(line, "Format:") && StartsWith(line, "Style:") && Accepted(st.fields, CommaFields(line[6..]))
  {
  }

  /** A `Format:` line replaces the field list used by every later `Style:` line. */
  lemma FormatReplacesFields(st: ScanState, line: string)
    requires StartsWith(line, "Format:")
    ensures ScanStripped(st, line) == ScanState(st.styles, CommaFields(line[7..]))
  {
  }

  /** Styles are only ever appended: those of a prefix of the section start those of the whole. */
  lemma {:induction false} ScanAppends(a: seq<string>, b: seq<string>)
    ensures |ScanLines(a).styles| <= |ScanLines(a + b).styles|
    ensures ScanLines(a + b).styles[..|ScanLines(a).styles|] == ScanLines(a).styles
    decreases |b|
  {
    if b == [] {
      assert a + b == a;
    } else {
      var init := b[..|b| - 1];
      assert (a + b)[..|a + b| - 1] == a + init;
      assert (a + b)[|a + b| - 1] == b[|b| - 1];
      ScanAppends(a, init);
      ScanStep(ScanLines(a + init), Strip(b[|b| - 1]));
    }
  }

  /** Without a `Format:` line no style is kept. */
  lemma {:induction false} NoFormatNoStyles(lines: seq<string>)
    requires forall k | 0 <= k < |lines| :: !StartsWith(Strip(lines[k]), "Format:")
    ensures ScanLines(lines) == ScanState([], [])
    decreases |lines|
  {
    if lines != [] {
      var init := lines[..|lines| - 1];
      assert forall k | 0 <= k < |init| :: init[k] == lines[k];
      NoFormatNoStyles(init);
      assert !StartsWith(Strip(lines[|lines| - 1]), "Format:");
    }
  }

  /** Every kept style has exactly the fields of the `Format:` line in force. */
  lemma KeptStyleFields(st: ScanState, line: string, key: string)
    requires |ScanStripped(st, line).styles| == |st.styles| + 1
    ensures key in ScanStripped(st, line).styles[|st.styles|] <==> key in st.fields
  {
    ScanStep(st, line);
    StyleFromKeys(st.fields, CommaFields(line[6..]), key);
  }

  /**
   * The section starts at the first header, in any letter case, wherever it
   * stands, and runs to the next `[`.
   */
  lemma SectionOf(prefix: string, header: string, body: string, rest: string)
    requires IsHeader(header)
    requires forall i, k {:trigger IsHeader((prefix + header + body + rest)[i..k])}
      | 0 <= i < |prefix| && i <= k <= |prefix + header + body + rest| :: !IsHeader((prefix + header + body + rest)[i..k])
    requires '[' !in body
    requires rest == [] || rest[0] == '['
    ensures Section(prefix + header + body + rest) == Some(body)
  {
    var s := prefix + header + body + rest;
    var p := |prefix|;
    var tail := body + rest;
    assert s == prefix + (header + tail);
    assert s[p..] == header + tail;
    assert s[p..p + |header|] == (header + tail)[..|header|] == header;
    assert s[p + |header|..] == tail;
    SectionAtFirstHeader(s, p, header, body, rest);
  }

  /** `SectionOf` for a script given whole, with the header at `p`. */
  lemma SectionAtFirstHeader(s: string, p: nat, header: string, body: string, rest: string)
    requires IsHeader(header) && p + |header| <= |s| && s[p..p + |header|] == header
    requires forall i, k {:trigger IsHeader(s[i..k])} | 0 <= i < p && i <= k <= |s| :: !IsHeader(s[i..k])
    requires s[p + |header|..] == body + rest
    requires '[' !in body && (rest == [] || rest[0] == '[')
    ensures Section(s) == Some(body)
  {
    FirstHeaderAt(s, p, header);
    LeftmostSection(s, 0, p);
    SectionUpToBracket(s, p + |header|, body, rest);
  }

  lemma SectionUpToBracket(s: string, start: nat, body: string, rest: string)
    requires start <= |s| && s[start..] == body + rest
    requires '[' !in body && (rest == [] || rest[0] == '[')
    ensures SectionAfter(s, start) == body
  {
    IndexOfAfter(body, '[', rest);
    assert (body + rest)[..|body|] == body;
  }

  /** A header at `p` with none starting before it: `p` is where the search stops. */
  lemma FirstHeaderAt(s: string, p: nat, header: string)
    requires IsHeader(header) && p + |header| <= |s| && s[p..p + |header|] == header
    requires forall i, k {:trigger IsHeader(s[i..k])} | 0 <= i < p && i <= k <= |s| :: !IsHeader(s[i..k])
    ensures HeaderLength(s, p) == |header|
    ensures forall i | 0 <= i < p :: HeaderLength(s, i) == 0
  {
    assert HeaderLength(s, p) == |header|;
  }

  /** The search from `from` stops at the first header at or after it. */
  lemma {:induction false} LeftmostSection(s: string, from: nat, p: nat)
    requires from <= p < |s| && HeaderLength(s, p) > 0
    requires forall i | from <= i < p :: HeaderLength(s, i) == 0
    ensures SectionFrom(s, from) == Some(SectionAfter(s, p + HeaderLength(s, p)))
    decreases p - from
  {
    if from < p {
      LeftmostSection(s, from + 1, p);
    }
  }

  /** A script without a styles header has no styles. */
  lemma NoHeaderNoStyles(content: string)
    requires forall i | 0 <= i <= |content| :: HeaderLength(content, i) == 0
    ensures StylesIn(content) == []
  {
  }
}

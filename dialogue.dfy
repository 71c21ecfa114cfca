/**
 * The `Dialogue:` event line grammar shared by `parse_dialogue_line` and
 * `parse_dialogue`:
 *   `Dialogue:\s*(\d+),([^,]+),([^,]+),([^,]*),([^,]*),(\d+),(\d+),(\d+),([^,]*),(.*)`
 * applied with `re.match` (anchored at the start only). Every group before the
 * last one ends at the first comma after it, so the match is a left-to-right
 * cut into nine comma-terminated fields; the tenth group `(.*)` takes the rest
 * of the line up to the first newline, commas included. Also the fixed `fx`
 * line shape that the generators write.
 */
module Dialogue {
  import opened Options
  import opened Strs

  /** The ten captured groups, as text. */
  datatype DialogueMatch = DialogueMatch(
    layer: string, start: string, end: string, style: string, actor: string,
    marginL: string, marginR: string, marginV: string, effect: string, text: string)

  /** The nine comma-terminated groups in order. */
  function Fields(d: DialogueMatch): seq<string> {
    [d.layer, d.start, d.end, d.style, d.actor, d.marginL, d.marginR, d.marginV, d.effect]
  }

  /** The match whose nine comma-terminated groups are `fs`. */
  function FromFields(fs: seq<string>, text: string): (d: DialogueMatch)
    requires |fs| == 9
    ensures Fields(d) == fs && d.text == text
  {
    var d := DialogueMatch(fs[0], fs[1], fs[2], fs[3], fs[4], fs[5], fs[6], fs[7], fs[8], text);
    assert forall k | 0 <= k < 9 :: Fields(d)[k] == fs[k];
    d
  }

  predicate CommaFree(fs: seq<string>) {
    forall k | 0 <= k < |fs| :: ',' !in fs[k]
  }

  /** What each group's pattern admits. */
  predicate WellFormed(d: DialogueMatch) {
    && IsNumeral(d.layer) && d.start != [] && d.end != []
    && IsNumeral(d.marginL) && IsNumeral(d.marginR) && IsNumeral(d.marginV)
    && CommaFree(Fields(d)) && '\n' !in d.text
  }

  /** `f1,f2,...,fn,`: fields each followed by its comma. */
  function Terminated(fs: seq<string>): string
    decreases |fs|
  {
    if fs == [] then [] else fs[0] + "," + Terminated(fs[1..])
  }

  /** The `n` comma-terminated fields at the start of `s` and the text after the last comma. */
  function CutFields(s: string, n: nat): (r: Option<(seq<string>, string)>)
    ensures r.Some? ==> |r.value.0| == n && CommaFree(r.value.0)
    ensures r.Some? ==> s == Terminated(r.value.0) + r.value.1
    decreases n
  {
    if n == 0 then Some(([], s))
    else
      var i := IndexOf(s, ',');
      if i == |s| then None
      else
        match CutFields(s[i + 1..], n - 1)
        case None => None
        case Some((fs, rest)) =>
          assert ',' !in s[..i];
          assert s == s[..i] + "," + s[i + 1..];
          Some(([s[..i]] + fs, rest))
  }

  /** The line the match covers, with the whitespace after `Dialogue:` and what follows the tenth group. */
  function Render(d: DialogueMatch, indent: string, tail: string): string {
    "Dialogue:" + indent + Terminated(Fields(d)) + d.text + tail
  }

  lemma RenderAssoc(d: DialogueMatch, indent: string, tail: string)
    ensures Render(d, indent, tail) == "Dialogue:" + (indent + (Terminated(Fields(d)) + (d.text + tail)))
  {
  }

  /** `re.match` of the dialogue pattern: `None` when the line does not fit the grammar. */
  function MatchDialogue(line: string): (r: Option<DialogueMatch>)
    ensures r.Some? ==> WellFormed(r.value)
  {
    if !StartsWith(line, "Dialogue:") then None
    else
      var body := line[9..];
      var k := SpaceRun(body);
      match CutFields(body[k..], 9)
      case None => None
      case Some((fs, rest)) =>
        var d := FromFields(fs, rest[..IndexOf(rest, '\n')]);
        if && IsNumeral(d.layer) && d.start != [] && d.end != []
           && IsNumeral(d.marginL) && IsNumeral(d.marginR) && IsNumeral(d.marginV)
        then Some(d)
        else None
  }

  /**
   * The line both generators write,
   * `Dialogue: {layer},{start},{end},{style},,0,0,0,fx,{text}`:
   * margins `0`, an empty actor and the effect `fx`.
   */
  function FxLine(layer: string, start: string, end: string, style: string, text: string): string {
    "Dialogue: " + Terminated([layer, start, end, style, "", "0", "0", "0", "fx"]) + text
  }

  // ---------------------------------------------------------------------------
  // Properties
  // ---------------------------------------------------------------------------

  /** One comma-terminated field is cut off where its comma is. */
  lemma CutOne(f: string, tail: string)
    requires ',' !in f
    ensures var s := f + ("," + tail);
      IndexOf(s, ',') == |f| && s[..|f|] == f && s[|f| + 1..] == tail
  {
    IndexOfAfter(f, ',', "," + tail);
    assert IndexOf("," + tail, ',') == 0;
  }

  lemma CommaFreeTail(fs: seq<string>)
    requires fs != [] && CommaFree(fs)
    ensures ',' !in fs[0] && CommaFree(fs[1..])
  {
    forall k | 0 <= k < |fs| - 1 ensures ',' !in fs[1..][k] {
      assert fs[1..][k] == fs[k + 1];
    }
  }

  lemma {:induction false} CutFieldsOf(fs: seq<string>, rest: string)
    requires CommaFree(fs)
    ensures CutFields(Terminated(fs) + rest, |fs|) == Some((fs, rest))
    decreases |fs|
  {
    if fs == [] {
      assert Terminated(fs) + rest == rest;
    } else {
      var tail := Terminated(fs[1..]) + rest;
      var s := fs[0] + ("," + tail);
      assert Terminated(fs) + rest == s;
      CommaFreeTail(fs);
      CutOne(fs[0], tail);
      CutFieldsOf(fs[1..], rest);
      assert [fs[0]] + fs[1..] == fs;
    }
  }

  /** Every well-formed line is matched, and gives back exactly its groups. */
  lemma MatchDialogueComplete(d: DialogueMatch, indent: string, tail: string)
    requires WellFormed(d) && AllSpace(indent)
    requires tail == [] || tail[0] == '\n'
    ensures MatchDialogue(Render(d, indent, tail)) == Some(d)
  {
    var line := Render(d, indent, tail);
    var t := Terminated(Fields(d)) + (d.text + tail);
    var body := indent + t;
    assert StartsWith(line, "Dialogue:") && line[9..] == body by {
      RenderAssoc(d, indent, tail);
    }
    assert SpaceRun(body) == |indent| && body[|indent|..] == t by {
      assert t[0] == d.layer[0];
      SpaceRunOf(indent, t);
    }
    CutFieldsOf(Fields(d), d.text + tail);
    assert (d.text + tail)[..IndexOf(d.text + tail, '\n')] == d.text by {
      IndexOfAfter(d.text, '\n', tail);
    }
  }

  /** The pieces `MatchDialogue` cut the line into. */
  lemma MatchDialogueCuts(line: string, d: DialogueMatch) returns (k: nat, rest: string)
    requires MatchDialogue(line) == Some(d)
    ensures |line| >= 9 && line == "Dialogue:" + line[9..]
    ensures k <= |line[9..]| && AllSpace(line[9..][..k])
    ensures CutFields(line[9..][k..], 9) == Some((Fields(d), rest))
    ensures d.text == rest[..IndexOf(rest, '\n')]
  {
    var body := line[9..];
    k := SpaceRun(body);
    var cut := CutFields(body[k..], 9).value;
    rest := cut.1;
    assert d == FromFields(cut.0, rest[..IndexOf(rest, '\n')]);
    assert line == line[..9] + body;
  }

  /** The line as the whitespace after `Dialogue:`, the nine fields and what follows them. */
  lemma MatchDialoguePieces(line: string, d: DialogueMatch) returns (indent: string, rest: string)
    requires MatchDialogue(line) == Some(d)
    ensures AllSpace(indent) && d.text == rest[..IndexOf(rest, '\n')]
    ensures line == "Dialogue:" + (indent + (Terminated(Fields(d)) + rest))
  {
    var k;
    k, rest := MatchDialogueCuts(line, d);
    var body := line[9..];
    indent := body[..k];
    assert body == indent + body[k..];
  }

  /** The text after the tenth group starts at the first newline. */
  lemma RenderPieces(line: string, d: DialogueMatch, indent: string, rest: string)
    requires d.text == rest[..IndexOf(rest, '\n')]
    requires line == "Dialogue:" + (indent + (Terminated(Fields(d)) + rest))
    ensures var tail := rest[IndexOf(rest, '\n')..];
      (tail == [] || tail[0] == '\n') && line == Render(d, indent, tail)
  {
    var i := IndexOf(rest, '\n');
    var tail := rest[i..];
    assert rest == d.text + tail by {
      assert rest == rest[..i] + rest[i..];
    }
    RenderAssoc(d, indent, tail);
  }

  /** Every match comes from a well-formed line: the inverse of `MatchDialogueComplete`. */
  lemma MatchDialogueSound(line: string, d: DialogueMatch) returns (indent: string, tail: string)
    requires MatchDialogue(line) == Some(d)
    ensures AllSpace(indent) && (tail == [] || tail[0] == '\n')
    ensures line == Render(d, indent, tail)
  {
    var rest;
    indent, rest := MatchDialoguePieces(line, d);
    RenderPieces(line, d, indent, rest);
    tail := rest[IndexOf(rest, '\n')..];
  }

  /** The `fx` line is the rendering of its ten groups after one space. */
  lemma FxLineRender(layer: string, start: string, end: string, style: string, text: string)
    ensures FxLine(layer, start, end, style, text)
            == Render(DialogueMatch(layer, start, end, style, "", "0", "0", "0", "fx", text), " ", [])
  {
    assert "Dialogue: " == "Dialogue:" + " ";
  }

  /** A generated `fx` line parses back into the layer, times, style and text it was written from. */
  lemma FxLineParses(layer: string, start: string, end: string, style: string, text: string)
    requires IsNumeral(layer) && start != [] && end != []
    requires ',' !in start && ',' !in end && ',' !in style && '\n' !in text
    ensures MatchDialogue(FxLine(layer, start, end, style, text))
            == Some(DialogueMatch(layer, start, end, style, "", "0", "0", "0", "fx", text))
  {
    var d := DialogueMatch(layer, start, end, style, "", "0", "0", "0", "fx", text);
    assert ',' !in layer by {
      assert forall c | c in layer :: IsDigit(c);
    }
    assert CommaFree(Fields(d)) by {
      assert forall k | 0 <= k < 9 :: ',' !in Fields(d)[k];
    }
    assert WellFormed(d);
    FxLineRender(layer, start, end, style, text);
    MatchDialogueComplete(d, " ", []);
  }
}

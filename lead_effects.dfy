/**
 * The simple lead-in and lead-out effects kept for compatibility
 * (py/effects.py, `KaraokeEffects` and `get_available_effects`): two
 * name-to-effect tables, one override block per effect, and the colour block.
 */
module LeadEffects {
  import opened Options
  import opened Strs
  import opened Color

  // ---------------------------------------------------------------------------
  // The effect tables
  // ---------------------------------------------------------------------------

  /** A dictionary literal: its entries in insertion order. */
  type Table = seq<(string, string)>

  const LeadInEffects: Table := [
    ("Fade In", "fade_in"), ("Scale In", "scale_in"), ("Move Up", "move_up"),
    ("Move Down", "move_down"), ("Move Left", "move_left"), ("Move Right", "move_right"),
    ("Blur In", "blur_in"), ("Rotate In", "rotate_in"), ("Multi-Layer", "multi_layer")]

  const LeadOutEffects: Table := [
    ("Fade Out", "fade_out"), ("Scale Out", "scale_out"), ("Blur Out", "blur_out"), ("Rotate Out", "rotate_out")]

  /** `list(d.keys())`: the keys in insertion order. */
  function Keys(t: Table): (r: seq<string>)
    ensures |r| == |t|
    ensures forall i | 0 <= i < |t| :: r[i] == t[i].0
    decreases |t|
  {
    if t == [] then [] else [t[0].0] + Keys(t[1..])
  }

  /** `d.get(key, default)`. */
  function Get(t: Table, key: string, default: string): string
    decreases |t|
  {
    if t == [] then default else if t[0].0 == key then t[0].1 else Get(t[1..], key, default)
  }

  /** The keys of a dictionary literal are distinct. */
  predicate DistinctKeys(t: Table) {
    forall i, j | 0 <= i < j < |t| :: t[i].0 != t[j].0
  }

  /** A missing key gives the default. */
  lemma {:induction false} GetMissing(t: Table, key: string, default: string)
    requires key !in Keys(t)
    ensures Get(t, key, default) == default
    decreases |t|
  {
    if t != [] {
      assert Keys(t)[0] == t[0].0;
      assert Keys(t[1..]) == Keys(t)[1..];
      GetMissing(t[1..], key, default);
    }
  }

  /** A present key gives its own value. */
  lemma {:induction false} GetFound(t: Table, i: nat, default: string)
    requires DistinctKeys(t) && i < |t|
    ensures Get(t, t[i].0, default) == t[i].1
    decreases i
  {
    if i > 0 {
      assert t[0].0 != t[i].0;
      assert t[1..][i - 1] == t[i];
      GetFound(t[1..], i - 1, default);
    }
  }

  lemma TablesDistinct()
    ensures DistinctKeys(LeadInEffects) && DistinctKeys(LeadOutEffects)
  {
  }

  // ---------------------------------------------------------------------------
  // The generator
  // ---------------------------------------------------------------------------

  /** `KaraokeEffects`: the colours by role, the font size, and the border and shadow sizes. */
  datatype KaraokeEffects = KaraokeEffects(colors: map<string, string>, size: int, borderSize: int, shadowSize: int)

  const DefaultColors: map<string, string> :=
    map["primary" := "#FFFFFF", "secondary" := "#000000", "border" := "#000000", "shadow" := "#000000"]

  /** The constructor: no colours, or an empty dictionary (which is falsy), means the default colours. */
  function NewKaraokeEffects(colors: Option<map<string, string>>, size: int, borderSize: int, shadowSize: int)
    : (e: KaraokeEffects)
    ensures colors.Some? && colors.value != map[] ==> e.colors == colors.value
    ensures colors.None? || colors.value == map[] ==> e.colors == DefaultColors
    ensures e.size == size && e.borderSize == borderSize && e.shadowSize == shadowSize
  {
    var c := if colors.Some? && colors.value != map[] then colors.value else DefaultColors;
    KaraokeEffects(c, size, borderSize, shadowSize)
  }

  /** An override block: text between one pair of braces with no brace inside. */
  predicate OverrideBlock(s: string) {
    |s| >= 2 && s[0] == '{' && s[|s| - 1] == '}' && '{' !in s[1..|s| - 1] && '}' !in s[1..|s| - 1]
  }

  /** Text free of the two characters that delimit an override block. */
  predicate Unbraced(s: string) {
    '{' !in s && '}' !in s
  }

  /** An override block around `inner`; one block when `inner` is brace-free. */
  function Block(inner: string): (r: string)
    ensures Unbraced(inner) ==> OverrideBlock(r)
  {
    var r := "{" + inner + "}";
    assert r[1..|r| - 1] == inner;
    r
  }

  /** `generate_lead_in`: one override block; an unknown name means `fade_in`, and so does any effect without a tag of its own. */
  function GenerateLeadIn(effectName: string, duration: int): (r: string)
    ensures OverrideBlock(r)
  {
    NumberUnbraced(duration);
    Block(LeadInTags(Get(LeadInEffects, effectName, "fade_in"), IntToString(duration)))
  }

  /** The inside of the lead-in block, by effect; brace-free around a brace-free number. */
  function LeadInTags(effect: string, d: string): (r: string)
    ensures Unbraced(d) ==> Unbraced(r)
  {
    if effect == "fade_in" then FadeIn(d)
    else if effect == "scale_in" then ScaleIn(d)
    else if effect == "move_up" then MoveUp(d)
    else if effect == "blur_in" then BlurIn(d)
    else if effect == "rotate_in" then RotateIn(d)
    else FadeIn(d)
  }

  function FadeIn(d: string): (r: string)
    ensures Unbraced(d) ==> Unbraced(r)
  {
    "\\fad(" + d + ",0)"
  }

  function ScaleIn(d: string): (r: string)
    ensures Unbraced(d) ==> Unbraced(r)
  {
    "\\t(0," + d + ",\\fscx100\\fscy100)\\fscx0\\fscy0"
  }

  function MoveUp(d: string): (r: string)
    ensures Unbraced(d) ==> Unbraced(r)
  {
    "\\t(0," + d + ",\\move($x,$y+50,$x,$y))"
  }

  function BlurIn(d: string): (r: string)
    ensures Unbraced(d) ==> Unbraced(r)
  {
    "\\t(0," + d + ",\\blur0)\\blur10"
  }

  function RotateIn(d: string): (r: string)
    ensures Unbraced(d) ==> Unbraced(r)
  {
    "\\t(0," + d + ",\\frz0)\\frz360"
  }

  /** `generate_lead_out`: one override block; an unknown name, or one without a tag of its own, means `fade_out`. */
  function GenerateLeadOut(effectName: string, duration: int): (r: string)
    ensures OverrideBlock(r)
  {
    NumberUnbraced(duration);
    Block(LeadOutTags(Get(LeadOutEffects, effectName, "fade_out"), IntToString(duration)))
  }

  /** The inside of the lead-out block, by effect; brace-free around a brace-free number. */
  function LeadOutTags(effect: string, d: string): (r: string)
    ensures Unbraced(d) ==> Unbraced(r)
  {
    if effect == "fade_out" then FadeOut(d)
    else if effect == "scale_out" then ScaleOut(d)
    else if effect == "blur_out" then BlurOut(d)
    else FadeOut(d)
  }

  function FadeOut(d: string): (r: string)
    ensures Unbraced(d) ==> Unbraced(r)
  {
    "\\fad(0," + d + ")"
  }

  function ScaleOut(d: string): (r: string)
    ensures Unbraced(d) ==> Unbraced(r)
  {
    "\\t($end-" + d + ",$end,\\fscx0\\fscy0)"
  }

  function BlurOut(d: string): (r: string)
    ensures Unbraced(d) ==> Unbraced(r)
  {
    "\\t($end-" + d + ",$end,\\blur10)"
  }

  /** `apply_colors`: the four colours by role and the two sizes; a missing role is a `KeyError` (`None`). */
  function ApplyColors(e: KaraokeEffects): (r: Option<string>)
    ensures r.Some? <==> "primary" in e.colors && "secondary" in e.colors && "border" in e.colors && "shadow" in e.colors
  {
    if "primary" in e.colors && "secondary" in e.colors && "border" in e.colors && "shadow" in e.colors then
      Some(Block(ColorTags(e.colors["primary"], e.colors["secondary"], e.colors["border"], e.colors["shadow"])
                 + SizeTags(e.borderSize, e.shadowSize)))
    else None
  }

  /** The four colour overrides, in ASS notation. */
  function ColorTags(primary: string, secondary: string, border: string, shadow: string): string {
    ColorOverride('1', primary) + ColorOverride('2', secondary) + ColorOverride('3', border) + ColorOverride('4', shadow)
  }

  /** `\Nc&H00BBGGRR&`: colour number `n` set from a web colour. */
  function ColorOverride(n: char, hex: string): string {
    ['\\', n, 'c'] + HexToAss(hex)
  }

  function SizeTags(borderSize: int, shadowSize: int): string {
    "\\bord" + IntToString(borderSize) + "\\shad" + IntToString(shadowSize)
  }

  /** `get_available_effects`: the names of a table in order, nothing for an unknown type. */
  function GetAvailableEffects(effectType: string): (r: seq<string>)
    ensures effectType == "lead_in" ==> |r| == |LeadInEffects| && forall i | 0 <= i < |r| :: r[i] == LeadInEffects[i].0
    ensures effectType == "lead_out" ==> |r| == |LeadOutEffects| && forall i | 0 <= i < |r| :: r[i] == LeadOutEffects[i].0
    ensures effectType != "lead_in" && effectType != "lead_out" ==> r == []
  {
    if effectType == "lead_in" then Keys(LeadInEffects)
    else if effectType == "lead_out" then Keys(LeadOutEffects)
    else []
  }

  // ---------------------------------------------------------------------------
  // Properties
  // ---------------------------------------------------------------------------

  lemma NumberUnbraced(i: int)
    ensures Unbraced(IntToString(i))
  {
    SignedTextChars(IntToString(i));
  }

  /** Names the table does not list fade in, like `Fade In`. */
  lemma UnknownLeadInFades(effectName: string, duration: int)
    requires effectName !in GetAvailableEffects("lead_in")
    ensures GenerateLeadIn(effectName, duration) == GenerateLeadIn("Fade In", duration)
  {
    GetMissing(LeadInEffects, effectName, "fade_in");
    TablesDistinct();
    GetFound(LeadInEffects, 0, "fade_in");
  }

  /** Names the table does not list fade out, like `Fade Out`. */
  lemma UnknownLeadOutFades(effectName: string, duration: int)
    requires effectName !in GetAvailableEffects("lead_out")
    ensures GenerateLeadOut(effectName, duration) == GenerateLeadOut("Fade Out", duration)
  {
    GetMissing(LeadOutEffects, effectName, "fade_out");
    TablesDistinct();
    GetFound(LeadOutEffects, 0, "fade_out");
  }

  /**
   * Four of the nine advertised lead-ins (`Move Down`, `Move Left`,
   * `Move Right` and `Multi-Layer`) have no tag of their own and fade in.
   */
  lemma LeadInsWithoutTagFade(duration: int)
    ensures GenerateLeadIn("Move Down", duration) == GenerateLeadIn("Fade In", duration)
    ensures GenerateLeadIn("Move Left", duration) == GenerateLeadIn("Fade In", duration)
    ensures GenerateLeadIn("Move Right", duration) == GenerateLeadIn("Fade In", duration)
    ensures GenerateLeadIn("Multi-Layer", duration) == GenerateLeadIn("Fade In", duration)
  {
    TablesDistinct();
    GetFound(LeadInEffects, 0, "fade_in");
    GetFound(LeadInEffects, 3, "fade_in");
    GetFound(LeadInEffects, 4, "fade_in");
    GetFound(LeadInEffects, 5, "fade_in");
    GetFound(LeadInEffects, 8, "fade_in");
  }

  /** `Rotate Out` has no tag of its own and fades out. */
  lemma RotateOutFades(duration: int)
    ensures GenerateLeadOut("Rotate Out", duration) == GenerateLeadOut("Fade Out", duration)
  {
    TablesDistinct();
    GetFound(LeadOutEffects, 0, "fade_out");
    GetFound(LeadOutEffects, 3, "fade_out");
  }

  /** `Scale In` has a tag of its own: it does not fade. */
  lemma ScaleInDiffers(duration: int)
    ensures GenerateLeadIn("Scale In", duration) != GenerateLeadIn("Fade In", duration)
  {
    TablesDistinct();
    GetFound(LeadInEffects, 0, "fade_in");
    GetFound(LeadInEffects, 1, "fade_in");
    var s := GenerateLeadIn("Scale In", duration);
    var f := GenerateLeadIn("Fade In", duration);
    assert s[2] == 't' && f[2] == 'f';
  }

  /** A name is among a table's keys exactly when some entry carries it. */
  lemma KeysListed(t: Table, name: string)
    ensures name in Keys(t) <==> exists i | 0 <= i < |t| :: t[i].0 == name
  {
    if name in Keys(t) {
      var i :| 0 <= i < |t| && Keys(t)[i] == name;
    }
  }

  /** The advertised names are exactly the keys of the two tables, in their order. */
  lemma AvailableEffectsListed(effectType: string, name: string)
    ensures name in GetAvailableEffects(effectType) <==>
      (effectType == "lead_in" && exists i | 0 <= i < |LeadInEffects| :: LeadInEffects[i].0 == name) ||
      (effectType == "lead_out" && exists i | 0 <= i < |LeadOutEffects| :: LeadOutEffects[i].0 == name)
  {
    if effectType == "lead_in" {
      KeysListed(LeadInEffects, name);
    } else if effectType == "lead_out" {
      KeysListed(LeadOutEffects, name);
    }
  }

  /** A colour override from a brace-free colour is brace-free. */
  lemma ColorOverrideUnbraced(n: char, hex: string)
    requires n != '{' && n != '}' && Unbraced(hex)
    ensures Unbraced(ColorOverride(n, hex))
  {
    HexToAssAvoids(hex, '{');
    HexToAssAvoids(hex, '}');
  }

  /** The four colour overrides from brace-free colours are brace-free. */
  lemma ColorTagsUnbraced(primary: string, secondary: string, border: string, shadow: string)
    requires Unbraced(primary) && Unbraced(secondary) && Unbraced(border) && Unbraced(shadow)
    ensures Unbraced(ColorTags(primary, secondary, border, shadow))
  {
    ColorOverrideUnbraced('1', primary);
    ColorOverrideUnbraced('2', secondary);
    ColorOverrideUnbraced('3', border);
    ColorOverrideUnbraced('4', shadow);
  }

  /** The colour and size tags from brace-free colours are brace-free. */
  lemma ColorSizeUnbraced(primary: string, secondary: string, border: string, shadow: string, borderSize: int, shadowSize: int)
    requires Unbraced(primary) && Unbraced(secondary) && Unbraced(border) && Unbraced(shadow)
    ensures Unbraced(ColorTags(primary, secondary, border, shadow) + SizeTags(borderSize, shadowSize))
  {
    ColorTagsUnbraced(primary, secondary, border, shadow);
    SizeTagsUnbraced(borderSize, shadowSize);
  }

  lemma SizeTagsUnbraced(borderSize: int, shadowSize: int)
    ensures Unbraced(SizeTags(borderSize, shadowSize))
  {
    assert Unbraced(IntToString(borderSize)) by { NumberUnbraced(borderSize); }
    assert Unbraced(IntToString(shadowSize)) by { NumberUnbraced(shadowSize); }
  }

  /** With brace-free colours, the colour block is one override block. */
  lemma ColorsBlock(e: KaraokeEffects)
    requires ApplyColors(e).Some?
    requires Unbraced(e.colors["primary"]) && Unbraced(e.colors["secondary"])
    requires Unbraced(e.colors["border"]) && Unbraced(e.colors["shadow"])
    ensures OverrideBlock(ApplyColors(e).value)
  {
    var c := e.colors;
    ColorSizeUnbraced(c["primary"], c["secondary"], c["border"], c["shadow"], e.borderSize, e.shadowSize);
  }

  /** A generator with the default colours has all four, so its colour block exists and is one override block. */
  lemma DefaultColorsApply(e: KaraokeEffects)
    requires e.colors == DefaultColors
    ensures ApplyColors(e).Some?
    ensures OverrideBlock(ApplyColors(e).value)
  {
    assert Unbraced(e.colors["primary"]) && Unbraced(e.colors["secondary"]);
    assert Unbraced(e.colors["border"]) && Unbraced(e.colors["shadow"]);
    ColorsBlock(e);
  }
}

/**
 * `#RRGGBB` -> `&H00BBGGRR&`: the colour conversion written three times with
 * the same text (`hex_to_ass`, `hex_to_ass_color`). Nothing is validated: the
 * input is cut into three two-character slices whatever they contain.
 */
module Color {

  /** `s.lstrip(c)`: every leading `c` removed. */
  function LStrip(s: string, c: char): (r: string)
    ensures |r| <= |s| && r == s[|s| - |r|..]
    ensures r == [] || r[0] != c
    ensures forall k | 0 <= k < |s| - |r| :: s[k] == c
    decreases |s|
  {
    if s != [] && s[0] == c then LStrip(s[1..], c) else s
  }

  /** Python's `s[i:j]` for `0 <= i <= j`: both ends clamped to the length. */
  function Slice(s: string, i: nat, j: nat): (r: string)
    requires i <= j
    ensures |r| <= j - i
    ensures j <= |s| ==> r == s[i..j]
    ensures i >= |s| ==> r == []
  {
    var hi := if j <= |s| then j else |s|;
    var lo := if i <= hi then i else hi;
    s[lo..hi]
  }

  /** `hex_to_ass`: the red and blue pairs swap places, green stays in the middle. */
  function HexToAss(hex: string): (r: string)
    ensures 5 <= |r| <= 11 && r[..4] == "&H00" && r[|r| - 1] == '&'
    ensures |LStrip(hex, '#')| >= 6 <==> |r| == 11
  {
    var h := LStrip(hex, '#');
    "&H00" + Slice(h, 4, 6) + Slice(h, 2, 4) + Slice(h, 0, 2) + "&"
  }

  /** The colour as written in a style or tag: alpha `00` and the three pairs blue, green, red. */
  function AssColor(r: string, g: string, b: string): string {
    "&H00" + b + g + r + "&"
  }

  /** The inverse direction, `&H00BBGGRR&` -> `#RRGGBB`, for a well-formed ASS colour. */
  function AssToHex(ass: string): (r: string)
    requires |ass| == 11
    ensures |r| == 7 && r[0] == '#'
  {
    "#" + ass[8..10] + ass[6..8] + ass[4..6]
  }

  /** Every pair that is two characters long; the input is accepted whatever the characters are. */
  predicate Pair(p: string) {
    |p| == 2
  }

  // ---------------------------------------------------------------------------
  // Properties
  // ---------------------------------------------------------------------------

  /** On `#` followed by three pairs, the output is `&H00` + blue + green + red + `&`. */
  lemma HexToAssSwaps(r: string, g: string, b: string)
    requires Pair(r) && Pair(g) && Pair(b) && r[0] != '#'
    ensures HexToAss("#" + r + g + b) == AssColor(r, g, b)
  {
    var h := r + g + b;
    assert ("#" + r + g + b)[1..] == h;
    assert LStrip("#" + r + g + b, '#') == h;
    assert h[0..2] == r && h[2..4] == g && h[4..6] == b;
  }

  /** Any number of leading `#` is accepted, and the `#` is optional. */
  lemma HexToAssIgnoresHashes(hex: string)
    ensures HexToAss("#" + hex) == HexToAss(hex)
  {
    assert ("#" + hex)[1..] == hex;
  }

  /** Converting to ASS and back gives the original `#RRGGBB`. */
  lemma HexRoundTrip(r: string, g: string, b: string)
    requires Pair(r) && Pair(g) && Pair(b) && r[0] != '#'
    ensures var a := HexToAss("#" + r + g + b); |a| == 11 && AssToHex(a) == "#" + r + g + b
  {
    HexToAssSwaps(r, g, b);
    var a := AssColor(r, g, b);
    assert a[4..6] == b && a[6..8] == g && a[8..10] == r;
  }

  /** Converting an ASS colour to hex and back gives it unchanged, whenever its red pair does not begin with `#`. */
  lemma AssRoundTrip(ass: string)
    requires |ass| == 11 && ass[..4] == "&H00" && ass[10] == '&' && ass[8] != '#'
    ensures HexToAss(AssToHex(ass)) == ass
  {
    var r, g, b := ass[8..10], ass[6..8], ass[4..6];
    assert AssToHex(ass) == "#" + r + g + b;
    HexToAssSwaps(r, g, b);
    assert AssColor(r, g, b) == ass;
  }

  /** Apart from the fixed `&H00` and `&`, the output only holds characters of the input. */
  lemma HexToAssAvoids(hex: string, c: char)
    ensures c !in hex && c != '&' && c != 'H' && c != '0' ==> c !in HexToAss(hex)
  {
    if c !in hex && c != '&' && c != 'H' && c != '0' {
      var h := LStrip(hex, '#');
      DropAvoids(hex, c, |hex| - |h|);
      SliceAvoids(h, c, 4, 6);
      SliceAvoids(h, c, 2, 4);
      SliceAvoids(h, c, 0, 2);
      FramedAvoids(c, Slice(h, 4, 6), Slice(h, 2, 4), Slice(h, 0, 2));
    }
  }

  lemma DropAvoids(s: string, c: char, k: nat)
    requires c !in s && k <= |s|
    ensures c !in s[k..]
  {
    assert forall i | 0 <= i < |s| - k :: s[k..][i] == s[k + i];
  }

  /** The fixed frame `&H00` ... `&` adds only its own characters. */
  lemma FramedAvoids(c: char, b: string, g: string, r: string)
    requires c !in b && c !in g && c !in r && c != '&' && c != 'H' && c != '0'
    ensures c !in "&H00" + b + g + r + "&"
  {
    assert c !in "&H00" && c !in "&";
  }

  lemma SliceAvoids(s: string, c: char, i: nat, j: nat)
    requires c !in s && i <= j
    ensures c !in Slice(s, i, j)
  {
    var r := Slice(s, i, j);
    var hi := if j <= |s| then j else |s|;
    var lo := if i <= hi then i else hi;
    assert forall k | 0 <= k < |r| :: r[k] == s[lo + k];
  }

  /** A short input gives a short colour: missing pairs become empty text rather than an error. */
  lemma ShortHexTruncates(hex: string)
    requires |hex| <= 2 && (hex == [] || hex[0] != '#')
    ensures HexToAss(hex) == "&H00" + hex + "&"
  {
  }
}

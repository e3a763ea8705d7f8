/**
 * The colour normaliser of src/utils/custom_qr.py (`convert_color_to_rgb`):
 * a loosely typed colour specification becomes an RGB triple, or the hex
 * branch raises `ValueError` from `int(group, 16)`.
 */
module ColorNormalizer {

  import opened Wrappers

  /** An RGB triple. Tuple components pass through unchecked, so they are plain ints. */
  datatype Rgb = Rgb(r: int, g: int, b: int)

  const Black := Rgb(0, 0, 0)

  /** The dynamically typed argument: a tuple of any length, a string, or anything else (None, a list, a number). */
  datatype ColorSpec =
    | Tuple(items: seq<int>)
    | Str(text: string)
    | Other

  /** What the normaliser returns, or the `ValueError` it raises on a malformed hex group. */
  datatype Conversion =
    | Converted(rgb: Rgb)
    | HexValueError(group: string)

  /** The nine named colours, keyed by their lower-case names. */
  const Palette: map<string, Rgb> := map[
    "black" := Rgb(0, 0, 0),
    "white" := Rgb(255, 255, 255),
    "red" := Rgb(255, 0, 0),
    "green" := Rgb(0, 255, 0),
    "blue" := Rgb(0, 0, 255),
    "yellow" := Rgb(255, 255, 0),
    "cyan" := Rgb(0, 255, 255),
    "magenta" := Rgb(255, 0, 255),
    "gray" := Rgb(128, 128, 128)
  ]

  // ---------------------------------------------------------------------
  // Characters and Python's str operations
  // ---------------------------------------------------------------------

  predicate IsHexDigit(c: char)
  {
    '0' <= c <= '9' || 'a' <= c <= 'f' || 'A' <= c <= 'F'
  }

  function HexValue(c: char): (v: nat)
    requires IsHexDigit(c)
    ensures v < 16
  {
    if '0' <= c <= '9' then c as int - '0' as int
    else if 'a' <= c <= 'f' then c as int - 'a' as int + 10
    else c as int - 'A' as int + 10
  }

  /**
   * The whitespace `int()` strips around a numeral: the ASCII characters C's
   * `isspace` accepts, and the non-ASCII characters `str.isspace()` accepts.
   * The ASCII separators U+001C..U+001F are not stripped.
   */
  predicate IsPySpace(c: char)
  {
    || ('\t' <= c <= '\r')
    || c == ' ' || c == '\U{85}' || c == '\U{A0}' || c == '\U{1680}'
    || ('\U{2000}' <= c <= '\U{200A}')
    || c == '\U{2028}' || c == '\U{2029}' || c == '\U{202F}' || c == '\U{205F}' || c == '\U{3000}'
  }

  /**
   * `str.lower()` on one character, as far as it can matter for the palette:
   * ASCII capitals, and the KELVIN SIGN, which lower-cases to ASCII 'k'.
   * Every other lower-case mapping yields a non-ASCII character, which no
   * palette name contains.
   */
  function LowerChar(c: char): char
  {
    if 'A' <= c <= 'Z' then (c as int + 32) as char
    else if c == '\U{212A}' then 'k'
    else c
  }

  /**
   * `s.lower()`: the same length, no ASCII capital left, each ASCII capital
   * replaced by its lower-case letter and every other ASCII character kept.
   */
  function Lower(s: string): (t: string)
    ensures |t| == |s|
    ensures forall i :: 0 <= i < |t| ==> !('A' <= t[i] <= 'Z')
    ensures forall i :: 0 <= i < |s| && 'A' <= s[i] <= 'Z' ==> t[i] as int == s[i] as int + 32
    ensures forall i :: 0 <= i < |s| && s[i] < '\U{80}' && !('A' <= s[i] <= 'Z') ==> t[i] == s[i]
  {
    seq(|s|, i requires 0 <= i < |s| => LowerChar(s[i]))
  }

  /** `s.lstrip('#')`: every leading '#' goes, and nothing else. */
  function LStripHash(s: string): (t: string)
    ensures |t| <= |s| && t == s[|s| - |t|..]
    ensures t == [] || t[0] != '#'
    ensures forall i :: 0 <= i < |s| - |t| ==> s[i] == '#'
    decreases |s|
  {
    if |s| > 0 && s[0] == '#' then LStripHash(s[1..]) else s
  }

  /** Python's clamped slice `s[i:i+2]` for a non-negative `i`. */
  function Group(s: string, i: nat): (g: string)
    ensures |g| <= 2
    ensures i < |s| ==> g == s[i..if i + 2 <= |s| then i + 2 else |s|]
    ensures i >= |s| ==> g == []
  {
    if i >= |s| then [] else if i + 2 <= |s| then s[i..i + 2] else s[i..]
  }

  /**
   * `int(g, 16)` for a string of at most two characters: two hex digits; one
   * hex digit alone, beside whitespace, or after a sign. Anything else, the
   * empty string included, raises.
   */
  function ParseBase16(g: string): (v: Option<int>)
    requires |g| <= 2
    ensures v.Some? ==> -15 <= v.value <= 255
  {
    if |g| == 1 then
      if IsHexDigit(g[0]) then Some(HexValue(g[0])) else None
    else if |g| == 2 then
      if IsHexDigit(g[0]) && IsHexDigit(g[1]) then Some(16 * HexValue(g[0]) + HexValue(g[1]))
      else if IsPySpace(g[0]) && IsHexDigit(g[1]) then Some(HexValue(g[1]))
      else if IsHexDigit(g[0]) && IsPySpace(g[1]) then Some(HexValue(g[0]))
      else if g[0] == '+' && IsHexDigit(g[1]) then Some(HexValue(g[1]))
      else if g[0] == '-' && IsHexDigit(g[1]) then Some(0 - HexValue(g[1]))
      else None
    else None
  }

  // ---------------------------------------------------------------------
  // The normaliser
  // ---------------------------------------------------------------------

  /** The hex branch after `lstrip('#')`: the groups at 0, 2 and 4 are parsed in order; the first bad one raises. */
  function ParseHexColor(digits: string): (c: Conversion)
    ensures c.HexValueError? <==>
      || ParseBase16(Group(digits, 0)).None?
      || ParseBase16(Group(digits, 2)).None?
      || ParseBase16(Group(digits, 4)).None?
    ensures c.HexValueError? ==> |c.group| <= 2 && ParseBase16(c.group).None?
    ensures c.HexValueError? ==>
      if ParseBase16(Group(digits, 0)).None? then c.group == Group(digits, 0)
      else if ParseBase16(Group(digits, 2)).None? then c.group == Group(digits, 2)
      else c.group == Group(digits, 4)
    ensures c.Converted? ==>
      c.rgb == Rgb(ParseBase16(Group(digits, 0)).value, ParseBase16(Group(digits, 2)).value, ParseBase16(Group(digits, 4)).value)
    ensures c.Converted? ==> -15 <= c.rgb.r <= 255 && -15 <= c.rgb.g <= 255 && -15 <= c.rgb.b <= 255
  {
    var g0, g1, g2 := Group(digits, 0), Group(digits, 2), Group(digits, 4);
    match (ParseBase16(g0), ParseBase16(g1), ParseBase16(g2))
    case (None, _, _) => HexValueError(g0)
    case (Some(_), None, _) => HexValueError(g1)
    case (Some(_), Some(_), None) => HexValueError(g2)
    case (Some(r), Some(g), Some(b)) => Converted(Rgb(r, g, b))
  }

  predicate StartsWithHash(s: string)
  {
    |s| > 0 && s[0] == '#'
  }

  /** `convert_color_to_rgb`: tuple of 3 or 4, then '#' string, then palette name, then black. */
  function ConvertColor(color: ColorSpec): (c: Conversion)
    ensures c.HexValueError? ==> color.Str? && StartsWithHash(color.text)
    ensures !color.Str? ==> c.Converted?
  {
    match color
    case Tuple(items) =>
      if |items| == 3 || |items| == 4 then Converted(Rgb(items[0], items[1], items[2]))
      else Converted(Black)
    case Str(s) =>
      if StartsWithHash(s) then ParseHexColor(LStripHash(s)) else LookupName(Lower(s))
    case Other => Converted(Black)
  }

  /** The palette lookup of an already lower-cased name, black when absent. */
  function LookupName(name: string): (c: Conversion)
    ensures c.Converted?
  {
    if name in Palette then Converted(Palette[name]) else Converted(Black)
  }

  // ---------------------------------------------------------------------
  // Formatting, the partner of the hex branch
  // ---------------------------------------------------------------------

  predicate InByteRange(c: Rgb)
  {
    0 <= c.r < 256 && 0 <= c.g < 256 && 0 <= c.b < 256
  }

  function HexDigitChar(v: nat, upper: bool): (ch: char)
    requires v < 16
    ensures IsHexDigit(ch) && HexValue(ch) == v
  {
    if v < 10 then ('0' as int + v) as char
    else if upper then ('A' as int + v - 10) as char
    else ('a' as int + v - 10) as char
  }

  /** Two hex digits for a byte, high nibble first. */
  function HexByte(v: nat, upper: bool): (s: string)
    requires v < 256
    ensures |s| == 2
  {
    [HexDigitChar(v / 16, upper), HexDigitChar(v % 16, upper)]
  }

  /** `#RRGGBB`, in lower- or upper-case digits. */
  function FormatHex(c: Rgb, upper: bool): (s: string)
    requires InByteRange(c)
    ensures |s| == 7 && s[0] == '#'
  {
    "#" + HexByte(c.r, upper) + HexByte(c.g, upper) + HexByte(c.b, upper)
  }

  // ---------------------------------------------------------------------
  // Properties
  // ---------------------------------------------------------------------

  /** A tuple of three or four components yields its first three, alpha dropped. */
  lemma TupleDropsAlpha(r: int, g: int, b: int, alpha: int)
    ensures ConvertColor(Tuple([r, g, b])) == Converted(Rgb(r, g, b))
    ensures ConvertColor(Tuple([r, g, b, alpha])) == Converted(Rgb(r, g, b))
  {
  }

  /** Whatever is neither a 3/4-tuple nor a string, and every unknown name, falls back to black. */
  lemma FallbackIsBlack(color: ColorSpec)
    requires || color.Other?
             || (color.Tuple? && |color.items| != 3 && |color.items| != 4)
             || (color.Str? && !StartsWithHash(color.text) && Lower(color.text) !in Palette)
    ensures ConvertColor(color) == Converted(Black)
  {
  }

  lemma ByteRoundTrip(v: nat, upper: bool)
    requires v < 256
    ensures ParseBase16(HexByte(v, upper)) == Some(v)
  {
    var s := HexByte(v, upper);
    assert HexValue(s[0]) == v / 16 && HexValue(s[1]) == v % 16;
  }

  /** A string starting with '#' goes to the hex branch, whatever follows. */
  lemma HexBranch(s: string)
    requires StartsWithHash(s)
    ensures ConvertColor(Str(s)) == ParseHexColor(LStripHash(s))
  {
  }

  /** '#' followed by text that does not start with '#' selects exactly that text. */
  lemma StripOneHash(d: string)
    requires d == [] || d[0] != '#'
    ensures LStripHash("#" + d) == d
  {
    assert ("#" + d)[1..] == d;
  }

  /** '#' followed by text that does not start with '#' parses exactly that text. */
  lemma HashThenDigits(d: string)
    requires d == [] || d[0] != '#'
    ensures ConvertColor(Str("#" + d)) == ParseHexColor(d)
  {
    StripOneHash(d);
    HexBranch("#" + d);
  }

  /** Three readable two-character groups make a triple. */
  lemma ParseThreeGroups(x: string, y: string, z: string)
    requires |x| == 2 && |y| == 2 && |z| == 2
    requires ParseBase16(x).Some? && ParseBase16(y).Some? && ParseBase16(z).Some?
    ensures ParseHexColor(x + y + z) ==
      Converted(Rgb(ParseBase16(x).value, ParseBase16(y).value, ParseBase16(z).value))
  {
    var d := x + y + z;
    assert Group(d, 0) == x && Group(d, 2) == y && Group(d, 4) == z;
  }

  /** Formatting an in-range triple as `#RRGGBB` and normalising it gives the triple back. */
  lemma {:induction false} FormatThenConvert(c: Rgb, upper: bool)
    requires InByteRange(c)
    ensures ConvertColor(Str(FormatHex(c, upper))) == Converted(c)
  {
    var hr, hg, hb := HexByte(c.r, upper), HexByte(c.g, upper), HexByte(c.b, upper);
    var digits := hr + hg + hb;
    assert FormatHex(c, upper) == "#" + digits;
    assert digits[0] == hr[0];
    HashThenDigits(digits);
    ByteRoundTrip(c.r, upper);
    ByteRoundTrip(c.g, upper);
    ByteRoundTrip(c.b, upper);
    ParseThreeGroups(hr, hg, hb);
  }

  predicate AllHexDigits(d: string)
  {
    forall i :: 0 <= i < |d| ==> IsHexDigit(d[i])
  }

  /** The value of two hex digits, high digit first. */
  function HexPair(x: string): (v: nat)
    requires |x| == 2 && AllHexDigits(x)
    ensures v < 256
  {
    16 * HexValue(x[0]) + HexValue(x[1])
  }

  lemma ParseHexPair(x: string)
    requires |x| == 2 && AllHexDigits(x)
    ensures ParseBase16(x) == Some(HexPair(x))
  {
  }

  lemma FormatHexPair(x: string)
    requires |x| == 2 && AllHexDigits(x)
    ensures HexByte(HexPair(x), false) == Lower(x)
  {
    var v := HexPair(x);
    assert v / 16 == HexValue(x[0]) && v % 16 == HexValue(x[1]);
  }

  /** The triple six hex digits denote, two digits per component. */
  function SixDigitColor(d: string): (c: Rgb)
    requires |d| == 6 && AllHexDigits(d)
    ensures InByteRange(c)
  {
    Rgb(HexPair(d[0..2]), HexPair(d[2..4]), HexPair(d[4..6]))
  }

  lemma ConvertSixDigits(d: string)
    requires |d| == 6 && AllHexDigits(d)
    ensures ConvertColor(Str("#" + d)) == Converted(SixDigitColor(d))
  {
    var x, y, z := d[0..2], d[2..4], d[4..6];
    assert d == x + y + z;
    HashThenDigits(d);
    ParseHexPair(x);
    ParseHexPair(y);
    ParseHexPair(z);
    ParseThreeGroups(x, y, z);
  }

  lemma FormatSixDigits(d: string)
    requires |d| == 6 && AllHexDigits(d)
    ensures FormatHex(SixDigitColor(d), false) == "#" + Lower(d)
  {
    var x, y, z := d[0..2], d[2..4], d[4..6];
    assert d == x + y + z;
    FormatHexPair(x);
    FormatHexPair(y);
    FormatHexPair(z);
    LowerConcat(x, y, z);
  }

  /**
   * The other direction: six hex digits after '#' are converted to a triple in
   * byte range, and formatting that triple gives back the digits in lower case.
   */
  lemma {:induction false} ConvertThenFormat(d: string)
    requires |d| == 6 && AllHexDigits(d)
    ensures ConvertColor(Str("#" + d)).Converted?
    ensures InByteRange(ConvertColor(Str("#" + d)).rgb)
    ensures FormatHex(ConvertColor(Str("#" + d)).rgb, false) == "#" + Lower(d)
  {
    ConvertSixDigits(d);
    FormatSixDigits(d);
  }

  lemma LowerConcat(x: string, y: string, z: string)
    ensures Lower(x + y + z) == Lower(x) + Lower(y) + Lower(z)
  {
  }

  function Hashes(k: nat): (s: string)
    ensures |s| == k && forall i :: 0 <= i < k ==> s[i] == '#'
  {
    seq(k, i => '#')
  }

  lemma {:induction false} StripHashesPrefix(k: nat, s: string)
    ensures LStripHash(Hashes(k) + s) == LStripHash(s)
  {
    if k > 0 {
      var t := Hashes(k) + s;
      assert t[0] == '#';
      assert LStripHash(t) == LStripHash(t[1..]);
      assert t[1..] == Hashes(k - 1) + s;
      StripHashesPrefix(k - 1, s);
    } else {
      assert Hashes(k) + s == s;
    }
  }

  /** After one or more '#', the hex branch parses whatever `lstrip` leaves of the rest. */
  lemma HashesThenText(k: nat, s: string)
    requires k >= 1
    ensures ConvertColor(Str(Hashes(k) + s)) == ParseHexColor(LStripHash(s))
  {
    var t := Hashes(k) + s;
    assert t[0] == '#';
    HexBranch(t);
    StripHashesPrefix(k, s);
  }

  /** Every leading '#' is stripped: one '#' or many select the same digits. */
  lemma {:induction false} LeadingHashesStripped(k: nat, s: string)
    requires k >= 1
    ensures ConvertColor(Str(Hashes(k) + s)) == ConvertColor(Str("#" + s))
  {
    HashesThenText(k, s);
    HashesThenText(1, s);
    assert Hashes(1) == "#";
  }

  /** Only the first six characters after the '#'s are read; anything after them is ignored. */
  lemma {:induction false} TrailingCharactersIgnored(d: string)
    requires |d| >= 6 && d[0] != '#'
    ensures ConvertColor(Str("#" + d)) == ConvertColor(Str("#" + d[..6]))
  {
    HashThenDigits(d);
    HashThenDigits(d[..6]);
    assert Group(d, 0) == Group(d[..6], 0);
    assert Group(d, 2) == Group(d[..6], 2);
    assert Group(d, 4) == Group(d[..6], 4);
  }

  /** With four characters or fewer after the '#'s, the group at 4 is empty and `int('', 16)` raises. */
  lemma ShortHexRaises(s: string)
    requires StartsWithHash(s) && |LStripHash(s)| <= 4
    ensures ConvertColor(Str(s)).HexValueError?
  {
    HexBranch(s);
  }

  lemma ParseFiveDigits(d: string)
    requires |d| == 5 && AllHexDigits(d)
    ensures ParseHexColor(d) ==
      Converted(Rgb(16 * HexValue(d[0]) + HexValue(d[1]), 16 * HexValue(d[2]) + HexValue(d[3]), HexValue(d[4])))
  {
    assert Group(d, 0) == d[0..2] && Group(d, 2) == d[2..4] && Group(d, 4) == d[4..];
  }

  /** Any group after the '#'s that is not a base-16 numeral makes the call raise, whatever its length. */
  lemma NonNumeralGroupRaises(s: string)
    requires StartsWithHash(s)
    requires var d := LStripHash(s);
      ParseBase16(Group(d, 0)).None? || ParseBase16(Group(d, 2)).None? || ParseBase16(Group(d, 4)).None?
    ensures ConvertColor(Str(s)).HexValueError?
  {
    HexBranch(s);
  }

  /** `#12zz56` raises on its middle group `zz`. */
  lemma MiddleGroupRaises()
    ensures ConvertColor(Str("#12zz56")) == HexValueError("zz")
  {
    var d := "12zz56";
    assert Group(d, 0) == "12" && Group(d, 2) == "zz";
    assert ParseBase16("12") == Some(18);
    assert !IsHexDigit('z') && !IsPySpace('z');
    assert ParseBase16("zz").None?;
    assert ParseHexColor(d) == HexValueError("zz");
    HashThenDigits(d);
  }

  /** Five hex digits do not raise: the last group is the single fifth digit. */
  lemma {:induction false} FiveHexDigits(d: string)
    requires |d| == 5 && AllHexDigits(d)
    ensures ConvertColor(Str("#" + d)) ==
      Converted(Rgb(16 * HexValue(d[0]) + HexValue(d[1]), 16 * HexValue(d[2]) + HexValue(d[3]), HexValue(d[4])))
  {
    HashThenDigits(d);
    ParseFiveDigits(d);
  }

  const PaletteNames: set<string> := {"black", "white", "red", "green", "blue", "yellow", "cyan", "magenta", "gray"}

  /** The palette has exactly nine names. */
  lemma PaletteSize()
    ensures Palette.Keys == PaletteNames && |Palette| == 9
  {
    assert Palette.Keys == PaletteNames;
    assert |PaletteNames| == 9;
  }

  /** Every palette name is at least three lower-case ASCII letters. */
  lemma PaletteNamesLowerCase(name: string)
    requires name in PaletteNames
    ensures |name| >= 3 && forall i :: 0 <= i < |name| ==> 'a' <= name[i] <= 'z'
  {
  }

  /** A string whose lower-case form is a palette name yields that name's triple, whatever its case. */
  lemma NameLookupIgnoresCase(s: string)
    requires Lower(s) in Palette
    ensures ConvertColor(Str(s)) == Converted(Palette[Lower(s)])
  {
    PaletteSize();
    PaletteNamesLowerCase(Lower(s));
    assert LowerChar(s[0]) == Lower(s)[0] != '#';
  }

  /**
   * Case-insensitivity stated without `Lower`: a palette name written with
   * any mix of ASCII capitals and lower-case letters yields that name's triple.
   */
  lemma NameLookupAnyAsciiCase(name: string, s: string)
    requires name in Palette && |s| == |name|
    requires forall i :: 0 <= i < |s| ==> s[i] == name[i] || s[i] as int == name[i] as int - 32
    ensures ConvertColor(Str(s)) == Converted(Palette[name])
  {
    PaletteSize();
    PaletteNamesLowerCase(name);
    assert Lower(s) == name;
    NameLookupIgnoresCase(s);
  }

  /** A '#' string never reaches the palette: '#' followed by any palette name raises. */
  lemma HashNameNeverLooksUp(name: string)
    requires name in Palette
    ensures ConvertColor(Str("#" + name)).HexValueError?
  {
    PaletteSize();
    FirstPairNotHex(name);
    HashThenDigits(name);
    assert Group(name, 0) == name[..2];
  }

  lemma FirstPairNotHex(name: string)
    requires name in PaletteNames
    ensures |name| >= 2 && ParseBase16(name[..2]).None?
  {
    PaletteNamesLowerCase(name);
    assert !IsHexDigit(name[0]) || !IsHexDigit(name[1]);
  }
}

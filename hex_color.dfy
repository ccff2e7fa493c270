/** The colour codec of the template registry (templates.py:383-392,
    526-528): `_hex_to_rgb_color` and `_rgb_color_to_hex`.  An RGB colour
    holds three integers 0..255, as python-pptx's `RGBColor` demands, and its
    `rgb` value is the packed 24-bit integer r*65536 + g*256 + b. */
module HexColor {
  import opened Wrappers

  type Byte = x: int | 0 <= x < 256

  datatype Rgb = Rgb(r: Byte, g: Byte, b: Byte)

  function Packed(c: Rgb): (v: nat)
    ensures v < 0x100_0000
  {
    c.r * 65536 + c.g * 256 + c.b
  }

  /** Why a colour conversion raises ValueError. */
  datatype HexError =
    | WrongLength      // not six characters once the leading '#'s are gone
    | NotANumber       // a pair `int(pair, 16)` rejects
    | OutOfRange       // a component RGBColor rejects: not an int, or outside 0..255

  datatype Parsed = Ok(color: Rgb) | Err(reason: HexError)

  /** `s.lstrip('#')`. */
  function StripHashes(s: string): (t: string)
    ensures |t| <= |s|
    ensures t == s[|s| - |t|..]
    ensures t == [] || t[0] != '#'
  {
    if s != [] && s[0] == '#' then StripHashes(s[1..]) else s
  }

  /** The value of a hexadecimal digit of either case. */
  function HexValue(c: char): (v: Option<nat>)
    ensures v.Some? ==> v.value < 16
  {
    if '0' <= c <= '9' then Some(c as int - '0' as int)
    else if 'a' <= c <= 'f' then Some(c as int - 'a' as int + 10)
    else if 'A' <= c <= 'F' then Some(c as int - 'A' as int + 10)
    else None
  }

  /** The characters `int` strips as white space (ASCII and the four
      separator controls). */
  predicate IsSpace(c: char) {
    c == ' ' || c == '\t' || c == '\n' || c == '\r' || c == '\U{0B}' || c == '\U{0C}' ||
    ('\U{1C}' <= c <= '\U{1F}')
  }

  /** `int(a + b, 16)` on a two-character string: two digits, a sign and a
      digit, or one digit padded by white space; anything else raises. */
  function ParsePair(a: char, b: char): (v: Option<int>)
    ensures v.Some? ==> -15 <= v.value <= 255
  {
    match (HexValue(a), HexValue(b))
    case (Some(x), Some(y)) => Some(16 * x + y)
    case (None, Some(y)) =>
      if a == '+' || IsSpace(a) then Some(y)
      else if a == '-' then Some(-(y as int))
      else None
    case (Some(x), None) => if IsSpace(b) then Some(x) else None
    case (None, None) => None
  }

  /** Six characters read as three pairs with `int(pair, 16)`, then given to
      `RGBColor`. */
  function ParseSix(h: string): (p: Parsed)
    requires |h| == 6
    ensures p.Err? ==> p.reason != WrongLength
    ensures (forall k :: 0 <= k < 6 ==> HexValue(h[k]).Some?) ==> p.Ok?
  {
    var r, g, b := ParsePair(h[0], h[1]), ParsePair(h[2], h[3]), ParsePair(h[4], h[5]);
    if r.None? || g.None? || b.None? then Err(NotANumber)
    else if r.value < 0 || g.value < 0 || b.value < 0 then Err(OutOfRange)
    else Ok(Rgb(r.value, g.value, b.value))
  }

  /** `_hex_to_rgb_color`: strip leading '#'s, require six characters, read
      each pair with `int(pair, 16)` and build an `RGBColor`. */
  function HexToRgb(s: string): (p: Parsed)
    ensures p.Err? && p.reason == WrongLength <==> |StripHashes(s)| != 6
  {
    var h := StripHashes(s);
    if |h| != 6 then Err(WrongLength) else ParseSix(h)
  }

  /** A lower-case hexadecimal digit. */
  function Digit(d: nat): (c: char)
    requires d < 16
    ensures HexValue(c) == Some(d)
  {
    "0123456789abcdef"[d]
  }

  /** The last `n` hexadecimal digits of `v`, zero-padded (Python's `0nx`
      format for values below 16^n). */
  function HexDigits(v: nat, n: nat): (s: string)
    ensures |s| == n
  {
    if n == 0 then "" else HexDigits(v / 16, n - 1) + [Digit(v % 16)]
  }

  /** `_rgb_color_to_hex`: '#' and the packed value as six lower-case digits. */
  function RgbToHex(c: Rgb): (s: string)
    ensures |s| == 7 && s[0] == '#'
  {
    "#" + HexDigits(Packed(c), 6)
  }

  lemma SplitDigit(v: nat, hi: nat, lo: nat)
    requires v == hi * 16 + lo && lo < 16
    ensures v % 16 == lo && v / 16 == hi
  {
  }

  /** The digits of the packed value are the two digits of each channel. */
  lemma PackedDigits(c: Rgb)
    ensures HexDigits(Packed(c), 6) ==
              [Digit(c.r / 16), Digit(c.r % 16), Digit(c.g / 16), Digit(c.g % 16), Digit(c.b / 16), Digit(c.b % 16)]
  {
    var v0 := Packed(c);
    var v1 := c.r * 4096 + c.g * 16 + c.b / 16;
    var v2 := c.r * 256 + c.g;
    var v3 := c.r * 16 + c.g / 16;
    var v4 := c.r;
    var v5 := c.r / 16;
    SplitDigit(v0, v1, c.b % 16);
    SplitDigit(v1, v2, c.b / 16);
    SplitDigit(v2, v3, c.g % 16);
    SplitDigit(v3, v4, c.g / 16);
    SplitDigit(v4, v5, c.r % 16);
    SplitDigit(v5, 0, c.r / 16);
    assert HexDigits(v5, 1) == [Digit(c.r / 16)];
    assert HexDigits(v4, 2) == HexDigits(v5, 1) + [Digit(c.r % 16)];
    assert HexDigits(v3, 3) == HexDigits(v4, 2) + [Digit(c.g / 16)];
    assert HexDigits(v2, 4) == HexDigits(v3, 3) + [Digit(c.g % 16)];
    assert HexDigits(v1, 5) == HexDigits(v2, 4) + [Digit(c.b / 16)];
    assert HexDigits(v0, 6) == HexDigits(v1, 5) + [Digit(c.b % 16)];
  }

  /** Serialising then parsing gives the colour back. */
  lemma HexRoundTrip(c: Rgb)
    ensures HexToRgb(RgbToHex(c)) == Ok(c)
  {
    PackedDigits(c);
    var s := RgbToHex(c);
    assert StripHashes(s) == s[1..];
    assert s[1..] == HexDigits(Packed(c), 6);
  }

  predicate AllHexDigits(h: string) {
    forall i :: 0 <= i < |h| ==> HexValue(h[i]).Some?
  }

  /** A digit in its lower-case form. */
  function LowerDigit(c: char): char
    requires HexValue(c).Some?
  {
    Digit(HexValue(c).value)
  }

  lemma PairOfDigits(a: char, b: char)
    requires HexValue(a).Some? && HexValue(b).Some?
    ensures ParsePair(a, b) == Some(16 * HexValue(a).value + HexValue(b).value)
  {
  }

  /** The colour six hexadecimal digits denote, two per channel. */
  function DigitsColor(h: string): Rgb
    requires |h| == 6 && AllHexDigits(h)
  {
    Rgb(16 * HexValue(h[0]).value + HexValue(h[1]).value,
        16 * HexValue(h[2]).value + HexValue(h[3]).value,
        16 * HexValue(h[4]).value + HexValue(h[5]).value)
  }

  lemma ParseDigits(h: string)
    requires |h| == 6 && AllHexDigits(h)
    ensures ParseSix(h) == Ok(DigitsColor(h))
  {
    assert HexValue(h[0]).Some? && HexValue(h[1]).Some? && HexValue(h[2]).Some?;
    assert HexValue(h[3]).Some? && HexValue(h[4]).Some? && HexValue(h[5]).Some?;
    PairOfDigits(h[0], h[1]);
    PairOfDigits(h[2], h[3]);
    PairOfDigits(h[4], h[5]);
  }

  lemma PrintDigits(h: string)
    requires |h| == 6 && AllHexDigits(h)
    ensures RgbToHex(DigitsColor(h)) ==
              ['#', LowerDigit(h[0]), LowerDigit(h[1]), LowerDigit(h[2]), LowerDigit(h[3]), LowerDigit(h[4]), LowerDigit(h[5])]
  {
    var c := DigitsColor(h);
    SplitDigit(c.r, HexValue(h[0]).value, HexValue(h[1]).value);
    SplitDigit(c.g, HexValue(h[2]).value, HexValue(h[3]).value);
    SplitDigit(c.b, HexValue(h[4]).value, HexValue(h[5]).value);
    PackedDigits(c);
  }

  /** Parsing a string of six hexadecimal digits (after any leading '#'s)
      succeeds, and serialising the colour gives back '#' and those digits in
      lower case. */
  lemma HexNormalises(s: string)
    requires |StripHashes(s)| == 6 && AllHexDigits(StripHashes(s))
    ensures HexToRgb(s).Ok?
    ensures var h := StripHashes(s);
            RgbToHex(HexToRgb(s).color) ==
              ['#', LowerDigit(h[0]), LowerDigit(h[1]), LowerDigit(h[2]), LowerDigit(h[3]), LowerDigit(h[4]), LowerDigit(h[5])]
  {
    ParseDigits(StripHashes(s));
    PrintDigits(StripHashes(s));
  }

  /** `int` accepts a sign: "-0" reads as 0, so a minus sign can slip through. */
  lemma SignedZeroAccepted()
    ensures HexToRgb("#-00000") == Ok(Rgb(0, 0, 0))
  {
    var h := "-00000";
    assert "#-00000"[1..] == h;
    assert h[0] == '-';
    assert StripHashes(h) == h;
    assert ParsePair(h[0], h[1]) == Some(0);
    assert ParsePair(h[2], h[3]) == Some(0) && ParsePair(h[4], h[5]) == Some(0);
    assert ParseSix(h) == Ok(Rgb(0, 0, 0));
  }

  /** A pair read as a negative number makes `RGBColor` raise. */
  lemma NegativePairRejected()
    ensures HexToRgb("-10000") == Err(OutOfRange)
  {
    var h := "-10000";
    assert h[0] == '-';
    assert StripHashes(h) == h;
    assert ParsePair(h[0], h[1]) == Some(-1);
    assert ParseSix(h) == Err(OutOfRange);
  }

  /** `int` strips white space: " f" reads as 15. */
  lemma PaddedPairAccepted()
    ensures HexToRgb(" f0000") == Ok(Rgb(15, 0, 0))
  {
    var h := " f0000";
    assert h[0] == ' ';
    assert StripHashes(h) == h;
    assert ParsePair(h[0], h[1]) == Some(15);
    assert ParsePair(h[2], h[3]) == Some(0) && ParsePair(h[4], h[5]) == Some(0);
    assert ParseSix(h) == Ok(Rgb(15, 0, 0));
  }
}

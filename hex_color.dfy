/**
  `hexToRgb`: a CSS hex colour `#rgb` or `#rrggbb` (digits in either
  case) turned into the `"r,g,b"` text the charts put inside `rgba(...)`;
  anything else gives nothing.
 */
module HexColor {
  import opened Common

  // ============================================================ digits

  /** The value of a hex digit, in either case. */
  function HexDigitValue(c: char): Option<nat>
  {
    if '0' <= c <= '9' then Some(c as nat - '0' as nat)
    else if 'a' <= c <= 'f' then Some(c as nat - 'a' as nat + 10)
    else if 'A' <= c <= 'F' then Some(c as nat - 'A' as nat + 10)
    else None
  }

  predicate IsHexDigit(c: char)
  {
    HexDigitValue(c).Some?
  }

  lemma DigitBelowSixteen(c: char)
    requires IsHexDigit(c)
    ensures HexDigitValue(c).value < 16
  {
  }

  /** The test `^#([A-Fa-f0-9]{3}){1,2}$`: a `#` and then three or six hex digits. */
  predicate IsHexColor(s: string)
  {
    (|s| == 4 || |s| == 7) && s[0] == '#' && forall k :: 1 <= k < |s| ==> IsHexDigit(s[k])
  }

  /** Three digits are doubled one by one, six are kept. */
  function Expand(chars: seq<char>): (r: seq<char>)
    requires |chars| == 3 || |chars| == 6
    ensures |r| == 6
  {
    if |chars| == 3 then [chars[0], chars[0], chars[1], chars[1], chars[2], chars[2]] else chars
  }

  /** `Number.parseInt(digits, 16)`: hex digits read most significant first. */
  function ParseHex(digits: seq<char>): nat
    requires forall k :: 0 <= k < |digits| ==> IsHexDigit(digits[k])
  {
    if |digits| == 0 then 0
    else
      var last := digits[|digits| - 1];
      assert IsHexDigit(last);
      ParseHex(digits[..|digits| - 1]) * 16 + HexDigitValue(last).value
  }

  /** The byte written by two hex digits. */
  function ByteOf(hi: char, lo: char): nat
    requires IsHexDigit(hi) && IsHexDigit(lo)
  {
    HexDigitValue(hi).value * 16 + HexDigitValue(lo).value
  }

  datatype Rgb = Rgb(r: nat, g: nat, b: nat)

  /** `(value >> 16) & 255`, `(value >> 8) & 255` and `value & 255`. */
  function Unpack(value: nat): (c: Rgb)
    ensures c.r < 256 && c.g < 256 && c.b < 256
  {
    Rgb((value / 65536) % 256, (value / 256) % 256, value % 256)
  }

  /** The colour of a hex string, nothing when it is absent, empty or not a hex colour. */
  function HexToRgb(hex: Option<string>): (c: Option<Rgb>)
    ensures c.Some? <==> hex.Some? && IsHexColor(hex.value)
    ensures c.Some? ==> c.value.r < 256 && c.value.g < 256 && c.value.b < 256
  {
    if hex.None? || hex.value == "" then None
    else if IsHexColor(hex.value) then
      var chars := Expand(hex.value[1..]);
      Some(Unpack(ParseHex(chars)))
    else None
  }

  // ====================================================== properties

  /** Six digits written as three bytes. */
  lemma ParseSix(d: seq<char>)
    requires |d| == 6 && forall k :: 0 <= k < 6 ==> IsHexDigit(d[k])
    ensures ParseHex(d) == ByteOf(d[0], d[1]) * 65536 + ByteOf(d[2], d[3]) * 256 + ByteOf(d[4], d[5])
  {
    var v := seq(6, k requires 0 <= k < 6 => HexDigitValue(d[k]).value);
    assert d[..1][..0] == [];
    assert ParseHex(d[..1]) == v[0];
    assert d[..2][..1] == d[..1];
    assert ParseHex(d[..2]) == v[0] * 16 + v[1];
    assert d[..3][..2] == d[..2];
    assert ParseHex(d[..3]) == (v[0] * 16 + v[1]) * 16 + v[2];
    assert d[..4][..3] == d[..3];
    assert ParseHex(d[..4]) == ((v[0] * 16 + v[1]) * 16 + v[2]) * 16 + v[3];
    assert d[..5][..4] == d[..4];
    assert ParseHex(d[..5]) == (((v[0] * 16 + v[1]) * 16 + v[2]) * 16 + v[3]) * 16 + v[4];
    assert d[..5] == d[..|d| - 1];
  }

  lemma DivMod65536(value: nat, q: nat, rest: nat)
    requires value == q * 65536 + rest && rest < 65536
    ensures value / 65536 == q
  {
  }

  lemma DivMod256(value: nat, q: nat, rest: nat)
    requires value == q * 256 + rest && rest < 256
    ensures value / 256 == q && value % 256 == rest
  {
  }

  /** Each component is the byte its two hex digits spell: red from digits 1-2, green from 3-4, blue from 5-6. */
  lemma ComponentsAreBytes(hex: string)
    requires IsHexColor(hex) && |hex| == 7
    ensures HexToRgb(Some(hex)) == Some(Rgb(ByteOf(hex[1], hex[2]), ByteOf(hex[3], hex[4]), ByteOf(hex[5], hex[6])))
  {
    var d := hex[1..];
    ParseSix(d);
    var r, g, b := ByteOf(hex[1], hex[2]), ByteOf(hex[3], hex[4]), ByteOf(hex[5], hex[6]);
    DigitBelowSixteen(hex[1]); DigitBelowSixteen(hex[2]); DigitBelowSixteen(hex[3]);
    DigitBelowSixteen(hex[4]); DigitBelowSixteen(hex[5]); DigitBelowSixteen(hex[6]);
    var value := ParseHex(d);
    DivMod65536(value, r, g * 256 + b);
    DivMod256(value, r * 256 + g, b);
    DivMod256(r, 0, r);
    DivMod256(r * 256 + g, r, g);
  }

  /** `#abc` is the colour `#aabbcc`. */
  lemma ShortFormDoubles(x: char, y: char, z: char)
    requires IsHexDigit(x) && IsHexDigit(y) && IsHexDigit(z)
    ensures HexToRgb(Some(['#', x, y, z])) == HexToRgb(Some(['#', x, x, y, y, z, z]))
  {
    assert ['#', x, y, z][1..] == [x, y, z];
    assert ['#', x, x, y, y, z, z][1..] == [x, x, y, y, z, z];
  }

  lemma LowerKeepsDigit(c: char)
    ensures IsHexDigit(Lower(c)) == IsHexDigit(c)
    ensures IsHexDigit(c) ==> HexDigitValue(Lower(c)) == HexDigitValue(c)
  {
  }

  /** Digit strings with the same digit values spell the same number. */
  lemma {:induction false} ParseHexByValues(d: seq<char>, e: seq<char>)
    requires |d| == |e|
    requires forall k :: 0 <= k < |d| ==> IsHexDigit(d[k]) && IsHexDigit(e[k])
    requires forall k :: 0 <= k < |d| ==> HexDigitValue(d[k]) == HexDigitValue(e[k])
    ensures ParseHex(d) == ParseHex(e)
  {
    if |d| > 0 {
      ParseHexByValues(d[..|d| - 1], e[..|e| - 1]);
    }
  }

  /** Upper- and lower-case digits give the same colour. */
  lemma CaseInsensitive(hex: string)
    ensures HexToRgb(Some(hex)) == HexToRgb(Some(ToLower(hex)))
  {
    var low := ToLower(hex);
    forall k | 0 <= k < |hex|
      ensures IsHexDigit(low[k]) == IsHexDigit(hex[k])
      ensures IsHexDigit(hex[k]) ==> HexDigitValue(low[k]) == HexDigitValue(hex[k])
    {
      LowerKeepsDigit(hex[k]);
    }
    assert IsHexColor(low) == IsHexColor(hex);
    if IsHexColor(hex) {
      var d, e := Expand(hex[1..]), Expand(low[1..]);
      assert forall k :: 0 <= k < 6 ==> IsHexDigit(d[k]) && IsHexDigit(e[k]) && HexDigitValue(e[k]) == HexDigitValue(d[k]);
      ParseHexByValues(d, e);
    }
  }

  /** The lower-case hex digit of a value below 16. */
  function HexDigit(v: nat): (c: char)
    requires v < 16
    ensures HexDigitValue(c) == Some(v)
  {
    if v < 10 then ('0' as int + v) as char else ('a' as int + v - 10) as char
  }

  /** `#rrggbb` for a colour with byte components. */
  function ToHex(c: Rgb): (s: string)
    requires c.r < 256 && c.g < 256 && c.b < 256
    ensures IsHexColor(s) && |s| == 7
  {
    ['#', HexDigit(c.r / 16), HexDigit(c.r % 16), HexDigit(c.g / 16), HexDigit(c.g % 16),
     HexDigit(c.b / 16), HexDigit(c.b % 16)]
  }

  /** Writing a colour in hex and parsing it back gives the colour. */
  lemma ParseToHex(c: Rgb)
    requires c.r < 256 && c.g < 256 && c.b < 256
    ensures HexToRgb(Some(ToHex(c))) == Some(c)
  {
    ComponentsAreBytes(ToHex(c));
  }

  // ============================================================ text

  /** The decimal digits of `n`, as `String(n)` writes them. */
  function Decimal(n: nat): (s: string)
    ensures |s| > 0 && forall k :: 0 <= k < |s| ==> '0' <= s[k] <= '9'
  {
    if n < 10 then [('0' as int + n) as char] else Decimal(n / 10) + [('0' as int + n % 10) as char]
  }

  /** The number a string of decimal digits spells. */
  function ParseDecimal(s: string): nat
    requires forall k :: 0 <= k < |s| ==> '0' <= s[k] <= '9'
  {
    if |s| == 0 then 0 else ParseDecimal(s[..|s| - 1]) * 10 + (s[|s| - 1] as int - '0' as int)
  }

  /** The decimal text reads back as the number. */
  lemma {:induction false} DecimalRoundTrip(n: nat)
    ensures ParseDecimal(Decimal(n)) == n
  {
    if n >= 10 {
      var s := Decimal(n);
      assert s[..|s| - 1] == Decimal(n / 10);
      DecimalRoundTrip(n / 10);
    }
  }

  /** `[r, g, b].join(',')`. */
  function RgbText(c: Rgb): string
  {
    Decimal(c.r) + "," + Decimal(c.g) + "," + Decimal(c.b)
  }

  /** `hexToRgb` as the cards call it: the `"r,g,b"` text of the colour, or nothing. */
  function HexToRgbText(hex: Option<string>): (r: Option<string>)
    ensures r.Some? <==> hex.Some? && IsHexColor(hex.value)
    ensures r.Some? ==> exists c :: HexToRgb(hex) == Some(c) && r.value == RgbText(c)
  {
    match HexToRgb(hex)
    case None => None
    case Some(c) => Some(RgbText(c))
  }

  /** The text holds the three components in order, each readable back, separated by two commas. */
  lemma RgbTextParts(c: Rgb)
    ensures var t := RgbText(c);
            var i := |Decimal(c.r)|;
            var j := i + 1 + |Decimal(c.g)|;
            && t[i] == ',' && t[j] == ','
            && (forall k :: 0 <= k < |t| && k != i && k != j ==> '0' <= t[k] <= '9')
            && ParseDecimal(t[..i]) == c.r
            && ParseDecimal(t[i + 1..j]) == c.g
            && ParseDecimal(t[j + 1..]) == c.b
  {
    var t := RgbText(c);
    var i := |Decimal(c.r)|;
    var j := i + 1 + |Decimal(c.g)|;
    assert t[..i] == Decimal(c.r);
    assert t[i + 1..j] == Decimal(c.g);
    assert t[j + 1..] == Decimal(c.b);
    DecimalRoundTrip(c.r);
    DecimalRoundTrip(c.g);
    DecimalRoundTrip(c.b);
  }
}

/**
 * `Color.init(hex:)` of the chat preview: the string is trimmed of
 * non-alphanumeric characters, its leading hexadecimal digits are scanned
 * into an unsigned integer, and the trimmed length (3, 6 or 8) decides how
 * that integer splits into alpha, red, green and blue.  The components are
 * the integers 0..255 before the division by 255.
 */
module HexColor {
  import opened Ascii

  datatype Argb = Argb(a: int, r: int, g: int, b: int)

  predicate IsHexDigit(c: char) { IsDigit(c) || 'a' <= c <= 'f' || 'A' <= c <= 'F' }

  function DigitValue(c: char): (v: nat)
    requires IsHexDigit(c)
    ensures v < 16
  {
    if IsDigit(c) then c as int - '0' as int
    else if 'a' <= c <= 'f' then c as int - 'a' as int + 10
    else c as int - 'A' as int + 10
  }

  /** The upper-case digit for `n`. */
  function HexChar(n: nat): (c: char)
    requires n < 16
    ensures IsHexDigit(c) && DigitValue(c) == n
  {
    "0123456789ABCDEF"[n]
  }

  function Pow16(n: nat): (p: nat)
    ensures p >= 1
  {
    if n == 0 then 1 else 16 * Pow16(n - 1)
  }

  lemma {:induction false} Pow16Monotone(m: nat, n: nat)
    requires m <= n
    ensures Pow16(m) <= Pow16(n)
    decreases n
  {
    if m < n {
      Pow16Monotone(m, n - 1);
    }
  }

  /** Length of the run of hexadecimal digits starting at `i`. */
  function HexRunFrom(s: string, i: nat): (k: nat)
    requires i <= |s|
    ensures i <= k <= |s|
    ensures forall m :: i <= m < k ==> IsHexDigit(s[m])
    ensures k < |s| ==> !IsHexDigit(s[k])
    decreases |s| - i
  {
    if i == |s| || !IsHexDigit(s[i]) then i else HexRunFrom(s, i + 1)
  }

  /** The value of a string of hexadecimal digits, most significant first. */
  function HexValue(d: string): (v: nat)
    requires forall m :: 0 <= m < |d| ==> IsHexDigit(d[m])
    ensures v < Pow16(|d|)
  {
    if d == [] then 0
    else
      var init := d[..|d| - 1];
      assert forall m :: 0 <= m < |init| ==> IsHexDigit(init[m]);
      HexValue(init) * 16 + DigitValue(d[|d| - 1])
  }

  /** `scanHexInt64`: the value of the leading hexadecimal digits, 0 when
      there are none. */
  function ScanHex(s: string): (v: nat)
    ensures v < Pow16(|s|)
  {
    var n := HexRunFrom(s, 0);
    Pow16Monotone(n, |s|);
    HexValue(s[..n])
  }

  /** The colour of a hex string. */
  function Parse(hex: string): (c: Argb)
    ensures 0 <= c.a <= 255 && 0 <= c.r <= 255 && 0 <= c.g <= 255 && 0 <= c.b <= 255
    ensures var n := |Trim(hex, NotAlnum)|; n != 3 && n != 6 && n != 8 ==> c == Argb(255, 0, 0, 0)
  {
    var t := Trim(hex, NotAlnum);
    var v := ScanHex(t);
    if |t| == 3 then
      Argb(255, (v / 0x100) * 17, ((v / 0x10) % 0x10) * 17, (v % 0x10) * 17)
    else if |t| == 6 then
      Argb(255, v / 0x10000, (v / 0x100) % 0x100, v % 0x100)
    else if |t| == 8 then
      Argb(v / 0x100_0000, (v / 0x10000) % 0x100, (v / 0x100) % 0x100, v % 0x100)
    else
      Argb(255, 0, 0, 0)
  }

  /** Parsing sees only the trimmed string. */
  lemma ParseTrims(hex: string)
    ensures Parse(Trim(hex, NotAlnum)) == Parse(hex)
  {
    TrimIdempotent(hex, NotAlnum);
  }

  /** A leading `#` makes no difference. */
  lemma HashPrefix(s: string)
    requires |s| > 0 && IsAlnum(s[0]) && IsAlnum(s[|s| - 1])
    ensures Parse("#" + s) == Parse(s)
  {
    TrimPadding("#", s, "", NotAlnum);
    assert "#" + s + "" == "#" + s;
    TrimKeeps(s, NotAlnum);
  }

  /** `count` hexadecimal digits of `n`, most significant first. */
  function HexDigits(n: nat, count: nat): (d: string)
    ensures |d| == count && forall m :: 0 <= m < count ==> IsHexDigit(d[m])
  {
    if count == 0 then [] else HexDigits(n / 16, count - 1) + [HexChar(n % 16)]
  }

  /** Digits written by `HexDigits` scan back to the number. */
  lemma {:induction false} HexDigitsValue(n: nat, count: nat)
    requires n < Pow16(count)
    ensures HexValue(HexDigits(n, count)) == n
    decreases count
  {
    if count > 0 {
      var d := HexDigits(n, count);
      assert d[..count - 1] == HexDigits(n / 16, count - 1);
      HexDigitsValue(n / 16, count - 1);
    }
  }

  /** A full string of digits is scanned whole. */
  lemma ScanAllDigits(d: string)
    requires forall m :: 0 <= m < |d| ==> IsHexDigit(d[m])
    ensures ScanHex(d) == HexValue(d)
  {
    assert HexRunFrom(d, 0) == |d|;
    assert d[..|d|] == d;
  }

  /** The scan of digits that begin and end with alphanumerics, untouched by trimming. */
  lemma ParseDigits(d: string)
    requires |d| > 0 && forall m :: 0 <= m < |d| ==> IsHexDigit(d[m])
    ensures Trim(d, NotAlnum) == d && ScanHex(d) == HexValue(d)
  {
    TrimKeeps(d, NotAlnum);
    ScanAllDigits(d);
  }

  /** Quotient and remainder are determined by a decomposition `n == q * d + m`. */
  lemma DivMod(n: int, d: int, q: int, m: int)
    requires d == 0x10 || d == 0x100 || d == 0x10000 || d == 0x100_0000
    requires 0 <= m < d && n == q * d + m
    ensures n / d == q && n % d == m
  {
    if d == 0x10 {
    } else if d == 0x100 {
    } else if d == 0x10000 {
    } else {
    }
  }

  /** A string of `count` digits, for `count` one of the three lengths, parses
      by its length switch applied to its value. */
  lemma ParseOfDigits(d: string)
    requires |d| > 0 && forall m :: 0 <= m < |d| ==> IsHexDigit(d[m])
    ensures var v := HexValue(d);
      && (|d| == 3 ==> Parse(d) == Argb(255, (v / 0x100) * 17, ((v / 0x10) % 0x10) * 17, (v % 0x10) * 17))
      && (|d| == 6 ==> Parse(d) == Argb(255, v / 0x10000, (v / 0x100) % 0x100, v % 0x100))
      && (|d| == 8 ==> Parse(d) == Argb(v / 0x100_0000, (v / 0x10000) % 0x100, (v / 0x100) % 0x100, v % 0x100))
  {
    ParseDigits(d);
  }

  /** `RRGGBB` for three bytes. */
  function FormatRgb(r: nat, g: nat, b: nat): string
    requires r < 256 && g < 256 && b < 256
  {
    HexDigits(r * 0x10000 + g * 0x100 + b, 6)
  }

  /** `AARRGGBB` for four bytes. */
  function FormatArgb(a: nat, r: nat, g: nat, b: nat): string
    requires a < 256 && r < 256 && g < 256 && b < 256
  {
    HexDigits(a * 0x100_0000 + r * 0x10000 + g * 0x100 + b, 8)
  }

  /** `RGB` for three nibbles. */
  function FormatShortRgb(r: nat, g: nat, b: nat): string
    requires r < 16 && g < 16 && b < 16
  {
    HexDigits(r * 0x100 + g * 0x10 + b, 3)
  }

  /** Six digits formatted from bytes parse back to those bytes, opaque. */
  lemma RoundTrip6(r: nat, g: nat, b: nat)
    requires r < 256 && g < 256 && b < 256
    ensures Parse(FormatRgb(r, g, b)) == Argb(255, r, g, b)
  {
    var n := r * 0x10000 + g * 0x100 + b;
    var d := FormatRgb(r, g, b);
    assert Pow16(6) == 0x100_0000;
    HexDigitsValue(n, 6);
    ParseOfDigits(d);
    DivMod(n, 0x10000, r, g * 0x100 + b);
    var rg := r * 0x100 + g;
    DivMod(n, 0x100, rg, b);
    DivMod(rg, 0x100, r, g);
  }

  /** Eight digits parse back to alpha, red, green and blue. */
  lemma RoundTrip8(a: nat, r: nat, g: nat, b: nat)
    requires a < 256 && r < 256 && g < 256 && b < 256
    ensures Parse(FormatArgb(a, r, g, b)) == Argb(a, r, g, b)
  {
    var n := a * 0x100_0000 + r * 0x10000 + g * 0x100 + b;
    var d := FormatArgb(a, r, g, b);
    assert Pow16(8) == 0x1_0000_0000;
    HexDigitsValue(n, 8);
    ParseOfDigits(d);
    DivMod(n, 0x100_0000, a, r * 0x10000 + g * 0x100 + b);
    var ar := a * 0x100 + r;
    var arg := ar * 0x100 + g;
    DivMod(n, 0x10000, ar, g * 0x100 + b);
    DivMod(ar, 0x100, a, r);
    DivMod(n, 0x100, arg, b);
    DivMod(arg, 0x100, ar, g);
  }

  /** Three digits parse to each nibble repeated, `0xN` becoming `0xNN`. */
  lemma RoundTrip3(r: nat, g: nat, b: nat)
    requires r < 16 && g < 16 && b < 16
    ensures Parse(FormatShortRgb(r, g, b)) == Argb(255, r * 17, g * 17, b * 17)
  {
    var n := r * 0x100 + g * 0x10 + b;
    var d := FormatShortRgb(r, g, b);
    assert Pow16(3) == 0x1000;
    HexDigitsValue(n, 3);
    ParseOfDigits(d);
    DivMod(n, 0x100, r, g * 0x10 + b);
    var rg := r * 0x10 + g;
    DivMod(n, 0x10, rg, b);
    DivMod(rg, 0x10, r, g);
  }

  /** "FA0" is orange-yellow. */
  lemma ShortExample()
    ensures Parse("FA0") == Argb(255, 255, 170, 0)
  {
    ShortDigits();
    RoundTrip3(15, 10, 0);
  }

  lemma ShortDigits()
    ensures FormatShortRgb(15, 10, 0) == "FA0"
  {
    var f := HexDigits(15, 1);
    assert f == [] + [HexChar(15)];
    var fa := HexDigits(250, 2);
    assert fa == f + [HexChar(10)];
    assert HexDigits(4000, 3) == fa + [HexChar(0)];
  }

  /** "#36383F" is the colour of "36383F". */
  lemma HashExample()
    ensures Parse("#36383F") == Parse("36383F")
  {
    HashPrefix("36383F");
    assert "#" + "36383F" == "#36383F";
  }
}

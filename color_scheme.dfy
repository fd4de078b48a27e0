/**
 * The integer part of the theme's `Color(hex:)` initializer: the string is
 * trimmed of non-alphanumeric characters at both ends, its leading run of hex
 * digits (after an optional `0x` or `0X`) is read as a number, and the trimmed
 * length picks the layout
 * (3: RGB nibbles, 6: RGB bytes, 8: ARGB bytes, otherwise opaque black).
 */
module ColorScheme {
  import opened Strings

  /** Alpha, red, green and blue, each 0 to 255 before the division by 255. */
  datatype Argb = Argb(a: nat, r: nat, g: nat, b: nat)

  predicate IsHexDigit(c: char) {
    IsDigit(c) || 'a' <= c <= 'f' || 'A' <= c <= 'F'
  }

  predicate AllHex(s: string) {
    forall i :: 0 <= i < |s| ==> IsHexDigit(s[i])
  }

  function HexDigitValue(c: char): (v: nat)
    requires IsHexDigit(c)
    ensures v < 16
  {
    if IsDigit(c) then c as int - '0' as int
    else if 'a' <= c <= 'f' then c as int - 'a' as int + 10
    else c as int - 'A' as int + 10
  }

  function Pow16(n: nat): (p: nat)
    ensures p >= 1
  {
    if n == 0 then 1 else 16 * Pow16(n - 1)
  }

  /** The leading run of hex digits, which is what the scanner reads. */
  function HexRun(s: string): (r: string)
    ensures |r| <= |s| && r == s[..|r|] && AllHex(r)
    ensures |r| < |s| ==> !IsHexDigit(s[|r|])
  {
    if s != [] && IsHexDigit(s[0]) then
      var rest := HexRun(s[1..]);
      assert [s[0]] + rest == s[..|rest| + 1];
      [s[0]] + rest
    else []
  }

  /** The number a string of hex digits denotes, most significant digit first. */
  function HexValue(d: string): (v: nat)
    requires AllHex(d)
    ensures v < Pow16(|d|)
  {
    if d == [] then 0
    else HexValue(d[..|d| - 1]) * 16 + HexDigitValue(d[|d| - 1])
  }

  /** The `0x` or `0X` the scanner skips before the digits. */
  predicate HasHexPrefix(s: string) {
    |s| >= 2 && s[0] == '0' && (s[1] == 'x' || s[1] == 'X')
  }

  /**
   * `Scanner.scanHexInt64` on a string with no leading white space: the value
   * of the hex digits that follow an optional `0x`/`0X`, 0 when there are none.
   * The value never exceeds 64 bits for the lengths the layouts use, so the
   * scanner's saturation does not arise.
   */
  function ScanHex(s: string): (v: nat)
    ensures v < Pow16(|s|)
    ensures HasHexPrefix(s) ==> v == HexValue(HexRun(s[2..]))
    ensures !HasHexPrefix(s) ==> v == HexValue(HexRun(s))
  {
    var digits := if HasHexPrefix(s) then HexRun(s[2..]) else HexRun(s);
    Pow16Monotone(|digits|, |s|);
    HexValue(digits)
  }

  lemma {:induction false} Pow16Monotone(m: nat, n: nat)
    requires m <= n
    ensures Pow16(m) <= Pow16(n)
    decreases n
  {
    if m < n {
      Pow16Monotone(m, n - 1);
    }
  }

  /** `trimmingCharacters(in: CharacterSet.alphanumerics.inverted)`. */
  function TrimHex(hex: string): string {
    Trim(hex, IsNotAlphanumeric)
  }

  /** `Color(hex:)` up to the conversion to floating point. */
  function ColorFromHex(hex: string): Argb {
    ColorOfTrimmed(TrimHex(hex))
  }

  /** The trimmed string's scanned value, laid out by its length. */
  function ColorOfTrimmed(h: string): Argb {
    Layout(|h|, ScanHex(h))
  }

  /** The switch on the length `n`, applied to the scanned value `v`. */
  function Layout(n: nat, v: nat): Argb {
    if n == 3 then Argb(255, (v / 256) * 17, (v / 16 % 16) * 17, (v % 16) * 17)
    else if n == 6 then Argb(255, v / 65536, v / 256 % 256, v % 256)
    else if n == 8 then Argb(v / 16777216, v / 65536 % 256, v / 256 % 256, v % 256)
    else Argb(255, 0, 0, 0)
  }

  /** Every string gives components in 0..255. */
  lemma ComponentsAreBytes(hex: string)
    ensures var c := ColorFromHex(hex); c.a <= 255 && c.r <= 255 && c.g <= 255 && c.b <= 255
  {
    var h := TrimHex(hex);
    var v := ScanHex(h);
    assert ColorFromHex(hex) == ColorOfTrimmed(h);
    if |h| == 3 {
      assert Pow16(3) == 4096;
      assert v / 256 < 16;
    } else if |h| == 6 {
      assert Pow16(6) == 16777216;
    } else if |h| == 8 {
      assert Pow16(8) == 4294967296;
    }
  }

  // ---------------------------------------------------------------------------
  // The layouts, stated digit by digit.

  /** The byte two hex digits denote. */
  function Byte(hi: char, lo: char): (v: nat)
    requires IsHexDigit(hi) && IsHexDigit(lo)
    ensures v <= 255
  {
    HexDigitValue(hi) * 16 + HexDigitValue(lo)
  }

  /** Four bytes side by side: the shifts and masks take them apart again. */
  lemma ByteLayout(b0: nat, b1: nat, b2: nat, b3: nat)
    requires b0 < 256 && b1 < 256 && b2 < 256 && b3 < 256
    ensures var v := b0 * 16777216 + b1 * 65536 + b2 * 256 + b3;
            v / 16777216 == b0 && v / 65536 % 256 == b1 && v / 256 % 256 == b2 && v % 256 == b3
  {
    var v := b0 * 16777216 + b1 * 65536 + b2 * 256 + b3;
    assert v / 256 == b0 * 65536 + b1 * 256 + b2;
    assert v / 65536 == b0 * 256 + b1;
  }

  /** A string of hex digits is left alone by the trimming and read in full by the scanner. */
  lemma TrimKeepsHexDigits(h: string)
    requires AllHex(h)
    ensures TrimHex(h) == h && ScanHex(h) == HexValue(h)
  {
    if h != [] {
      assert IsHexDigit(h[0]) && IsHexDigit(h[|h| - 1]);
      TrimKeepsAlphanumericEnds(h);
    }
    NoPrefixInHexDigits(h);
    HexRunWhole(h);
  }

  /** A string of hex digits keeps its length and is read as its value. */
  lemma HexDigitsColor(h: string)
    requires AllHex(h)
    ensures ColorFromHex(h) == Layout(|h|, HexValue(h))
  {
    TrimKeepsHexDigits(h);
  }

  /** `x` is not a hex digit, so a string of hex digits has no prefix to skip. */
  lemma NoPrefixInHexDigits(h: string)
    requires AllHex(h)
    ensures !HasHexPrefix(h)
  {
    if |h| >= 2 {
      assert IsHexDigit(h[1]);
    }
  }

  lemma {:induction false} HexRunWhole(h: string)
    requires AllHex(h)
    ensures HexRun(h) == h
    decreases |h|
  {
    if h != [] {
      HexRunWhole(h[1..]);
      assert [h[0]] + h[1..] == h;
    }
  }

  /** The value of the first two digits is their byte. */
  lemma HexValuePair(h: string)
    requires |h| >= 2 && AllHex(h)
    ensures HexValue(h[..2]) == Byte(h[0], h[1])
  {
    assert h[..2][..1] == h[..1] && h[..1][..0] == [];
  }

  /** Two more digits shift the value up a byte. */
  lemma HexValueNextPair(h: string, n: nat)
    requires n + 2 <= |h| && AllHex(h)
    ensures HexValue(h[..n + 2]) == HexValue(h[..n]) * 256 + Byte(h[n], h[n + 1])
  {
    assert h[..n + 2][..n + 1] == h[..n + 1] && h[..n + 1][..n] == h[..n];
  }

  /** Six hex digits are the red, green and blue bytes, fully opaque. */
  lemma SixDigitsAreRgbBytes(h: string)
    requires |h| == 6 && AllHex(h)
    ensures ColorFromHex(h) == Argb(255, Byte(h[0], h[1]), Byte(h[2], h[3]), Byte(h[4], h[5]))
  {
    var r, g, b := Byte(h[0], h[1]), Byte(h[2], h[3]), Byte(h[4], h[5]);
    calc {
      ColorFromHex(h);
      { HexDigitsColor(h); }
      Layout(6, HexValue(h));
      { SixDigitsValue(h); }
      Layout(6, r * 65536 + g * 256 + b);
      { RgbLayout(r, g, b); }
      Argb(255, r, g, b);
    }
  }

  lemma SixDigitsValue(h: string)
    requires |h| == 6 && AllHex(h)
    ensures HexValue(h) == Byte(h[0], h[1]) * 65536 + Byte(h[2], h[3]) * 256 + Byte(h[4], h[5])
  {
    HexValuePair(h);
    HexValueNextPair(h, 2);
    HexValueNextPair(h, 4);
    assert h[..6] == h;
  }

  /** Three bytes in the six-character layout are red, green and blue. */
  lemma RgbLayout(r: nat, g: nat, b: nat)
    requires r < 256 && g < 256 && b < 256
    ensures Layout(6, r * 65536 + g * 256 + b) == Argb(255, r, g, b)
  {
    ByteLayout(0, r, g, b);
  }

  /** Eight hex digits are alpha, red, green and blue bytes, in that order. */
  lemma EightDigitsAreArgbBytes(h: string)
    requires |h| == 8 && AllHex(h)
    ensures ColorFromHex(h) == Argb(Byte(h[0], h[1]), Byte(h[2], h[3]), Byte(h[4], h[5]), Byte(h[6], h[7]))
  {
    var a, r, g, b := Byte(h[0], h[1]), Byte(h[2], h[3]), Byte(h[4], h[5]), Byte(h[6], h[7]);
    calc {
      ColorFromHex(h);
      { HexDigitsColor(h); }
      Layout(8, HexValue(h));
      { EightDigitsValue(h); }
      Layout(8, a * 16777216 + r * 65536 + g * 256 + b);
      { ArgbLayout(a, r, g, b); }
      Argb(a, r, g, b);
    }
  }

  lemma EightDigitsValue(h: string)
    requires |h| == 8 && AllHex(h)
    ensures HexValue(h) == Byte(h[0], h[1]) * 16777216 + Byte(h[2], h[3]) * 65536 + Byte(h[4], h[5]) * 256 + Byte(h[6], h[7])
  {
    HexValuePair(h);
    HexValueNextPair(h, 2);
    HexValueNextPair(h, 4);
    HexValueNextPair(h, 6);
    assert h[..8] == h;
  }

  /** Four bytes in the eight-character layout are alpha, red, green and blue. */
  lemma ArgbLayout(a: nat, r: nat, g: nat, b: nat)
    requires a < 256 && r < 256 && g < 256 && b < 256
    ensures Layout(8, a * 16777216 + r * 65536 + g * 256 + b) == Argb(a, r, g, b)
  {
    ByteLayout(a, r, g, b);
  }

  /** Three hex digits repeat each digit: the nibble times 17. */
  lemma ThreeDigitsRepeatNibbles(h: string)
    requires |h| == 3 && AllHex(h)
    ensures ColorFromHex(h) == Argb(255, HexDigitValue(h[0]) * 17, HexDigitValue(h[1]) * 17, HexDigitValue(h[2]) * 17)
  {
    var d0, d1, d2 := HexDigitValue(h[0]), HexDigitValue(h[1]), HexDigitValue(h[2]);
    calc {
      ColorFromHex(h);
      { HexDigitsColor(h); }
      Layout(3, HexValue(h));
      { ThreeDigitsValue(h); }
      Layout(3, d0 * 256 + d1 * 16 + d2);
      { NibbleLayout(d0, d1, d2); }
      Argb(255, d0 * 17, d1 * 17, d2 * 17);
    }
  }

  lemma ThreeDigitsValue(h: string)
    requires |h| == 3 && AllHex(h)
    ensures HexValue(h) == HexDigitValue(h[0]) * 256 + HexDigitValue(h[1]) * 16 + HexDigitValue(h[2])
  {
    HexValuePair(h);
    assert h[..3] == h && h[..3][..2] == h[..2];
  }

  /** Three nibbles in the three-character layout: each is repeated, that is, times 17. */
  lemma NibbleLayout(d0: nat, d1: nat, d2: nat)
    requires d0 < 16 && d1 < 16 && d2 < 16
    ensures Layout(3, d0 * 256 + d1 * 16 + d2) == Argb(255, d0 * 17, d1 * 17, d2 * 17)
  {
    var v := d0 * 256 + d1 * 16 + d2;
    assert v / 16 == d0 * 16 + d1;
    assert v / 256 == d0 && v / 16 % 16 == d1 && v % 16 == d2;
  }

  /** Any other trimmed length gives opaque black. */
  lemma OtherLengthsAreBlack(hex: string)
    requires |TrimHex(hex)| !in {3, 6, 8}
    ensures ColorFromHex(hex) == Argb(255, 0, 0, 0)
  {
  }

  /** A leading `#` is trimmed away and does not count towards the length. */
  lemma HashIsIgnored(h: string)
    ensures ColorFromHex("#" + h) == ColorFromHex(h)
  {
    assert ("#" + h)[1..] == h;
    assert TrimStart("#" + h, IsNotAlphanumeric) == TrimStart(h, IsNotAlphanumeric);
    assert TrimHex("#" + h) == TrimHex(h);
  }

  /** A palette entry: `#` and six hex digits. */
  lemma HashSixDigits(h: string)
    requires |h| == 6 && AllHex(h)
    ensures ColorFromHex("#" + h) == Argb(255, Byte(h[0], h[1]), Byte(h[2], h[3]), Byte(h[4], h[5]))
  {
    HashIsIgnored(h);
    SixDigitsAreRgbBytes(h);
  }

  /** The palette's primary black. */
  lemma PalettePrimaryBlack(hex: string)
    requires hex == "#000000"
    ensures ColorFromHex(hex) == Argb(255, 0, 0, 0)
  {
    var h := "000000";
    assert AllHex(h);
    assert HexDigitValue('0') == 0 && Byte('0', '0') == 0;
    assert hex == "#" + h;
    HashSixDigits(h);
  }

  /** The palette's accent white. */
  lemma PaletteAccentWhite(hex: string)
    requires hex == "#ffffff"
    ensures ColorFromHex(hex) == Argb(255, 255, 255, 255)
  {
    var h := "ffffff";
    assert AllHex(h);
    assert HexDigitValue('f') == 15 && Byte('f', 'f') == 255;
    assert hex == "#" + h;
    HashSixDigits(h);
  }

  /** The palette's destructive red. */
  lemma PaletteDestructive(hex: string)
    requires hex == "#d4183d"
    ensures ColorFromHex(hex) == Argb(255, 212, 24, 61)
  {
    var h := "d4183d";
    assert AllHex(h);
    assert hex == "#" + h;
    HashSixDigits(h);
  }

  /** A string that starts and ends with a letter or digit is left alone by the trimming. */
  lemma TrimKeepsAlphanumericEnds(h: string)
    requires h != [] && IsAlphanumeric(h[0]) && IsAlphanumeric(h[|h| - 1])
    ensures TrimHex(h) == h
  {
    assert TrimStart(h, IsNotAlphanumeric) == h;
  }

  /** The `0x`/`0X` prefix is skipped: what follows is read as the number. */
  lemma PrefixIsSkipped(d: string)
    requires AllHex(d)
    ensures ScanHex("0x" + d) == HexValue(d) && ScanHex("0X" + d) == HexValue(d)
  {
    assert ("0x" + d)[2..] == d && ("0X" + d)[2..] == d;
    SkipPrefix("0x" + d);
    SkipPrefix("0X" + d);
  }

  lemma SkipPrefix(s: string)
    requires HasHexPrefix(s) && AllHex(s[2..])
    ensures ScanHex(s) == HexValue(s[2..])
  {
    HexRunWhole(s[2..]);
  }

  /** `0x` followed by no hex digit reads as zero. */
  lemma BarePrefixIsZero(s: string)
    requires HasHexPrefix(s) && (|s| == 2 || !IsHexDigit(s[2]))
    ensures ScanHex(s) == 0
  {
  }

  /** `#0x` and hex digits: the trimmed string keeps the prefix in its length, and the digits are the value. */
  lemma HashPrefixedDigits(d: string)
    requires AllHex(d)
    ensures ColorFromHex("#0x" + d) == Layout(|d| + 2, HexValue(d))
  {
    HashBeforePrefix(d);
    PrefixedDigits(d);
  }

  /** The `#` in front of a prefixed string is trimmed like any other. */
  lemma HashBeforePrefix(d: string)
    ensures ColorFromHex("#0x" + d) == ColorFromHex("0x" + d)
  {
    HashThenPrefix(d);
    HashIsIgnored("0x" + d);
  }

  lemma HashThenPrefix(d: string)
    ensures "#0x" + d == "#" + ("0x" + d)
  {
    assert ("#0x" + d)[..3] == "#0x";
  }

  /** `0x` and hex digits, with nothing around them to trim. */
  lemma PrefixedDigits(d: string)
    requires AllHex(d)
    ensures ColorFromHex("0x" + d) == Layout(|d| + 2, HexValue(d))
  {
    PrefixedTrim(d);
    PrefixIsSkipped(d);
  }

  /** Starting with `0` and ending with `x` or a hex digit, the prefixed string is not trimmed. */
  lemma PrefixedTrim(d: string)
    requires AllHex(d)
    ensures TrimHex("0x" + d) == "0x" + d
  {
    var h := "0x" + d;
    assert h[0] == '0';
    if d != [] {
      assert h[|h| - 1] == d[|d| - 1] && IsHexDigit(d[|d| - 1]);
    }
    TrimKeepsAlphanumericEnds(h);
  }

  /**
   * `#0x` and four hex digits is six characters once trimmed, so it takes the
   * RGB-bytes layout of a value below 0x10000: red is 0 (`#0x0fff` is 0, 15, 255).
   */
  lemma PrefixedFourDigits(d: string)
    requires |d| == 4 && AllHex(d)
    ensures ColorFromHex("#0x" + d) == Argb(255, 0, Byte(d[0], d[1]), Byte(d[2], d[3]))
  {
    var hi, lo := Byte(d[0], d[1]), Byte(d[2], d[3]);
    calc {
      ColorFromHex("#0x" + d);
      { HashPrefixedDigits(d); }
      Layout(6, HexValue(d));
      { FourDigitsValue(d); }
      Layout(6, hi * 256 + lo);
      { TwoBytesLayout(hi, lo); }
      Argb(255, 0, hi, lo);
    }
  }

  lemma FourDigitsValue(d: string)
    requires |d| == 4 && AllHex(d)
    ensures HexValue(d) == Byte(d[0], d[1]) * 256 + Byte(d[2], d[3])
  {
    HexValuePair(d);
    HexValueNextPair(d, 2);
    assert d[..4] == d;
  }

  /** Two bytes in the six-character layout: red is empty, green and blue are the bytes. */
  lemma TwoBytesLayout(hi: nat, lo: nat)
    requires hi < 256 && lo < 256
    ensures Layout(6, hi * 256 + lo) == Argb(255, 0, hi, lo)
  {
    ByteLayout(0, 0, hi, lo);
  }

  /** The scanner stops at the first character that is not a hex digit. */
  lemma {:induction false} HexRunStops(digits: string, rest: string)
    requires AllHex(digits) && rest != [] && !IsHexDigit(rest[0])
    ensures HexRun(digits + rest) == digits
    decreases |digits|
  {
    if digits == [] {
      assert digits + rest == rest;
    } else {
      assert (digits + rest)[1..] == digits[1..] + rest;
      HexRunStops(digits[1..], rest);
      assert [digits[0]] + digits[1..] == digits;
    }
  }
}

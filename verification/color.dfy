/** `convert_color`: darken a "#RRGGBB" colour by multiplying each channel
    by a factor, truncating, and writing it back as two lower-case hex
    digits. Used for the box borders. */
module Colors {

  predicate IsHexDigit(c: char)
  {
    '0' <= c <= '9' || 'a' <= c <= 'f' || 'A' <= c <= 'F'
  }

  predicate IsLowerHexDigit(c: char)
  {
    '0' <= c <= '9' || 'a' <= c <= 'f'
  }

  function HexValue(c: char): (d: nat)
    requires IsHexDigit(c)
    ensures d < 16
  {
    if '0' <= c <= '9' then c as int - '0' as int
    else if 'a' <= c <= 'f' then c as int - 'a' as int + 10
    else c as int - 'A' as int + 10
  }

  /** The lower-case hexadecimal digit of `d`; parsing it gives `d` back. */
  function HexChar(d: nat): (c: char)
    requires d < 16
    ensures IsLowerHexDigit(c) && IsHexDigit(c)
    ensures HexValue(c) == d
  {
    if d < 10 then ('0' as int + d) as char else ('a' as int + d - 10) as char
  }

  function ToLower(c: char): char
    requires IsHexDigit(c)
  {
    if 'A' <= c <= 'F' then (c as int - 'A' as int + 'a' as int) as char else c
  }

  /** Two hex digits read as one byte (`int("0x" + hi + lo, 16)`). */
  function ParseByte(hi: char, lo: char): (b: nat)
    requires IsHexDigit(hi) && IsHexDigit(lo)
    ensures b < 256
  {
    16 * HexValue(hi) + HexValue(lo)
  }

  /** Positions 1 to 6 hold hex digits; nothing else is inspected. */
  predicate WellFormedColor(s: string)
  {
    |s| >= 7 && forall i | 1 <= i <= 6 :: IsHexDigit(s[i])
  }

  /** A byte as exactly two lower-case hex digits, zero-padded. */
  function TwoHex(b: nat): (s: string)
    requires b < 256
    ensures |s| == 2 && IsLowerHexDigit(s[0]) && IsLowerHexDigit(s[1])
    ensures ParseByte(s[0], s[1]) == b
  {
    [HexChar(b / 16), HexChar(b % 16)]
  }

  /** The digits of Python's `hex(n)` for `n >= 0`: lower case, no leading zeros. */
  function HexDigits(n: nat): (s: string)
    ensures |s| >= 1
    ensures forall i | 0 <= i < |s| :: IsLowerHexDigit(s[i])
    decreases n
  {
    if n < 16 then [HexChar(n)] else HexDigits(n / 16) + [HexChar(n % 16)]
  }

  /** Python's `hex(n)` for `n >= 0`. */
  function PyHex(n: nat): string
  {
    "0x" + HexDigits(n)
  }

  /** Python's `a < b` on strings: lexicographic by code point, a proper
      prefix being smaller. */
  predicate StrLess(a: string, b: string)
  {
    if |b| == 0 then false
    else if |a| == 0 then true
    else if a[0] != b[0] then a[0] < b[0]
    else StrLess(a[1..], b[1..])
  }

  /** Python's slice `s[lo:hi]` for `0 <= lo <= hi`, clipped to the string. */
  function Slice(s: string, lo: nat, hi: nat): string
    requires lo <= hi
  {
    if |s| <= lo then [] else if |s| <= hi then s[lo..] else s[lo..hi]
  }

  /** `int(x * factor)` for `x, factor >= 0`: truncation, which is the floor here. */
  function ScaleChannel(x: nat, factor: real): nat
    requires 0.0 <= factor
  {
    assert 0.0 <= x as real * factor;
    (x as real * factor).Floor
  }

  /** A channel capped at the largest byte, 255. */
  function CapByte(n: nat): (b: nat)
    ensures b < 256
    ensures b == n || (n > 255 && b == 255)
  {
    if n <= 255 then n else 255
  }

  /** One channel exactly as the source computes it: the product's `hex`
      string is compared with "0xff" AS A STRING, replaced by the integer 255
      when larger, and characters 2 and 3 of its `str` kept and padded. */
  function ChannelAsWritten(x: nat, factor: real): string
    requires 0.0 <= factor
  {
    var changed := PyHex(ScaleChannel(x, factor));
    var shown := if StrLess(PyHex(255), changed) then "255" else changed;
    var digits := Slice(shown, 2, 4);
    (if |digits| == 1 then "0" else "") + digits
  }

  /** `convert_color` as written. */
  function ConvertColorAsWritten(color: string, factor: real): string
    requires WellFormedColor(color) && 0.0 <= factor
  {
    "#" + ChannelAsWritten(ParseByte(color[1], color[2]), factor)
        + ChannelAsWritten(ParseByte(color[3], color[4]), factor)
        + ChannelAsWritten(ParseByte(color[5], color[6]), factor)
  }

  /** One channel with the clamp the source evidently intends: the product,
      capped at 255, as two lower-case hex digits. */
  function Channel(x: nat, factor: real): string
    requires 0.0 <= factor
  {
    TwoHex(CapByte(ScaleChannel(x, factor)))
  }

  /** The colour scaled channel by channel. */
  function ConvertColor(color: string, factor: real): string
    requires WellFormedColor(color) && 0.0 <= factor
  {
    "#" + Channel(ParseByte(color[1], color[2]), factor)
        + Channel(ParseByte(color[3], color[4]), factor)
        + Channel(ParseByte(color[5], color[6]), factor)
  }

  /** Encoder and decoder agree: the result is "#" and three two-digit
      lower-case hex channels which read back as the input channels times the
      factor, truncated and capped at 255. */
  lemma ConvertColorChannels(color: string, factor: real)
    requires WellFormedColor(color) && 0.0 <= factor
    ensures var r := ConvertColor(color, factor);
      && |r| == 7 && r[0] == '#'
      && (forall i | 1 <= i <= 6 :: IsLowerHexDigit(r[i]))
      && ParseByte(r[1], r[2]) == CapByte(ScaleChannel(ParseByte(color[1], color[2]), factor))
      && ParseByte(r[3], r[4]) == CapByte(ScaleChannel(ParseByte(color[3], color[4]), factor))
      && ParseByte(r[5], r[6]) == CapByte(ScaleChannel(ParseByte(color[5], color[6]), factor))
  {
  }

  /** A factor of at most 1 never raises a channel. */
  lemma ScaleChannelAtMost(x: nat, factor: real)
    requires 0.0 <= factor <= 1.0
    ensures ScaleChannel(x, factor) <= x
  {
    assert x as real * factor <= x as real * 1.0;
  }

  /** One or two lower-case hex digits never sort above "ff". */
  lemma NotAboveFF(d: string)
    requires 1 <= |d| <= 2
    requires forall i | 0 <= i < |d| :: IsLowerHexDigit(d[i])
    ensures !StrLess("ff", d)
  {
    if d[0] == 'f' && |d| == 2 {
      assert StrLess("ff", d) == StrLess("f", d[1..]);
      assert IsLowerHexDigit(d[1..][0]);
    }
  }

  /** For a byte, `hex` has one or two digits and is never above "0xff" as a
      string, so the source's clamp cannot fire and its two-character slice
      keeps the digits, which the padding turns into `TwoHex`. */
  lemma ChannelAsWrittenOnByte(x: nat, factor: real)
    requires 0.0 <= factor
    requires ScaleChannel(x, factor) < 256
    ensures ChannelAsWritten(x, factor) == Channel(x, factor)
  {
    var c := ScaleChannel(x, factor);
    var d := HexDigits(c);
    if c < 16 {
      assert d == [HexChar(c)];
    } else {
      assert HexDigits(c / 16) == [HexChar(c / 16)];
      assert d == [HexChar(c / 16), HexChar(c % 16)];
    }
    assert PyHex(255) == "0xff" by {
      assert HexDigits(255 / 16) == ['f'];
    }
    assert !StrLess("0xff", PyHex(c)) by {
      assert StrLess("0xff", PyHex(c)) == StrLess("ff", d);
      NotAboveFF(d);
    }
    assert Slice(PyHex(c), 2, 4) == d;
  }

  /** Darkening (a factor in [0, 1], the default border gradient 0.2
      included): the source's function and the clamped one agree, and each
      channel is simply the truncated product. */
  lemma DarkenAgrees(color: string, factor: real)
    requires WellFormedColor(color)
    requires 0.0 <= factor <= 1.0
    ensures ConvertColorAsWritten(color, factor) == ConvertColor(color, factor)
    ensures |ConvertColor(color, factor)| == 7
    ensures var r := ConvertColor(color, factor);
      && ParseByte(r[1], r[2]) == ScaleChannel(ParseByte(color[1], color[2]), factor)
      && ParseByte(r[3], r[4]) == ScaleChannel(ParseByte(color[3], color[4]), factor)
      && ParseByte(r[5], r[6]) == ScaleChannel(ParseByte(color[5], color[6]), factor)
  {
    var r, g, b := ParseByte(color[1], color[2]), ParseByte(color[3], color[4]), ParseByte(color[5], color[6]);
    ConvertColorChannels(color, factor);
    ScaleChannelAtMost(r, factor);
    ScaleChannelAtMost(g, factor);
    ScaleChannelAtMost(b, factor);
    ChannelAsWrittenOnByte(r, factor);
    ChannelAsWrittenOnByte(g, factor);
    ChannelAsWrittenOnByte(b, factor);
  }

  /** Re-encoding a parsed pair of digits gives them back in lower case. */
  lemma TwoHexOfParse(hi: char, lo: char)
    requires IsHexDigit(hi) && IsHexDigit(lo)
    ensures TwoHex(ParseByte(hi, lo)) == [ToLower(hi), ToLower(lo)]
  {
    var b := ParseByte(hi, lo);
    assert b / 16 == HexValue(hi) && b % 16 == HexValue(lo);
  }

  /** A factor of 1 returns the input colour in lower case. */
  lemma ConvertColorIdentity(color: string)
    requires WellFormedColor(color)
    ensures ConvertColor(color, 1.0)
         == ['#', ToLower(color[1]), ToLower(color[2]), ToLower(color[3]),
                  ToLower(color[4]), ToLower(color[5]), ToLower(color[6])]
  {
    ChannelIdentity(color[1], color[2]);
    ChannelIdentity(color[3], color[4]);
    ChannelIdentity(color[5], color[6]);
  }

  lemma ChannelIdentity(hi: char, lo: char)
    requires IsHexDigit(hi) && IsHexDigit(lo)
    ensures Channel(ParseByte(hi, lo), 1.0) == [ToLower(hi), ToLower(lo)]
  {
    var x := ParseByte(hi, lo);
    assert x as real * 1.0 == x as real;
    assert ScaleChannel(x, 1.0) == x;
    TwoHexOfParse(hi, lo);
  }

  /** The clamp as written fails above a factor of 1: "#808080" times 2 gives
      256 per channel, whose hex string "0x100" sorts below "0xff", so it is
      not clamped and its slice "10" is kept, giving "#101010" instead of the
      intended "#ffffff". */
  lemma ClampCounterexample()
    ensures ConvertColorAsWritten("#808080", 2.0) == "#101010"
    ensures ConvertColor("#808080", 2.0) == "#ffffff"
  {
    GreyAsWritten();
    GreyClamped();
  }

  /** The source's half of `ClampCounterexample`. */
  lemma GreyAsWritten()
    ensures ConvertColorAsWritten("#808080", 2.0) == "#101010"
  {
    assert ParseByte('8', '0') == 128;
    ClampMisses();
  }

  /** The clamped half of `ClampCounterexample`. */
  lemma GreyClamped()
    ensures ConvertColor("#808080", 2.0) == "#ffffff"
  {
    assert ParseByte('8', '0') == 128;
    ClampMisses();
  }

  /** Python compares strings with a common prefix by what follows it. */
  lemma {:induction false} StrLessAfterPrefix(p: string, a: string, b: string)
    ensures StrLess(p + a, p + b) == StrLess(a, b)
  {
    if |p| > 0 {
      assert (p + a)[1..] == p[1..] + a;
      assert (p + b)[1..] == p[1..] + b;
      StrLessAfterPrefix(p[1..], a, b);
    } else {
      assert p + a == a && p + b == b;
    }
  }

  /** `hex(255)` is "0xff". */
  lemma HexOfFF()
    ensures HexDigits(255) == "ff"
    ensures PyHex(255) == "0xff"
  {
    assert HexDigits(15) == "f";
  }

  /** The channel 128 doubled: the source keeps "10", the clamp gives "ff". */
  lemma ClampMisses()
    ensures ChannelAsWritten(128, 2.0) == "10"
    ensures Channel(128, 2.0) == "ff"
  {
    assert ScaleChannel(128, 2.0) == 256 by {
      assert 128 as real * 2.0 == 256.0;
    }
    assert HexDigits(256) == "100" by {
      assert HexDigits(16) == "10" by {
        assert HexDigits(1) == "1";
      }
    }
    HexOfFF();
    assert !StrLess("ff", "100") by {
      assert "ff"[0] == 'f' && "100"[0] == '1';
    }
    StrLessAfterPrefix("0x", "ff", "100");
    assert PyHex(256) == "0x100";
    assert Slice("0x100", 2, 4) == "10";
    assert TwoHex(255) == "ff";
  }

  /** When the clamp does fire, the integer 255 replaces the string, and
      characters 2 and 3 of "255" are just "5": "#ff0000" times 16 gives
      4080, whose hex string "0xff0" sorts above "0xff", so the red channel
      comes out as "05" instead of the intended "ff". */
  lemma ClampFiresCounterexample()
    ensures ConvertColorAsWritten("#ff0000", 16.0) == "#050000"
    ensures ConvertColor("#ff0000", 16.0) == "#ff0000"
  {
    RedAsWritten();
    RedClamped();
  }

  /** The source's half of `ClampFiresCounterexample`. */
  lemma RedAsWritten()
    ensures ConvertColorAsWritten("#ff0000", 16.0) == "#050000"
  {
    assert ParseByte('f', 'f') == 255 && ParseByte('0', '0') == 0;
    ClampFires();
    ZeroChannel(16.0);
  }

  /** The clamped half of `ClampFiresCounterexample`. */
  lemma RedClamped()
    ensures ConvertColor("#ff0000", 16.0) == "#ff0000"
  {
    assert ParseByte('f', 'f') == 255 && ParseByte('0', '0') == 0;
    ClampFires();
    ZeroChannel(16.0);
  }

  /** The channel 255 times 16: the source gives "05", the clamp "ff". */
  lemma ClampFires()
    ensures ChannelAsWritten(255, 16.0) == "05"
    ensures Channel(255, 16.0) == "ff"
  {
    assert ScaleChannel(255, 16.0) == 4080 by {
      assert 255 as real * 16.0 == 4080.0;
    }
    HexOfFF();
    assert HexDigits(4080) == "ff0" by {
      assert HexDigits(4080) == HexDigits(255) + [HexChar(0)];
    }
    assert StrLess("ff", "ff0") by {
      assert "ff" + [] == "ff";
      assert "ff" + "0" == "ff0";
      StrLessAfterPrefix("ff", [], "0");
    }
    StrLessAfterPrefix("0x", "ff", "ff0");
    assert PyHex(4080) == "0x" + "ff0";
    assert Slice("255", 2, 4) == "5";
    assert TwoHex(255) == "ff";
  }

  /** A zero channel stays "00" under both definitions. */
  lemma ZeroChannel(factor: real)
    requires 0.0 <= factor
    ensures ChannelAsWritten(0, factor) == "00"
    ensures Channel(0, factor) == "00"
  {
    assert ScaleChannel(0, factor) == 0 by {
      assert 0 as real * factor == 0.0;
    }
    assert HexDigits(0) == "0";
    HexOfFF();
    assert !StrLess("ff", "0") by {
      assert "ff"[0] == 'f' && "0"[0] == '0';
    }
    StrLessAfterPrefix("0x", "ff", "0");
    assert PyHex(0) == "0x0";
    assert Slice("0x0", 2, 4) == "0";
    assert TwoHex(0) == "00";
  }
}

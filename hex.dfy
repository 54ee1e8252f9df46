/** Hexadecimal rendering of received bytes, as the AT firmware prints read
    values and notifications (AT.cpp, the loops in `notifyCallback`,
    `readCachedCharacteristic` and `readCharacteristic`), with a parser that
    recovers the bytes from the printed text. */
module Hex {

  import opened Options

  /** C's `uint8_t`, one byte of a value read from a characteristic. */
  type uint8 = x: int | 0 <= x < 0x100

  predicate IsUpperHexDigit(c: char)
  {
    '0' <= c <= '9' || 'A' <= c <= 'F'
  }

  /** One base-16 digit as Arduino's `Print::printNumber` writes it:
      `0`-`9`, then upper-case `A`-`F`. */
  function Digit(d: nat): (c: char)
    requires d < 16
    ensures IsUpperHexDigit(c)
    ensures d < 10 <==> '0' <= c <= '9'
  {
    if d < 10 then (48 + d) as char else (55 + d) as char
  }

  function DigitValue(c: char): (d: nat)
    requires IsUpperHexDigit(c)
    ensures d < 16 && Digit(d) == c
  {
    if c <= '9' then c as nat - 48 else c as nat - 55
  }

  /** `Serial.print(n, HEX)`: the base-16 digits of `n` without leading
      zeros, a single `0` for zero. */
  function PrintHex(n: nat): (r: string)
    ensures |r| >= 1
    ensures n < 16 <==> |r| == 1
    ensures forall k :: 0 <= k < |r| ==> IsUpperHexDigit(r[k])
  {
    if n < 16 then [Digit(n)] else PrintHex(n / 16) + [Digit(n % 16)]
  }

  /** What one iteration of the firmware's loop prints for `b` before the
      separating space: a `0` when `b < 0x10`, then `print(b, HEX)`. The
      result is always the two-digit, zero-padded form. */
  function ByteText(b: uint8): (r: string)
    ensures r == [Digit(b / 16), Digit(b % 16)]
  {
    var n: nat := b;
    assert n < 16 ==> PrintHex(n) == [Digit(n)] && n / 16 == 0 && n % 16 == n;
    assert n >= 16 ==> PrintHex(n) == PrintHex(n / 16) + [Digit(n % 16)] && PrintHex(n / 16) == [Digit(n / 16)];
    (if b < 0x10 then "0" else "") + PrintHex(n)
  }

  /** The whole rendering: each byte's two digits followed by one space. */
  function HexText(value: seq<uint8>): (r: string)
    ensures |r| == 3 * |value|
  {
    if value == [] then "" else ByteText(value[0]) + " " + HexText(value[1..])
  }

  /** Byte `i` occupies characters 3i, 3i+1 and 3i+2: high digit, low
      digit, space. */
  lemma {:induction false} HexTextAt(value: seq<uint8>, i: nat)
    requires i < |value|
    ensures HexText(value)[3 * i] == Digit(value[i] as nat / 16)
    ensures HexText(value)[3 * i + 1] == Digit(value[i] as nat % 16)
    ensures HexText(value)[3 * i + 2] == ' '
  {
    if i > 0 {
      HexTextAt(value[1..], i - 1);
      assert HexText(value) == ByteText(value[0]) + " " + HexText(value[1..]);
    }
  }

  /** Every character printed is an upper-case hex digit or a space. */
  lemma HexTextAlphabet(value: seq<uint8>)
    ensures forall k :: 0 <= k < |HexText(value)| ==>
              IsUpperHexDigit(HexText(value)[k]) || HexText(value)[k] == ' '
  {
    forall k | 0 <= k < |HexText(value)|
      ensures IsUpperHexDigit(HexText(value)[k]) || HexText(value)[k] == ' '
    {
      HexTextAt(value, k / 3);
    }
  }

  lemma {:induction false} HexTextSnoc(value: seq<uint8>, b: uint8)
    ensures HexText(value + [b]) == HexText(value) + ByteText(b) + " "
  {
    if value == [] {
      assert value + [b] == [b];
    } else {
      assert (value + [b])[1..] == value[1..] + [b];
      HexTextSnoc(value[1..], b);
    }
  }

  /** Reads back space-terminated pairs of upper-case hex digits; `None`
      for text of any other shape. */
  function ParseHexText(s: string): (r: Option<seq<uint8>>)
    ensures r.Some? ==> |r.value| == |s| / 3 && |s| % 3 == 0
  {
    if s == [] then Some([])
    else if |s| >= 3 && IsUpperHexDigit(s[0]) && IsUpperHexDigit(s[1]) && s[2] == ' ' then
      match ParseHexText(s[3..])
      case None => None
      case Some(rest) => Some([(16 * DigitValue(s[0]) + DigitValue(s[1])) as uint8] + rest)
    else None
  }

  /** Parsing the printed pairs back yields exactly the bytes printed. */
  lemma {:induction false} HexTextRoundTrip(value: seq<uint8>)
    ensures ParseHexText(HexText(value)) == Some(value)
  {
    if value != [] {
      var b := value[0];
      var hi, lo := b / 16, b % 16;
      var s := HexText(value);
      assert s == [Digit(hi), Digit(lo), ' '] + HexText(value[1..]);
      assert s[3..] == HexText(value[1..]);
      HexTextRoundTrip(value[1..]);
      assert DigitValue(s[0]) == hi && DigitValue(s[1]) == lo;
      assert ParseHexText(s) == Some([b] + value[1..]);
      assert [b] + value[1..] == value;
    }
  }

  /** The firmware's printing loop: per byte, an optional leading `0`, the
      `HEX` digits, then a space. */
  method RenderHex(value: seq<uint8>) returns (text: string)
    ensures text == HexText(value)
  {
    text := "";
    for i := 0 to |value|
      invariant text == HexText(value[..i])
    {
      var b := value[i];
      if b < 0x10 {
        text := text + "0";
      }
      text := text + PrintHex(b);
      text := text + " ";
      assert value[..i + 1] == value[..i] + [b];
      HexTextSnoc(value[..i], b);
    }
    assert value[..|value|] == value;
  }
}

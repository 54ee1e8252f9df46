/** CPython's `int(text, 16)` and `int(text)` on the strings the drop
    counter hands them: surrounding whitespace is ignored, a sign and (for
    base 16) a `0x`/`0X` prefix are accepted, and single underscores may
    separate digits. Anything else raises `ValueError`, modelled as `None`. */
module PythonInt {

  import opened Options
  import opened PythonText

  predicate IsHexDigit(c: char)
  {
    '0' <= c <= '9' || 'a' <= c <= 'f' || 'A' <= c <= 'F'
  }

  predicate IsDecimalDigit(c: char)
  {
    '0' <= c <= '9'
  }

  function HexDigitValue(c: char): (d: nat)
    requires IsHexDigit(c)
    ensures d < 16
    ensures IsDecimalDigit(c) <==> d < 10
  {
    if c <= '9' then c as nat - '0' as nat
    else if c <= 'F' then c as nat - 'A' as nat + 10
    else c as nat - 'a' as nat + 10
  }

  predicate HexChars(d: string)
  {
    forall k :: 0 <= k < |d| ==> IsHexDigit(d[k]) || d[k] == '_'
  }

  predicate DoubleUnderscoreAt(d: string, k: nat)
    requires k + 1 < |d|
  {
    d[k] == '_' && d[k + 1] == '_'
  }

  /** Digits, with single underscores allowed only between two of them. */
  predicate HexBody(d: string)
  {
    |d| > 0 && IsHexDigit(d[0]) && IsHexDigit(d[|d| - 1]) && HexChars(d)
    && forall k :: 0 <= k < |d| - 1 ==> !DoubleUnderscoreAt(d, k)
  }

  /** The value of a run of hex digits, underscores skipped. */
  function HexValue(d: string): nat
    requires HexChars(d)
  {
    if d == [] then 0
    else if d[|d| - 1] == '_' then HexValue(d[..|d| - 1])
    else HexValue(d[..|d| - 1]) * 16 + HexDigitValue(d[|d| - 1])
  }

  /** `int(s, 16)`. */
  function ParseInt16(s: string): (r: Option<int>)
    ensures r.Some? ==> exists c :: c in Strip(s) && IsHexDigit(c)
  {
    ParseSigned(Strip(s))
  }

  /** An optional sign, then the unsigned part. */
  function ParseSigned(t: string): (r: Option<int>)
    ensures r.Some? ==> exists c :: c in t && IsHexDigit(c)
  {
    if |t| > 0 && (t[0] == '+' || t[0] == '-') then
      match ParseUnsigned(t[1..])
      case None => None
      case Some(v) =>
        assert forall c :: c in t[1..] ==> c in t;
        Some(if t[0] == '-' then -(v as int) else v)
    else
      match ParseUnsigned(t)
      case None => None
      case Some(v) => Some(v)
  }

  /** An optional `0x`/`0X` (which may be followed by one underscore), then
      the digits. */
  function ParseUnsigned(u: string): (r: Option<nat>)
    ensures r.Some? ==> exists c :: c in u && IsHexDigit(c)
  {
    var prefixed := |u| >= 2 && u[0] == '0' && (u[1] == 'x' || u[1] == 'X');
    var digits := if prefixed then u[2..] else u;
    var body := if prefixed && |digits| > 0 && digits[0] == '_' then digits[1..] else digits;
    if !HexBody(body) then None
    else
      assert body[0] in u;
      Some(HexValue(body))
  }

  /** The value of a run of decimal digits: `int(g)` on a `\d+` group. */
  function DecimalValue(d: string): nat
    requires forall k :: 0 <= k < |d| ==> IsDecimalDigit(d[k])
  {
    if d == [] then 0
    else
      var last := d[|d| - 1];
      assert IsDecimalDigit(last);
      DecimalValue(d[..|d| - 1]) * 10 + (last as int - '0' as int)
  }

  // ---------------------------------------------------------------------
  // What the drop counter relies on: three two-digit tokens, joined, read
  // as one big-endian 24-bit number.

  predicate IsHexPair(token: string)
  {
    |token| == 2 && IsHexDigit(token[0]) && IsHexDigit(token[1])
  }

  function PairValue(token: string): (v: nat)
    requires IsHexPair(token)
    ensures v < 0x100
  {
    HexDigitValue(token[0]) * 16 + HexDigitValue(token[1])
  }

  function Pow16(n: nat): (p: nat)
    ensures p > 0
  {
    if n == 0 then 1 else 16 * Pow16(n - 1)
  }

  /** Appending underscore-free digits shifts the value left by four bits
      per digit. */
  lemma {:induction false} HexValueAppend(a: string, b: string)
    requires HexChars(a)
    requires forall k :: 0 <= k < |b| ==> IsHexDigit(b[k])
    ensures HexChars(a + b)
    ensures HexValue(a + b) == HexValue(a) * Pow16(|b|) + HexValue(b)
  {
    if b == [] {
      assert a + b == a;
    } else {
      var init, last := b[..|b| - 1], b[|b| - 1];
      assert (a + b)[..|a + b| - 1] == a + init;
      assert (a + b)[|a + b| - 1] == last;
      HexValueAppend(a, init);
      var x, p, y, v := HexValue(a), Pow16(|init|), HexValue(init), HexDigitValue(last);
      assert HexValue(a + b) == (x * p + y) * 16 + v;
      assert HexValue(b) == y * 16 + v;
      assert Pow16(|b|) == p * 16;
      ShiftOneDigit(x, p);
    }
  }

  lemma ShiftOneDigit(x: int, p: int)
    ensures (x * p) * 16 == x * (p * 16)
  {
  }

  lemma PairHexValue(token: string)
    requires IsHexPair(token)
    ensures HexValue(token) == PairValue(token)
  {
    var first := token[..1];
    assert first[..0] == [];
    assert HexValue(first) == HexValue([]) * 16 + HexDigitValue(token[0]);
    assert HexValue(token) == HexValue(first) * 16 + HexDigitValue(token[1]);
  }

  /** Text without whitespace at its ends is its own `strip()`. */
  lemma StripOfTrimmed(s: string)
    requires s != [] && !IsPySpace(s[0]) && !IsPySpace(s[|s| - 1])
    ensures Strip(s) == s
  {
  }

  /** A run of hex digits, nothing else, is read as its value. */
  lemma ParseHexDigits(s: string)
    requires s != [] && forall k :: 0 <= k < |s| ==> IsHexDigit(s[k])
    ensures HexChars(s) && ParseInt16(s).Some? && ParseInt16(s).value == HexValue(s)
  {
    StripOfTrimmed(s);
    UnsignedDigits(s);
    assert !(s[0] == '+' || s[0] == '-') by { assert IsHexDigit(s[0]); }
  }

  lemma UnsignedDigits(s: string)
    requires s != [] && forall k :: 0 <= k < |s| ==> IsHexDigit(s[k])
    ensures HexChars(s) && ParseUnsigned(s).Some? && ParseUnsigned(s).value == HexValue(s)
  {
    assert HexBody(s);
    assert !(|s| >= 2 && s[0] == '0' && (s[1] == 'x' || s[1] == 'X')) by {
      if |s| >= 2 { assert IsHexDigit(s[1]); }
    }
  }

  /** Three two-digit hex tokens joined and read by `int(..., 16)` give
      the big-endian number they spell, below 2^24. */
  lemma ThreePairs(a: string, b: string, c: string)
    requires IsHexPair(a) && IsHexPair(b) && IsHexPair(c)
    ensures ParseInt16(a + b + c).Some?
    ensures ParseInt16(a + b + c).value == PairValue(a) * 0x1_0000 + PairValue(b) * 0x100 + PairValue(c)
    ensures PairValue(a) * 0x1_0000 + PairValue(b) * 0x100 + PairValue(c) < 0x100_0000
  {
    PairsAreDigits(a, b, c);
    ThreePairsValue(a, b, c);
    ParseHexDigits(a + b + c);
  }

  lemma PairsAreDigits(a: string, b: string, c: string)
    requires IsHexPair(a) && IsHexPair(b) && IsHexPair(c)
    ensures a + b + c != [] && forall k :: 0 <= k < |a + b + c| ==> IsHexDigit((a + b + c)[k])
  {
    var s := a + b + c;
    forall k | 0 <= k < |s|
      ensures IsHexDigit(s[k])
    {
      if k < 2 { assert s[k] == a[k]; }
      else if k < 4 { assert s[k] == b[k - 2]; }
      else { assert s[k] == c[k - 4]; }
    }
  }

  lemma ThreePairsValue(a: string, b: string, c: string)
    requires IsHexPair(a) && IsHexPair(b) && IsHexPair(c)
    ensures HexChars(a + b + c)
    ensures HexValue(a + b + c) == PairValue(a) * 0x1_0000 + PairValue(b) * 0x100 + PairValue(c)
  {
    HexValueAppend(a + b, c);
    HexValueAppend(a, b);
    PairHexValue(a);
    PairHexValue(b);
    PairHexValue(c);
    assert Pow16(2) == 0x100;
  }
}

/** The few Arduino `String` operations the AT firmware relies on, over
    `seq<char>`: `trim`, `startsWith`, `substring` and `indexOf`. */
module ArduinoString {

  /** C `isspace` in the "C" locale, which `String::trim` uses. */
  predicate IsSpace(c: char)
  {
    c == ' ' || c == '\t' || c == '\n' || c == '\r' || c == '\U{0B}' || c == '\U{0C}'
  }

  /** Everything of `s` before `i` and from `j` on is whitespace. */
  predicate SpaceOutside(s: string, i: int, j: int)
  {
    0 <= i <= j <= |s|
    && (forall k :: 0 <= k < i ==> IsSpace(s[k]))
    && (forall k :: j <= k < |s| ==> IsSpace(s[k]))
  }

  /** `String::trim`: drop leading and trailing whitespace. */
  function Trim(s: string): (r: string)
    ensures |r| <= |s|
    ensures r == [] || (!IsSpace(r[0]) && !IsSpace(r[|r| - 1]))
    ensures exists i, j :: SpaceOutside(s, i, j) && r == s[i..j]
    ensures forall k :: 0 <= k < |s| && !IsSpace(s[k]) ==> |r| > 0
  {
    TrimIsSlice(s);
    TrimKeepsNonSpace(s);
    TrimEnd(TrimStart(s))
  }

  /** The two halves of `trim` cut whitespace off each end of `s`. */
  lemma TrimIsSlice(s: string)
    ensures exists i, j :: SpaceOutside(s, i, j) && TrimEnd(TrimStart(s)) == s[i..j]
  {
    var t := TrimStart(s);
    var r := TrimEnd(t);
    var i := |s| - |t|;
    SpaceAfter(s, i, |r|);
    assert r == s[i..i + |r|];
    assert SpaceOutside(s, i, i + |r|);
  }

  /** Whitespace at the end of a suffix is whitespace at the end of `s`. */
  lemma SpaceAfter(s: string, i: nat, m: nat)
    requires i <= |s| && m <= |s| - i
    requires forall k :: m <= k < |s[i..]| ==> IsSpace(s[i..][k])
    ensures forall k :: i + m <= k < |s| ==> IsSpace(s[k])
  {
    forall k | i + m <= k < |s|
      ensures IsSpace(s[k])
    {
      assert s[k] == s[i..][k - i];
    }
  }

  lemma TrimKeepsNonSpace(s: string)
    ensures forall k :: 0 <= k < |s| && !IsSpace(s[k]) ==> |TrimEnd(TrimStart(s))| > 0
  {
    forall k | 0 <= k < |s| && !IsSpace(s[k])
      ensures |TrimEnd(TrimStart(s))| > 0
    {
      KeepsNonSpace(s, k);
    }
  }

  /** A non-space character survives both halves of `trim`. */
  lemma KeepsNonSpace(s: string, k: nat)
    requires k < |s| && !IsSpace(s[k])
    ensures |TrimEnd(TrimStart(s))| > 0
  {
    var t := TrimStart(s);
    var j := k - (|s| - |t|);
    assert 0 <= j < |t| && t[j] == s[k];
  }

  function TrimStart(s: string): (r: string)
    ensures |r| <= |s| && r == s[|s| - |r|..]
    ensures r == [] || !IsSpace(r[0])
    ensures forall k :: 0 <= k < |s| - |r| ==> IsSpace(s[k])
  {
    if s != [] && IsSpace(s[0]) then TrimStart(s[1..]) else s
  }

  function TrimEnd(s: string): (r: string)
    ensures |r| <= |s| && r == s[..|r|]
    ensures r == [] || !IsSpace(r[|r| - 1])
    ensures forall k :: |r| <= k < |s| ==> IsSpace(s[k])
  {
    if s != [] && IsSpace(s[|s| - 1]) then TrimEnd(s[..|s| - 1]) else s
  }

  /** Text with no whitespace at either end is its own `trim`. */
  lemma TrimUntouched(s: string)
    requires s != [] && !IsSpace(s[0]) && !IsSpace(s[|s| - 1])
    ensures Trim(s) == s
  {
    assert TrimStart(s) == s;
  }

  /** `String::startsWith`. */
  predicate StartsWith(s: string, prefix: string)
  {
    |prefix| <= |s| && s[..|prefix|] == prefix
  }

  /** `String::substring(from)`: everything from `from` on, empty when `from`
      is past the end. */
  function Substring(s: string, from: nat): (r: string)
    ensures from <= |s| ==> r == s[from..]
    ensures from > |s| ==> r == []
  {
    if from <= |s| then s[from..] else []
  }

  /** `String::indexOf(c)`: the first position of `c`, or -1. */
  function IndexOf(s: string, c: char): (r: int)
    ensures -1 <= r < |s|
    ensures r == -1 <==> c !in s
    ensures r >= 0 ==> s[r] == c && c !in s[..r]
  {
    if s == [] then -1
    else if s[0] == c then 0
    else var k := IndexOf(s[1..], c); if k == -1 then -1 else k + 1
  }
}

/** The test script's notification pattern,
      Notification received from client (\d+)\s+\(hex\):\s*(.*)
    as `re.search` applies it: the leftmost position where it matches.
    Each part after the literal prefix is a greedy run whose follower
    cannot be taken by that run (digits are not whitespace, `(` is neither),
    so the first way the pattern can match is the greedy one; `.` stops at
    a line feed. */
module NotificationPattern {

  import opened Options
  import opened PythonText
  import opened PythonInt

  const Prefix: string := "Notification received from client "
  const HexMarker: string := "(hex):"

  predicate StartsWith(s: string, prefix: string)
  {
    |prefix| <= |s| && s[..|prefix|] == prefix
  }

  /** The two groups of a match. */
  datatype Groups = Groups(clientId: string, payload: string)

  /** `\d+` greedily: the length of the leading run of digits. */
  function DigitRun(s: string): (k: nat)
    ensures k <= |s|
    ensures forall i :: 0 <= i < k ==> IsDecimalDigit(s[i])
    ensures k < |s| ==> !IsDecimalDigit(s[k])
  {
    if s == [] || !IsDecimalDigit(s[0]) then 0 else 1 + DigitRun(s[1..])
  }

  /** `\s*` greedily: the length of the leading run of whitespace. */
  function SpaceRun(s: string): (k: nat)
    ensures k <= |s|
    ensures forall i :: 0 <= i < k ==> IsPySpace(s[i])
    ensures k < |s| ==> !IsPySpace(s[k])
  {
    if s == [] || !IsPySpace(s[0]) then 0 else 1 + SpaceRun(s[1..])
  }

  /** `.*`: everything up to the first line feed. */
  function LineRest(s: string): (r: string)
    ensures |r| <= |s| && r == s[..|r|] && '\n' !in r
    ensures |r| < |s| ==> s[|r|] == '\n'
  {
    if s == [] || s[0] == '\n' then []
    else
      var rest := LineRest(s[1..]);
      assert [s[0]] + rest == s[..|rest| + 1];
      [s[0]] + rest
  }

  /** The pattern anchored at the start of `s`. */
  function MatchAt(s: string): (m: Option<Groups>)
    ensures m.Some? ==> StartsWith(s, Prefix)
    ensures m.Some? ==>
              m.value.clientId != [] && forall i :: 0 <= i < |m.value.clientId| ==> IsDecimalDigit(m.value.clientId[i])
    ensures m.Some? ==> '\n' !in m.value.payload
  {
    if !StartsWith(s, Prefix) then None else MatchId(s[|Prefix|..])
  }

  /** `(\d+)` and what follows it, after the literal prefix. */
  function MatchId(t: string): Option<Groups>
  {
    var d := DigitRun(t);
    if d == 0 then None else MatchMarker(t[..d], t[d..])
  }

  /** `\s+\(hex\):` after the client number, then the payload. */
  function MatchMarker(id: string, u: string): Option<Groups>
  {
    var w := SpaceRun(u);
    if w == 0 || !StartsWith(u[w..], HexMarker) then None
    else Some(Groups(id, Payload(u[w..][|HexMarker|..])))
  }

  /** `\s*(.*)` after the marker. */
  function Payload(v: string): string
  {
    LineRest(v[SpaceRun(v)..])
  }

  /** The position `re.search` reports: the first one at which the anchored
      pattern matches, or -1 when there is none. */
  function FirstMatch(s: string): (i: int)
    ensures -1 <= i <= |s|
  {
    if MatchAt(s).Some? then 0
    else if s == [] then -1
    else
      var k := FirstMatch(s[1..]);
      if k == -1 then -1 else k + 1
  }

  /** The reported position is a match and no earlier position is. */
  lemma {:induction false} FirstMatchIsLeftmost(s: string)
    ensures FirstMatch(s) >= 0 ==> MatchAt(s[FirstMatch(s)..]).Some?
    ensures forall j :: 0 <= j <= |s| && (FirstMatch(s) == -1 || j < FirstMatch(s)) ==> MatchAt(s[j..]).None?
    decreases |s|
  {
    if MatchAt(s).None? && s != [] {
      FirstMatchIsLeftmost(s[1..]);
      forall j | 1 <= j <= |s|
        ensures s[j..] == s[1..][j - 1..]
      {
      }
      assert s[0..] == s;
    }
  }

  /** `notification_pattern.search(s)`. */
  function Search(s: string): (m: Option<Groups>)
    ensures m.Some? ==>
              m.value.clientId != [] && forall i :: 0 <= i < |m.value.clientId| ==> IsDecimalDigit(m.value.clientId[i])
    ensures m.Some? ==> '\n' !in m.value.payload
  {
    var i := FirstMatch(s);
    if i == -1 then None else MatchAt(s[i..])
  }

  /** A match needs the capital `N` of the prefix where it starts. */
  lemma MatchNeedsPrefix(s: string, i: nat)
    requires i <= |s| && MatchAt(s[i..]).Some?
    ensures i + |Prefix| <= |s| && s[i] == 'N' && s[i + 22] == 'f'
  {
    PrefixLetters(s[i..]);
  }

  lemma PrefixLetters(t: string)
    requires StartsWith(t, Prefix)
    ensures |Prefix| <= |t| && t[0] == 'N' && t[22] == 'f'
  {
    assert Prefix[0] == 'N' && Prefix[22] == 'f';
    assert t[0] == t[..|Prefix|][0] && t[22] == t[..|Prefix|][22];
  }

  /** Text whose only capital `N` is its first character, followed by
      something other than the prefix, is never matched. */
  lemma NoMatchWithoutPrefix(s: string)
    requires forall i :: 0 < i < |s| ==> s[i] != 'N'
    requires |s| > 22 ==> s[22] != 'f'
    ensures Search(s) == None
  {
    if FirstMatch(s) != -1 {
      FirstMatchIsLeftmost(s);
      MatchNeedsPrefix(s, FirstMatch(s));
    }
  }

  predicate AllDigits(s: string)
  {
    forall i :: 0 <= i < |s| ==> IsDecimalDigit(s[i])
  }

  /** The parts of a line the pattern matches at its start: the client
      number `d`, the whitespace `w` before the marker, the whitespace `w2`
      after it, the payload `p` and whatever follows the payload's line. */
  predicate Shape(d: string, w: string, w2: string, p: string, rest: string)
  {
    d != [] && AllDigits(d) && w != [] && AllSpace(w) && AllSpace(w2)
    && '\n' !in p && (rest == [] || rest[0] == '\n')
    && (p + rest == [] || !IsPySpace((p + rest)[0]))
  }

  function Line(d: string, w: string, w2: string, p: string, rest: string): string
  {
    Prefix + (d + (w + (HexMarker + (w2 + (p + rest)))))
  }

  /** Every line of the documented form matches at its start, and the two
      groups are its client number and its payload. */
  lemma MatchOfShape(d: string, w: string, w2: string, p: string, rest: string)
    requires Shape(d, w, w2, p, rest)
    ensures MatchAt(Line(d, w, w2, p, rest)) == Some(Groups(d, p))
  {
    var s := Line(d, w, w2, p, rest);
    var t := d + (w + (HexMarker + (w2 + (p + rest))));
    assert s == Prefix + t;
    assert s[..|Prefix|] == Prefix && s[|Prefix|..] == t;
    IdOfShape(d, w, w2, p, rest);
  }

  lemma IdOfShape(d: string, w: string, w2: string, p: string, rest: string)
    requires Shape(d, w, w2, p, rest)
    ensures MatchId(d + (w + (HexMarker + (w2 + (p + rest))))) == Some(Groups(d, p))
  {
    var u := w + (HexMarker + (w2 + (p + rest)));
    var t := d + u;
    DigitRunAt(t, |d|);
    assert t[..|d|] == d && t[|d|..] == u;
    MarkerOfShape(d, w, w2, p, rest);
  }

  lemma MarkerOfShape(id: string, w: string, w2: string, p: string, rest: string)
    requires w != [] && AllSpace(w) && AllSpace(w2) && '\n' !in p && (rest == [] || rest[0] == '\n')
    requires p + rest == [] || !IsPySpace((p + rest)[0])
    ensures MatchMarker(id, w + (HexMarker + (w2 + (p + rest)))) == Some(Groups(id, p))
  {
    var v := w2 + (p + rest);
    var marker := HexMarker + v;
    var u := w + marker;
    SpaceRunAt(u, |w|);
    assert u[|w|..] == marker && marker[..|HexMarker|] == HexMarker && marker[|HexMarker|..] == v;
    PayloadOfShape(w2, p, rest);
  }

  lemma PayloadOfShape(w2: string, p: string, rest: string)
    requires AllSpace(w2) && '\n' !in p && (rest == [] || rest[0] == '\n')
    requires p + rest == [] || !IsPySpace((p + rest)[0])
    ensures Payload(w2 + (p + rest)) == p
  {
    var v := w2 + (p + rest);
    SpaceRunAt(v, |w2|);
    assert v[|w2|..] == p + rest;
    LineRestAt(p + rest, |p|);
    assert (p + rest)[..|p|] == p;
  }

  /** Conversely, every match at the start of a line comes from a
      decomposition of that line of the documented form. */
  lemma ShapeOfMatch(s: string)
    requires MatchAt(s).Some?
    ensures exists w, w2, rest :: Shape(MatchAt(s).value.clientId, w, w2, MatchAt(s).value.payload, rest)
                                  && s == Line(MatchAt(s).value.clientId, w, w2, MatchAt(s).value.payload, rest)
  {
    var t := s[|Prefix|..];
    assert s == Prefix + t;
    var d, w, w2, p, rest := IdParts(t);
    assert s == Line(d, w, w2, p, rest);
    assert Shape(d, w, w2, p, rest);
  }

  lemma IdParts(t: string) returns (d: string, w: string, w2: string, p: string, rest: string)
    requires MatchId(t).Some?
    ensures Shape(d, w, w2, p, rest) && MatchId(t) == Some(Groups(d, p))
    ensures t == d + (w + (HexMarker + (w2 + (p + rest))))
  {
    var u;
    d, u := DigitRunParts(t);
    w, w2, p, rest := MarkerParts(d, u);
  }

  lemma MarkerParts(id: string, u: string) returns (w: string, w2: string, p: string, rest: string)
    requires MatchMarker(id, u).Some?
    ensures w != [] && AllSpace(w) && AllSpace(w2) && '\n' !in p && (rest == [] || rest[0] == '\n')
    ensures p + rest == [] || !IsPySpace((p + rest)[0])
    ensures MatchMarker(id, u) == Some(Groups(id, p))
    ensures u == w + (HexMarker + (w2 + (p + rest)))
  {
    var marker;
    w, marker := SpaceRunParts(u);
    var v := marker[|HexMarker|..];
    assert marker == HexMarker + v;
    w2, p, rest := PayloadParts(v);
  }

  /** `t` is its leading digits followed by text that starts otherwise. */
  lemma DigitRunParts(t: string) returns (d: string, u: string)
    ensures AllDigits(d) && |d| == DigitRun(t)
    ensures t == d + u && d == t[..DigitRun(t)] && u == t[DigitRun(t)..]
  {
    var n := DigitRun(t);
    d, u := t[..n], t[n..];
    forall k | 0 <= k < |d|
      ensures IsDecimalDigit(d[k])
    {
      assert d[k] == t[k];
    }
  }

  lemma PayloadParts(v: string) returns (w2: string, p: string, rest: string)
    ensures AllSpace(w2) && '\n' !in p && (rest == [] || rest[0] == '\n')
    ensures p + rest == [] || !IsPySpace((p + rest)[0])
    ensures Payload(v) == p && v == w2 + (p + rest)
  {
    var tail;
    w2, tail := SpaceRunParts(v);
    p, rest := LineRestParts(tail);
  }

  /** `v` is its leading whitespace followed by text that starts otherwise. */
  lemma SpaceRunParts(v: string) returns (w: string, tail: string)
    ensures AllSpace(w) && (tail == [] || !IsPySpace(tail[0]))
    ensures v == w + tail && tail == v[SpaceRun(v)..]
  {
    var n := SpaceRun(v);
    w, tail := v[..n], v[n..];
    forall k | 0 <= k < |w|
      ensures IsPySpace(w[k])
    {
      assert w[k] == v[k];
    }
    assert tail != [] ==> tail[0] == v[n];
  }

  /** `t` is its first line followed by nothing or a line feed. */
  lemma LineRestParts(t: string) returns (line: string, rest: string)
    ensures '\n' !in line && (rest == [] || rest[0] == '\n')
    ensures t == line + rest && line == LineRest(t)
  {
    line := LineRest(t);
    rest := t[|line|..];
    assert rest != [] ==> rest[0] == t[|line|];
  }

  /** `re.search` over a line whose leading text holds no capital `N`
      reports the documented form that follows it. */
  lemma SearchFindsShape(t: string, d: string, w: string, w2: string, p: string, rest: string)
    requires forall i :: 0 <= i < |t| ==> t[i] != 'N'
    requires Shape(d, w, w2, p, rest)
    ensures Search(t + Line(d, w, w2, p, rest)) == Some(Groups(d, p))
  {
    var x := t + Line(d, w, w2, p, rest);
    MatchOfShape(d, w, w2, p, rest);
    assert x[|t|..] == Line(d, w, w2, p, rest);
    FirstMatchIsLeftmost(x);
    var i := FirstMatch(x);
    assert 0 <= i <= |t|;
    MatchNeedsPrefix(x, i);
    assert i == |t|;
  }

  lemma {:induction false} DigitRunAt(s: string, m: nat)
    requires m <= |s| && forall i :: 0 <= i < m ==> IsDecimalDigit(s[i])
    requires m < |s| ==> !IsDecimalDigit(s[m])
    ensures DigitRun(s) == m
  {
    if m > 0 {
      DigitRunAt(s[1..], m - 1);
    }
  }

  lemma {:induction false} SpaceRunAt(s: string, m: nat)
    requires m <= |s| && forall i :: 0 <= i < m ==> IsPySpace(s[i])
    requires m < |s| ==> !IsPySpace(s[m])
    ensures SpaceRun(s) == m
  {
    if m > 0 {
      SpaceRunAt(s[1..], m - 1);
    }
  }

  lemma {:induction false} LineRestAt(s: string, m: nat)
    requires m <= |s| && '\n' !in s[..m]
    requires m < |s| ==> s[m] == '\n'
    ensures LineRest(s) == s[..m]
  {
    if m > 0 {
      assert s[0] == s[..m][0];
      assert s[1..][..m - 1] == s[..m][1..];
      LineRestAt(s[1..], m - 1);
    }
  }
}

/** The Python `str` operations the drop counter relies on: `str.strip()`
    and `str.split()` with no arguments, both driven by `str.isspace`. */
module PythonText {

  /** `str.isspace` on one character: the ASCII controls 0x09-0x0D and
      0x1C-0x1F, the space, and the Unicode space separators, line and
      paragraph separators. The same set is `\s` in a `str` pattern of `re`. */
  predicate IsPySpace(c: char)
  {
    c == ' ' || ('\t' <= c <= '\r') || ('\U{1C}' <= c <= '\U{1F}')
    || c == '\U{85}' || c == '\U{A0}' || c == '\U{1680}'
    || ('\U{2000}' <= c <= '\U{200A}') || c == '\U{2028}' || c == '\U{2029}'
    || c == '\U{202F}' || c == '\U{205F}' || c == '\U{3000}'
  }

  predicate NoSpace(s: string)
  {
    forall k :: 0 <= k < |s| ==> !IsPySpace(s[k])
  }

  function LStrip(s: string): (r: string)
    ensures |r| <= |s| && r == s[|s| - |r|..]
    ensures r == [] || !IsPySpace(r[0])
    ensures forall k :: 0 <= k < |s| - |r| ==> IsPySpace(s[k])
  {
    if s != [] && IsPySpace(s[0]) then LStrip(s[1..]) else s
  }

  function RStrip(s: string): (r: string)
    ensures |r| <= |s| && r == s[..|r|]
    ensures r == [] || !IsPySpace(r[|r| - 1])
    ensures forall k :: |r| <= k < |s| ==> IsPySpace(s[k])
  {
    if s != [] && IsPySpace(s[|s| - 1]) then RStrip(s[..|s| - 1]) else s
  }

  /** `s.strip()`: the text between the first and the last non-space. */
  function Strip(s: string): (r: string)
    ensures r == [] || (!IsPySpace(r[0]) && !IsPySpace(r[|r| - 1]))
    ensures exists i, j ::
              (0 <= i <= j <= |s| && r == s[i..j]
               && (forall k :: 0 <= k < i ==> IsPySpace(s[k]))
               && (forall k :: j <= k < |s| ==> IsPySpace(s[k])))
  {
    var t := LStrip(s);
    var r := RStrip(t);
    assert r == s[|s| - |t|..|s| - |t| + |r|];
    r
  }

  /** The length of the run of non-space characters that starts `s`. */
  function WordLength(s: string): (k: nat)
    ensures k <= |s| && NoSpace(s[..k])
    ensures k < |s| ==> IsPySpace(s[k])
  {
    if s == [] || IsPySpace(s[0]) then 0 else 1 + WordLength(s[1..])
  }

  /** `s.split()`: the maximal runs of non-space characters, in order. */
  function Split(s: string): (words: seq<string>)
    ensures forall i :: 0 <= i < |words| ==> words[i] != [] && NoSpace(words[i])
    decreases |s|
  {
    var t := LStrip(s);
    if t == [] then []
    else
      var k := WordLength(t);
      [t[..k]] + Split(t[k..])
  }

  // ---------------------------------------------------------------------
  // An independent description of `split`: its words, put end to end,
  // are the non-space characters of the text.

  function Concat(words: seq<string>): string
  {
    if words == [] then [] else words[0] + Concat(words[1..])
  }

  function NonSpace(s: string): (r: string)
    ensures NoSpace(r)
  {
    if s == [] then []
    else (if IsPySpace(s[0]) then [] else [s[0]]) + NonSpace(s[1..])
  }

  lemma {:induction false} NonSpaceAppend(a: string, b: string)
    ensures NonSpace(a + b) == NonSpace(a) + NonSpace(b)
  {
    if a == [] {
      assert a + b == b;
    } else {
      assert (a + b)[0] == a[0] && (a + b)[1..] == a[1..] + b;
      NonSpaceAppend(a[1..], b);
    }
  }

  lemma {:induction false} NonSpaceOfSpaces(s: string)
    requires forall k :: 0 <= k < |s| ==> IsPySpace(s[k])
    ensures NonSpace(s) == []
  {
    if s != [] {
      NonSpaceOfSpaces(s[1..]);
    }
  }

  lemma {:induction false} NonSpaceOfWord(s: string)
    requires NoSpace(s)
    ensures NonSpace(s) == s
  {
    if s != [] {
      NonSpaceOfWord(s[1..]);
    }
  }

  /** Leading whitespace carries no non-space character. */
  lemma NonSpaceOfLStrip(s: string)
    ensures NonSpace(LStrip(s)) == NonSpace(s)
  {
    var t := LStrip(s);
    assert s == s[..|s| - |t|] + t;
    NonSpaceAppend(s[..|s| - |t|], t);
    NonSpaceOfSpaces(s[..|s| - |t|]);
  }

  lemma ConcatCons(word: string, words: seq<string>)
    ensures Concat([word] + words) == word + Concat(words)
  {
    assert ([word] + words)[1..] == words;
  }

  /** The non-space characters of a text are those of its first word
      followed by those of what comes after that word. */
  lemma NonSpaceOfFirstWord(s: string)
    requires LStrip(s) != []
    ensures NonSpace(s) == LStrip(s)[..WordLength(LStrip(s))] + NonSpace(LStrip(s)[WordLength(LStrip(s))..])
  {
    NonSpaceOfLStrip(s);
    NonSpaceAfterWord(LStrip(s), WordLength(LStrip(s)));
  }

  lemma NonSpaceAfterWord(t: string, k: nat)
    requires k <= |t| && NoSpace(t[..k])
    ensures NonSpace(t) == t[..k] + NonSpace(t[k..])
  {
    var word, rest := t[..k], t[k..];
    assert t == word + rest;
    NonSpaceAppend(word, rest);
    NonSpaceOfWord(word);
  }

  /** No character other than whitespace is lost or added by `split`. */
  lemma {:induction false} SplitKeepsNonSpace(s: string)
    ensures Concat(Split(s)) == NonSpace(s)
    decreases |s|
  {
    var t := LStrip(s);
    if t != [] {
      var k := WordLength(t);
      NonSpaceOfFirstWord(s);
      SplitKeepsNonSpace(t[k..]);
      ConcatCons(t[..k], Split(t[k..]));
    } else {
      NonSpaceOfLStrip(s);
    }
  }

  /** A text without whitespace is one word, or none when it is empty. */
  lemma SplitOfWord(s: string)
    requires NoSpace(s)
    ensures Split(s) == if s == [] then [] else [s]
  {
    if s != [] {
      assert LStrip(s) == s;
      assert WordLength(s) == |s| by {
        WordLengthOfWord(s);
      }
      assert s[..|s|] == s && s[|s|..] == [];
      assert Split([]) == [];
    }
  }

  lemma {:induction false} WordLengthOfWord(s: string)
    requires NoSpace(s)
    ensures WordLength(s) == |s|
  {
    if s != [] {
      WordLengthOfWord(s[1..]);
    }
  }

  // ---------------------------------------------------------------------
  // The words are the maximal non-space runs: a word followed by
  // whitespace is split off whole.

  predicate AllSpace(s: string)
  {
    forall k :: 0 <= k < |s| ==> IsPySpace(s[k])
  }

  /** Leading whitespace is skipped. */
  lemma {:induction false} LStripSkipsSpace(sp: string, rest: string)
    requires AllSpace(sp)
    ensures LStrip(sp + rest) == LStrip(rest)
    decreases |sp|
  {
    if sp == [] {
      assert sp + rest == rest;
    } else {
      assert (sp + rest)[0] == sp[0] && (sp + rest)[1..] == sp[1..] + rest;
      LStripSkipsSpace(sp[1..], rest);
    }
  }

  lemma SplitSkipsSpace(sp: string, rest: string)
    requires AllSpace(sp)
    ensures Split(sp + rest) == Split(rest)
  {
    LStripSkipsSpace(sp, rest);
  }

  /** A word, then at least one space, then anything: the word is the first
      token, whole, and the rest is split on its own. */
  lemma SplitCons(w: string, sp: string, rest: string)
    requires w != [] && NoSpace(w)
    requires sp != [] && AllSpace(sp)
    ensures Split(w + sp + rest) == [w] + Split(rest)
  {
    var tail := sp + rest;
    var s := w + tail;
    assert w + sp + rest == s;
    WordThenSpace(w, tail);
    assert s[..|w|] == w && s[|w|..] == tail;
    SplitSkipsSpace(sp, rest);
  }

  lemma WordThenSpace(w: string, tail: string)
    requires w != [] && NoSpace(w)
    requires tail != [] && IsPySpace(tail[0])
    ensures LStrip(w + tail) == w + tail && WordLength(w + tail) == |w|
  {
    var s := w + tail;
    assert s[0] == w[0];
    assert s[..|w|] == w && s[|w|] == tail[0];
    WordLengthAt(s, |w|);
  }

  /** The first word ends at `m` when none of `s[..m]` is whitespace and
      `s[m]` is (or `m` is the end). */
  lemma {:induction false} WordLengthAt(s: string, m: nat)
    requires m <= |s| && NoSpace(s[..m])
    requires m < |s| ==> IsPySpace(s[m])
    ensures WordLength(s) == m
  {
    if m > 0 {
      assert s[..m][0] == s[0];
      assert s[1..][..m - 1] == s[..m][1..];
      WordLengthAt(s[1..], m - 1);
    }
  }
}

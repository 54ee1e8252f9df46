/** The line assembler of the AT firmware's `loop` (AT.cpp:378-391):
    characters are collected into `inputBuffer` until a `\n` or `\r`, and
    every non-empty collected line is handed to the dispatcher. */
module LineAssembly {

  predicate IsTerminator(c: char)
  {
    c == '\n' || c == '\r'
  }

  predicate NoTerminator(s: string)
  {
    forall k :: 0 <= k < |s| ==> !IsTerminator(s[k])
  }

  /** The input buffer and the lines handed to the dispatcher so far. */
  datatype Assembly = Assembly(buffer: string, complete: seq<string>)

  /** One iteration of `loop`'s while-loop on character `c`. */
  function Feed(a: Assembly, c: char): Assembly
  {
    if IsTerminator(c) then
      if |a.buffer| > 0 then Assembly("", a.complete + [a.buffer]) else a
    else
      Assembly(a.buffer + [c], a.complete)
  }

  /** Feeding all of `input`, in order, starting from `buffer`. */
  function Assemble(buffer: string, input: string): Assembly
  {
    if input == [] then Assembly(buffer, [])
    else Feed(Assemble(buffer, input[..|input| - 1]), input[|input| - 1])
  }

  // ---------------------------------------------------------------------
  // An independent description: cut the text at every terminator.

  /** The position of the first terminator in `s`, or `|s|`. */
  function FirstTerminator(s: string): (k: nat)
    ensures k <= |s|
    ensures NoTerminator(s[..k])
    ensures k < |s| ==> IsTerminator(s[k])
  {
    if s == [] || IsTerminator(s[0]) then 0 else 1 + FirstTerminator(s[1..])
  }

  /** `s` cut at every terminator; the terminators themselves are dropped
      and two adjacent terminators leave an empty piece between them. */
  function Split(s: string): (pieces: seq<string>)
    ensures |pieces| >= 1
    decreases |s|
  {
    var k := FirstTerminator(s);
    if k == |s| then [s] else [s[..k]] + Split(s[k + 1..])
  }

  /** `if (inputBuffer.length() > 0)`: the pieces that are dispatched. */
  function NonEmpty(pieces: seq<string>): (r: seq<string>)
    ensures forall x :: x in r <==> x in pieces && x != ""
  {
    if pieces == [] then []
    else
      var rest := NonEmpty(pieces[..|pieces| - 1]);
      var last := pieces[|pieces| - 1];
      if last != "" then rest + [last] else rest
  }

  /** Filtering keeps the order: the kept pieces of `p + q` are those of
      `p` followed by those of `q`. */
  lemma {:induction false} NonEmptyAppend(p: seq<string>, q: seq<string>)
    ensures NonEmpty(p + q) == NonEmpty(p) + NonEmpty(q)
    decreases |q|
  {
    if q == [] {
      assert p + q == p;
    } else {
      assert (p + q)[..|p + q| - 1] == p + q[..|q| - 1];
      assert (p + q)[|p + q| - 1] == q[|q| - 1];
      NonEmptyAppend(p, q[..|q| - 1]);
    }
  }

  /** The first terminator is the one at `k` when none comes before it. */
  lemma {:induction false} FirstTerminatorAt(s: string, k: nat)
    requires k <= |s| && NoTerminator(s[..k])
    requires k < |s| ==> IsTerminator(s[k])
    ensures FirstTerminator(s) == k
  {
    if k > 0 {
      assert s[..k][0] == s[0];
      assert s[1..][..k - 1] == s[..k][1..];
      FirstTerminatorAt(s[1..], k - 1);
    }
  }

  /** The pieces after one more character: a terminator opens a new empty
      piece, any other character extends the last one. */
  function Extend(p: seq<string>, c: char): (q: seq<string>)
    requires |p| >= 1
    ensures |q| >= 1
  {
    if IsTerminator(c) then p + [""] else p[..|p| - 1] + [p[|p| - 1] + [c]]
  }

  lemma ExtendCons(w: string, q: seq<string>, c: char)
    requires |q| >= 1
    ensures Extend([w] + q, c) == [w] + Extend(q, c)
  {
    var p := [w] + q;
    if !IsTerminator(c) {
      assert p[..|p| - 1] == [w] + q[..|q| - 1];
      assert p[|p| - 1] == q[|q| - 1];
    }
  }

  lemma SplitWithoutTerminator(s: string)
    requires NoTerminator(s)
    ensures Split(s) == [s]
  {
    assert s[..|s|] == s;
    FirstTerminatorAt(s, |s|);
  }

  lemma SplitAtTerminator(s: string, k: nat)
    requires k < |s| && NoTerminator(s[..k]) && IsTerminator(s[k])
    ensures Split(s) == [s[..k]] + Split(s[k + 1..])
  {
    FirstTerminatorAt(s, k);
  }

  lemma {:induction false} SplitSnoc(t: string, c: char)
    ensures Split(t + [c]) == Extend(Split(t), c)
    decreases |t|
  {
    var k := FirstTerminator(t);
    var tc := t + [c];
    assert tc[..k] == t[..k];
    if k == |t| {
      assert t[..k] == t;
      SplitWithoutTerminator(t);
      if IsTerminator(c) {
        SplitAtTerminator(tc, k);
        assert tc[k + 1..] == [];
        SplitWithoutTerminator([]);
      } else {
        assert tc[..|tc| - 1] == t;
        SplitWithoutTerminator(tc);
      }
    } else {
      SplitAtTerminator(t, k);
      SplitAtTerminator(tc, k);
      assert tc[k + 1..] == t[k + 1..] + [c];
      SplitSnoc(t[k + 1..], c);
      ExtendCons(t[..k], Split(t[k + 1..]), c);
    }
  }

  /** The assembler state the pieces describe: the last piece is still in
      the buffer, the non-empty ones before it have been dispatched. */
  function Described(p: seq<string>): Assembly
    requires |p| >= 1
  {
    Assembly(p[|p| - 1], NonEmpty(p[..|p| - 1]))
  }

  /** Feeding one more character, stated on the description by pieces. */
  lemma FeedOnPieces(p: seq<string>, c: char)
    requires |p| >= 1
    ensures Feed(Described(p), c) == Described(Extend(p, c))
  {
    var q := Extend(p, c);
    if IsTerminator(c) {
      assert q[..|q| - 1] == p;
    } else {
      assert q[..|q| - 1] == p[..|p| - 1];
    }
  }

  /** What the assembler does, described without it: starting from a buffer
      that holds no terminator, the buffer afterwards is the text after the
      last terminator, and the lines dispatched are exactly the non-empty
      pieces between terminators, in order. */
  lemma {:induction false} AssembleIsSplit(buffer: string, input: string)
    requires NoTerminator(buffer)
    ensures Assemble(buffer, input) == Described(Split(buffer + input))
  {
    if input == [] {
      assert buffer + input == buffer;
      SplitWithoutTerminator(buffer);
    } else {
      var init, c := input[..|input| - 1], input[|input| - 1];
      assert buffer + input == (buffer + init) + [c];
      calc {
        Assemble(buffer, input);
        Feed(Assemble(buffer, init), c);
        { AssembleIsSplit(buffer, init); }
        Feed(Described(Split(buffer + init)), c);
        { FeedOnPieces(Split(buffer + init), c); }
        Described(Extend(Split(buffer + init), c));
        { SplitSnoc(buffer + init, c); }
        Described(Split(buffer + input));
      }
    }
  }

  /** No piece holds a terminator. */
  lemma {:induction false} SplitPiecesHaveNoTerminator(s: string)
    ensures forall i :: 0 <= i < |Split(s)| ==> NoTerminator(Split(s)[i])
    decreases |s|
  {
    var k := FirstTerminator(s);
    if k < |s| {
      SplitPiecesHaveNoTerminator(s[k + 1..]);
    }
  }

  /** Hence the buffer never holds a terminator. */
  lemma BufferHasNoTerminator(buffer: string, input: string)
    requires NoTerminator(buffer)
    ensures NoTerminator(Assemble(buffer, input).buffer)
  {
    AssembleIsSplit(buffer, input);
    SplitPiecesHaveNoTerminator(buffer + input);
  }
}

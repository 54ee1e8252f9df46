/** The packet-drop counter of the test script (`process_line`): a
    notification line is matched, its payload split into hex tokens,
    tokens 3..5 read as one big-endian sequence number, and the per-client
    table `client_stats` updated with the number of packets skipped. */
module DropCounter {

  import opened Options
  import opened PythonText
  import opened PythonInt
  import opened NotificationPattern

  /** What `process_line` makes of one line. */
  datatype Outcome =
    | NoMatch                          // not a notification line
    | TooShort                         // fewer than six tokens
    | BadSequence                      // `int(..., 16)` raised
    | Packet(clientId: nat, seqNum: int)

  datatype ClientStats = ClientStats(lastSeq: int, dropped: int)

  /** `client_stats`: client id to its statistics. */
  type Table = map<nat, ClientStats>

  /** `[b for b in words if b]`. */
  function DropEmpty(words: seq<string>): (r: seq<string>)
    ensures forall i :: 0 <= i < |r| ==> r[i] != []
  {
    if words == [] then []
    else (if words[0] == [] then [] else [words[0]]) + DropEmpty(words[1..])
  }

  /** The parsing half of `process_line`. */
  function Classify(line: string): Outcome
  {
    match Search(Strip(line))
    case None => NoMatch
    case Some(groups) => ClassifyMatch(groups)
  }

  /** `"".join(hex_bytes[3:6])`: the tokens that carry the sequence number. */
  function SequenceText(hexBytes: seq<string>): string
    requires |hexBytes| >= 6
  {
    hexBytes[3] + hexBytes[4] + hexBytes[5]
  }

  /** What `process_line` makes of the groups of a match. */
  function ClassifyMatch(groups: Groups): Outcome
    requires DecimalId(groups)
  {
    var hexBytes := DropEmpty(Split(groups.payload));
    if |hexBytes| < 6 then TooShort
    else
      match ParseInt16(SequenceText(hexBytes))
      case None => BadSequence
      case Some(seqNum) => Packet(DecimalValue(groups.clientId), seqNum)
  }

  /** The table update of `process_line` for a parsed packet. */
  function Record(table: Table, clientId: nat, seqNum: int): Table
  {
    if clientId !in table then table[clientId := ClientStats(seqNum, 0)]
    else
      var stats := table[clientId];
      var expectedSeq := stats.lastSeq + 1;
      var dropped :=
        if seqNum != expectedSeq then stats.dropped + (if seqNum > expectedSeq then seqNum - expectedSeq else 0)
        else stats.dropped;
      table[clientId := ClientStats(seqNum, dropped)]
  }

  /** What the outcome of one line does to the table. */
  function Apply(table: Table, outcome: Outcome): Table
  {
    match outcome
    case Packet(clientId, seqNum) => Record(table, clientId, seqNum)
    case _ => table
  }

  /** `process_line` on the table. */
  function Track(table: Table, line: string): Table
  {
    Apply(table, Classify(line))
  }

  /** `process_line` on each of `lines`, in order. */
  function TrackAll(table: Table, lines: seq<string>): Table
    decreases |lines|
  {
    if lines == [] then table else TrackAll(Track(table, lines[0]), lines[1..])
  }

  // ---------------------------------------------------------------------
  // The drop arithmetic, stated on its own terms.

  /** Packets missing between `lastSeq` and `seqNum`: none unless the new
      number is more than one past the last. */
  function Gap(lastSeq: int, seqNum: int): nat
  {
    if seqNum > lastSeq + 1 then seqNum - lastSeq - 1 else 0
  }

  /** The update touches one entry: a new client starts at `seqNum` with no
      drops; a known one moves to `seqNum` and adds the gap. */
  lemma RecordUpdatesOneClient(table: Table, clientId: nat, seqNum: int)
    ensures Record(table, clientId, seqNum).Keys == table.Keys + {clientId}
    ensures Record(table, clientId, seqNum)[clientId] ==
      if clientId in table then ClientStats(seqNum, table[clientId].dropped + Gap(table[clientId].lastSeq, seqNum))
      else ClientStats(seqNum, 0)
    ensures forall other :: other in table && other != clientId ==> Record(table, clientId, seqNum)[other] == table[other]
  {
  }

  /** `split` never yields an empty word, so the filter keeps them all. */
  lemma {:induction false} DropEmptyKeepsWords(words: seq<string>)
    requires forall i :: 0 <= i < |words| ==> words[i] != []
    ensures DropEmpty(words) == words
  {
    if words != [] {
      DropEmptyKeepsWords(words[1..]);
    }
  }

  /** A notification whose tokens 3..5 are two-digit hex numbers carries the
      24-bit big-endian number they spell, for the client its decimal id
      names. */
  lemma TwoDigitTokensGive24Bits(line: string, groups: Groups)
    requires Search(Strip(line)) == Some(groups)
    requires |Split(groups.payload)| >= 6
    requires IsHexPair(Split(groups.payload)[3]) && IsHexPair(Split(groups.payload)[4]) && IsHexPair(Split(groups.payload)[5])
    ensures Classify(line).Packet?
    ensures Classify(line).clientId == DecimalValue(groups.clientId)
    ensures Classify(line).seqNum == PairValue(Split(groups.payload)[3]) * 0x1_0000
                                    + PairValue(Split(groups.payload)[4]) * 0x100 + PairValue(Split(groups.payload)[5])
    ensures 0 <= Classify(line).seqNum < 0x100_0000
  {
    var words := Split(groups.payload);
    DropEmptyKeepsWords(words);
    ThreePairs(words[3], words[4], words[5]);
  }

  /** A line the pattern does not find leaves the table as it was. */
  lemma UnmatchedLineIgnored(table: Table, line: string)
    requires Search(Strip(line)).None?
    ensures Classify(line) == NoMatch && Track(table, line) == table
  {
  }

  predicate DecimalId(groups: Groups)
  {
    forall i :: 0 <= i < |groups.clientId| ==> IsDecimalDigit(groups.clientId[i])
  }

  /** A line the pattern finds is handled by what its groups hold; its
      client id is all decimal digits. */
  lemma MatchedLine(line: string, groups: Groups)
    requires Search(Strip(line)) == Some(groups)
    ensures DecimalId(groups) && Classify(line) == ClassifyMatch(groups)
  {
  }

  /** A notification with fewer than six tokens leaves the table as it was. */
  lemma ShortPayloadIgnored(table: Table, groups: Groups)
    requires DecimalId(groups) && |Split(groups.payload)| < 6
    ensures ClassifyMatch(groups) == TooShort && Apply(table, ClassifyMatch(groups)) == table
  {
    DropEmptyKeepsWords(Split(groups.payload));
  }

  /** A notification whose tokens 3..5 do not read as one hex number leaves
      the table as it was. */
  lemma BadSequenceIgnored(table: Table, groups: Groups)
    requires DecimalId(groups) && |Split(groups.payload)| >= 6
    requires ParseInt16(SequenceText(Split(groups.payload))).None?
    ensures ClassifyMatch(groups) == BadSequence && Apply(table, ClassifyMatch(groups)) == table
  {
    DropEmptyKeepsWords(Split(groups.payload));
  }

  /** Any other notification is a packet carrying that number for its
      decimal client id (which `Apply` then records). */
  lemma PacketRecorded(groups: Groups)
    requires DecimalId(groups) && |Split(groups.payload)| >= 6
    requires ParseInt16(SequenceText(Split(groups.payload))).Some?
    ensures ClassifyMatch(groups) == Packet(DecimalValue(groups.clientId), ParseInt16(SequenceText(Split(groups.payload))).value)
  {
    DropEmptyKeepsWords(Split(groups.payload));
  }

  // ---------------------------------------------------------------------
  // Over many lines.

  /** No entry is ever removed and no drop count ever goes down. */
  predicate Grows(before: Table, after: Table)
  {
    forall id :: id in before ==> id in after && after[id].dropped >= before[id].dropped
  }

  lemma ApplyGrows(table: Table, outcome: Outcome)
    ensures Grows(table, Apply(table, outcome))
  {
    if outcome.Packet? {
      RecordUpdatesOneClient(table, outcome.clientId, outcome.seqNum);
    }
  }

  lemma {:induction false} TrackAllGrows(table: Table, lines: seq<string>)
    ensures Grows(table, TrackAll(table, lines))
    decreases |lines|
  {
    if lines != [] {
      var next := Track(table, lines[0]);
      ApplyGrows(table, Classify(lines[0]));
      TrackAllGrows(next, lines[1..]);
    }
  }

  /** The table after a run of packets from one client. */
  function RecordRun(table: Table, clientId: nat, seqNums: seq<int>): Table
  {
    if seqNums == [] then table
    else Record(RecordRun(table, clientId, seqNums[..|seqNums| - 1]), clientId, seqNums[|seqNums| - 1])
  }

  predicate StrictlyIncreasing(s: seq<int>)
  {
    forall i :: 0 < i < |s| ==> s[i - 1] < s[i]
  }

  /** From a client's first packet on, with numbers only going up, the
      drop count is the span covered minus the packets that arrived. */
  lemma {:induction false} IncreasingRunDrops(table: Table, clientId: nat, seqNums: seq<int>)
    requires clientId !in table && |seqNums| >= 1 && StrictlyIncreasing(seqNums)
    ensures clientId in RecordRun(table, clientId, seqNums)
    ensures RecordRun(table, clientId, seqNums)[clientId] ==
      ClientStats(seqNums[|seqNums| - 1], seqNums[|seqNums| - 1] - seqNums[0] - (|seqNums| - 1))
  {
    var n := |seqNums|;
    if n > 1 {
      var init := seqNums[..n - 1];
      assert StrictlyIncreasing(init);
      IncreasingRunDrops(table, clientId, init);
      RecordUpdatesOneClient(RecordRun(table, clientId, init), clientId, seqNums[n - 1]);
      assert init[0] == seqNums[0] && init[n - 2] == seqNums[n - 2];
    }
  }

  // ---------------------------------------------------------------------
  // The global `client_stats` and `process_line` as the script runs it.

  class DropMonitor {
    var clientStats: Table

    constructor ()
      ensures clientStats == map[]
    {
      clientStats := map[];
    }

    method ProcessLine(line: string)
      modifies this
      ensures clientStats == Track(old(clientStats), line)
    {
      var outcome := Classify(line);
      ProcessOutcome(outcome);
    }

    /** The table update of `process_line` once the line is parsed. */
    method ProcessOutcome(outcome: Outcome)
      modifies this
      ensures clientStats == Apply(old(clientStats), outcome)
    {
      match outcome {
        case Packet(clientId, seqNum) =>
          if clientId !in clientStats {
            clientStats := clientStats[clientId := ClientStats(seqNum, 0)];
          } else {
            var lastSeq := clientStats[clientId].lastSeq;
            var expectedSeq := lastSeq + 1;
            if seqNum != expectedSeq {
              var dropped := if seqNum > expectedSeq then seqNum - expectedSeq else 0;
              clientStats := clientStats[clientId := clientStats[clientId].(dropped := clientStats[clientId].dropped + dropped)];
            }
            clientStats := clientStats[clientId := clientStats[clientId].(lastSeq := seqNum)];
          }
        case _ =>
      }
    }
  }
}

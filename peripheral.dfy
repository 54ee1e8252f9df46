/** The packet-producing peripheral (peripheral.cpp): an 80-byte buffer that
    the timer callback rewrites in place, a 32-bit sequence counter that
    advances once per notification, and the connected flag kept by the
    server callbacks. */
module Peripheral {

  import opened Options
  import opened Hex

  /** `uint32_t`. */
  type uint32 = x: int | 0 <= x < 0x1_0000_0000

  const DATA_SIZE: int := 80
  /** First index of the counting payload and of the footer. */
  const PAYLOAD_START: int := 6
  const FOOTER_START: int := DATA_SIZE - 2

  /** `(n >> shift) & 0xFF` on an unsigned value: the quotient by 2^shift,
      reduced to its low eight bits. */
  function ShiftMask(n: uint32, shift: nat): uint8
  {
    n / Pow2(shift) % 0x100
  }

  function Pow2(k: nat): (p: nat)
    ensures p > 0
  {
    if k == 0 then 1 else 2 * Pow2(k - 1)
  }

  /** The counting payload: `len` bytes, byte `i` holding `(uint8_t)i`. */
  function Ramp(len: nat): (r: seq<uint8>)
    ensures |r| == len
  {
    seq(len, i requires 0 <= i < len => i % 0x100)
  }

  /** The buffer `sendData` leaves behind, from the two header bytes it
      finds there and the counter value it stores. */
  function Frame(h0: uint8, h1: uint8, n: uint32): (f: seq<uint8>)
  {
    [h0, h1, ShiftMask(n, 24), ShiftMask(n, 16), ShiftMask(n, 8), ShiftMask(n, 0)]
    + Ramp(FOOTER_START - PAYLOAD_START) + [0xFE, 0xFE]
  }

  /** How a receiver reads four bytes as a big-endian 32-bit number. */
  function BigEndian32(b: seq<uint8>): int
    requires |b| == 4
  {
    b[0] as int * 0x100_0000 + b[1] as int * 0x1_0000 + b[2] as int * 0x100 + b[3] as int
  }

  /** `sequenceNumber++` on a `uint32_t`, done only while connected. */
  function Advance(n: uint32, connected: bool): uint32
  {
    if connected then (n + 1) % 0x1_0000_0000 else n
  }

  /** The counter after `k` calls of `sendData` with a client connected. */
  function AdvanceConnected(n: uint32, k: nat): uint32
  {
    if k == 0 then n else Advance(AdvanceConnected(n, k - 1), true)
  }

  // ---------------------------------------------------------------------
  // What a frame holds.

  lemma FrameLength(h0: uint8, h1: uint8, n: uint32)
    ensures |Frame(h0, h1, n)| == DATA_SIZE
  {
  }

  /** Bytes 2..5 carry the counter, most significant byte first. */
  lemma FrameCounterRoundTrip(h0: uint8, h1: uint8, n: uint32)
    ensures BigEndian32(Frame(h0, h1, n)[2..6]) == n
  {
    var f := Frame(h0, h1, n);
    assert Pow2(8) == 0x100 && Pow2(16) == 0x1_0000 && Pow2(24) == 0x100_0000;
    assert f[2..6] == [n / 0x100_0000 % 0x100, n / 0x1_0000 % 0x100, n / 0x100 % 0x100, n % 0x100];
    BytesOfWord(n);
  }

  /** Cutting a 32-bit value into four bytes and putting them back together. */
  lemma BytesOfWord(n: uint32)
    ensures (n / 0x100_0000 % 0x100) * 0x100_0000 + (n / 0x1_0000 % 0x100) * 0x1_0000
            + (n / 0x100 % 0x100) * 0x100 + n % 0x100 == n
  {
    var q1, q2, q3 := n / 0x100, n / 0x1_0000, n / 0x100_0000;
    assert n == q1 * 0x100 + n % 0x100;
    assert q2 == q1 / 0x100;
    assert q1 == q2 * 0x100 + q1 % 0x100;
    assert q3 == q2 / 0x100;
    assert q2 == q3 * 0x100 + q2 % 0x100;
    assert q3 < 0x100;
  }

  /** Frames of different counters differ. */
  lemma FrameDeterminesCounter(h0: uint8, h1: uint8, n: uint32, m: uint32)
    requires Frame(h0, h1, n) == Frame(h0, h1, m)
    ensures n == m
  {
    FrameCounterRoundTrip(h0, h1, n);
    FrameCounterRoundTrip(h0, h1, m);
  }

  /** The header bytes are the ones found in the buffer; the payload
      counts up from 0; the footer is 0xFE 0xFE. */
  lemma FrameLayout(h0: uint8, h1: uint8, n: uint32)
    ensures |Frame(h0, h1, n)| == DATA_SIZE
    ensures Frame(h0, h1, n)[0] == h0 && Frame(h0, h1, n)[1] == h1
    ensures Frame(h0, h1, n)[2] == ShiftMask(n, 24) && Frame(h0, h1, n)[3] == ShiftMask(n, 16)
    ensures Frame(h0, h1, n)[4] == ShiftMask(n, 8) && Frame(h0, h1, n)[5] == ShiftMask(n, 0)
    ensures forall i :: PAYLOAD_START <= i < FOOTER_START ==> Frame(h0, h1, n)[i] == i - PAYLOAD_START
    ensures Frame(h0, h1, n)[FOOTER_START] == 0xFE && Frame(h0, h1, n)[DATA_SIZE - 1] == 0xFE
  {
    var f := Frame(h0, h1, n);
    forall i | PAYLOAD_START <= i < FOOTER_START
      ensures f[i] == i - PAYLOAD_START
    {
      assert f[i] == Ramp(FOOTER_START - PAYLOAD_START)[i - PAYLOAD_START];
    }
  }

  /** A buffer laid out byte by byte as `sendData` writes it is the frame. */
  lemma IsFrame(d: seq<uint8>, h0: uint8, h1: uint8, n: uint32)
    requires |d| == DATA_SIZE && d[0] == h0 && d[1] == h1
    requires d[2] == ShiftMask(n, 24) && d[3] == ShiftMask(n, 16)
    requires d[4] == ShiftMask(n, 8) && d[5] == ShiftMask(n, 0)
    requires forall k :: PAYLOAD_START <= k < FOOTER_START ==> d[k] == k - PAYLOAD_START
    requires d[FOOTER_START] == 0xFE && d[DATA_SIZE - 1] == 0xFE
    ensures d == Frame(h0, h1, n)
  {
    var f := Frame(h0, h1, n);
    FrameLayout(h0, h1, n);
    assert forall k :: 0 <= k < DATA_SIZE ==> d[k] == f[k];
  }

  /** After `k` notifications the counter has moved on by `k`, modulo 2^32. */
  lemma {:induction false} AdvanceConnectedCounts(n: uint32, k: nat)
    ensures AdvanceConnected(n, k) == (n + k) % 0x1_0000_0000
  {
    if k > 0 {
      AdvanceConnectedCounts(n, k - 1);
    }
  }

  // ---------------------------------------------------------------------
  // The globals of peripheral.cpp and the functions that update them.

  class PacketServer {
    var data: array<uint8>
    var sequenceNumber: uint32
    var deviceConnected: bool

    predicate Valid()
      reads this
    {
      data.Length == DATA_SIZE
    }

    /** The zero-initialised globals. */
    constructor ()
      ensures Valid() && fresh(data)
      ensures data[..] == seq(DATA_SIZE, _ => 0)
      ensures sequenceNumber == 0 && !deviceConnected
    {
      data := new uint8[DATA_SIZE](_ => 0);
      sequenceNumber := 0;
      deviceConnected := false;
    }

    /** The header initialisation of `setup`. */
    method Setup()
      requires Valid()
      modifies data
      ensures Valid()
      ensures data[..] == [0xFF, 0xFF] + old(data[2..])
    {
      data[0] := 0xFF;
      data[1] := 0xFF;
      assert data[..] == [0xFF, 0xFF] + old(data[2..]);
    }

    /** `sendData`: rewrite the buffer around the current counter; when a
        client is connected, hand the whole buffer to the notification and
        advance the counter. */
    method SendData() returns (notified: Option<seq<uint8>>)
      requires Valid()
      modifies this`sequenceNumber, data
      ensures Valid()
      ensures data[..] == Frame(old(data[0]), old(data[1]), old(sequenceNumber))
      ensures sequenceNumber == Advance(old(sequenceNumber), deviceConnected)
      ensures notified == if deviceConnected then Some(data[..]) else None
    {
      data[2] := ShiftMask(sequenceNumber, 24);
      data[3] := ShiftMask(sequenceNumber, 16);
      data[4] := ShiftMask(sequenceNumber, 8);
      data[5] := ShiftMask(sequenceNumber, 0);
      FillPayload();
      data[FOOTER_START] := 0xFE;
      data[DATA_SIZE - 1] := 0xFE;
      IsFrame(data[..], old(data[0]), old(data[1]), sequenceNumber);
      notified := None;
      if deviceConnected {
        notified := Some(data[..]);
        sequenceNumber := (sequenceNumber + 1) % 0x1_0000_0000;
      }
    }

    /** The loop of `sendData` that writes the counting payload. */
    method FillPayload()
      requires Valid()
      modifies data
      ensures forall k :: 0 <= k < PAYLOAD_START || FOOTER_START <= k < DATA_SIZE ==> data[k] == old(data[k])
      ensures forall k :: PAYLOAD_START <= k < FOOTER_START ==> data[k] == k - PAYLOAD_START
    {
      var i := PAYLOAD_START;
      while i < FOOTER_START
        invariant PAYLOAD_START <= i <= FOOTER_START
        invariant forall k :: 0 <= k < PAYLOAD_START || FOOTER_START <= k < DATA_SIZE ==> data[k] == old(data[k])
        invariant forall k :: PAYLOAD_START <= k < i ==> data[k] == k - PAYLOAD_START
      {
        data[i] := (i - PAYLOAD_START) % 0x100;
        i := i + 1;
      }
    }

    /** `MyServerCallbacks::onConnect`. */
    method OnConnect()
      requires Valid()
      modifies this`deviceConnected
      ensures Valid() && deviceConnected
    {
      deviceConnected := true;
    }

    /** `MyServerCallbacks::onDisconnect`; restarting advertising is a call
        into the radio stack. */
    method OnDisconnect()
      requires Valid()
      modifies this`deviceConnected
      ensures Valid() && !deviceConnected
    {
      deviceConnected := false;
    }
  }
}

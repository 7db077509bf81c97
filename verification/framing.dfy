/**
 Splitting a binary feed frame into packets (backend/app/dhan/feed.py, with the header layout and size
 checks of backend/app/dhan/packets.py).  A packet's payload is kept as bytes: the fields inside it
 are read after the checks modelled here and cannot fail.
 */
module FeedFraming {
  import opened Common

  type byte = b: int | 0 <= b < 256

  const HEADER_SIZE := 8

  /** Code, exchange segment and instrument come from the header; its length field counts header and payload. */
  datatype Packet = Packet(code: int, segment: int, securityId: int, payload: seq<byte>)

  /** The least size of a packet by response code; other codes are corrupt. */
  function LeastSize(code: int): Option<nat> {
    match code
    case 1 => Some(16)   // index
    case 2 => Some(16)   // ticker
    case 4 => Some(50)   // quote
    case 5 => Some(12)   // open interest
    case 6 => Some(16)   // previous close
    case 7 => Some(8)    // market status
    case 8 => Some(154)  // full
    case 50 => Some(10)  // disconnect
    case _ => None
  }

  // ---------------------------------------------------------------- one packet

  /** Little-endian two's complement. */
  function SignedOf(b0: byte, b1: byte, b2: byte, b3: byte): int {
    var u: int := b0 as int + 0x100 * (b1 as int + 0x100 * (b2 as int + 0x100 * (b3 as int)));
    if u >= 0x8000_0000 then u - 0x1_0000_0000 else u
  }

  function BytesOf(x: int): seq<byte>
    requires -0x8000_0000 <= x < 0x8000_0000
  {
    var u := if x < 0 then x + 0x1_0000_0000 else x;
    var v := u / 0x100;
    var w := v / 0x100;
    [u % 0x100, v % 0x100, w % 0x100, w / 0x100]
  }

  function DeclaredLength(data: seq<byte>): nat
    requires |data| >= HEADER_SIZE
  {
    data[1] as int + 0x100 * (data[2] as int)
  }

  function ParsePacket(data: seq<byte>): Option<Packet> {
    if |data| < HEADER_SIZE || LeastSize(data[0]).None? || |data| < LeastSize(data[0]).value then None
    else Some(Packet(data[0], data[3], SignedOf(data[4], data[5], data[6], data[7]), data[HEADER_SIZE..]))
  }

  /** Which lengths are accepted, by response code. */
  predicate LongEnough(code: int, size: nat) {
    || (code in {1, 2, 6} && size >= 16)
    || (code == 4 && size >= 50)
    || (code == 5 && size >= 12)
    || (code == 7 && size >= 8)
    || (code == 8 && size >= 154)
    || (code == 50 && size >= 10)
  }

  /** A packet can be read exactly when it has a header and is as long as its code demands. */
  lemma ParsesExactly(data: seq<byte>)
    ensures ParsePacket(data).Some? <==> |data| >= 8 && LongEnough(data[0] as int, |data|)
  {
  }

  /** The packet a frame begins with and its length, if it begins with one. */
  function First(data: seq<byte>): (r: Option<(Packet, nat)>)
    ensures r.Some? ==> HEADER_SIZE <= r.value.1 <= |data|
  {
    if |data| < HEADER_SIZE then None
    else
      var n := DeclaredLength(data);
      if n <= 0 || |data| < n || ParsePacket(data[..n]).None? then None
      else Some((ParsePacket(data[..n]).value, n))
  }

  predicate WellFormed(p: Packet) {
    && LeastSize(p.code).Some? && LeastSize(p.code).value <= HEADER_SIZE + |p.payload| < 0x1_0000
    && 0 <= p.segment < 0x100
    && -0x8000_0000 <= p.securityId < 0x8000_0000
  }

  function Encode(p: Packet): seq<byte>
    requires WellFormed(p)
  {
    var n := HEADER_SIZE + |p.payload|;
    [p.code as byte, n % 0x100, n / 0x100, p.segment] + BytesOf(p.securityId) + p.payload
  }

  lemma BytesRoundTrip(x: int)
    requires -0x8000_0000 <= x < 0x8000_0000
    ensures var b := BytesOf(x); SignedOf(b[0], b[1], b[2], b[3]) == x
  {
  }

  /** The lowest byte and the rest of a number built from them. */
  lemma LowByte(b: byte, rest: nat)
    ensures (b as int + 0x100 * rest) % 0x100 == b && (b as int + 0x100 * rest) / 0x100 == rest
  {
  }

  lemma SignedRoundTrip(b0: byte, b1: byte, b2: byte, b3: byte)
    ensures -0x8000_0000 <= SignedOf(b0, b1, b2, b3) < 0x8000_0000
    ensures BytesOf(SignedOf(b0, b1, b2, b3)) == [b0, b1, b2, b3]
  {
    var w: nat := b2 as int + 0x100 * (b3 as int);
    var v: nat := b1 as int + 0x100 * w;
    LowByte(b0, v);
    LowByte(b1, w);
    LowByte(b2, b3 as int);
  }

  /** A frame that begins with an encoded packet begins with that packet, whatever follows. */
  lemma FirstOfEncoded(p: Packet, rest: seq<byte>)
    requires WellFormed(p)
    ensures First(Encode(p) + rest) == Some((p, |Encode(p)|))
  {
    var e, data := Encode(p), Encode(p) + rest;
    BytesRoundTrip(p.securityId);
    assert data[..|e|] == e;
    assert e[HEADER_SIZE..] == p.payload;
  }

  /** What a frame begins with is well formed, and its encoding is the very bytes read. */
  lemma FirstIsEncoded(data: seq<byte>)
    requires First(data).Some?
    ensures var (p, n) := First(data).value; WellFormed(p) && Encode(p) == data[..n]
  {
    var (p, n) := First(data).value;
    SignedRoundTrip(data[4], data[5], data[6], data[7]);
    assert data[..n] == data[..4] + data[4..8] + data[8..n];
  }

  // ---------------------------------------------------------------- whole frames

  /** The packets a frame is split into, and the bytes left over. */
  function Split(data: seq<byte>): (r: (seq<Packet>, seq<byte>))
    decreases |data|
  {
    match First(data)
    case None => ([], data)
    case Some((p, n)) =>
      var (ps, rest) := Split(data[n..]);
      ([p] + ps, rest)
  }

  ghost predicate AllWellFormed(ps: seq<Packet>) {
    forall i :: 0 <= i < |ps| ==> WellFormed(ps[i])
  }

  ghost function EncodeAll(ps: seq<Packet>): seq<byte>
    requires AllWellFormed(ps)
  {
    if ps == [] then [] else Encode(ps[0]) + EncodeAll(ps[1..])
  }

  lemma EncodeAllCons(p: Packet, ps: seq<Packet>, rest: seq<byte>)
    requires WellFormed(p) && AllWellFormed(ps)
    ensures AllWellFormed([p] + ps)
    ensures EncodeAll([p] + ps) + rest == Encode(p) + (EncodeAll(ps) + rest)
  {
    hide Encode, WellFormed;
    assert ([p] + ps)[1..] == ps;
  }

  lemma Halves(data: seq<byte>, n: nat)
    requires n <= |data|
    ensures data == data[..n] + data[n..]
  {
  }

  /** Every frame is the encoding of the packets read from it, followed by bytes that begin no packet. */
  lemma {:induction false} SplitAccountsForEveryByte(data: seq<byte>)
    ensures var (ps, rest) := Split(data);
            AllWellFormed(ps) && data == EncodeAll(ps) + rest && First(rest).None?
    decreases |data|
  {
    hide First, Encode, WellFormed;
    if First(data).None? {
      assert EncodeAll([]) + data == data;
    } else {
      var (p, n) := First(data).value;
      FirstIsEncoded(data);
      SplitAccountsForEveryByte(data[n..]);
      var (ps, rest) := Split(data[n..]);
      EncodeAllCons(p, ps, rest);
      Halves(data, n);
    }
  }

  /** Splitting undoes concatenation, whatever follows the packets. */
  lemma {:induction false} SplitUndoesEncoding(ps: seq<Packet>, tail: seq<byte>)
    requires AllWellFormed(ps)
    ensures Split(EncodeAll(ps) + tail) == (ps + Split(tail).0, Split(tail).1)
  {
    hide First, Encode, WellFormed;
    if ps == [] {
      assert EncodeAll(ps) + tail == tail && ps + Split(tail).0 == Split(tail).0;
    } else {
      var rest := EncodeAll(ps[1..]) + tail;
      FirstOfEncoded(ps[0], rest);
      SplitUndoesEncoding(ps[1..], tail);
      var data := EncodeAll(ps) + tail;
      assert data == Encode(ps[0]) + rest;
      assert data[|Encode(ps[0])|..] == rest;
      assert ps == [ps[0]] + ps[1..];
      assert [ps[0]] + (ps[1..] + Split(tail).0) == ps + Split(tail).0;
    }
  }

  lemma NothingInNothing()
    ensures Split([]) == ([], [])
  {
  }

  /** Well-formed packets sent together come back as themselves with nothing left over. */
  lemma FramesRoundTrip(ps: seq<Packet>)
    requires AllWellFormed(ps)
    ensures Split(EncodeAll(ps)) == (ps, [])
  {
    SplitUndoesEncoding(ps, []);
    assert EncodeAll(ps) + [] == EncodeAll(ps) && ps + [] == ps;
  }

  /** No longer run of packets can be read off the front: any encoding the frame begins with is a prefix. */
  lemma SplitIsMaximal(data: seq<byte>, ps: seq<Packet>)
    requires AllWellFormed(ps) && EncodeAll(ps) <= data
    ensures ps <= Split(data).0
  {
    assert data == EncodeAll(ps) + data[|EncodeAll(ps)|..];
    SplitUndoesEncoding(ps, data[|EncodeAll(ps)|..]);
  }

  // ---------------------------------------------------------------- the client

  class DhanLiveFeedClient {
    var totalPackets: nat
    var corruptPackets: nat

    constructor ()
      ensures totalPackets == corruptPackets == 0
    {
      totalPackets, corruptPackets := 0, 0;
    }

    /** Read the frame packet by packet; stop at the first bytes that are not a packet and count them once. */
    method ProcessIncomingFrame(data: seq<byte>) returns (packets: seq<Packet>)
      modifies this
      ensures packets == Split(data).0
      ensures totalPackets == old(totalPackets) + |packets|
      ensures corruptPackets == old(corruptPackets) + if Split(data).1 == [] then 0 else 1
    {
      hide First;
      packets := [];
      var offset := 0;
      assert data[0..] == data && packets + Split(data).0 == Split(data).0;
      while offset < |data|
        invariant offset <= |data|
        invariant Split(data) == (packets + Split(data[offset..]).0, Split(data[offset..]).1)
        invariant totalPackets == old(totalPackets) + |packets| && corruptPackets == old(corruptPackets)
      {
        var remaining := data[offset..];
        var packet := First(remaining);
        if packet.None? {
          corruptPackets := corruptPackets + 1;
          assert packets + [] == packets;
          return;
        }
        var (p, n) := packet.value;
        assert remaining[n..] == data[offset + n..];
        assert packets + ([p] + Split(remaining[n..]).0) == packets + [p] + Split(remaining[n..]).0;
        packets := packets + [p];
        totalPackets := totalPackets + 1;
        offset := offset + n;
      }
      assert data[offset..] == [];
      NothingInNothing();
      assert packets + [] == packets;
    }
  }
}

/** Packet frames on a byte stream: a 16-bit big-endian total size, a 16-bit type, the payload. */
module Framing {
  import opened Wrappers
  import opened Bytes

  const HEADER_SIZE := 4
  const MAX_PACKET_SIZE := 4096

  datatype FrameError = InvalidPacketSize | ExceedsMaxSize | PayloadTooLarge

  /** What the bytes begin with. */
  datatype Frame = NeedMore | Bad(error: FrameError) | Complete(size: nat, kind: U16)

  function ReadU16(hi: Byte, lo: Byte): (v: U16)
    ensures v / 256 == hi && v % 256 == lo
  {
    var h: int, l: int := hi, lo;
    h * 256 + l
  }

  function WriteU16(v: U16): (bytes: seq<Byte>)
    ensures |bytes| == 2 && ReadU16(bytes[0], bytes[1]) == v
  {
    var n: int := v;
    [n / 256, n % 256]
  }

  function FrameOf(bytes: seq<Byte>): (f: Frame)
    ensures f.Complete? ==> HEADER_SIZE <= f.size <= MAX_PACKET_SIZE && f.size <= |bytes|
  {
    if |bytes| < HEADER_SIZE then NeedMore
    else
      var size: int := ReadU16(bytes[0], bytes[1]);
      if size < HEADER_SIZE then Bad(InvalidPacketSize)
      else if size > MAX_PACKET_SIZE then Bad(ExceedsMaxSize)
      else if |bytes| < size then NeedMore
      else Complete(size, ReadU16(bytes[2], bytes[3]))
  }

  function First(bytes: seq<Byte>): Packet
    requires FrameOf(bytes).Complete?
  {
    Packet(FrameOf(bytes).kind, bytes[HEADER_SIZE..FrameOf(bytes).size])
  }

  function AfterFirst(bytes: seq<Byte>): seq<Byte>
    requires FrameOf(bytes).Complete?
  {
    bytes[FrameOf(bytes).size..]
  }

  /** All packets the bytes deliver: up to an unfinished or malformed frame. */
  function Packets(bytes: seq<Byte>): seq<Packet>
    decreases |bytes|
  {
    if FrameOf(bytes).Complete? then [First(bytes)] + Packets(AfterFirst(bytes)) else []
  }

  /** The bytes no packet was taken from. */
  function Leftover(bytes: seq<Byte>): (rest: seq<Byte>)
    ensures |rest| <= |bytes| && !FrameOf(rest).Complete?
    decreases |bytes|
  {
    if FrameOf(bytes).Complete? then Leftover(AfterFirst(bytes)) else bytes
  }

  function Encode(p: Packet): (r: Result<seq<Byte>, FrameError>)
    ensures r.Ok? <==> |p.payload| + HEADER_SIZE <= MAX_PACKET_SIZE
  {
    var size := |p.payload| + HEADER_SIZE;
    if size > MAX_PACKET_SIZE then Err(PayloadTooLarge) else Ok(WriteU16(size) + WriteU16(p.kind) + p.payload)
  }

  // ---- Round trip ----

  /** An encoded packet is read back whatever follows it, and what follows is left. */
  lemma EncodeThenRead(p: Packet, tail: seq<Byte>)
    requires Encode(p).Ok?
    ensures var bytes := Encode(p).value + tail;
            FrameOf(bytes).Complete? && First(bytes) == p && AfterFirst(bytes) == tail
  {
    var enc := Encode(p).value;
    var bytes := enc + tail;
    assert bytes[0] == enc[0] && bytes[1] == enc[1] && bytes[2] == enc[2] && bytes[3] == enc[3];
    assert bytes[HEADER_SIZE..|enc|] == p.payload;
  }

  /** Reading a frame and encoding it again gives the bytes it was read from. */
  lemma ReadThenEncode(bytes: seq<Byte>)
    requires FrameOf(bytes).Complete?
    ensures Encode(First(bytes)).Ok? && Encode(First(bytes)).value + AfterFirst(bytes) == bytes
  {
    var size := FrameOf(bytes).size;
    assert WriteU16(size) == bytes[0..2];
    assert WriteU16(FrameOf(bytes).kind) == bytes[2..4];
    assert bytes == bytes[0..2] + bytes[2..4] + bytes[4..size] + bytes[size..];
  }

  function EncodeAll(ps: seq<Packet>): seq<Byte>
    requires forall p | p in ps :: Encode(p).Ok?
  {
    if ps == [] then [] else Encode(ps[0]).value + EncodeAll(ps[1..])
  }

  /** Concatenated encodings decode to the original packets, and nothing is left over. */
  lemma {:induction false} EncodedStream(ps: seq<Packet>)
    requires forall p | p in ps :: Encode(p).Ok?
    ensures Packets(EncodeAll(ps)) == ps && Leftover(EncodeAll(ps)) == []
  {
    if ps != [] {
      EncodeThenRead(ps[0], EncodeAll(ps[1..]));
      EncodedStream(ps[1..]);
    }
  }

  ghost predicate Encodable(ps: seq<Packet>) {
    forall p | p in ps :: Encode(p).Ok?
  }

  lemma EncodeOneMore(p: Packet, ps: seq<Packet>)
    requires Encode(p).Ok? && Encodable(ps)
    ensures Encodable([p] + ps) && EncodeAll([p] + ps) == Encode(p).value + EncodeAll(ps)
  {
    assert ([p] + ps)[1..] == ps;
  }

  /** Every stream is the encoding of the packets it delivers, followed by what it leaves over. */
  lemma {:induction false} StreamIsItsPackets(bytes: seq<Byte>)
    ensures Encodable(Packets(bytes)) && bytes == EncodeAll(Packets(bytes)) + Leftover(bytes)
    decreases |bytes|
  {
    if FrameOf(bytes).Complete? {
      var rest := AfterFirst(bytes);
      StreamIsItsPackets(rest);
      ReadThenEncode(bytes);
      EncodeOneMore(First(bytes), Packets(rest));
      assert bytes == Encode(First(bytes)).value + (EncodeAll(Packets(rest)) + Leftover(rest));
    }
  }

  // ---- Chunks ----

  lemma FrameStays(bytes: seq<Byte>, more: seq<Byte>)
    requires !FrameOf(bytes).NeedMore?
    ensures FrameOf(bytes + more) == FrameOf(bytes)
    ensures FrameOf(bytes).Complete? ==>
              First(bytes + more) == First(bytes) && AfterFirst(bytes + more) == AfterFirst(bytes) + more
  {
    assert (bytes + more)[..HEADER_SIZE] == bytes[..HEADER_SIZE];
    assert forall i | 0 <= i < HEADER_SIZE :: (bytes + more)[i] == bytes[i];
  }

  /** What a stream delivers does not depend on where it is cut. */
  lemma {:induction false} CutAnywhere(bytes: seq<Byte>, more: seq<Byte>)
    ensures Packets(bytes + more) == Packets(bytes) + Packets(Leftover(bytes) + more)
    ensures Leftover(bytes + more) == Leftover(Leftover(bytes) + more)
    decreases |bytes|
  {
    if FrameOf(bytes).Complete? {
      FrameStays(bytes, more);
      CutAnywhere(AfterFirst(bytes), more);
    }
  }

  /** The packets taken so far and those still to come from `live` are those of the whole stream. */
  ghost predicate Delivers(fed: seq<Byte>, taken: seq<Packet>, live: seq<Byte>) {
    (Packets(fed), Leftover(fed)) == (taken + Packets(live), Leftover(live))
  }

  lemma Regroup(a: seq<Packet>, b: seq<Packet>, c: seq<Packet>)
    ensures (a + b) + c == a + (b + c)
  {
  }

  lemma FeedDelivers(fed: seq<Byte>, taken: seq<Packet>, live: seq<Byte>, data: seq<Byte>)
    requires Delivers(fed, taken, live)
    ensures Delivers(fed + data, taken, live + data)
  {
    CutAnywhere(fed, data);
    CutAnywhere(live, data);
    Regroup(taken, Packets(live), Packets(Leftover(live) + data));
  }

  lemma NothingTaken(bytes: seq<Byte>)
    ensures Delivers(bytes, [], bytes)
  {
    assert [] + Packets(bytes) == Packets(bytes);
  }

  lemma TakeDelivers(fed: seq<Byte>, taken: seq<Packet>, live: seq<Byte>)
    requires Delivers(fed, taken, live) && FrameOf(live).Complete?
    ensures Delivers(fed, taken + [First(live)], AfterFirst(live))
  {
    Regroup(taken, [First(live)], Packets(AfterFirst(live)));
  }

  lemma DeliversThrough(fed: seq<Byte>, taken: seq<Packet>, live: seq<Byte>, more: seq<Packet>, rest: seq<Byte>)
    requires Delivers(fed, taken, live) && Delivers(live, more, rest)
    ensures Delivers(fed, taken + more, rest)
  {
    Regroup(taken, more, Packets(rest));
  }

  /** Nothing complete is left: everything has been taken. */
  lemma AllTaken(live: seq<Byte>, taken: seq<Packet>, rest: seq<Byte>)
    requires Delivers(live, taken, rest) && !FrameOf(rest).Complete?
    ensures taken == Packets(live) && rest == Leftover(live)
  {
  }
}

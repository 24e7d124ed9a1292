/** The incremental codec: a byte vector whose consumed prefix is dropped lazily. */
module PacketCodec {
  import opened Wrappers
  import opened Bytes
  import opened Framing

  const COMPACTION_THRESHOLD := 4096

  class Codec {
    var buffer: seq<Byte>
    var head: nat

    /** Everything ever fed, every packet ever consumed, and what consumption and compaction cost. */
    ghost var fed: seq<Byte>
    ghost var taken: seq<Packet>
    ghost var consumed: nat
    ghost var moved: nat
    ghost var compactions: nat

    ghost function Live(): seq<Byte>
      requires head <= |buffer|
      reads this
    {
      buffer[head..]
    }

    /** The consumed prefix stays small, and compaction is paid for by consumption. */
    ghost predicate Compact()
      reads this
    {
      && head <= |buffer|
      && (head < COMPACTION_THRESHOLD || head < |buffer| - head)
      && head <= consumed
      && moved <= (consumed - head) + compactions
      && COMPACTION_THRESHOLD * compactions <= consumed - head
    }

    ghost predicate Valid()
      reads this
    {
      Compact() && Delivers(fed, taken, Live())
    }

    constructor ()
      ensures Valid() && Live() == [] && fed == [] && taken == [] && consumed == 0 && moved == 0 && compactions == 0
    {
      buffer, head := [], 0;
      fed, taken, consumed, moved, compactions := [], [], 0, 0, 0;
      NothingTaken([]);
    }

    method CompactConsumedPrefix()
      requires head <= |buffer| && head <= consumed
      requires moved <= (consumed - head) + compactions && COMPACTION_THRESHOLD * compactions <= consumed - head
      modifies `buffer, `head, `moved, `compactions
      ensures Compact() && Live() == old(Live())
      ensures compactions == old(compactions) || compactions == old(compactions) + 1
    {
      if head == 0 {
        return;
      }
      if head == |buffer| {
        buffer, head := [], 0;
        return;
      }
      if head >= COMPACTION_THRESHOLD && head >= |buffer| / 2 {
        moved, compactions := moved + (|buffer| - head), compactions + 1;
        buffer, head := buffer[head..], 0;
      }
    }

    /** Gives up the first `size` live bytes, which held the packets `ps`. */
    method Discard(size: nat, ghost ps: seq<Packet>)
      requires Compact() && size <= |Live()| && Delivers(fed, taken + ps, Live()[size..])
      modifies this
      ensures Valid() && fed == old(fed) && Live() == old(Live())[size..]
      ensures taken == old(taken) + ps && consumed == old(consumed) + size
    {
      ghost var rest := Live()[size..];
      taken := taken + ps;
      head, consumed := head + size, consumed + size;
      assert Live() == rest;
      CompactConsumedPrefix();
    }

    method Feed(data: seq<Byte>)
      requires Valid()
      modifies this
      ensures Valid() && Live() == old(Live()) + data && fed == old(fed) + data
      ensures taken == old(taken) && consumed == old(consumed)
    {
      if data == [] {
        return;
      }
      CompactConsumedPrefix();
      ghost var live := Live();
      buffer := buffer + data;
      assert Live() == live + data;
      FeedDelivers(fed, taken, live, data);
      fed := fed + data;
    }

    method PacketFrameAt(offset: nat) returns (f: Frame)
      requires head <= |buffer|
      ensures offset <= |Live()| ==> f == FrameOf(Live()[offset..])
      ensures offset > |Live()| ==> f == NeedMore
    {
      var buffered := |buffer| - head;
      if offset > buffered {
        return NeedMore;
      }
      var available := buffered - offset;
      if available < HEADER_SIZE {
        return NeedMore;
      }
      var at := head + offset;
      var size: int, kind := ReadU16(buffer[at], buffer[at + 1]), ReadU16(buffer[at + 2], buffer[at + 3]);
      if size < HEADER_SIZE {
        return Bad(InvalidPacketSize);
      }
      if size > MAX_PACKET_SIZE {
        return Bad(ExceedsMaxSize);
      }
      if available < size {
        return NeedMore;
      }
      return Complete(size, kind);
    }

    method PeekPacket() returns (r: Result<Option<Packet>, FrameError>)
      requires head <= |buffer|
      ensures r == match FrameOf(Live())
                   case NeedMore => Ok(None)
                   case Bad(error) => Err(error)
                   case Complete(_, _) => Ok(Some(First(Live())))
    {
      var f := PacketFrameAt(0);
      assert Live()[0..] == Live();
      match f
      case NeedMore => r := Ok(None);
      case Bad(error) => r := Err(error);
      case Complete(size, kind) =>
        assert buffer[head + HEADER_SIZE..head + size] == Live()[HEADER_SIZE..size];
        r := Ok(Some(Packet(kind, buffer[head + HEADER_SIZE..head + size])));
    }

    /** `Err(None)` is the logic error of consuming when no packet is complete. */
    method ConsumePacket() returns (r: Result<(), Option<FrameError>>)
      requires Valid()
      modifies this
      ensures Valid() && fed == old(fed)
      ensures r.Ok? <==> FrameOf(old(Live())).Complete?
      ensures r.Ok? ==> && Live() == AfterFirst(old(Live())) && taken == old(taken) + [First(old(Live()))]
                        && consumed == old(consumed) + FrameOf(old(Live())).size
      ensures r.Err? ==> unchanged(this)
    {
      var f := PacketFrameAt(0);
      assert Live()[0..] == Live();
      match f
      case NeedMore => r := Err(None);
      case Bad(error) => r := Err(Some(error));
      case Complete(size, kind) =>
        ghost var live := Live();
        TakeDelivers(fed, taken, live);
        Discard(size, [First(live)]);
        r := Ok(());
    }

    lemma FirstOfLive(offset: nat, size: nat, kind: U16)
      requires head <= |buffer| && offset <= |Live()| && FrameOf(Live()[offset..]) == Complete(size, kind)
      ensures First(Live()[offset..]) == Packet(kind, buffer[head + offset + HEADER_SIZE..head + offset + size])
      ensures AfterFirst(Live()[offset..]) == Live()[offset + size..]
    {
    }

    lemma TakeAt(offset: nat, size: nat, kind: U16, packets: seq<Packet>)
      requires head <= |buffer| && offset <= |Live()| && FrameOf(Live()[offset..]) == Complete(size, kind)
      requires Delivers(Live(), packets, Live()[offset..])
      ensures offset + size <= |Live()|
      ensures var p := Packet(kind, buffer[head + offset + HEADER_SIZE..head + offset + size]);
              Delivers(Live(), packets + [p], Live()[offset + size..])
    {
      TakeDelivers(Live(), packets, Live()[offset..]);
      FirstOfLive(offset, size, kind);
    }

    /** Reads on from the head until no frame is complete; `f` is what stopped it. */
    method ScanPackets() returns (packets: seq<Packet>, offset: nat, f: Frame)
      requires head <= |buffer|
      ensures packets == Packets(Live()) && offset <= |Live()| && Live()[offset..] == Leftover(Live())
      ensures f == FrameOf(Leftover(Live()))
      ensures Delivers(Live(), packets, Live()[offset..])
    {
      packets, offset := [], 0;
      assert Live()[0..] == Live();
      NothingTaken(Live());
      f := PacketFrameAt(offset);
      while f.Complete?
        invariant offset <= |Live()| && f == FrameOf(Live()[offset..]) && Delivers(Live(), packets, Live()[offset..])
        decreases |Live()| - offset
      {
        TakeAt(offset, f.size, f.kind, packets);
        var p := Packet(f.kind, buffer[head + offset + HEADER_SIZE..head + offset + f.size]);
        packets, offset := packets + [p], offset + f.size;
        f := PacketFrameAt(offset);
      }
      AllTaken(Live(), packets, Live()[offset..]);
    }

    /** Takes every complete packet, or fails without changing anything. */
    method DrainPackets() returns (r: Result<seq<Packet>, FrameError>)
      requires Valid()
      modifies this
      ensures Valid() && fed == old(fed)
      ensures r.Err? <==> FrameOf(Leftover(old(Live()))).Bad?
      ensures r.Ok? ==> && r.value == Packets(old(Live())) && taken == old(taken) + r.value
                        && Live() == Leftover(old(Live())) && consumed == old(consumed) + |old(Live())| - |Live()|
      ensures r.Err? ==> unchanged(this)
    {
      var packets, offset, f := ScanPackets();
      if f.Bad? {
        return Err(f.error);
      }
      DeliversThrough(fed, taken, Live(), packets, Live()[offset..]);
      if offset != 0 {
        Discard(offset, packets);
      }
      r := Ok(packets);
    }
  }
}

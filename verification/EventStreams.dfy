/** What the I/O thread has put into the inbox, seen session by session. */
module EventStreams {
  import opened Wrappers
  import opened Bytes
  import opened Framing

  /** An inbox entry: a decoded packet, the end of a session, or a deferred completion. */
  datatype Inbound =
    | PacketIn(session: nat, packet: Packet, sequence: nat)
    | Gone(session: nat, sequence: nat)
    | CompletionIn(session: nat, sequence: nat)

  /** A connection: the bytes its codec holds, the number its next event gets. */
  datatype Conn = Conn(id: nat, live: seq<Byte>, nextSequence: nat, peerReadClosed: bool, closingAfterFlush: bool)

  /** All bytes read from a session, the packets handed on, the bytes still held, whether its end was
      handed on. */
  datatype Stream = Stream(received: seq<Byte>, taken: seq<Packet>, held: seq<Byte>, ended: bool)

  function OfSession(log: seq<Inbound>, id: nat): seq<Inbound> {
    if log == [] then []
    else
      var n := |log| - 1;
      OfSession(log[..n], id) + if log[n].session == id then [log[n]] else []
  }

  function Numbered(id: nat, packets: seq<Packet>): (es: seq<Inbound>)
    ensures |es| == |packets| && forall i | 0 <= i < |es| :: es[i] == PacketIn(id, packets[i], i)
  {
    if packets == [] then []
    else
      var n := |packets| - 1;
      Numbered(id, packets[..n]) + [PacketIn(id, packets[n], n)]
  }

  /** The packets in order, numbered from 0, and then at most the end with the next number. */
  function Expected(id: nat, st: Stream): seq<Inbound> {
    Numbered(id, st.taken) + if st.ended then [Gone(id, |st.taken|)] else []
  }

  /** The log holds for session `id` what its stream says: nothing read is lost and nothing is
      repeated, and the session ends only after all its packets. */
  ghost predicate StreamOk(log: seq<Inbound>, streams: map<nat, Stream>, id: nat) {
    if id !in streams then OfSession(log, id) == []
    else
      var st := streams[id];
      && OfSession(log, id) == Expected(id, st) && Delivers(st.received, st.taken, st.held)
      && (st.ended ==> st.taken == Packets(st.received))
  }

  ghost predicate StreamsOk(log: seq<Inbound>, streams: map<nat, Stream>) {
    forall id: nat :: StreamOk(log, streams, id)
  }

  /** The connection is where its stream is. */
  ghost predicate Tracks(streams: map<nat, Stream>, c: Conn) {
    && c.id in streams && !streams[c.id].ended
    && c.nextSequence == |streams[c.id].taken| && c.live == streams[c.id].held
  }

  lemma AppendOf(log: seq<Inbound>, e: Inbound, id: nat)
    ensures OfSession(log + [e], id) == OfSession(log, id) + if e.session == id then [e] else []
  {
    assert (log + [e])[..|log|] == log;
  }

  lemma NumberedMore(id: nat, packets: seq<Packet>, p: Packet)
    ensures Numbered(id, packets + [p]) == Numbered(id, packets) + [PacketIn(id, p, |packets|)]
  {
    assert (packets + [p])[..|packets|] == packets;
  }

  // ---- One event accepted ----

  function Took(st: Stream): Stream
    requires FrameOf(st.held).Complete?
  {
    st.(taken := st.taken + [First(st.held)], held := AfterFirst(st.held))
  }

  function Read(st: Stream, data: seq<Byte>): Stream {
    st.(received := st.received + data, held := st.held + data)
  }

  lemma PacketAccepted(log: seq<Inbound>, streams: map<nat, Stream>, c: Conn)
    requires StreamsOk(log, streams) && Tracks(streams, c) && FrameOf(c.live).Complete?
    ensures var p := First(c.live);
            var streams' := streams[c.id := Took(streams[c.id])];
            && StreamsOk(log + [PacketIn(c.id, p, c.nextSequence)], streams')
            && Tracks(streams', c.(live := AfterFirst(c.live), nextSequence := c.nextSequence + 1))
  {
    var p, st := First(c.live), streams[c.id];
    var e := PacketIn(c.id, p, c.nextSequence);
    var streams' := streams[c.id := Took(st)];
    forall id: nat ensures StreamOk(log + [e], streams', id) {
      assert StreamOk(log, streams, id);
      AppendOf(log, e, id);
      if id == c.id {
        TakeDelivers(st.received, st.taken, st.held);
        NumberedMore(id, st.taken, p);
      }
    }
  }

  lemma EndAccepted(log: seq<Inbound>, streams: map<nat, Stream>, c: Conn)
    requires StreamsOk(log, streams) && Tracks(streams, c) && !FrameOf(c.live).Complete?
    ensures StreamsOk(log + [Gone(c.id, c.nextSequence)], streams[c.id := streams[c.id].(ended := true)])
  {
    var e, st := Gone(c.id, c.nextSequence), streams[c.id];
    var streams' := streams[c.id := st.(ended := true)];
    forall id: nat ensures StreamOk(log + [e], streams', id) {
      assert StreamOk(log, streams, id);
      AppendOf(log, e, id);
      if id == c.id {
        AllTaken(st.received, st.taken, st.held);
      }
    }
  }

  // ---- Bytes and connections ----

  lemma BytesRead(log: seq<Inbound>, streams: map<nat, Stream>, c: Conn, data: seq<Byte>)
    requires StreamsOk(log, streams) && Tracks(streams, c)
    ensures var streams' := streams[c.id := Read(streams[c.id], data)];
            StreamsOk(log, streams') && Tracks(streams', c.(live := c.live + data))
  {
    var st := streams[c.id];
    var streams' := streams[c.id := Read(st, data)];
    forall id: nat ensures StreamOk(log, streams', id) {
      assert StreamOk(log, streams, id);
      if id == c.id {
        FeedDelivers(st.received, st.taken, st.held, data);
      }
    }
  }

  lemma SessionOpened(log: seq<Inbound>, streams: map<nat, Stream>, id: nat)
    requires StreamsOk(log, streams) && id !in streams
    ensures var streams' := streams[id := Stream([], [], [], false)];
            StreamsOk(log, streams') && Tracks(streams', Conn(id, [], 0, false, false))
  {
    var streams' := streams[id := Stream([], [], [], false)];
    NothingTaken([]);
    forall q: nat ensures StreamOk(log, streams', q) {
      assert StreamOk(log, streams, q);
    }
  }

  // ---- What the log says ----

  /** The events of a session are the packets of the bytes read from it, in order and numbered from 0;
      at most one end follows, with the next number, and then no packet is missing. */
  lemma ExactStream(log: seq<Inbound>, streams: map<nat, Stream>, id: nat)
    requires StreamsOk(log, streams) && id in streams
    ensures var es, all := OfSession(log, id), Packets(streams[id].received);
            && (forall k | 0 <= k < |es| ::
                  || (k < |all| && es[k] == PacketIn(id, all[k], k))
                  || (k == |es| - 1 == |all| && es[k] == Gone(id, k)))
            && |es| <= |all| + 1
  {
    assert StreamOk(log, streams, id);
    var st := streams[id];
    assert Packets(st.received) == st.taken + Packets(st.held);
  }

  /** Cutting the log cuts every session's events. */
  lemma {:induction false} CutOf(log: seq<Inbound>, i: nat, id: nat)
    requires i <= |log|
    ensures OfSession(log[..i], id) <= OfSession(log, id)
    ensures i < |log| && log[i].session == id ==>
              |OfSession(log[..i], id)| < |OfSession(log, id)|
              && OfSession(log, id)[|OfSession(log[..i], id)|] == log[i]
    decreases |log|
  {
    var n := |log| - 1;
    if i == |log| {
      assert log[..i] == log;
    } else if i < n {
      CutOf(log[..n], i, id);
      assert log[..n][..i] == log[..i];
    }
  }
}

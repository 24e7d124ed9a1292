/** The I/O thread of the server: framing, flow control and orderly ends of sessions. Sockets are
    choices of the environment, and between any two looks at the inbox the workers may do anything
    they can do to it. */
module IoServer {
  import opened Wrappers
  import opened Bytes
  import opened Framing
  import opened EventStreams

  const DEFERRED_INPUT_WORK_LIMIT := 256
  const ACCEPT_BATCH_LIMIT := 64

  datatype ShutdownPhase = Running | DrainingInput | DrainingOutput | Forced | Complete

  /** How handing on the packets of one connection ended: all of them, not all, or at a bad frame. */
  datatype Handed = All | Stopped | Malformed

  /** There is a work budget and none of it was used. */
  predicate Unspent(work: Option<nat>, work': Option<nat>) {
    work.Some? && work'.Some? && work'.value == work.value
  }

  /** Always true: a handle for the verifier. The server's invariant is stated under a quantifier over
      `Inside`, so that a method that only passes it on does not have its seven parts in the proof. Where
      they are needed, `assert Inside(true)` takes them out. */
  predicate Inside(look: bool) {
    true
  }

  predicate HasPacket(c: Conn) {
    FrameOf(c.live).Complete?
  }

  /** Sessions are found by descriptor and by id, and a session waiting to be ended is in neither table. */
  ghost predicate Distinct(sessions: map<nat, Conn>, fdOf: map<nat, nat>, deferred: seq<Conn>) {
    && (forall fd | fd in sessions :: sessions[fd].id in fdOf && fdOf[sessions[fd].id] == fd)
    && (forall i | 0 <= i < |deferred| :: deferred[i].id !in fdOf)
    && (forall i, j | 0 <= i < j < |deferred| :: deferred[i].id != deferred[j].id)
  }

  /** Every connection except session `id`, live or waiting to be ended, is where its stream is. */
  ghost predicate OthersTrack(streams: map<nat, Stream>, sessions: map<nat, Conn>, deferred: seq<Conn>, id: nat) {
    && (forall fd | fd in sessions && sessions[fd].id != id :: Tracks(streams, sessions[fd]))
    && (forall i | 0 <= i < |deferred| && deferred[i].id != id :: Tracks(streams, deferred[i]))
  }

  ghost predicate AllTrack(streams: map<nat, Stream>, sessions: map<nat, Conn>, deferred: seq<Conn>) {
    && (forall fd | fd in sessions :: Tracks(streams, sessions[fd]))
    && (forall i | 0 <= i < |deferred| :: Tracks(streams, deferred[i]))
  }

  /** The tables agree except at one descriptor. */
  ghost predicate SameBut(sessions: map<nat, Conn>, sessions': map<nat, Conn>, fd: nat) {
    forall k | k != fd :: (k in sessions <==> k in sessions') && (k in sessions ==> sessions[k] == sessions'[k])
  }

  datatype Glance = Glance(willWake: bool, paused: bool, sessions: map<nat, Conn>, listed: seq<nat>)

  /** What any number of chunks of session `fd` do. */
  ghost predicate Chunked(a: Glance, b: Glance, fd: nat, work: Option<nat>, handed: Handed, work': Option<nat>) {
    // The body has a name so that the verifier proves and uses the predicate whole, not split into its parts.
    var chunked :=
      && Steadies(a, b) && fd in b.sessions && SameBut(a.sessions, b.sessions, fd)
      && work'.Some? == work.Some? && (work.Some? ==> work'.value <= work.value)
      && (handed.Stopped? ==> b.paused)
      && (!handed.Stopped? ==> !HasPacket(b.sessions[fd]) && b.listed == a.listed)
      && (handed.Stopped? && Unspent(work, work') ==> HasPacket(b.sessions[fd]))
      && (b.listed == a.listed || b.listed == a.listed + [fd]);
    chunked
  }

  lemma ChunksCompose(a: Glance, b: Glance, c: Glance, fd: nat, work: Option<nat>, between: Option<nat>,
                      handed: Handed, work': Option<nat>)
    requires Chunked(a, b, fd, work, All, between) && Chunked(b, c, fd, between, handed, work')
    ensures Chunked(a, c, fd, work, handed, work')
  {
  }

  /** A wake-up to come stays to come, and reads are not paused without one. */
  predicate Steadies(a: Glance, b: Glance) {
    (a.willWake ==> b.willWake) && (a.paused ==> b.paused) && (b.paused && !a.paused ==> b.willWake)
  }

  /** What a read of session `fd` does, its end included. */
  ghost predicate ReadDone(a: Glance, b: Glance, fd: nat, work: Option<nat>, work': Option<nat>) {
    var done :=
      && Steadies(a, b) && SameBut(a.sessions, b.sessions, fd) && (fd in b.sessions ==> fd in a.sessions)
      && work'.Some? == work.Some? && (work.Some? ==> work'.value <= work.value)
      && (b.listed != a.listed ==>
            b.listed == a.listed + [fd] && fd in b.sessions && (Unspent(work, work') ==> HasPacket(b.sessions[fd])));
    done
  }

  lemma ChunksAreRead(a: Glance, b: Glance, fd: nat, work: Option<nat>, handed: Handed, work': Option<nat>)
    requires Chunked(a, b, fd, work, handed, work') && fd in a.sessions
    ensures ReadDone(a, b, fd, work, work')
  {
  }

  lemma EndIsRead(a: Glance, b: Glance, fd: nat, work: Option<nat>)
    requires Steadies(a, b) && SameBut(a.sessions, b.sessions, fd) && fd !in b.sessions && b.listed == a.listed
    ensures ReadDone(a, b, fd, work, work)
  {
  }

  lemma ChunksThenEnd(a: Glance, b: Glance, c: Glance, fd: nat, work: Option<nat>, handed: Handed, work': Option<nat>)
    requires Chunked(a, b, fd, work, handed, work') && !handed.Stopped?
    requires Steadies(b, c) && SameBut(b.sessions, c.sessions, fd) && fd !in c.sessions && c.listed == b.listed
    ensures ReadDone(a, c, fd, work, work')
  {
  }

  ghost predicate OnlyAt(streams: map<nat, Stream>, streams': map<nat, Stream>, id: nat) {
    && id in streams && id in streams'
    && (forall q: nat | q != id :: q in streams' <==> q in streams)
    && (forall q: nat | q != id && q in streams :: streams'[q] == streams[q])
  }

  lemma OthersStay(streams: map<nat, Stream>, streams': map<nat, Stream>, sessions: map<nat, Conn>,
                   deferred: seq<Conn>, id: nat)
    requires OthersTrack(streams, sessions, deferred, id) && OnlyAt(streams, streams', id)
    ensures OthersTrack(streams', sessions, deferred, id)
  {
  }

  lemma Removed(sessions: map<nat, Conn>, fdOf: map<nat, nat>, deferred: seq<Conn>, fd: nat)
    requires Distinct(sessions, fdOf, deferred) && fd in sessions
    ensures Distinct(sessions - {fd}, fdOf - {sessions[fd].id}, deferred)
    ensures |sessions - {fd}| == |sessions| - 1 && forall i | 0 <= i < |deferred| :: deferred[i].id != sessions[fd].id
  {
    assert (sessions - {fd}).Keys == sessions.Keys - {fd};
    assert |sessions - {fd}| == |(sessions - {fd}).Keys| && |sessions| == |sessions.Keys|;
  }

  lemma Postponed(sessions: map<nat, Conn>, fdOf: map<nat, nat>, deferred: seq<Conn>, c: Conn)
    requires Distinct(sessions, fdOf, deferred) && c.id !in fdOf
    requires forall i | 0 <= i < |deferred| :: deferred[i].id != c.id
    ensures Distinct(sessions, fdOf, deferred + [c]) && IdsOf(deferred + [c]) == IdsOf(deferred) + {c.id}
    ensures c.id !in IdsOf(deferred)
  {
    var more := deferred + [c];
    assert forall i | 0 <= i < |deferred| :: more[i] == deferred[i];
    assert more[|deferred|] == c;
  }

  lemma Stored(streams: map<nat, Stream>, sessions: map<nat, Conn>, fdOf: map<nat, nat>, deferred: seq<Conn>,
               fd: nat, c: Conn)
    requires Distinct(sessions, fdOf, deferred) && fd in sessions && c.id == sessions[fd].id
    requires OthersTrack(streams, sessions, deferred, c.id) && Tracks(streams, c)
    ensures Distinct(sessions[fd := c], fdOf, deferred) && AllTrack(streams, sessions[fd := c], deferred)
    ensures |sessions[fd := c]| == |sessions|
  {
    assert sessions[fd := c].Keys == sessions.Keys;
    assert |sessions[fd := c]| == |sessions[fd := c].Keys| && |sessions| == |sessions.Keys|;
  }

  lemma FrontAdvanced(streams: map<nat, Stream>, sessions: map<nat, Conn>, fdOf: map<nat, nat>, deferred: seq<Conn>,
                      c: Conn)
    requires Distinct(sessions, fdOf, deferred) && deferred != [] && c.id == deferred[0].id
    requires OthersTrack(streams, sessions, deferred, c.id) && Tracks(streams, c)
    ensures var deferred' := [c] + deferred[1..];
            && Distinct(sessions, fdOf, deferred') && IdsOf(deferred') == IdsOf(deferred)
            && AllTrack(streams, sessions, deferred')
  {
    var deferred' := [c] + deferred[1..];
    assert forall i | 0 <= i < |deferred| :: deferred'[i].id == deferred[i].id;
    assert forall i | 0 < i < |deferred| :: deferred'[i] == deferred[i];
  }

  lemma FrontRemoved(sessions: map<nat, Conn>, fdOf: map<nat, nat>, deferred: seq<Conn>)
    requires Distinct(sessions, fdOf, deferred) && deferred != []
    ensures Distinct(sessions, fdOf, deferred[1..]) && IdsOf(deferred[1..]) == IdsOf(deferred) - {deferred[0].id}
    ensures forall i | 0 <= i < |deferred[1..]| :: deferred[1..][i].id != deferred[0].id
  {
    var rest := deferred[1..];
    assert forall i | 0 <= i < |rest| :: rest[i] == deferred[i + 1];
    forall id | id in IdsOf(deferred) && id != deferred[0].id ensures id in IdsOf(rest) {
      var i :| 0 <= i < |deferred| && deferred[i].id == id;
      assert rest[i - 1].id == id;
    }
  }

  lemma NothingReadYet(c: Conn)
    requires c.live == []
    ensures !HasPacket(c)
  {
  }

  lemma Opened(streams: map<nat, Stream>, streams': map<nat, Stream>, sessions: map<nat, Conn>, fdOf: map<nat, nat>,
               deferred: seq<Conn>, fd: nat, c: Conn)
    requires Distinct(sessions, fdOf, deferred) && AllTrack(streams, sessions, deferred)
    requires fd !in sessions && c.id !in streams && Tracks(streams', c)
    requires forall id | id in streams :: id in streams' && streams'[id] == streams[id]
    ensures Distinct(sessions[fd := c], fdOf[c.id := fd], deferred) && AllTrack(streams', sessions[fd := c], deferred)
    ensures |sessions[fd := c]| == |sessions| + 1
  {
    assert sessions[fd := c].Keys == sessions.Keys + {fd};
    assert |sessions[fd := c]| == |sessions[fd := c].Keys| && |sessions| == |sessions.Keys|;
  }

  // ---- Why the deferred reads come to an end ----

  predicate Waiting(sessions: map<nat, Conn>, fd: nat) {
    fd in sessions && HasPacket(sessions[fd])
  }

  /** The deferred reads that have no packet waiting. */
  function Weight(fds: seq<nat>, sessions: map<nat, Conn>): nat {
    if fds == [] then 0
    else Weight(fds[1..], sessions) + if Waiting(sessions, fds[0]) then 0 else 1
  }

  lemma {:induction false} WeightShrinks(fds: seq<nat>, sessions: map<nat, Conn>, sessions': map<nat, Conn>, fd: nat)
    requires SameBut(sessions, sessions', fd) && !Waiting(sessions, fd)
    ensures Weight(fds, sessions') <= Weight(fds, sessions)
  {
    if fds != [] {
      WeightShrinks(fds[1..], sessions, sessions', fd);
    }
  }

  lemma {:induction false} WeightMore(fds: seq<nat>, fd: nat, sessions: map<nat, Conn>)
    ensures Weight(fds + [fd], sessions) == Weight(fds, sessions) + if Waiting(sessions, fd) then 0 else 1
  {
    if fds == [] {
      assert (fds + [fd])[1..] == [];
    } else {
      assert (fds + [fd])[1..] == fds[1..] + [fd];
      WeightMore(fds[1..], fd, sessions);
    }
  }

  function IdsOf(cs: seq<Conn>): set<nat> {
    set i | 0 <= i < |cs| :: cs[i].id
  }

  class Server {
    const capacity: nat
    const high: nat
    const low: nat
    const maxSessions: nat

    // Shared with the workers.
    var inbox: seq<Inbound>
    var wake: bool
    /** Workers that have seen the low watermark and have not notified yet. */
    var about: nat

    var readsPaused: bool
    var bpPaused: bool
    var listenerRegistered: bool
    var phase: ShutdownPhase
    var sessions: map<nat, Conn>
    var fdBySession: map<nat, nat>
    var deferredReads: seq<nat>
    var deferredReadSet: set<nat>
    var deferredDisconnects: seq<Conn>
    var deferredIds: set<nat>
    var nextSessionId: nat

    /** Every event this thread got into the inbox, and what each session sent. */
    ghost var log: seq<Inbound>
    ghost var streams: map<nat, Stream>

    ghost predicate Config()
      reads this
    {
      0 < low < high <= capacity && |inbox| <= capacity
    }

    /** A capacity wake-up is pending, about to be sent, or certain to be sent by a later pop. */
    ghost predicate WillWake()
      reads this
    {
      wake || about > 0 || |inbox| > low
    }

    /** A wake-up to come stays to come, and reads are not paused without one. */
    twostate predicate Steady()
      reads this
    {
      && (old(WillWake()) ==> WillWake())
      && (old(readsPaused) ==> readsPaused)
      && (readsPaused && !old(readsPaused) ==> WillWake())
    }

    // ---- The environment and the inbox ----

    /** The workers pop and notify, completion objects push, in any order and any number of times. */
    method Interfere()
      requires Config()
      modifies `inbox, `wake, `about
      ensures Config() && (old(WillWake()) ==> WillWake())
    {
      var steps: nat := *;
      while steps > 0
        invariant Config() && (old(WillWake()) ==> WillWake())
        decreases steps
      {
        if {
          case |inbox| > 0 =>
            inbox := inbox[1..];
            if |inbox| == low {
              about := about + 1;
            }
          case |inbox| < capacity =>
            var session: nat, sequence: nat := *, *;
            inbox := inbox + [CompletionIn(session, sequence)];
          case about > 0 =>
            about, wake := about - 1, true;
          case true =>
        }
        steps := steps - 1;
      }
    }

    method InboxSize() returns (size: nat)
      requires Config()
      modifies `inbox, `wake, `about
      ensures Config() && (old(WillWake()) ==> WillWake())
      ensures size > low ==> WillWake()
    {
      Interfere();
      size := |inbox|;
    }

    /** Accepts the event unless the inbox is full. */
    method TryPush(e: Inbound) returns (ok: bool, size: nat)
      requires Config()
      modifies `inbox, `wake, `about, `log
      ensures Config() && (old(WillWake()) ==> WillWake()) && (size > low ==> WillWake())
      ensures log == if ok then old(log) + [e] else old(log)
      ensures !ok ==> size == capacity
    {
      Interfere();
      ok := |inbox| < capacity;
      if ok {
        inbox, log := inbox + [e], log + [e];
      }
      size := |inbox|;
    }

    // ---- Pausing ----

    method OnInboundSize(size: nat) returns (pause: bool)
      modifies `bpPaused
      ensures bpPaused == (old(bpPaused) || size >= high) && pause == (!old(bpPaused) && size >= high)
    {
      pause := !bpPaused && size >= high;
      if pause {
        bpPaused := true;
      }
    }

    method PauseReads()
      modifies `readsPaused, `listenerRegistered
      ensures readsPaused && listenerRegistered == (old(listenerRegistered) && old(readsPaused))
    {
      if readsPaused {
        return;
      }
      readsPaused, listenerRegistered := true, false;
    }

    /** In phase Running the controller, the reads and the listener agree; later, reads stay paused. */
    ghost predicate Flow()
      reads this
    {
      if phase.Running? then readsPaused == bpPaused && listenerRegistered == !readsPaused else readsPaused
    }

    // ---- Handing events on ----

    /** Offers the first packet of `c` to the inbox; it is consumed and numbered only if accepted. */
    method HandOnFirst(c: Conn) returns (c': Conn, ok: bool, size: nat)
      requires Config() && StreamsOk(log, streams) && Tracks(streams, c) && HasPacket(c)
      modifies `inbox, `wake, `about, `log, `streams
      ensures Config() && (old(WillWake()) ==> WillWake()) && (size > low ==> WillWake())
      ensures StreamsOk(log, streams) && Tracks(streams, c') && OnlyAt(old(streams), streams, c.id)
      ensures c' == if ok then c.(live := AfterFirst(c.live), nextSequence := c.nextSequence + 1) else c
      ensures !ok ==> size == capacity
    {
      PacketAccepted(log, streams, c);
      ok, size := TryPush(PacketIn(c.id, First(c.live), c.nextSequence));
      c' := c;
      if ok {
        streams := streams[c.id := Took(streams[c.id])];
        c' := c.(live := AfterFirst(c.live), nextSequence := c.nextSequence + 1);
      }
    }

    /** One round: peek, push, consume, and stop at the work budget or the high watermark. */
    method HandOnNext(c: Conn, work: Option<nat>) returns (c': Conn, stopped: bool, work': Option<nat>)
      requires Config() && Flow() && StreamsOk(log, streams) && Tracks(streams, c) && HasPacket(c)
      modifies `inbox, `wake, `about, `log, `streams, `readsPaused, `bpPaused, `listenerRegistered
      ensures Config() && Flow() && (old(WillWake()) ==> WillWake())
      ensures StreamsOk(log, streams) && Tracks(streams, c') && OnlyAt(old(streams), streams, c.id)
      ensures c' == c.(live := c'.live, nextSequence := c'.nextSequence)
      ensures work'.Some? == work.Some? && (work.Some? ==> work'.value <= work.value)
      ensures old(readsPaused) ==> readsPaused
      ensures if stopped then (readsPaused && WillWake()) || work' == Some(0)
              else |c'.live| < |c.live| && readsPaused == old(readsPaused)
      ensures Unspent(work, work') ==> stopped && HasPacket(c')
    {
      c', work' := c, work;
      if work == Some(0) {
        stopped := true;
      } else {
        var ok, size;
        c', ok, size := HandOnFirst(c);
        if ok && work.Some? {
          work' := Some(work.value - 1);
        }
        var pause := OnInboundSize(size);
        if pause || !ok {
          PauseReads();
        }
        stopped := size >= high;
      }
    }

    /** Hands on the complete packets of `c`, in order. */
    method EnqueueDecodedPackets(c: Conn, work: Option<nat>) returns (c': Conn, handed: Handed, work': Option<nat>)
      requires Config() && Flow() && StreamsOk(log, streams) && Tracks(streams, c)
      modifies `inbox, `wake, `about, `log, `streams, `readsPaused, `bpPaused, `listenerRegistered
      ensures Config() && Flow() && (old(WillWake()) ==> WillWake())
      ensures StreamsOk(log, streams) && Tracks(streams, c') && OnlyAt(old(streams), streams, c.id)
      ensures c' == c.(live := c'.live, nextSequence := c'.nextSequence)
      ensures work'.Some? == work.Some? && (work.Some? ==> work'.value <= work.value)
      ensures handed.All? ==> FrameOf(c'.live).NeedMore?
      ensures handed.Malformed? ==> FrameOf(c'.live).Bad?
      ensures !handed.Stopped? ==> readsPaused == old(readsPaused)
      ensures old(readsPaused) ==> readsPaused
      ensures handed.Stopped? ==> (readsPaused && WillWake()) || work' == Some(0)
      ensures handed.Stopped? && Unspent(work, work') ==> HasPacket(c')
      ensures HasPacket(c) && Unspent(work, work') ==> handed.Stopped?
    {
      c', work' := c, work;
      var stopped := false;
      while HasPacket(c') && !stopped
        invariant Config() && Flow() && (old(WillWake()) ==> WillWake())
        invariant StreamsOk(log, streams) && Tracks(streams, c') && OnlyAt(old(streams), streams, c.id)
        invariant c' == c.(live := c'.live, nextSequence := c'.nextSequence)
        invariant work'.Some? == work.Some? && (work.Some? ==> work'.value <= work.value)
        invariant old(readsPaused) ==> readsPaused
        invariant if stopped then (readsPaused && WillWake()) || work' == Some(0) else readsPaused == old(readsPaused)
        invariant Unspent(work, work') ==> if stopped then HasPacket(c') else c' == c
        decreases !stopped, |c'.live|
      {
        c', stopped, work' := HandOnNext(c', work');
      }
      handed := if stopped then Stopped else if FrameOf(c'.live).Bad? then Malformed else All;
    }

    /** Tells the workers that the session is over; its packets have all been handed on. */
    method EnqueueDisconnected(c: Conn) returns (ok: bool)
      requires Config() && Flow() && StreamsOk(log, streams) && Tracks(streams, c) && !HasPacket(c)
      modifies `inbox, `wake, `about, `log, `streams, `readsPaused, `bpPaused, `listenerRegistered
      ensures Config() && Flow() && StreamsOk(log, streams) && (old(WillWake()) ==> WillWake())
      ensures OnlyAt(old(streams), streams, c.id) && (!ok ==> streams == old(streams) && readsPaused && WillWake())
      ensures old(readsPaused) ==> readsPaused
      ensures readsPaused && !old(readsPaused) ==> WillWake()
    {
      EndAccepted(log, streams, c);
      var size;
      ok, size := TryPush(Gone(c.id, c.nextSequence));
      var pause := OnInboundSize(size);
      if pause || !ok {
        PauseReads();
      }
      if ok {
        streams := streams[c.id := streams[c.id].(ended := true)];
      }
    }

    /** `false` is the logic error of having deferred too many disconnects. */
    method DeferDisconnected(c: Conn) returns (ok: bool)
      modifies `deferredDisconnects, `deferredIds
      ensures ok <==> c.id in old(deferredIds) || |old(deferredDisconnects)| < maxSessions
      ensures if ok && c.id !in old(deferredIds)
              then deferredDisconnects == old(deferredDisconnects) + [c] && deferredIds == old(deferredIds) + {c.id}
              else deferredDisconnects == old(deferredDisconnects) && deferredIds == old(deferredIds)
    {
      if c.id in deferredIds {
        return true;
      }
      if |deferredDisconnects| >= maxSessions {
        return false;
      }
      deferredDisconnects, deferredIds := deferredDisconnects + [c], deferredIds + {c.id};
      ok := true;
    }

    method DeferRead(fd: nat)
      requires Listed() && fd in sessions
      modifies `deferredReads, `deferredReadSet
      ensures Listed() && deferredReadSet == old(deferredReadSet) + {fd}
      ensures deferredReads == if fd in old(deferredReadSet) then old(deferredReads) else old(deferredReads) + [fd]
    {
      if fd in deferredReadSet {
        return;
      }
      deferredReadSet, deferredReads := deferredReadSet + {fd}, deferredReads + [fd];
    }

    // ---- What holds between any two events of the loop ----

    ghost predicate Books()
      reads this
    {
      && Distinct(sessions, fdBySession, deferredDisconnects) && deferredIds == IdsOf(deferredDisconnects)
      && (forall id | id in streams :: id < nextSessionId)
    }

    /** Nothing read from any session is lost, repeated or reordered. */
    ghost predicate Streaming()
      reads this
    {
      StreamsOk(log, streams) && AllTrack(streams, sessions, deferredDisconnects)
    }

    ghost predicate Bounded()
      reads this
    {
      |sessions| + |deferredDisconnects| <= maxSessions
    }

    ghost predicate Listed()
      reads this
    {
      forall fd | fd in deferredReadSet :: fd in deferredReads && fd in sessions
    }

    ghost predicate TakesInput()
      reads this
    {
      phase.Running? || phase.DrainingInput?
    }

    /** A complete packet that has been read is never forgotten; with reads on there is none. */
    ghost predicate Pending()
      reads this
    {
      && (TakesInput() ==> forall fd | fd in sessions && HasPacket(sessions[fd]) :: fd in deferredReadSet)
      && (phase.Running? && !readsPaused ==> deferredDisconnects == [] && deferredReadSet == {})
    }

    ghost predicate Valid()
      reads this
    {
      forall look :: Inside(look) ==>
        Config() && Flow() && Books() && Streaming() && Bounded() && Listed() && Pending()
    }

    /** Paused reads will be looked at again. */
    ghost predicate Resumes()
      reads this
    {
      phase.Running? && readsPaused ==> WillWake()
    }

    // ---- Ending sessions ----

    /** `c` has just left the table. */
    ghost predicate Detached(c: Conn)
      reads this
    {
      && Tracks(streams, c) && c.id !in fdBySession
      && (forall i | 0 <= i < |deferredDisconnects| :: deferredDisconnects[i].id != c.id)
      && |sessions| + |deferredDisconnects| < maxSessions
    }

    method Postpone(c: Conn) returns (ok: bool)
      requires Valid() && Detached(c) && (phase.Running? ==> readsPaused)
      modifies `deferredDisconnects, `deferredIds
      ensures Valid() && ok && deferredDisconnects == old(deferredDisconnects) + [c]
    {
      assert Inside(true);
      Postponed(sessions, fdBySession, deferredDisconnects, c);
      ok := DeferDisconnected(c);
    }

    method Announce(c: Conn) returns (ok: bool)
      requires Valid() && Detached(c) && !HasPacket(c)
      modifies `inbox, `wake, `about, `log, `streams, `readsPaused, `bpPaused, `listenerRegistered
      ensures Config() && Flow() && Books() && Streaming() && Steady()
      ensures !ok ==> Detached(c) && readsPaused && WillWake()
    {
      assert Inside(true);
      ok := EnqueueDisconnected(c);
    }

    /** Announces the end at once, or keeps the connection until its packets and its end fit. */
    method EndDetached(c: Conn) returns (ok: bool)
      requires Valid() && Detached(c) && phase.Running? && (HasPacket(c) ==> readsPaused)
      modifies `inbox, `wake, `about, `log, `streams, `readsPaused, `bpPaused, `listenerRegistered,
        `deferredDisconnects, `deferredIds
      ensures Valid() && ok && Steady()
      ensures !HasPacket(c) ==> deferredDisconnects == old(deferredDisconnects) || WillWake()
    {
      ok := true;
      var pushed := false;
      if !HasPacket(c) {
        pushed := Announce(c);
      }
      if !pushed {
        ok := Postpone(c);
      }
    }

    method Detach(fd: nat) returns (c: Conn)
      requires Valid() && fd in sessions
      modifies `sessions, `fdBySession, `deferredReadSet
      ensures Valid() && Detached(c) && c == old(sessions)[fd] && sessions == old(sessions) - {fd}
      ensures phase.Running? && HasPacket(c) ==> readsPaused
    {
      assert Inside(true);
      Removed(sessions, fdBySession, deferredDisconnects, fd);
      c := sessions[fd];
      fdBySession := fdBySession - {c.id};
      deferredReadSet, sessions := deferredReadSet - {fd}, sessions - {fd};
    }

    method End(c: Conn) returns (ok: bool)
      requires Valid() && Detached(c) && (phase.Running? && HasPacket(c) ==> readsPaused)
      modifies `inbox, `wake, `about, `log, `streams, `readsPaused, `bpPaused, `listenerRegistered,
        `deferredDisconnects, `deferredIds
      ensures Valid() && ok && Steady()
      ensures phase.Running? && !HasPacket(c) ==> deferredDisconnects == old(deferredDisconnects) || WillWake()
    {
      ok := true;
      if phase.DrainingInput? {
        ok := Postpone(c);
      } else if phase.Running? {
        ok := EndDetached(c);
      }
    }

    method Disconnect(fd: nat) returns (ok: bool)
      requires Valid()
      modifies `inbox, `wake, `about, `log, `streams, `readsPaused, `bpPaused, `listenerRegistered,
        `deferredDisconnects, `deferredIds, `sessions, `fdBySession, `deferredReadSet
      ensures Valid() && ok && Steady() && SameBut(old(sessions), sessions, fd) && fd !in sessions
      ensures phase.Running? && (fd in old(sessions) ==> !HasPacket(old(sessions)[fd])) ==>
                deferredDisconnects == old(deferredDisconnects) || WillWake()
    {
      ok := true;
      if fd in sessions {
        var c := Detach(fd);
        ok := End(c);
      }
    }

    // ---- Reading ----

    /** All is well except that the table still holds an older state of connection `c`. */
    ghost predicate Holding(fd: nat, c: Conn)
      reads this
    {
      && fd in sessions && sessions[fd].id == c.id
      && var sound := && Config() && Flow() && Books() && Bounded() && Listed() && Pending() && StreamsOk(log, streams)
                      && Tracks(streams, c) && OthersTrack(streams, sessions, deferredDisconnects, c.id);
      sound
    }

    /** The session's codec is fed. */
    method Feed(fd: nat, data: seq<Byte>) returns (c: Conn)
      requires Valid() && fd in sessions
      modifies `streams
      ensures Holding(fd, c) && c == sessions[fd].(live := sessions[fd].live + data)
    {
      assert Inside(true);
      c := sessions[fd];
      BytesRead(log, streams, c, data);
      ghost var fed := streams[c.id := Read(streams[c.id], data)];
      OthersStay(streams, fed, sessions, deferredDisconnects, c.id);
      streams := fed;
      c := c.(live := c.live + data);
    }

    method HandOn(fd: nat, c: Conn, work: Option<nat>) returns (c': Conn, handed: Handed, work': Option<nat>)
      requires Holding(fd, c) && (work.Some? ==> readsPaused)
      modifies `inbox, `wake, `about, `log, `streams, `readsPaused, `bpPaused, `listenerRegistered
      ensures Holding(fd, c') && Steady()
      ensures work'.Some? == work.Some? && (work.Some? ==> work'.value <= work.value)
      ensures if handed.Stopped? then readsPaused && (WillWake() || work' == Some(0))
              else !HasPacket(c') && readsPaused == old(readsPaused)
      ensures handed.Malformed? ==> FrameOf(c'.live).Bad?
      ensures handed.Stopped? && Unspent(work, work') ==> HasPacket(c')
      ensures HasPacket(c) && Unspent(work, work') ==> handed.Stopped?
    {
      c', handed, work' := EnqueueDecodedPackets(c, work);
      OthersStay(old(streams), streams, sessions, deferredDisconnects, c.id);
    }

    /** Puts the connection back; if it could not go on it is remembered. */
    method Keep(fd: nat, c: Conn, stopped: bool)
      requires Holding(fd, c)
      requires if stopped then readsPaused else !HasPacket(c)
      modifies `sessions, `deferredReads, `deferredReadSet
      ensures Valid() && sessions == old(sessions)[fd := c]
      ensures if stopped && fd !in old(deferredReadSet) then deferredReads == old(deferredReads) + [fd]
              else deferredReads == old(deferredReads)
      ensures deferredReadSet == if stopped then old(deferredReadSet) + {fd} else old(deferredReadSet)
    {
      Stored(streams, sessions, fdBySession, deferredDisconnects, fd, c);
      sessions := sessions[fd := c];
      if stopped {
        DeferRead(fd);
      }
    }

    /** Hands on what is complete in `c` and puts it back. */
    method Continue(fd: nat, c: Conn, work: Option<nat>) returns (handed: Handed, work': Option<nat>)
      requires Holding(fd, c) && (work.Some? ==> readsPaused)
      modifies `inbox, `wake, `about, `log, `streams, `readsPaused, `bpPaused, `listenerRegistered,
        `sessions, `deferredReads, `deferredReadSet
      ensures Valid() && Steady()
      ensures fd in sessions && SameBut(old(sessions), sessions, fd)
      ensures work'.Some? == work.Some? && (work.Some? ==> work'.value <= work.value)
      ensures if handed.Stopped? then readsPaused && (WillWake() || work' == Some(0))
              else !HasPacket(sessions[fd]) && readsPaused == old(readsPaused)
      ensures handed.Malformed? ==> FrameOf(sessions[fd].live).Bad?
      ensures handed.Stopped? && Unspent(work, work') ==> HasPacket(sessions[fd])
      ensures HasPacket(c) && Unspent(work, work') ==> handed.Stopped?
      ensures if handed.Stopped? && fd !in old(deferredReadSet) then deferredReads == old(deferredReads) + [fd]
              else deferredReads == old(deferredReads)
      ensures deferredReadSet == if handed.Stopped? then old(deferredReadSet) + {fd} else old(deferredReadSet)
    {
      var c';
      c', handed, work' := HandOn(fd, c, work);
      Keep(fd, c', handed.Stopped?);
    }

    /** What the receive loop looks at. */
    ghost function Now(): Glance
      reads this
    {
      Glance(WillWake(), readsPaused, sessions, deferredReads)
    }

    /** Feeds what was read and hands on what is complete. */
    method Receive(fd: nat, data: seq<Byte>, work: Option<nat>) returns (handed: Handed, work': Option<nat>)
      requires Valid() && fd in sessions && (work.Some? ==> readsPaused)
      modifies `inbox, `wake, `about, `log, `streams, `readsPaused, `bpPaused, `listenerRegistered,
        `sessions, `deferredReads, `deferredReadSet
      ensures Valid() && Chunked(old(Now()), Now(), fd, work, handed, work')
    {
      var c := Feed(fd, data);
      handed, work' := Continue(fd, c, work);
    }

    /** The receive loop: any number of chunks, until there is no more data or the session cannot go on. */
    method ReadChunks(fd: nat, work: Option<nat>) returns (handed: Handed, work': Option<nat>)
      requires Valid() && fd in sessions && !HasPacket(sessions[fd]) && (work.Some? ==> readsPaused)
      modifies `inbox, `wake, `about, `log, `streams, `readsPaused, `bpPaused, `listenerRegistered,
        `sessions, `deferredReads, `deferredReadSet
      ensures Valid() && Chunked(old(Now()), Now(), fd, work, handed, work')
    {
      handed, work' := All, work;
      var chunks: nat := *;
      while chunks > 0 && handed.All?
        invariant Valid() && Chunked(old(Now()), Now(), fd, work, handed, work')
        decreases chunks
      {
        var data: seq<Byte>, before := *, work';
        ghost var mid := Now();
        handed, work' := Receive(fd, data, before);
        ChunksCompose(old(Now()), mid, Now(), fd, work, before, handed, work');
        chunks := chunks - 1;
      }
    }

    /** What a read of session `fd` leaves alone, and what it owes. */
    twostate predicate AfterRead(fd: nat, work: Option<nat>, new work': Option<nat>)
      reads this
    {
      && ReadDone(old(Now()), Now(), fd, work, work')
      && (phase.Running? ==> deferredDisconnects == old(deferredDisconnects) || WillWake())
    }

    method ReadOpenSession(fd: nat, work: Option<nat>) returns (ok: bool, work': Option<nat>)
      requires Valid() && fd in sessions && !HasPacket(sessions[fd]) && (work.Some? ==> readsPaused)
      modifies `inbox, `wake, `about, `log, `streams, `readsPaused, `bpPaused, `listenerRegistered,
        `sessions, `deferredReads, `deferredReadSet, `deferredDisconnects, `deferredIds, `fdBySession
      ensures Valid() && ok && AfterRead(fd, work, work')
    {
      ok := true;
      var handed;
      handed, work' := ReadChunks(fd, work);
      ghost var mid := Now();
      ChunksAreRead(old(Now()), mid, fd, work, handed, work');
      var over: bool := *;
      if handed.Malformed? || (handed.All? && over) {
        ok := Disconnect(fd);
        ChunksThenEnd(old(Now()), mid, Now(), fd, work, handed, work');
      }
    }

    /** Reads a session until it would block, ends, or cannot go on. */
    method ReadSession(fd: nat, drainAfterPeerClose: bool, work: Option<nat>) returns (ok: bool, work': Option<nat>)
      requires Valid() && (work.Some? ==> readsPaused)
      requires fd in sessions ==> !HasPacket(sessions[fd])
      modifies `inbox, `wake, `about, `log, `streams, `readsPaused, `bpPaused, `listenerRegistered,
        `sessions, `deferredReads, `deferredReadSet, `deferredDisconnects, `deferredIds, `fdBySession
      ensures Valid() && ok && AfterRead(fd, work, work')
    {
      ok, work' := true, work;
      if (readsPaused && !drainAfterPeerClose) || fd !in sessions || sessions[fd].closingAfterFlush {
        return;
      }
      ok, work' := ReadOpenSession(fd, work);
    }

    // ---- Deferred input ----

    /** Comes back later when the work budget ran out. */
    method Yield(work: nat)
      requires Valid() && TakesInput()
      modifies `wake
      ensures Valid() && (work == 0 || old(WillWake()) ==> WillWake())
    {
      if work == 0 && !phase.Forced? && !phase.Complete? {
        wake := true;
      }
    }

    /** All is well except that the first deferred connection has moved on to `c`. */
    ghost predicate HoldingFront(c: Conn)
      reads this
    {
      && deferredDisconnects != [] && c.id == deferredDisconnects[0].id
      && var sound := && Config() && Flow() && Books() && Bounded() && Listed() && Pending() && StreamsOk(log, streams)
                      && Tracks(streams, c) && OthersTrack(streams, sessions, deferredDisconnects, c.id);
      sound
    }

    method HandOnFront(front: Conn, work: nat) returns (c: Conn, handed: Handed, work': nat)
      requires HoldingFront(front) && readsPaused
      modifies `inbox, `wake, `about, `log, `streams, `readsPaused, `bpPaused, `listenerRegistered
      ensures HoldingFront(c) && Steady() && work' <= work
      ensures if handed.Stopped? then WillWake() || work' == 0 else !HasPacket(c)
    {
      var budget;
      c, handed, budget := EnqueueDecodedPackets(front, Some(work));
      work' := budget.value;
      OthersStay(old(streams), streams, sessions, deferredDisconnects, c.id);
    }

    method ReplaceFront(c: Conn)
      requires HoldingFront(c) && readsPaused
      modifies `deferredDisconnects
      ensures Valid() && deferredDisconnects == [c] + old(deferredDisconnects)[1..]
    {
      FrontAdvanced(streams, sessions, fdBySession, deferredDisconnects, c);
      deferredDisconnects := [c] + deferredDisconnects[1..];
    }

    method CurrentSize() returns (size: nat)
      requires Valid()
      modifies `inbox, `wake, `about
      ensures Valid() && (size > low || size >= high || old(WillWake()) ==> WillWake())
    {
      assert Inside(true);
      size := InboxSize();
    }

    /** Hands on packets of the session that waits longest for its end. */
    method AdvanceFirst(work: nat) returns (handed: Handed, work': nat)
      requires Valid() && readsPaused && deferredDisconnects != []
      modifies `inbox, `wake, `about, `log, `streams, `readsPaused, `bpPaused, `listenerRegistered, `deferredDisconnects
      ensures Valid() && Steady() && work' <= work
      ensures |deferredDisconnects| == |old(deferredDisconnects)|
      ensures if handed.Stopped? then WillWake() || work' == 0 else !HasPacket(deferredDisconnects[0])
    {
      assert Inside(true);
      var c;
      c, handed, work' := HandOnFront(deferredDisconnects[0], work);
      ReplaceFront(c);
    }

    method AnnounceFront(c: Conn) returns (ok: bool)
      requires HoldingFront(c) && readsPaused && !HasPacket(c)
      modifies `inbox, `wake, `about, `log, `streams, `readsPaused, `bpPaused, `listenerRegistered
      ensures Config() && Flow() && Books() && Bounded() && Listed() && Pending() && StreamsOk(log, streams) && Steady()
      ensures OthersTrack(streams, sessions, deferredDisconnects, c.id)
      ensures !ok ==> streams == old(streams) && WillWake()
    {
      ok := EnqueueDisconnected(c);
      OthersStay(old(streams), streams, sessions, deferredDisconnects, c.id);
    }

    method DropFront()
      requires Config() && Flow() && Books() && Bounded() && Listed() && Pending() && StreamsOk(log, streams)
      requires readsPaused && deferredDisconnects != []
      requires OthersTrack(streams, sessions, deferredDisconnects, deferredDisconnects[0].id)
      modifies `deferredDisconnects, `deferredIds
      ensures Valid() && deferredDisconnects == old(deferredDisconnects)[1..]
    {
      FrontRemoved(sessions, fdBySession, deferredDisconnects);
      deferredDisconnects, deferredIds := deferredDisconnects[1..], deferredIds - {deferredDisconnects[0].id};
    }

    /** Announces the end of the session that waits longest. */
    method FinishFirst() returns (ok: bool)
      requires Valid() && readsPaused && deferredDisconnects != [] && !HasPacket(deferredDisconnects[0])
      modifies `inbox, `wake, `about, `log, `streams, `readsPaused, `bpPaused, `listenerRegistered,
        `deferredDisconnects, `deferredIds
      ensures Valid() && Steady()
      ensures if ok then deferredDisconnects == old(deferredDisconnects)[1..]
              else deferredDisconnects == old(deferredDisconnects) && WillWake()
    {
      assert Inside(true);
      ok := AnnounceFront(deferredDisconnects[0]);
      if ok {
        DropFront();
      }
    }

    /** One session waiting for its end: its packets, then its end. */
    method EndFirst(work: nat) returns (stop: bool, work': nat)
      requires Valid() && TakesInput() && readsPaused && deferredDisconnects != [] && work > 0
      modifies `inbox, `wake, `about, `log, `streams, `readsPaused, `bpPaused, `listenerRegistered,
        `deferredDisconnects, `deferredIds
      ensures Valid() && Steady() && work' <= work
      ensures if stop then WillWake() else |deferredDisconnects| == |old(deferredDisconnects)| - 1
    {
      stop := true;
      var handed;
      handed, work' := AdvanceFirst(work);
      if handed.Stopped? || work' == 0 {
        Yield(work');
      } else {
        var ok := FinishFirst();
        if ok {
          work' := work' - 1;
          var size := CurrentSize();
          stop := size >= high;
        }
      }
    }

    method DrainDisconnects(work: nat) returns (stop: bool, work': nat)
      requires Valid() && TakesInput()
      modifies `inbox, `wake, `about, `log, `streams, `readsPaused, `bpPaused, `listenerRegistered,
        `deferredDisconnects, `deferredIds
      ensures Valid() && Steady() && work' <= work
      ensures if stop then WillWake() else deferredDisconnects == []
    {
      assert Inside(true);
      stop, work' := false, work;
      while deferredDisconnects != [] && !stop
        invariant Valid() && Steady() && work' <= work && (stop ==> WillWake())
        decreases !stop, |deferredDisconnects|
      {
        if work' == 0 {
          Yield(work');
          stop := true;
        } else {
          stop, work' := EndFirst(work');
        }
      }
    }

    /** Takes the first deferred read off the list, with its mark if it still has one. */
    method PopRead(fd: nat)
      requires Valid() && deferredReads != [] && deferredReads[0] == fd
      requires fd in deferredReadSet && fd in sessions ==> !HasPacket(sessions[fd])
      modifies `deferredReads, `deferredReadSet
      ensures Valid() && deferredReads == old(deferredReads)[1..] && deferredReadSet == old(deferredReadSet) - {fd}
    {
      assert Inside(true);
      deferredReads, deferredReadSet := deferredReads[1..], deferredReadSet - {fd};
    }

    /** A session whose packets turned out malformed is ended. */
    method EndMalformed(fd: nat, work: nat) returns (ok: bool, stop: bool)
      requires Valid() && fd in sessions && !HasPacket(sessions[fd])
      modifies `inbox, `wake, `about, `log, `streams, `readsPaused, `bpPaused, `listenerRegistered,
        `sessions, `deferredReadSet, `deferredDisconnects, `deferredIds, `fdBySession
      ensures Valid() && ok && AfterRead(fd, Some(work), Some(work)) && (stop ==> WillWake())
    {
      ok := Disconnect(fd);
      var size := CurrentSize();
      stop := size >= high;
      EndIsRead(old(Now()), Now(), fd, Some(work));
    }

    /** After the waiting packets of a deferred session: end it if it was malformed, read on if its peer
        has closed. */
    method FollowUp(fd: nat, handed: Handed, work: nat) returns (ok: bool, stop: bool, work': nat)
      requires Valid() && readsPaused && fd in sessions && !HasPacket(sessions[fd]) && !handed.Stopped?
      modifies `inbox, `wake, `about, `log, `streams, `readsPaused, `bpPaused, `listenerRegistered,
        `sessions, `deferredReads, `deferredReadSet, `deferredDisconnects, `deferredIds, `fdBySession
      ensures Valid() && ok && AfterRead(fd, Some(work), Some(work')) && (stop ==> WillWake())
    {
      ok, stop, work' := true, false, work;
      if handed.Malformed? {
        ok, stop := EndMalformed(fd, work);
      } else if sessions[fd].peerReadClosed {
        var budget;
        ok, budget := ReadSession(fd, true, Some(work));
        work' := budget.value;
      }
    }

    /** Progress: budget spent, or one deferred read without a waiting packet fewer. */
    twostate predicate Progress(work: nat, new work': nat)
      reads this
    {
      work' < work || (work' == work && Weight(deferredReads, sessions) < Weight(old(deferredReads), old(sessions)))
    }

    lemma ReadProgress(fds: seq<nat>, before: map<nat, Conn>, fd: nat, fds': seq<nat>, after: map<nat, Conn>)
      requires fds != [] && fds[0] == fd && !Waiting(before, fd) && SameBut(before, after, fd)
      requires fds' == fds[1..] || (fds' == fds[1..] + [fd] && Waiting(after, fd))
      ensures Weight(fds', after) < Weight(fds, before)
    {
      WeightShrinks(fds[1..], before, after, fd);
      WeightMore(fds[1..], fd, after);
    }

    /** Hands on what a deferred session has waiting; not stopped means there is nothing left of it. */
    method ServeWaiting(fd: nat, work: nat) returns (handed: Handed, work': nat)
      requires Valid() && readsPaused && fd in sessions && fd in deferredReadSet
      modifies `inbox, `wake, `about, `log, `streams, `readsPaused, `bpPaused, `listenerRegistered,
        `sessions, `deferredReads, `deferredReadSet
      ensures Valid() && Steady() && SameBut(old(sessions), sessions, fd) && fd in sessions && work' <= work
      ensures deferredReads == old(deferredReads) && deferredReadSet == old(deferredReadSet)
      ensures if handed.Stopped? then WillWake() || work' == 0
              else !HasPacket(sessions[fd]) && (work' == work ==> !Waiting(old(sessions), fd))
    {
      assert Inside(true);
      var budget;
      handed, budget := Continue(fd, sessions[fd], Some(work));
      work' := budget.value;
    }

    method TakeOff(fd: nat, handed: Handed, work: nat) returns (ok: bool, stop: bool, work': nat)
      requires Valid() && readsPaused && deferredReads != [] && deferredReads[0] == fd
      requires fd in sessions && !HasPacket(sessions[fd]) && !handed.Stopped?
      modifies `inbox, `wake, `about, `log, `streams, `readsPaused, `bpPaused, `listenerRegistered,
        `sessions, `deferredReads, `deferredReadSet, `deferredDisconnects, `deferredIds, `fdBySession
      ensures Valid() && ok && Steady() && work' <= work && (stop ==> WillWake())
      ensures SameBut(old(sessions), sessions, fd)
      ensures work' == work ==> || deferredReads == old(deferredReads)[1..]
                                || (deferredReads == old(deferredReads)[1..] + [fd] && Waiting(sessions, fd))
      ensures phase.Running? ==> deferredDisconnects == old(deferredDisconnects) || WillWake()
    {
      PopRead(fd);
      ok, stop, work' := FollowUp(fd, handed, work);
    }

    method ServeMarked(fd: nat, work: nat) returns (ok: bool, stop: bool, work': nat)
      requires Valid() && TakesInput() && readsPaused && deferredReads != [] && deferredReads[0] == fd
      requires fd in deferredReadSet && fd in sessions
      modifies `inbox, `wake, `about, `log, `streams, `readsPaused, `bpPaused, `listenerRegistered,
        `sessions, `deferredReads, `deferredReadSet, `deferredDisconnects, `deferredIds, `fdBySession
      ensures Valid() && ok && Steady() && work' <= work
      ensures if stop then WillWake() else Progress(work, work')
      ensures phase.Running? ==> deferredDisconnects == old(deferredDisconnects) || WillWake()
    {
      ok, stop := true, true;
      var handed;
      handed, work' := ServeWaiting(fd, work);
      if handed.Stopped? {
        Yield(work');
      } else {
        ok, stop, work' := TakeOff(fd, handed, work');
        if work' == work {
          ReadProgress(old(deferredReads), old(sessions), fd, deferredReads, sessions);
        }
      }
    }

    method ServeFirstRead(work: nat) returns (ok: bool, stop: bool, work': nat)
      requires Valid() && TakesInput() && deferredReads != []
      modifies `inbox, `wake, `about, `log, `streams, `readsPaused, `bpPaused, `listenerRegistered,
        `sessions, `deferredReads, `deferredReadSet, `deferredDisconnects, `deferredIds, `fdBySession
      ensures Valid() && ok && Steady() && work' <= work
      ensures if stop then WillWake() else Progress(work, work')
      ensures phase.Running? ==> deferredDisconnects == old(deferredDisconnects) || WillWake()
    {
      assert Inside(true);
      var fd := deferredReads[0];
      if fd !in deferredReadSet || fd !in sessions {
        ReadProgress(deferredReads, sessions, fd, deferredReads[1..], sessions);
        PopRead(fd);
        ok, stop, work' := true, false, work;
      } else {
        ok, stop, work' := ServeMarked(fd, work);
      }
    }

    method DrainReads(work: nat) returns (ok: bool, stop: bool)
      requires Valid() && TakesInput() && deferredDisconnects == []
      modifies `inbox, `wake, `about, `log, `streams, `readsPaused, `bpPaused, `listenerRegistered,
        `sessions, `deferredReads, `deferredReadSet, `deferredDisconnects, `deferredIds, `fdBySession
      ensures Valid() && ok && Steady()
      ensures if stop then WillWake() else deferredReads == []
      ensures phase.Running? && deferredDisconnects != [] ==> WillWake()
    {
      ok, stop := true, false;
      var work' := work;
      while deferredReads != [] && !stop
        invariant Valid() && ok && Steady() && (stop ==> WillWake())
        invariant phase.Running? && deferredDisconnects != [] ==> WillWake()
        decreases !stop, work', Weight(deferredReads, sessions)
      {
        if work' == 0 {
          Yield(work');
          stop := true;
        } else {
          ok, stop, work' := ServeFirstRead(work');
        }
      }
    }

    // ---- Resuming ----

    method Unpause()
      requires Valid() && phase.Running? && readsPaused && deferredDisconnects == [] && deferredReadSet == {}
      modifies `readsPaused, `bpPaused, `listenerRegistered
      ensures Valid() && !readsPaused
    {
      bpPaused := false;
      readsPaused, listenerRegistered := false, true;
    }

    /** Sessions whose peer closed while reads were off are read now, until reads are off again. */
    method ReadPeerClosed() returns (ok: bool)
      requires Valid() && phase.Running? && !readsPaused
      modifies `inbox, `wake, `about, `log, `streams, `readsPaused, `bpPaused, `listenerRegistered,
        `sessions, `deferredReads, `deferredReadSet, `deferredDisconnects, `deferredIds, `fdBySession
      ensures Valid() && ok && Resumes()
    {
      assert Inside(true);
      ok := true;
      var fds: set<nat> := set fd | fd in sessions && sessions[fd].peerReadClosed;
      while fds != {} && !readsPaused
        invariant Valid() && ok && Resumes() && phase.Running?
        decreases |fds|
      {
        var fd: nat :| fd in fds;
        fds := fds - {fd};
        var budget;
        ok, budget := ReadSession(fd, false, None);
      }
    }

    /** With all deferred input gone, reads go on once the inbox is down to the low watermark. */
    method MaybeResume() returns (ok: bool)
      requires Valid() && TakesInput() && deferredDisconnects == [] && deferredReads == []
      modifies `inbox, `wake, `about, `log, `streams, `readsPaused, `bpPaused, `listenerRegistered,
        `sessions, `deferredReads, `deferredReadSet, `deferredDisconnects, `deferredIds, `fdBySession
      ensures Valid() && ok && Resumes()
      ensures phase.DrainingInput? ==> deferredDisconnects == [] && deferredReads == []
    {
      assert Inside(true);
      ok := true;
      var size := CurrentSize();
      if phase.Running? && bpPaused && size <= low {
        Unpause();
        ok := ReadPeerClosed();
      }
    }

    /** `done` tells that nothing is deferred any more. */
    method DrainDeferredInput() returns (ok: bool, done: bool)
      requires Valid() && TakesInput()
      modifies `inbox, `wake, `about, `log, `streams, `readsPaused, `bpPaused, `listenerRegistered,
        `sessions, `deferredReads, `deferredReadSet, `deferredDisconnects, `deferredIds, `fdBySession
      ensures Valid() && ok && Resumes()
      ensures phase.DrainingInput? && done ==> deferredDisconnects == [] && deferredReads == []
    {
      ok, done := true, false;
      var stop, work := DrainDisconnects(DEFERRED_INPUT_WORK_LIMIT);
      if !stop {
        ok, stop := DrainReads(work);
        if !stop && deferredDisconnects == [] {
          ok := MaybeResume();
          done := true;
        }
      }
    }

    // ---- The event loop ----

    constructor (capacity: nat, high: nat, low: nat, maxSessions: nat)
      requires 0 < low < high <= capacity
      ensures Valid() && Resumes() && phase.Running? && log == [] && streams == map[]
    {
      this.capacity, this.high, this.low, this.maxSessions := capacity, high, low, maxSessions;
      inbox, wake, about := [], false, 0;
      readsPaused, bpPaused, listenerRegistered, phase := false, false, true, Running;
      sessions, fdBySession, nextSessionId := map[], map[], 1;
      deferredReads, deferredReadSet, deferredDisconnects, deferredIds := [], {}, [], {};
      log, streams := [], map[];
    }

    /** The new connection enters the tables. */
    method Admit(fd: nat, c: Conn)
      requires Valid() && phase.Running? && !readsPaused && fd !in sessions && |sessions| < maxSessions
      requires c == Conn(nextSessionId, [], 0, false, false)
      modifies `sessions, `fdBySession, `nextSessionId, `streams
      ensures Valid() && sessions == old(sessions)[fd := c]
    {
      assert Inside(true);
      NothingReadYet(c);
      ghost var extended := streams[c.id := Stream([], [], [], false)];
      SessionOpened(log, streams, c.id);
      Opened(streams, extended, sessions, fdBySession, deferredDisconnects, fd, c);
      streams, nextSessionId := extended, nextSessionId + 1;
      sessions, fdBySession := sessions[fd := c], fdBySession[c.id := fd];
    }

    /** A new connection on descriptor `fd`, refused when the server is full. */
    method AcceptOne(fd: nat)
      requires Valid() && phase.Running? && !readsPaused && fd !in sessions
      modifies `sessions, `fdBySession, `nextSessionId, `streams
      ensures Valid()
      ensures if |old(sessions)| >= maxSessions then unchanged(this)
              else sessions == old(sessions)[fd := Conn(old(nextSessionId), [], 0, false, false)]
    {
      if |sessions| >= maxSessions {
        return;
      }
      Admit(fd, Conn(nextSessionId, [], 0, false, false));
    }

    method AcceptLoop()
      requires Valid()
      modifies `sessions, `fdBySession, `nextSessionId, `streams
      ensures Valid()
    {
      if !phase.Running? || !listenerRegistered || readsPaused {
        return;
      }
      var batch: nat := *;
      if batch > ACCEPT_BATCH_LIMIT {
        batch := ACCEPT_BATCH_LIMIT;
      }
      while batch > 0
        invariant Valid() && phase.Running? && !readsPaused
        decreases batch
      {
        var fd: nat := *;
        if fd !in sessions {
          AcceptOne(fd);
        }
        batch := batch - 1;
      }
    }

    /** Flags of a connection that do not concern its stream. */
    method Flag(fd: nat, peerReadClosed: bool, closingAfterFlush: bool)
      requires Valid() && fd in sessions
      modifies `sessions
      ensures Valid() && fd in sessions && SameBut(old(sessions), sessions, fd)
      ensures sessions[fd].live == old(sessions)[fd].live
    {
      assert Inside(true);
      var c := sessions[fd].(peerReadClosed := peerReadClosed, closingAfterFlush := closingAfterFlush);
      Stored(streams, sessions, fdBySession, deferredDisconnects, fd, c);
      sessions := sessions[fd := c];
    }

    method Remember(fd: nat)
      requires Valid() && readsPaused && fd in sessions
      modifies `deferredReads, `deferredReadSet
      ensures Valid()
    {
      assert Inside(true);
      DeferRead(fd);
    }

    method ReadOrRemember(fd: nat, peerClose: bool) returns (ok: bool)
      requires Valid() && Resumes() && fd in sessions
      modifies `inbox, `wake, `about, `log, `streams, `readsPaused, `bpPaused, `listenerRegistered,
        `sessions, `deferredReads, `deferredReadSet, `deferredDisconnects, `deferredIds, `fdBySession
      ensures Valid() && ok && Resumes()
    {
      assert Inside(true);
      ok := true;
      if phase.Running? && !readsPaused {
        var budget;
        ok, budget := ReadSession(fd, false, None);
      } else if peerClose && (phase.Running? || phase.DrainingInput?) {
        Remember(fd);
      }
    }

    /** A socket event that is not an error: input, a half close, or both. */
    method OnReadable(fd: nat, peerClose: bool) returns (ok: bool)
      requires Valid() && Resumes()
      modifies `inbox, `wake, `about, `log, `streams, `readsPaused, `bpPaused, `listenerRegistered,
        `sessions, `deferredReads, `deferredReadSet, `deferredDisconnects, `deferredIds, `fdBySession
      ensures Valid() && ok && Resumes()
    {
      ok := true;
      if fd in sessions {
        if peerClose {
          Flag(fd, true, sessions[fd].closingAfterFlush);
        }
        ok := ReadOrRemember(fd, peerClose);
      }
    }

    /** The capacity wake-up has fired. */
    method OnCapacity() returns (ok: bool)
      requires Valid() && Resumes()
      modifies `inbox, `wake, `about, `log, `streams, `readsPaused, `bpPaused, `listenerRegistered,
        `sessions, `deferredReads, `deferredReadSet, `deferredDisconnects, `deferredIds, `fdBySession
      ensures Valid() && ok && Resumes()
    {
      ok := true;
      if wake {
        wake := false;
        if phase.Running? || phase.DrainingInput? {
          var done;
          ok, done := DrainDeferredInput();
        }
      }
    }

    method BeginShutdown()
      requires Valid()
      modifies `phase, `readsPaused, `listenerRegistered
      ensures Valid() && (old(phase).Running? ==> phase.DrainingInput?) && (!old(phase).Running? ==> unchanged(this))
    {
      if phase.Running? {
        phase, readsPaused, listenerRegistered := DrainingInput, true, false;
      }
    }

    /** A later phase, in which no input is taken. */
    method Enter(next: ShutdownPhase)
      requires Valid() && !phase.Running? && !next.Running? && !next.DrainingInput?
      modifies `phase
      ensures Valid() && phase == next
    {
      assert Inside(true);
      phase := next;
    }

    /** Deadlines and finished workers are choices of the environment. */
    method AdvanceShutdown() returns (ok: bool)
      requires Valid() && Resumes()
      modifies `inbox, `wake, `about, `log, `streams, `readsPaused, `bpPaused, `listenerRegistered,
        `sessions, `deferredReads, `deferredReadSet, `deferredDisconnects, `deferredIds, `fdBySession, `phase
      ensures Valid() && ok && Resumes()
    {
      ok := true;
      var late: bool, finished: bool := *, *;
      if phase.Running? || phase.Complete? {
        return;
      }
      if late {
        Enter(Forced);
      }
      if phase.DrainingInput? {
        var done;
        ok, done := DrainDeferredInput();
        if done {
          Enter(DrainingOutput);
        }
      }
      if (phase.Forced? || phase.DrainingOutput?) && finished {
        Enter(ShutdownPhase.Complete);
      }
    }

    /** Whatever other threads do to the inbox in the meantime. */
    method Meanwhile()
      requires Valid() && Resumes()
      modifies `inbox, `wake, `about
      ensures Valid() && Resumes()
    {
      assert Inside(true);
      Interfere();
    }

    /** One event of the loop, whichever comes: a connection, a socket event, an error, a timeout or a
        worker's request to disconnect, a flush, the capacity wake-up, a stop request, a deadline. */
    method Step() returns (ok: bool)
      requires Valid() && Resumes()
      modifies this
      ensures Valid() && Resumes() && ok
    {
      ok := true;
      var fd: nat, peerClose: bool := *, *;
      if {
        case true => AcceptLoop();
        case true => ok := OnReadable(fd, peerClose);
        case true => ok := Disconnect(fd);
        case fd in sessions => Flag(fd, sessions[fd].peerReadClosed, true);
        case true => ok := OnCapacity();
        case true => BeginShutdown();
        case true => ok := AdvanceShutdown();
        case true => Meanwhile();
      }
    }

    /** The event loop, for any number of events of any kind: nothing is lost, nothing exceeds its
        bound, and paused reads always have a wake-up to come. */
    method Run(events: nat) returns (ok: bool)
      requires Valid() && Resumes()
      modifies this
      ensures Valid() && Resumes() && ok
    {
      ok := true;
      for i := 0 to events
        invariant Valid() && Resumes() && ok
      {
        ok := Step();
      }
    }
  }
}

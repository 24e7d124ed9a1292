# Realtime session server: a verified model

A model of the realtime session server, from the bytes of a connection to the rooms its users are in, and
proofs about every run of it. The parts compose:

- **Wire formats** (`TextValidation`, `Framing`, `PacketCodec`, `StructuredPayload`, `Decimal`,
  `ProtocolVersion`, `Messages`): UTF-8 text without controls, length-prefixed packets with a lazily
  compacted buffer, percent-escaped payloads, version ranges.
- **I/O thread** (`EventStreams`, `IoServer`): handing on packets one by one into the bounded inbox, pausing
  at the high watermark and resuming at the low one, deferred reads and deferred disconnects, shutdown.
  Between any two looks at the inbox the workers may pop, notify and push completions as they like.
- **Queue** (`BlockingQueue`, `QueueWakeups`): the blocking queue, with any number of producers, consumers
  and closers, sleeping and waking in any order, spurious wake-ups included.
- **Worker pool** (`Turns`, `WorkerPool`, `PoolModel`, `SessionInvariant`, `SessionSteps`, `TurnSteps`,
  `ArrivalSteps`, `PoolInvariant`, `PoolSteps`, `PoolTheorems`, `DrainTheorem`, `DrainMissed`, `DrainHasty`): one step per
  critical section, any number of workers and sessions, the event in a worker's hand as explicit state,
  deferred completions inline, early and late, failure quarantine, drain.
- **Domain** (`RoomModel`, `RoomIdWrap`, `RoomService`, `Router`, `Emission`, `MessageRouter`, `Lifecycle`): users,
  rooms and the message router under its output budget, alone and run by the pool.
- **Client** (`ClientModel`, `ClientController`, `Agreement`, `OtherTurns`, `AgreementProof`): the client's request
  and response state machine, and a client and the server over two first-in first-out channels, while other
  sessions have turns of their own whose packets to this client leave in any order.

Objects the source updates in place are classes whose methods are proved against functions on values; the
protocols are step systems on those values, and the main results hold for every sequence of steps.

## What was found

- A draining pool can stay open with nothing left to do, so that its workers wait until the shutdown deadline.
  The close test is not made when a rejected event leaves a worker with nothing (`WorkerPool.cpp` lines 302 to
  318). `DrainMissed.OverflowMissesClose` gives such a run for every parking limit the pool accepts: turn 0 is
  active, as many packets as fit are parked, the next one overflows and its worker is delayed; the parked
  packets are handled, one more is parked, the drain is requested, and only then does the delayed worker
  quarantine the session. `DrainTheorem.ClosesIffNotRejection` says exactly which step misses: the step that
  leaves a draining pool with nothing to do closes the inbox if and only if it is not the end of a rejection.
  `DrainTheorem.MissedIff` says exactly which runs do: those in which, while the pool drains and is open, the
  rejection of a packet ends when its worker is the only one with anything to do. In runs without parking
  overflow no close is missed (`DrainTheorem.NoMissedClose`).
- A draining pool can also close too soon: the test does not see an event a worker has popped but not begun. If
  that event's handler then defers, its completion is refused by the closed inbox, the workers leave, and the
  turn never ends (`DrainHasty.HastyCloseLoses`, with one worker and one packet). `DrainHasty.RefusedIff` gives
  the exact condition: a completion whose handler did not throw is refused if and only if the inbox was already
  closed when its turn was started. A turn that starts with the inbox open and defers finds it open for its
  completion. As a consequence (`DrainHasty.RefusedOnlyIfHasty`), a refusal means that the inbox was closed while some
  worker had an event in hand or at intake.
- Room ids are 32-bit and wrap. A call keeps membership a bijection if and only if it does not hand out an id
  that is still in use (`RoomModel.ConsistentStaysIff`): the caller is logged in and in no room, the name is
  valid, and the next id is that of an existing room. As long as at most 2^32 rooms have been created none does,
  however many requests were refused (`RoomModel.RunIsConsistent`); a run with 2^32 + 1 rooms breaks the bijection
  (`RoomIdWrap.WrapBreaks`). Room number 2^32 gets id 0, which the router takes for no room: its answer names none
  and the client that asked rejects it (`RoomIdWrap.LastIdIsRejected`).
- The chat limit of 1291 bytes is exact: with 1292 bytes some broadcast does not fit a packet.
- The `InvalidSequence` disposition and the logic error of suspending an inactive turn are unreachable when
  events come from the I/O thread; so is the "deferred disconnect limit exceeded" error.

## Hypotheses

- No forced stop in the results about the pool. Mutex sections are atomic and sequentially consistent.
- `PoolModel`: a disconnect handler erases the version and then the user before it returns or throws, which is
  what the message router does with a disconnect (`MessageRouter.cpp` lines 109 to 114).
- `Lifecycle`: a handler that has deferred does not throw afterwards, which holds of the message router.
- `Lifecycle` and `Agreement`: the user repository calls back once for each login it accepts, with a record
  of a valid user.
- `Agreement`: the connection stays open, every turn's output is affordable (`Emission.HeardUpToTheBudget` says
  what is heard when it is not), fewer than 2^32 rooms are created (refused requests do not count;
  `RoomIdWrap.LastIdIsRejected` shows that one more room would not do), and printed coordinates are valid text of 1
  to 36 bytes (`Agreement.Prints`). What other sessions send is not assumed: it comes from their turns.
- `IoServer`: the inbox is not closed while the thread takes input; the pool closes it only after the thread
  has asked it to drain.

## Model

| member | source | states |
|---|---|---|
| `TextValidation.HasContinuationBytes` | libs/protocol/src/TextValidation.cpp:13-24 | true exactly when enough bytes follow and the next `count` are continuation bytes |
| `TextValidation.IsValidText` | libs/protocol/src/TextValidation.cpp:33-82 | accepts a byte string exactly when it is the concatenation of UTF-8 encodings (section 4 of RFC 3629) of scalar values other than U+0000 to U+001F and U+007F |
| `TextValidation.ValidIffText` | libs/protocol/src/TextValidation.cpp:33-82 | the acceptance rule byte by byte and the existence of a scalar sequence are the same |
| `TextValidation.DecodeIsInverse` | libs/protocol/src/TextValidation.cpp:33-82 | accepted text decodes to scalars that encode back to it |
| `TextValidation.EncodeIsInverse` | libs/protocol/src/TextValidation.cpp:33-82 | encodings of printable scalars are accepted and decode back to them |
| `TextValidation.ValidConcat` | libs/protocol/src/TextValidation.cpp:33-82 | after valid text, validity of a concatenation is validity of the rest |
| `TextValidation.TrimAsciiWhitespace` | libs/protocol/src/TextValidation.cpp:84-95 | the result is the text without leading and trailing ASCII whitespace, starting and ending with something else |
| `TextValidation.TrimIsUnique` | libs/protocol/src/TextValidation.cpp:84-95 | there is only one such text |
| `Framing.EncodeThenRead` | libs/protocol/src/PacketCodec.cpp:48-62 | an encoded packet is read back whatever follows it, and what follows is left |
| `Framing.ReadThenEncode` | libs/protocol/src/PacketCodec.cpp:97-136 | a frame that is read encodes to the bytes it was read from |
| `Framing.EncodedStream` | libs/protocol/src/PacketCodec.cpp:48-62 | concatenated encodings decode to the original packets with nothing left over |
| `Framing.StreamIsItsPackets` | libs/protocol/src/PacketCodec.cpp:97-169 | any byte stream is the encoding of the packets it delivers followed by what it leaves over |
| `Framing.CutAnywhere` | libs/protocol/src/PacketCodec.cpp:86-136 | the packets and the leftover of a stream do not depend on where it is cut |
| `PacketCodec.Codec.CompactConsumedPrefix` | libs/protocol/src/PacketCodec.cpp:175-188 | the live bytes stay; afterwards the dead prefix is under 4096 bytes or shorter than the live bytes; all bytes ever moved are at most the bytes dropped plus one for each compaction, and each compaction has dropped at least 4096 bytes |
| `PacketCodec.Codec.Feed` | libs/protocol/src/PacketCodec.cpp:86-95 | appends to the live bytes; packets taken and still to come stay those of everything ever fed; the compaction bounds hold |
| `PacketCodec.Codec.PacketFrameAt` | libs/protocol/src/PacketCodec.cpp:97-123 | reads the frame at an offset of the live bytes: need more, malformed, or complete |
| `PacketCodec.Codec.PeekPacket` | libs/protocol/src/PacketCodec.cpp:125-136 | the first packet of the live bytes, none, or the protocol error |
| `PacketCodec.Codec.ConsumePacket` | libs/protocol/src/PacketCodec.cpp:138-146 | succeeds exactly when a packet is complete, takes exactly that packet, and otherwise changes nothing |
| `PacketCodec.Codec.ScanPackets` | libs/protocol/src/PacketCodec.cpp:152-162 | the packets repeated peeking and consuming would give, and what stops it |
| `PacketCodec.Codec.DrainPackets` | libs/protocol/src/PacketCodec.cpp:148-169 | fails exactly when a malformed frame follows the complete ones, and then changes nothing; otherwise takes all of them |
| `StructuredPayload.EncodeStructuredValue` | libs/protocol/src/StructuredPayload.cpp:40-64 | rejects invalid text and otherwise escapes percent, bar and equals |
| `StructuredPayload.DecodeStructuredValue` | libs/protocol/src/StructuredPayload.cpp:66-94 | unescapes, with the source's error for a separator, a short escape, a bad escape and text that is not valid |
| `StructuredPayload.DecodeEncode` | libs/protocol/src/StructuredPayload.cpp:40-94 | decoding an encoded value gives the value back, for all valid text |
| `StructuredPayload.EscapedHasNoSeparator` | libs/protocol/src/StructuredPayload.cpp:40-64 | no escaped value contains a bar or an equals sign |
| `StructuredPayload.Parse` | libs/protocol/src/StructuredPayload.cpp:96-143 | the loop over segments computes the payload, or the source's error for the first thing wrong |
| `StructuredPayload.PayloadBuilder.WithStatus` | libs/protocol/src/StructuredPayload.cpp:174-179 | only the status OK is accepted |
| `StructuredPayload.PayloadBuilder.AddField` | libs/protocol/src/StructuredPayload.cpp:181-191 | a field is added exactly when its key is valid and new and its value is valid text |
| `StructuredPayload.PayloadBuilder.Build` | libs/protocol/src/StructuredPayload.cpp:193-211 | what is rendered parses back to exactly the builder's status and fields |
| `StructuredPayload.ParseBuild` | libs/protocol/src/StructuredPayload.cpp:96-211 | every payload the builder accepts is parsed back exactly, fields in order |
| `StructuredPayload.CanonicalForm` | libs/protocol/src/StructuredPayload.cpp:96-211 | everything that parses is accepted by the builder, its rendering parses to the same payload, and rendering that again gives the same bytes |
| `Decimal.NumbersComeBack` | apps/qt-client/application/src/ClientController.cpp:28-37 | decimal text of a number parses back to the number |
| `ProtocolVersion.NegotiatesBest` | libs/protocol/src/ProtocolVersion.cpp:67-75 | the result is the highest version both ranges contain, and none exactly when they share none |
| `ProtocolVersion.RequestComesBack` | libs/protocol/src/ProtocolVersion.cpp:30-47 | every valid range survives encoding and decoding |
| `ProtocolVersion.ResponseComesBack` | libs/protocol/src/ProtocolVersion.cpp:49-65 | every nonzero version survives encoding and decoding |
| `BlockingQueue.BoundedBlockingQueue.TryPushSection` | libs/server-core/include/rss/util/BoundedBlockingQueue.h:37-49 | refuses when closed or full, otherwise appends; reports the new size |
| `BlockingQueue.BoundedBlockingQueue.PushSection` | libs/server-core/include/rss/util/BoundedBlockingQueue.h:51-68 | one hold of the mutex: refused when closed, waits when full, otherwise appends |
| `BlockingQueue.BoundedBlockingQueue.PopSection` | libs/server-core/include/rss/util/BoundedBlockingQueue.h:70-88 | one hold of the mutex: takes the oldest item even when closed, waits when open and empty, refuses when closed and empty |
| `BlockingQueue.BoundedBlockingQueue.TryPopSection` | libs/server-core/include/rss/util/BoundedBlockingQueue.h:90-104 | takes the oldest item or reports none |
| `BlockingQueue.BoundedBlockingQueue.CloseSection` | libs/server-core/include/rss/util/BoundedBlockingQueue.h:106-113 | closes and keeps the items |
| `QueueWakeups.NextKeeps` | libs/server-core/include/rss/util/BoundedBlockingQueue.h:37-113 | every step of every thread keeps the queue invariant |
| `QueueWakeups.NoLostWakeup` | libs/server-core/include/rss/util/BoundedBlockingQueue.h:37-113 | in every run: never above capacity, first in first out; sleeping consumers imply items at most pending notifications plus woken consumers, and the same for producers and free slots while open; a closed queue has told everybody or is about to, and then nobody sleeps |
| `QueueWakeups.ClosedDrains` | libs/server-core/include/rss/util/BoundedBlockingQueue.h:51-113 | a closed queue still gives up its items in order, takes nothing more, puts nobody to sleep and refuses once empty |
| `EventStreams.PacketAccepted` | libs/server-net-linux/src/TcpServer.cpp:404-439 | accepting the first packet of a connection extends that session's events by exactly that packet with the next number, and no other session's |
| `EventStreams.EndAccepted` | libs/server-net-linux/src/TcpServer.cpp:672-694 | announcing the end of a connection without complete packets ends that session's events after all packets read |
| `EventStreams.BytesRead` | libs/server-net-linux/src/TcpServer.cpp:390-396 | feeding bytes changes no accepted event, and the connection stays where its stream is |
| `EventStreams.ExactStream` | libs/server-net-linux/src/TcpServer.cpp:354-439 | a session's events are the packets of the bytes read from it, numbered 0, 1, 2 and so on, then at most one end with the next number and no packet missing |
| `IoServer.Server.Interfere` | libs/server-core/src/net/WorkerPool.cpp:266-281 | whatever pops, notifications and completion pushes happen, a wake-up that is pending, about to be sent or due at the low watermark stays so |
| `IoServer.Server.TryPush` | libs/server-net-linux/src/TcpServer.cpp:410-415 | accepts unless full; a size above the low watermark guarantees a later wake-up |
| `IoServer.Server.HandOnNext` | libs/server-net-linux/src/TcpServer.cpp:406-437 | a packet is consumed and numbered only if accepted; stopping means the budget is spent, or reads are paused and a wake-up will come |
| `IoServer.Server.EnqueueDecodedPackets` | libs/server-net-linux/src/TcpServer.cpp:404-439 | hands on packets in order and numbers them; says whether all are gone, it stopped with a wake-up to come or no budget, or a malformed frame follows |
| `IoServer.Server.EnqueueDisconnected` | libs/server-net-linux/src/TcpServer.cpp:672-694 | ends the session's events if accepted; otherwise reads are paused and a wake-up will come |
| `IoServer.Server.DeferDisconnected` | libs/server-net-linux/src/TcpServer.cpp:696-707 | fails exactly when the session is new and the limit is reached |
| `IoServer.Server.DeferRead` | libs/server-net-linux/src/TcpServer.cpp:441-446 | each descriptor is marked once and every mark is on the list |
| `IoServer.Server.Disconnect` | libs/server-net-linux/src/TcpServer.cpp:513-552 | removes the session and only it, never exceeds the limit of postponed ends, keeps the invariant; while running, postponing the end of a session without waiting packets means a wake-up will come |
| `IoServer.Server.ReadSession` | libs/server-net-linux/src/TcpServer.cpp:354-402 | whatever is received, the server's invariant stays: nothing lost, nothing stranded, no pause without a wake-up to come |
| `IoServer.Server.EndFirst` | libs/server-net-linux/src/TcpServer.cpp:719-745 | one postponed end after its packets; stopping early means a wake-up will come |
| `IoServer.Server.ServeFirstRead` | libs/server-net-linux/src/TcpServer.cpp:747-782 | one deferred read; not stopping uses budget or shortens the work, so the loop ends |
| `IoServer.Server.DrainDeferredInput` | libs/server-net-linux/src/TcpServer.cpp:709-795 | terminates within its budget, keeps the invariant, and returns with reads on or a wake-up to come; done in shutdown means nothing is deferred |
| `IoServer.Server.MaybeResume` | libs/server-net-linux/src/TcpServer.cpp:784-795 | with nothing deferred, reads go on at the low watermark, and otherwise a wake-up will come |
| `IoServer.Server.ReadPeerClosed` | libs/server-net-linux/src/TcpServer.cpp:655-669 | reading the sessions whose peer closed, after a resume and until reads pause again, keeps the invariant and the promise of a wake-up |
| `IoServer.Server.AcceptOne` | libs/server-net-linux/src/TcpServer.cpp:327-350 | a connection is refused, changing nothing, exactly at the session limit, and otherwise gets the next id; live sessions plus postponed ends stay within the limit |
| `IoServer.Server.AcceptLoop` | libs/server-net-linux/src/TcpServer.cpp:304-352 | accepting any batch keeps the invariant |
| `IoServer.Server.OnReadable` | libs/server-net-linux/src/TcpServer.cpp:189-205 | reading when reads are on, or remembering a closing peer, keeps the invariant and leaves reads on or a wake-up to come |
| `IoServer.Server.OnCapacity` | libs/server-net-linux/src/TcpServer.cpp:147-154 | taking the wake-up leaves reads on or another wake-up to come |
| `IoServer.Server.BeginShutdown` | libs/server-net-linux/src/TcpServer.cpp:797-814 | from running only, stops reads and keeps what is deferred |
| `IoServer.Server.AdvanceShutdown` | libs/server-net-linux/src/TcpServer.cpp:816-855 | input is drained before output, and the invariant stays |
| `IoServer.Server.Step` | libs/server-net-linux/src/TcpServer.cpp:115-219 | any event of the loop keeps the invariant, the promise of a wake-up while paused, and the limits |
| `IoServer.Server.Run` | libs/server-net-linux/src/TcpServer.cpp:115-219 | after any number of any events: exact event streams, live sessions plus postponed ends within the limit, with reads on nothing is postponed and no complete packet is left, paused reads have a wake-up to come, and the limit error was never raised |
| `ProducerContract.IoMeetsContract` | libs/server-net-linux/src/TcpServer.cpp:404-439 | every event the I/O thread gets into the inbox is one the pool expects: numbered after its predecessors, nothing after the end |
| `WorkerPool.Pool.AcquireState` | libs/server-core/src/net/WorkerPool.cpp:271-276 | the session's state object, created fresh when the table has none |
| `WorkerPool.Pool.TryStartSessionTurn` | libs/server-core/src/net/WorkerPool.cpp:446-499 | decides and updates exactly as the turn function the pool results are about |
| `WorkerPool.Pool.MarkSessionFailed` | libs/server-core/src/net/WorkerPool.cpp:395-409 | quarantines once, keeping the first parked disconnect |
| `WorkerPool.Pool.MarkSessionDeferred` | libs/server-core/src/net/WorkerPool.cpp:411-425 | suspends the turn and hands over an early completion, or reports the logic error |
| `WorkerPool.Pool.CompleteSessionTurn` | libs/server-core/src/net/WorkerPool.cpp:501-536 | ends the turn, gives the next event, drops a closed session from the table and tests for the close when nothing follows |
| `WorkerPool.Pool.TakePendingDisconnected` | libs/server-core/src/net/WorkerPool.cpp:538-547 | takes the kept disconnect unless a turn is active or the session closed |
| `WorkerPool.Pool.BeginStop` | libs/server-core/src/net/WorkerPool.cpp:233-237 | requests the drain and tests for the close |
| `WorkerPool.Pool.MaybeCloseInboxForDrainLocked` | libs/server-core/src/net/WorkerPool.cpp:549-561 | closes exactly when draining with no suspended turn, an empty inbox and only quiet sessions |
| `SessionSteps.TryShapes` | libs/server-core/src/net/WorkerPool.cpp:446-499 | for an event of a reachable session the decision is never InvalidSequence, and what each other decision does |
| `SessionSteps.TryKeeps` | libs/server-core/src/net/WorkerPool.cpp:293-318 | a worker's turn decision keeps every event of the session in exactly one place |
| `SessionSteps.MarkKeeps` | libs/server-core/src/net/WorkerPool.cpp:302-312 | quarantine by a rejecting worker keeps the session invariant |
| `SessionSteps.ResolveKeeps` | libs/server-core/src/net/WorkerPool.cpp:313-317 | so does what follows the rejection |
| `TurnSteps.AdvancesKeep` | libs/server-core/src/net/WorkerPool.cpp:321-374 | so does every step inside a turn: admission, handler, deferral, return, exception, publication |
| `TurnSteps.FailInTurnKeeps` | libs/server-core/src/net/WorkerPool.cpp:395-409 | so does quarantine inside a turn |
| `TurnSteps.SuspendKeeps` | libs/server-core/src/net/WorkerPool.cpp:375-378 | so does suspending the turn, with a completion that is inline, early or still to come |
| `TurnSteps.CompleteKeeps` | libs/server-core/src/net/WorkerPool.cpp:501-536 | so does completing it |
| `ArrivalSteps.IntakeFindsOne` | libs/server-core/src/net/WorkerPool.cpp:262-277 | an event that is taken in finds the session's only state object, or is the session's first |
| `ArrivalSteps.IntakeKeeps` | libs/server-core/src/net/WorkerPool.cpp:262-277 | taking an event in keeps the session invariant |
| `ArrivalSteps.FulfillKeeps` | libs/server-core/src/net/WorkerPool.cpp:51-68 | so does completing a completion object, while the handler runs or later, once or again |
| `ArrivalSteps.PushKeeps` | libs/server-core/src/net/WorkerPool.cpp:69-76 | so does a completion entering the inbox or finding it closed |
| `PoolSteps.NextKeeps` | libs/server-core/src/net/WorkerPool.cpp:258-384 | every action of any thread keeps the invariant of the whole pool |
| `PoolSteps.ReachableInv` | libs/server-core/src/net/WorkerPool.cpp:258-384 | it holds in every reachable state, for any limit, capacity and number of workers |
| `PoolTheorems.SerialTurns` | libs/server-core/src/net/WorkerPool.cpp:287-382 | two workers in a turn of the same session are the same worker; its state object is active, and suspended exactly when that worker holds the completion |
| `PoolTheorems.HandledInOrder` | libs/server-core/src/net/WorkerPool.cpp:348-381 | handler calls of a session are packets 0, 1, 2 and so on, then at most the disconnect; output is published turn by turn |
| `PoolTheorems.OneStateObject` | libs/server-core/src/net/WorkerPool.cpp:271-276 | a session id gets at most one state object, out of the table exactly when closed |
| `PoolTheorems.NeverInvalid` | libs/server-core/src/net/WorkerPool.cpp:446-499 | no event and no completion is ever classified InvalidSequence |
| `PoolTheorems.NeverCrashes` | libs/server-core/src/net/WorkerPool.cpp:414-416 | suspending never finds the turn inactive |
| `PoolTheorems.DisconnectConserved` | libs/server-core/src/net/WorkerPool.cpp:302-318 | an accepted disconnect is in exactly one place: the line, one worker's hand or turn, parked, the kept slot, or done |
| `PoolTheorems.DoneIsHandledOnce` | libs/server-core/src/net/WorkerPool.cpp:512-517 | a disconnect given to the handler is the last call and there is one only; a closed session has had it |
| `PoolTheorems.KeptIsRescued` | libs/server-core/src/net/WorkerPool.cpp:519-526 | a kept disconnect always has an active turn or a rejecting worker that will take it up |
| `PoolTheorems.OutstandingIsAwaiting` | libs/server-core/src/net/WorkerPool.cpp:411-425 | the deferred counter is the number of sessions awaiting completion |
| `PoolTheorems.CompletedOnce` | libs/server-core/src/net/WorkerPool.cpp:51-77 | a completion is never in two places; unless its handler threw after deferring, it belongs to the session's active turn |
| `DrainTheorem.StepSettles` | libs/server-core/src/net/WorkerPool.cpp:297-318 | every step other than the end of a rejection keeps the property that a draining pool with nothing left to do is closed |
| `DrainTheorem.ClosesIffNotRejection` | libs/server-core/src/net/WorkerPool.cpp:549-561 | the step that finishes a draining pool closes the inbox if and only if it is not the end of a rejection |
| `DrainTheorem.NoMissedClose` | libs/server-core/src/net/WorkerPool.cpp:549-561 | without parking overflow a draining pool with nothing left is closed, and every waiting worker can leave |
| `DrainTheorem.EndsLastIff` | libs/server-core/src/net/WorkerPool.cpp:302-318 | the end of a rejection leaves nothing to do if and only if what is rejected is a packet and, before the step, inbox, intake and sessions are idle and no other worker is working |
| `DrainTheorem.MissedIff` | libs/server-core/src/net/WorkerPool.cpp:302-318 | a run passes through a missed close if and only if, in a draining open pool, some rejection ends under that condition |
| `DrainMissed.OverflowMissesClose` | libs/server-core/src/net/WorkerPool.cpp:302-318 | for every positive parking limit, a run with overflow that leaves the pool draining, with nothing left to do and open, so that no worker can take an event or leave |
| `DrainHasty.RefusedIff` | libs/server-core/src/net/WorkerPool.cpp:549-561 | in every run, a completion about to be pushed, whose handler did not throw, finds the inbox closed if and only if its turn was started with the inbox already closed |
| `DrainHasty.RefusedOnlyIfHasty` | libs/server-core/src/net/WorkerPool.cpp:69-76 | a consequence: such a refusal means that a step closed the inbox while some worker had an event in hand or at intake |
| `DrainHasty.HastyCloseLoses` | libs/server-core/src/net/WorkerPool.cpp:233-237 | for every parking limit, a run that ends with the completion nowhere, its turn suspended and every worker gone |
| `Lifecycle.AddsBefore` | libs/server-core/src/service/MessageRouter.cpp:197-236 | whoever adds a version, a user or a room for a session, login callbacks included, acts before its disconnect handler has started to erase |
| `Lifecycle.GoneForever` | libs/server-core/src/net/WorkerPool.cpp:512-517 | a closed session stays closed in every continuation |
| `Lifecycle.NoResurrection` | libs/server-core/src/service/MessageRouter.cpp:107-128 | after a session's disconnect turn has completed, no continuation gives it a second state object, a version, a user, a room or a position |
| `RoomModel.ConsistentStaysIff` | libs/server-core/src/domain/Lobby.cpp:7-13 | a call keeps membership a bijection if and only if it is not a valid create request, of a logged-in session in no room, for which the next id is in use |
| `RoomModel.CreatesIffGranted` | libs/server-core/src/service/RoomService.cpp:46-75 | a create call is granted, and an id spent, if and only if the name is valid and the session logged in and in no room |
| `RoomModel.RunIsConsistent` | libs/server-core/src/service/RoomService.cpp:23-220 | after any calls that create at most 2^32 rooms, refused requests not counted: a session is in room r exactly when r exists and has it as a member with the same user, no empty room, positions of members only; with fewer, every id in use is between 1 and the number of rooms created |
| `RoomIdWrap.WrapBreaks` | libs/server-core/src/domain/Lobby.cpp:7-13 | a run that creates 2^32 + 1 rooms, after which a session is placed in a room that does not have it |
| `RoomIdWrap.LastIdIsRejected` | libs/server-core/src/service/MessageRouter.cpp:89-99 | a run after which room number 2^32 is created and answered without a room id, and every client that asked for it rejects the answer |
| `RoomModel.RefusalChangesNothing` | libs/server-core/src/service/RoomService.cpp:77-191 | a refused call changes nothing, and room not found is answered to joins only |
| `RoomModel.RunIsRooted` | libs/server-core/src/service/RoomService.cpp:23-220 | with any number of creations, what rooms say of members agrees with the service |
| `RoomModel.OthersDoNotRevive` | libs/server-core/src/service/RoomService.cpp:23-220 | no call for one session brings back another |
| `RoomModel.OthersKeepTheirPlace` | libs/server-core/src/service/RoomService.cpp:23-220 | no call for one session changes another's user or room |
| `RoomModel.DisconnectErases` | libs/server-core/src/service/RoomService.cpp:193-220 | after a disconnect nothing of the session is left |
| `RoomService.Room.Join` | libs/server-core/src/domain/Room.cpp:17-20 | adds or replaces the member |
| `RoomService.Room.Leave` | libs/server-core/src/domain/Room.cpp:22-32 | removes member and position together, or nothing |
| `RoomService.Room.SetPosition` | libs/server-core/src/domain/Room.cpp:64-69 | only members have positions |
| `RoomService.Lobby.CreateRoom` | libs/server-core/src/domain/Lobby.cpp:7-13 | a new object under the next id, which wraps at 32 bits |
| `RoomService.Lobby.EraseIfEmpty` | libs/server-core/src/domain/Lobby.cpp:24-30 | erases exactly an empty room |
| `RoomService.Rooms.AttachUser` | libs/server-core/src/service/RoomService.cpp:23-34 | the objects change and answer as the model's call |
| `RoomService.Rooms.CreateRoom` | libs/server-core/src/service/RoomService.cpp:46-75 | the objects change and answer as the model's call |
| `RoomService.Rooms.JoinRoom` | libs/server-core/src/service/RoomService.cpp:77-106 | the objects change and answer as the model's call |
| `RoomService.Rooms.LeaveRoom` | libs/server-core/src/service/RoomService.cpp:108-137 | the objects change and answer as the model's call |
| `RoomService.Rooms.Chat` | libs/server-core/src/service/RoomService.cpp:139-163 | answers as the model's call and changes nothing |
| `RoomService.Rooms.UpdatePosition` | libs/server-core/src/service/RoomService.cpp:165-191 | the objects change and answer as the model's call |
| `RoomService.Rooms.Disconnect` | libs/server-core/src/service/RoomService.cpp:193-220 | the objects change and answer as the model's call |
| `Messages.LoginIsAccepted` | libs/server-core/src/service/MessageRouter.cpp:82-87 | the login answer for a valid user can be built and meets what the client demands |
| `Messages.RoomIsAccepted` | libs/server-core/src/service/MessageRouter.cpp:89-99 | so do the room answers and the join and leave broadcasts, for a room with an id |
| `Messages.ChatIsAccepted` | libs/server-core/src/service/MessageRouter.cpp:316-321 | so does the chat broadcast |
| `Messages.PositionIsAccepted` | libs/server-core/src/service/MessageRouter.cpp:339-348 | so does the position broadcast, for printed coordinates that are text |
| `Messages.ZeroRoomIsRejected` | libs/server-core/src/service/MessageRouter.cpp:94-96 | a room answer for id 0 lacks the room id the client demands |
| `Messages.RoomAlwaysFits` | libs/server-core/src/service/MessageRouter.cpp:372-377 | for every valid user and room id, login answers, room answers and join and leave broadcasts fit a packet |
| `Messages.PositionAlwaysFits` | libs/server-core/src/service/MessageRouter.cpp:343-348 | so do position broadcasts whose coordinates are printed with at most 36 bytes each |
| `Messages.ChatFitsIff` | libs/server-core/src/service/MessageRouter.cpp:372-377 | a chat packet fits if and only if its escaped parts leave room for the 91 fixed bytes and the header |
| `Messages.ChatAlwaysFits` | libs/server-core/src/service/MessageRouter.cpp:300-329 | for every valid sender, room id, session id and message of at most 1291 bytes the broadcast fits a packet |
| `Messages.ChatLimitIsExact` | libs/protocol/include/rss/protocol/Packet.h:11-16 | some message of 1292 bytes does not |
| `Router.PacketIsOneCall` | libs/server-core/src/service/MessageRouter.cpp:190-370 | whatever the packet, the service changes as by one call for the packet's own session, never an attach or a disconnect, and a creation only for a create request |
| `Router.GateSetsOwnVersion` | libs/server-core/src/service/MessageRouter.cpp:139-188 | the gate sets only the session's own version, lets nothing but a version request set one, and never forgives |
| `Router.LoginIsAttach` | libs/server-core/src/service/MessageRouter.cpp:207-232 | the login callback attaches the user it was given or changes nothing |
| `Emission.Context.Emit` | libs/server-core/src/net/WorkerPool.cpp:100-129 | keeps a message within the budget of messages and bytes, and a disconnect of the event's own session; nothing after a disconnect |
| `Emission.Context.Broadcast` | libs/server-core/src/service/MessageRouter.cpp:323-328 | one packet for each recipient in some order, up to the first refusal |
| `Emission.Context.EmitInTurn` | libs/server-core/src/service/MessageRouter.cpp:264-273 | answers and broadcasts in turn, up to the first refusal |
| `Emission.KeepsLongest` | libs/server-core/src/net/WorkerPool.cpp:100-129 | of packets emitted in turn, exactly the longest beginning within the budget is kept, and the budget is never exceeded |
| `Emission.SpelledIsHeard` | libs/server-core/src/service/MessageRouter.cpp:323-328 | in whatever order the recipients come, each session is meant to hear the same packets in the same order |
| `Emission.HeardUpToTheBudget` | libs/server-core/src/net/WorkerPool.cpp:100-129 | a session loses at most the end of what it was meant to hear; all is kept if and only if the messages and bytes of the whole output are within the budget |
| `MessageRouter.Handler.HandleNegotiation` | libs/server-core/src/service/MessageRouter.cpp:139-188 | the object records versions and emits as the gate function says; a refused answer sets the version to 0 and asks for a disconnect |
| `MessageRouter.GateAnswersOnce` | libs/server-core/src/service/MessageRouter.cpp:139-188 | the gate has at most one message, for the packet's own session, and it ends the session exactly when it leaves it without a version |
| `MessageRouter.RefusedIsTurnedAway` | libs/server-core/src/service/MessageRouter.cpp:179-186 | only the session's own version changes; either its answer is kept with the version it was given, or it is turned away and disconnected |
| `MessageRouter.Handler.Respond` | libs/server-core/src/service/MessageRouter.cpp:190-370 | the output, the deferred login and the new service of each packet are those of the router function |
| `MessageRouter.Handler.HandlePacket` | libs/server-core/src/service/MessageRouter.cpp:190-370 | the object defers a login, changes the service and emits as the router function, up to the first refusal |
| `MessageRouter.Handler.Handle` | libs/server-core/src/service/MessageRouter.cpp:107-137 | a whole event: a disconnect, a packet the gate deals with, or a packet that passes and is handled |
| `MessageRouter.Handler.OnCreate` | libs/server-core/src/service/MessageRouter.cpp:238-253 | create requests, errors included |
| `MessageRouter.Handler.OnJoin` | libs/server-core/src/service/MessageRouter.cpp:254-274 | join requests: the answer, then the news for the other members |
| `MessageRouter.Handler.OnLeave` | libs/server-core/src/service/MessageRouter.cpp:275-299 | leave requests: the answer, then the news for the remaining members |
| `MessageRouter.Handler.OnChat` | libs/server-core/src/service/MessageRouter.cpp:300-330 | chats: size and text checks, then one broadcast to all members |
| `MessageRouter.Handler.OnPosition` | libs/server-core/src/service/MessageRouter.cpp:331-357 | position updates: exactly eight bytes, then one broadcast to all members |
| `MessageRouter.Handler.FinishLogin` | libs/server-core/src/service/MessageRouter.cpp:207-232 | the callback's answer and attachment |
| `MessageRouter.Handler.HandleDisconnected` | libs/server-core/src/service/MessageRouter.cpp:107-128 | erases the version, then the user and the membership, and tells the room up to the first refusal |
| `ClientController.Controller.ConnectToServer` | apps/qt-client/application/src/ClientController.cpp:152-169 | only a disconnected client with a valid address starts connecting |
| `ClientController.Controller.OnConnected` | apps/qt-client/application/src/ClientController.cpp:271-283 | a connecting client sends its version range and negotiates if it was sent |
| `ClientController.Controller.OnDisconnected` | apps/qt-client/application/src/ClientController.cpp:295-303 | everything is reset |
| `ClientController.Controller.OnTransportError` | apps/qt-client/application/src/ClientController.cpp:417-427 | a fatal error resets everything, another nothing |
| `ClientController.Controller.LogIn` | apps/qt-client/application/src/ClientController.cpp:179-196 | sends a valid trimmed name only when connected with nothing pending, and then waits |
| `ClientController.Controller.Create` | apps/qt-client/application/src/ClientController.cpp:198-215 | sends a valid trimmed room name only when logged in with nothing pending |
| `ClientController.Controller.Join` | apps/qt-client/application/src/ClientController.cpp:217-236 | sends a room id only when logged in with nothing pending |
| `ClientController.Controller.Leave` | apps/qt-client/application/src/ClientController.cpp:238-247 | sends a leave request only when in a room with nothing pending |
| `ClientController.Controller.SendChat` | apps/qt-client/application/src/ClientController.cpp:249-269 | sends valid text of at most 1291 bytes only when in a room with nothing pending |
| `ClientController.Controller.OnResponse` | apps/qt-client/application/src/ClientController.cpp:333-414 | takes an answer only to the pending request and only if it is well formed |
| `ClientController.Controller.OnNegotiation` | apps/qt-client/application/src/ClientController.cpp:313-331 | takes a supported version and gives up on anything else |
| `ClientController.Controller.OnPacketReceived` | apps/qt-client/application/src/ClientController.cpp:305-415 | the whole reaction to a packet, in every state |
| `OtherTurns.PacketIsNews` | libs/server-core/src/service/MessageRouter.cpp:190-370 | whatever packet another session sends, in any consistent state, this session hears only broadcasts the client accepts, and none unless it is in a room |
| `OtherTurns.EndIsNews` | libs/server-core/src/service/MessageRouter.cpp:107-128 | so it is with the end of another session |
| `OtherTurns.TurnIsNews` | libs/server-core/src/service/MessageRouter.cpp:130-137 | so it is with a whole turn of another session, and the turn leaves this session's version alone |
| `AgreementProof.NextKeeps` | apps/qt-client/application/src/ClientController.cpp:305-415 | every action of the user and the channels, every turn, login callback and end of this or another session, and every publication keeps the conversation in one of its known positions |
| `AgreementProof.SidesAgree` | apps/qt-client/application/src/ClientController.cpp:333-414 | in every run, a client with nothing pending is logged in or in a room exactly when the server holds that for its session; a client that is either, pending or not, knows the server's id of its session |
| `AgreementProof.NothingMalformed` | apps/qt-client/application/src/ClientController.cpp:305-415 | in every run, every packet that reaches the client is accepted, broadcasts caused by other sessions' turns included |

## Left out

- Socket, epoll, eventfd and signal calls: they are choices of the environment.
- Forced stop and the final teardown of connections; deadlines and idle timeouts are choices that may happen at any time.
- The outbound side after a turn: session write buffers, flushing and the outbox (`Session::tryEnqueue`), which would add easy members.
- PostgreSQL and the in-memory repository: only that the callback runs once.
- Overload counters, logging and the periodic reporter.
- Printing and parsing of position coordinates as floating point: the printed text is a parameter.
- The Qt widgets and the parsing of the room number field: any text the field accepts may be sent.
- `Lobby::snapshot`, `Room::snapshot` and the other read-only accessors.
- Liveness of the pool and the queue: the results say that nobody waits without a wake-up to come or a thread that will act, not that threads are scheduled.
- Emission.Context.Emit: does not model the forced stop, which refuses every message, as forced stops are left out throughout.
- MessageRouter.Handler.HandlePacket: position coordinates stay bit patterns and their printed text is a parameter.
- IoServer.Server.ReadSession: connections are values in the server's tables and the codec is its live bytes, so aliasing of session objects is not captured; a closing-after-flush flag is a choice of the environment.
- MessageRouter.Handler.OnPosition: takes the printing of coordinates as a parameter.
- ClientController.Controller.Join: takes the trimming and the numeric test of the room field as a parameter, because they are library functions.

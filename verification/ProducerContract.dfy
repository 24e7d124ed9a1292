/** The contract the worker pool asks of its producer, discharged from what the I/O thread guarantees. */
module ProducerContract {
  import opened Wrappers
  import opened SessionEvents
  import opened PoolModel
  import opened EventStreams

  /** The pool's view of an inbox entry; `body` names the contents of a packet. */
  function AsEvent(e: Inbound, body: nat): Event {
    Event(if e.Gone? then Disconnected else PacketEvent, e.session, e.sequence, body, None)
  }

  ghost predicate HasEnd(es: seq<Inbound>) {
    exists i :: 0 <= i < |es| && es[i].Gone?
  }

  /** The pool has accounted for exactly these events of its session. */
  ghost predicate Accounts(x: Session, es: seq<Inbound>) {
    x.produced == |es| && (x.ended <==> HasEnd(es))
  }

  /** Whatever the I/O thread gets into the inbox, in any run, the next event is one the pool expects:
      numbered after its predecessors, and nothing follows the end of a session. */
  lemma IoMeetsContract(log: seq<Inbound>, streams: map<nat, Stream>, i: nat, x: Session, body: nat)
    requires StreamsOk(log, streams) && i < |log| && Accounts(x, OfSession(log[..i], log[i].session))
    ensures Produces(x, AsEvent(log[i], body))
    ensures Accounts(ProduceNext(x, AsEvent(log[i], body)), OfSession(log[..i + 1], log[i].session))
  {
    var id := log[i].session;
    var before := OfSession(log[..i], id);
    assert StreamOk(log, streams, id);
    CutOf(log, i, id);
    assert log[..i + 1] == log[..i] + [log[i]];
    AppendOf(log[..i], log[i], id);
    var after := OfSession(log[..i + 1], id);
    assert after == before + [log[i]];
    assert log[i].Gone? ==> after[|before|].Gone?;
    assert forall k | 0 <= k < |before| :: before[k] == after[k] && !before[k].Gone?;
  }
}

/** The events and messages that travel between the I/O thread and the workers. What a packet or a
    message contains plays no part in ordering them: `body` names those contents. */
module SessionEvents {
  import opened Wrappers

  datatype OutboundKind = SendBytes | SendBytesAndDisconnect | DisconnectSession

  datatype Outbound = Outbound(session: nat, body: nat, kind: OutboundKind)

  datatype CompletionPayload = CompletionPayload(failed: bool, messages: seq<Outbound>)

  datatype EventKind = PacketEvent | Disconnected | DeferredCompletion

  /** `sequence` numbers the I/O events of one session; a completion carries the number of the
      event whose turn it finishes. */
  datatype Event = Event(kind: EventKind, session: nat, sequence: nat,
                         body: nat, completion: Option<CompletionPayload>)

  function CompletionOf(session: nat, sequence: nat, payload: CompletionPayload): Event {
    Event(DeferredCompletion, session, sequence, 0, Some(payload))
  }
}

/** What the message router answers to a packet, as functions of its state. */
module Router {
  import opened Wrappers
  import opened Bytes
  import opened TextValidation
  import opened StructuredPayload
  import opened Decimal
  import opened Messages
  import opened ProtocolVersion
  import Rooms = RoomModel

  /** A message for one session, or the same message for several, in the order of emission. */
  datatype Out =
    | To(session: nat, packet: Packet)
    | Last(session: nat, packet: Packet)           // the session is disconnected afterwards
    | ToAll(recipients: set<nat>, packet: Packet)

  datatype LoginName = LoginName(normalized: seq<Byte>, display: seq<Byte>)

  datatype PersistenceError = Busy | Unavailable | Timeout | Stopping | Constraint | InvalidData

  /** What the user repository's callback is given. */
  datatype UserResult = Found(id: seq<Byte>, name: seq<Byte>) | Missing(error: Option<PersistenceError>)

  /** The outcome of a packet; `login` is set when the answer is deferred to the user repository. */
  datatype Handled = Handled(service: Rooms.Service, out: seq<Out>, login: Option<LoginName>)

  function Lower(text: seq<Byte>): seq<Byte> {
    seq(|text|, i requires 0 <= i < |text| => if 0x41 <= text[i] <= 0x5A then text[i] + 0x20 else text[i])
  }

  function Text(p: Payload): seq<Byte> {
    var r := BuildPayload(p);
    if r.Ok? then r.value else []
  }

  function Error(s: nat, text: seq<Byte>): Out {
    To(s, Packet(ERROR, text))
  }

  function Refusal(e: Rooms.RoomError): (text: seq<Byte>)
    ensures PlainAscii(text)
  {
    match e
    case AlreadyLoggedIn => Ascii("user is already logged in")
    case InvalidRoomName => Ascii("invalid room name")
    case LoginRequired => Ascii("login required")
    case LeaveCurrentRoomFirst => Ascii("leave current room first")
    case AlreadyInRoom => Ascii("user is already in room")
    case RoomNotFound => Ascii("room not found")
    case NotInRoom => Ascii("user is not in a room")
    case UnknownUser => Ascii("unknown user")
  }

  function PersistenceText(e: Option<PersistenceError>): (text: seq<Byte>)
    ensures PlainAscii(text)
  {
    match e
    case Some(Busy) => Ascii("user persistence busy")
    case Some(Unavailable) => Ascii("user persistence unavailable")
    case Some(Timeout) => Ascii("user persistence timeout")
    case Some(Stopping) => Ascii("server is stopping")
    case _ => Ascii("user persistence failure")
  }

  function RoomPacket(kind: U16, event: seq<Byte>, room: U32, actor: Rooms.User): Packet {
    Packet(kind, Text(RoomPayload(event, room, actor)))
  }

  // ---- Requests ----

  function Refused(v: Rooms.Service, s: nat, text: seq<Byte>): Handled {
    Handled(v, [Error(s, text)], None)
  }

  function OnLogin(v: Rooms.Service, s: nat, payload: seq<Byte>): Handled {
    var name := Rooms.NormalizedName(payload);
    if name == None then Refused(v, s, Ascii("invalid user name"))
    else Handled(v, [], Some(LoginName(Lower(name.value), name.value)))
  }

  function OnCreate(v: Rooms.Service, s: nat, payload: seq<Byte>): Handled {
    var name := Rooms.NormalizedName(payload);
    if name == None then Refused(v, s, Ascii("invalid room name"))
    else
      var r := Rooms.CreateRoom(v, s, name.value);
      if r.1.Refused? then Handled(r.0, [Error(s, Refusal(r.1.error))], None)
      else Handled(r.0, [To(s, RoomPacket(CREATE_ROOM_RES, Ascii("CREATE_ROOM"), r.1.room, r.1.actor))], None)
  }

  /** The answer to the member that acts, and the news for the others. */
  function Announce(s: nat, kind: U16, answer: seq<Byte>, news: seq<Byte>, o: Rooms.Outcome): seq<Out>
    requires o.Granted?
  {
    [To(s, RoomPacket(kind, answer, o.room, o.actor)),
     ToAll(o.recipients - {s}, RoomPacket(ROOM_BROADCAST, news, o.room, o.actor))]
  }

  function OnJoin(v: Rooms.Service, s: nat, payload: seq<Byte>): Handled {
    var id := ParseBelow(payload, Rooms.ROOM_ID_SPACE);
    if id == None then Refused(v, s, Ascii("invalid room id"))
    else
      var r := Rooms.JoinRoom(v, s, id.value);
      if r.1.Refused? then Handled(r.0, [Error(s, Refusal(r.1.error))], None)
      else Handled(r.0, Announce(s, JOIN_ROOM_RES, Ascii("JOIN_ROOM"), Ascii("JOIN"), r.1), None)
  }

  function OnLeave(v: Rooms.Service, s: nat, payload: seq<Byte>): Handled {
    if payload != [] then Refused(v, s, Ascii("invalid leave room request"))
    else
      var r := Rooms.LeaveRoom(v, s);
      if r.1.Refused? then Handled(r.0, [Error(s, Refusal(r.1.error))], None)
      else Handled(r.0, Announce(s, LEAVE_ROOM_RES, Ascii("LEAVE_ROOM"), Ascii("LEAVE"), r.1), None)
  }

  function OnChat(v: Rooms.Service, s: nat, payload: seq<Byte>): Handled {
    if |payload| > MAX_CHAT_MESSAGE_BYTES then Refused(v, s, Ascii("chat message too large"))
    else if !ValidText(payload) then Refused(v, s, Ascii("invalid chat message"))
    else
      var r := Rooms.ChatIn(v, s);
      if r.1.Refused? then Handled(r.0, [Error(s, Refusal(r.1.error))], None)
      else Handled(r.0, [ToAll(r.1.recipients,
                               Packet(ROOM_BROADCAST, Text(ChatPayload(r.1.room, r.1.actor, payload))))], None)
  }

  function OnPing(v: Rooms.Service, s: nat, payload: seq<Byte>): Handled {
    if payload != [] then Refused(v, s, Ascii("invalid ping request"))
    else Handled(v, [To(s, Packet(PONG, Ascii("PONG")))], None)
  }

  function ReadU32(payload: seq<Byte>, at: nat): U32
    requires at + 4 <= |payload|
  {
    var a: int, b: int, c: int, d: int := payload[at], payload[at + 1], payload[at + 2], payload[at + 3];
    ((a * 256 + b) * 256 + c) * 256 + d
  }

  /** `show` is how a coordinate is printed. */
  function OnPosition(v: Rooms.Service, s: nat, payload: seq<Byte>, show: U32 -> seq<Byte>): Handled {
    if |payload| != 8 then Refused(v, s, Ascii("position payload must be exactly 8 bytes"))
    else
      var p := Rooms.Position(ReadU32(payload, 0), ReadU32(payload, 4));
      var r := Rooms.UpdatePosition(v, s, p);
      if r.1.Refused? then Handled(r.0, [Error(s, Refusal(r.1.error))], None)
      else
        var text := Text(PositionPayload(r.1.room, r.1.actor, show(p.x), show(p.y)));
        Handled(r.0, [ToAll(r.1.recipients, Packet(ROOM_BROADCAST, text))], None)
  }

  function HandlePacket(v: Rooms.Service, s: nat, packet: Packet, show: U32 -> seq<Byte>): Handled {
    if packet.kind == LOGIN_REQ then OnLogin(v, s, packet.payload)
    else if packet.kind == CREATE_ROOM_REQ then OnCreate(v, s, packet.payload)
    else if packet.kind == JOIN_ROOM_REQ then OnJoin(v, s, packet.payload)
    else if packet.kind == LEAVE_ROOM_REQ then OnLeave(v, s, packet.payload)
    else if packet.kind == CHAT_REQ then OnChat(v, s, packet.payload)
    else if packet.kind == POSITION_UPDATE then OnPosition(v, s, packet.payload, show)
    else if packet.kind == PING then OnPing(v, s, packet.payload)
    else Refused(v, s, Ascii("unsupported packet type"))
  }

  // ---- Negotiation ----

  function TurnAway(s: nat, text: seq<Byte>): Out {
    Last(s, Packet(ERROR, text))
  }

  /** The version a session is held to after its packet, with the answer; `None` lets the packet pass.
      Version 0 marks a session that is being closed. */
  function Gate(versions: map<nat, nat>, s: nat, packet: Packet): Option<(map<nat, nat>, seq<Out>)> {
    if s in versions then
      if versions[s] == 0 then Some((versions, []))
      else if packet.kind != VERSION_REQ then None
      else Some((versions[s := 0], [TurnAway(s, Ascii("protocol version already negotiated"))]))
    else if packet.kind != VERSION_REQ then
      Some((versions[s := 0], [TurnAway(s, Ascii("protocol version negotiation required"))]))
    else
      var range := DecodeRequest(packet.payload);
      if range == None then Some((versions[s := 0], [TurnAway(s, Ascii("invalid protocol version request"))]))
      else
        var version := Negotiate(range.value);
        if version == None then Some((versions[s := 0], [TurnAway(s, Ascii("unsupported protocol version"))]))
        else Some((versions[s := version.value], [To(s, Packet(VERSION_RES, Text(ResponsePayload(version.value))))]))
  }

  /** The login callback: attach the user, answer. */
  function FinishLogin(v: Rooms.Service, s: nat, result: UserResult): (Rooms.Service, Packet) {
    if result.Missing? then (v, Packet(ERROR, PersistenceText(result.error)))
    else
      var r := Rooms.AttachUser(v, s, result.id, result.name);
      if r.1.Refused? then (r.0, Packet(ERROR, Refusal(r.1.error)))
      else (r.0, Packet(LOGIN_RES, Text(LoginPayload(r.1.actor))))
  }

  /** The end of a session: its room is told, if it was in one. */
  function OnDisconnected(v: Rooms.Service, s: nat): (Rooms.Service, seq<Out>) {
    var r := Rooms.DisconnectUser(v, s);
    if r.1.Refused? || r.1.room == 0 then (r.0, [])
    else (r.0, [ToAll(r.1.recipients - {s}, RoomPacket(ROOM_BROADCAST, Ascii("LEAVE"), r.1.room, r.1.actor))])
  }

  // ---- What one session hears ----

  function Hears(o: Out, s: nat): seq<Packet> {
    match o
    case To(q, p) => if q == s then [p] else []
    case Last(q, p) => if q == s then [p] else []
    case ToAll(qs, p) => if s in qs then [p] else []
  }

  function Heard(out: seq<Out>, s: nat): seq<Packet> {
    if out == [] then [] else Hears(out[0], s) + Heard(out[1..], s)
  }

  // ---- The router's effects are calls for its own session ----

  /** Whatever the packet, the service sees one call, made for the packet's session, and never an attach
      or a disconnect. */
  lemma PacketIsOneCall(v: Rooms.Service, s: nat, packet: Packet, show: U32 -> seq<Byte>) returns (op: Rooms.Op)
    ensures HandlePacket(v, s, packet, show).service == Rooms.Apply(v, s, op).0
    ensures !op.Attach? && !op.Disconnect? && (op.Create? ==> packet.kind == CREATE_ROOM_REQ)
  {
    op := Rooms.Chat;
    if packet.kind == CREATE_ROOM_REQ && Rooms.NormalizedName(packet.payload).Some? {
      op := Rooms.Create(Rooms.NormalizedName(packet.payload).value);
    } else if packet.kind == JOIN_ROOM_REQ && ParseBelow(packet.payload, Rooms.ROOM_ID_SPACE).Some? {
      op := Rooms.Enter(ParseBelow(packet.payload, Rooms.ROOM_ID_SPACE).value);
    } else if packet.kind == LEAVE_ROOM_REQ && packet.payload == [] {
      op := Rooms.Leave;
    } else if packet.kind == POSITION_UPDATE && |packet.payload| == 8 {
      op := Rooms.Move(Rooms.Position(ReadU32(packet.payload, 0), ReadU32(packet.payload, 4)));
    }
  }

  /** The gate sets the version of the packet's session and no other; a session it has turned away
      stays turned away. */
  lemma GateSetsOwnVersion(versions: map<nat, nat>, s: nat, packet: Packet) returns (version: nat)
    requires Gate(versions, s, packet).Some?
    ensures Gate(versions, s, packet).value.0 == versions[s := version]
    ensures s in versions ==> version == 0
    ensures s !in versions && version != 0 ==> packet.kind == VERSION_REQ
  {
    version := Gate(versions, s, packet).value.0[s];
    assert s in versions && versions[s] == 0 ==> versions == versions[s := 0];
  }

  /** The login callback attaches the user it was given, or does nothing. */
  lemma LoginIsAttach(v: Rooms.Service, s: nat, result: UserResult)
    ensures FinishLogin(v, s, result).0
         == if result.Found? then Rooms.Apply(v, s, Rooms.Attach(result.id, result.name)).0 else v
  {
  }
}

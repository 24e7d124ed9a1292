/** The client's state machine: what it sends, and what it makes of what it receives. */
module ClientModel {
  import opened Wrappers
  import opened Bytes
  import opened TextValidation
  import opened StructuredPayload
  import opened Messages
  import opened ProtocolVersion
  import Decimal
  import Rooms = RoomModel

  datatype ClientState = Disconnected | Connecting | Connected | LoggedIn | InRoom

  datatype Request = NoRequest | Login | CreateRoom | JoinRoom | LeaveRoom

  datatype Client = Client(state: ClientState, pending: Request, negotiating: bool, sessionId: Option<nat>)

  /** What becomes of a packet: taken, reported as a protocol error, ignored, or the end of the attempt
      to agree on a version. */
  datatype Verdict = Accepted | Rejected | Ignored | GivenUp

  const OFFLINE := Client(Disconnected, NoRequest, false, None)

  // ---- Sending ----

  predicate Ready(c: Client, state: ClientState) {
    c.state == state && c.pending == NoRequest
  }

  /** `None`: the request is not sent. */
  function LoginPacket(c: Client, username: seq<Byte>): Option<Packet> {
    var name := Rooms.NormalizedName(username);
    if Ready(c, Connected) && name.Some? then Some(Packet(LOGIN_REQ, name.value)) else None
  }

  function CreatePacket(c: Client, roomName: seq<Byte>): Option<Packet> {
    var name := Rooms.NormalizedName(roomName);
    if Ready(c, LoggedIn) && name.Some? then Some(Packet(CREATE_ROOM_REQ, name.value)) else None
  }

  /** `numeric` is the input widget's opinion of the text. */
  function JoinPacket(c: Client, roomId: seq<Byte>, numeric: bool): Option<Packet> {
    if Ready(c, LoggedIn) && numeric then Some(Packet(JOIN_ROOM_REQ, roomId)) else None
  }

  function LeavePacket(c: Client): Option<Packet> {
    if Ready(c, InRoom) then Some(Packet(LEAVE_ROOM_REQ, [])) else None
  }

  function ChatPacket(c: Client, message: seq<Byte>): Option<Packet> {
    if Ready(c, InRoom) && |message| <= MAX_CHAT_MESSAGE_BYTES && ValidText(message)
    then Some(Packet(CHAT_REQ, message)) else None
  }

  function Hello(): Packet {
    Packet(VERSION_REQ, EncodeRequest(VersionRange(MIN_PROTOCOL_VERSION, MAX_PROTOCOL_VERSION)).value)
  }

  // ---- Receiving ----

  predicate Expected(c: Client, kind: U16) {
    match c.pending
    case NoRequest => false
    case Login => kind == LOGIN_RES
    case CreateRoom => kind == CREATE_ROOM_RES
    case JoinRoom => kind == JOIN_ROOM_RES
    case LeaveRoom => kind == LEAVE_ROOM_RES
  }

  function Done(c: Client): Client {
    c.(pending := NoRequest)
  }

  function OnVersion(c: Client, p: Packet): (Client, Verdict) {
    var version := if p.kind == VERSION_RES then DecodeResponse(p.payload) else None;
    if version.Some? && MIN_PROTOCOL_VERSION <= version.value <= MAX_PROTOCOL_VERSION
    then (c.(negotiating := false, state := Connected), Accepted)
    else (c.(negotiating := false), GivenUp)
  }

  function SessionOf(p: Payload): Option<nat> {
    if HasUser(p) then Decimal.ParseBelow(Lookup(p.fields, SESSION_ID).value, U64_SPACE) else None
  }

  function OnLoginResponse(c: Client, payload: Payload): (Client, Verdict) {
    if !LoginAccepted(payload) then (Done(c), Rejected)
    else if c.state == Connected then (Done(c.(state := LoggedIn, sessionId := SessionOf(payload))), Accepted)
    else (Done(c), Accepted)
  }

  function OnRoomResponse(c: Client, payload: Payload, event: seq<Byte>, from: ClientState, to: ClientState)
    : (Client, Verdict)
  {
    if !RoomAccepted(payload, event) then (Done(c), Rejected)
    else if c.state == from then (Done(c.(state := to)), Accepted)
    else (Done(c), Accepted)
  }

  function OnResponse(c: Client, p: Packet): (Client, Verdict) {
    var payload := ParsePayload(p.payload);
    if !Expected(c, p.kind) then (c, Rejected)
    else if payload.Err? then (Done(c), Rejected)
    else if p.kind == LOGIN_RES then OnLoginResponse(c, payload.value)
    else if p.kind == CREATE_ROOM_RES then OnRoomResponse(c, payload.value, Ascii("CREATE_ROOM"), LoggedIn, InRoom)
    else if p.kind == JOIN_ROOM_RES then OnRoomResponse(c, payload.value, Ascii("JOIN_ROOM"), LoggedIn, InRoom)
    else OnRoomResponse(c, payload.value, Ascii("LEAVE_ROOM"), InRoom, LoggedIn)
  }

  function OnBroadcast(c: Client, p: Packet): (Client, Verdict) {
    var payload := ParsePayload(p.payload);
    (c, if payload.Ok? && BroadcastAccepted(payload.value) then Accepted else Rejected)
  }

  predicate IsResponse(kind: U16) {
    kind == LOGIN_RES || kind == CREATE_ROOM_RES || kind == JOIN_ROOM_RES || kind == LEAVE_ROOM_RES
  }

  function OnPacket(c: Client, p: Packet): (Client, Verdict) {
    if c.state == Disconnected || (c.state == Connecting && !c.negotiating) then (c, Ignored)
    else if c.negotiating then OnVersion(c, p)
    else if IsResponse(p.kind) then OnResponse(c, p)
    else if p.kind == ROOM_BROADCAST then OnBroadcast(c, p)
    else if p.kind == ERROR then (Done(c), if ValidText(p.payload) then Accepted else Rejected)
    else (c, Ignored)
  }
}

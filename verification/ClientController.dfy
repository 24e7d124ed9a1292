/** The client controller as the object whose slots the user interface and the transport call. */
module ClientController {
  import opened Wrappers
  import opened Bytes
  import opened TextValidation
  import opened StructuredPayload
  import opened Messages
  import opened ProtocolVersion
  import opened ClientModel
  import Rooms = RoomModel

  /** Each slot returns the packet it hands to the transport; `sent` is whether the transport takes it. */
  class Controller {
    var state: ClientState
    var pending: Request
    var negotiating: bool
    var sessionId: Option<nat>

    ghost function Value(): Client
      reads this
    {
      Client(state, pending, negotiating, sessionId)
    }

    constructor ()
      ensures Value() == OFFLINE
    {
      state, pending, negotiating, sessionId := Disconnected, NoRequest, false, None;
    }

    method ConnectToServer(validAddress: bool)
      modifies this
      ensures Value() == if old(state) == Disconnected && validAddress then old(Value()).(state := Connecting)
                         else old(Value())
    {
      if state == Disconnected && validAddress {
        state := Connecting;
      }
    }

    method OnConnected(sent: bool) returns (packet: Option<Packet>)
      modifies this
      ensures packet == if old(state) == Connecting then Some(Hello()) else None
      ensures Value() == if old(state) == Connecting then old(Value()).(negotiating := sent) else old(Value())
    {
      packet := None;
      if state == Connecting {
        negotiating := true;
        packet := Some(Hello());
        if !sent {
          negotiating := false;
        }
      }
    }

    method OnDisconnected()
      modifies this
      ensures Value() == OFFLINE
    {
      negotiating, pending, sessionId, state := false, NoRequest, None, Disconnected;
    }

    method OnTransportError(fatal: bool)
      modifies this
      ensures Value() == if fatal then OFFLINE else old(Value())
    {
      if fatal {
        negotiating, pending, sessionId, state := false, NoRequest, None, Disconnected;
      }
    }

    method SendRequest(packet: Option<Packet>, request: Request, sent: bool)
      modifies this`pending
      ensures pending == if packet.Some? && sent then request else old(pending)
    {
      if packet.Some? && sent {
        pending := request;
      }
    }

    method LogIn(username: seq<Byte>, sent: bool) returns (packet: Option<Packet>)
      modifies this
      ensures packet == LoginPacket(old(Value()), username)
      ensures Value() == old(Value()).(pending := if packet.Some? && sent then Login else old(pending))
    {
      packet := None;
      if state == Connected && pending == NoRequest {
        var name := TrimAsciiWhitespace(username);
        TrimMeets(username, name);
        var valid := IsValidText(name);
        ValidIffText(name);
        if name != [] && |name| <= Rooms.MAX_NAME_BYTES && valid {
          packet := Some(Packet(LOGIN_REQ, name));
        }
      }
      SendRequest(packet, Login, sent);
    }

    method Create(roomName: seq<Byte>, sent: bool) returns (packet: Option<Packet>)
      modifies this
      ensures packet == CreatePacket(old(Value()), roomName)
      ensures Value() == old(Value()).(pending := if packet.Some? && sent then CreateRoom else old(pending))
    {
      packet := None;
      if state == LoggedIn && pending == NoRequest {
        var name := TrimAsciiWhitespace(roomName);
        TrimMeets(roomName, name);
        var valid := IsValidText(name);
        ValidIffText(name);
        if name != [] && |name| <= Rooms.MAX_NAME_BYTES && valid {
          packet := Some(Packet(CREATE_ROOM_REQ, name));
        }
      }
      SendRequest(packet, CreateRoom, sent);
    }

    method Join(roomId: seq<Byte>, numeric: bool, sent: bool) returns (packet: Option<Packet>)
      modifies this
      ensures packet == JoinPacket(old(Value()), roomId, numeric)
      ensures Value() == old(Value()).(pending := if packet.Some? && sent then JoinRoom else old(pending))
    {
      packet := None;
      if state == LoggedIn && pending == NoRequest && numeric {
        packet := Some(Packet(JOIN_ROOM_REQ, roomId));
      }
      SendRequest(packet, JoinRoom, sent);
    }

    method Leave(sent: bool) returns (packet: Option<Packet>)
      modifies this
      ensures packet == LeavePacket(old(Value()))
      ensures Value() == old(Value()).(pending := if packet.Some? && sent then LeaveRoom else old(pending))
    {
      packet := None;
      if state == InRoom && pending == NoRequest {
        packet := Some(Packet(LEAVE_ROOM_REQ, []));
      }
      SendRequest(packet, LeaveRoom, sent);
    }

    method SendChat(message: seq<Byte>) returns (packet: Option<Packet>)
      ensures packet == ChatPacket(Value(), message)
    {
      packet := None;
      if state == InRoom && pending == NoRequest && |message| <= MAX_CHAT_MESSAGE_BYTES {
        var valid := IsValidText(message);
        ValidIffText(message);
        if valid {
          packet := Some(Packet(CHAT_REQ, message));
        }
      }
    }

    method OnRoomResponse(payload: Payload, event: seq<Byte>, from: ClientState, to: ClientState)
      returns (verdict: Verdict)
      modifies this
      ensures (Value(), verdict) == ClientModel.OnRoomResponse(old(Value()), payload, event, from, to)
    {
      verdict := Rejected;
      if RoomAccepted(payload, event) {
        verdict := Accepted;
        if state == from {
          state := to;
        }
      }
      pending := NoRequest;
    }

    method OnLoginResponse(payload: Payload) returns (verdict: Verdict)
      modifies this
      ensures (Value(), verdict) == ClientModel.OnLoginResponse(old(Value()), payload)
    {
      verdict := Rejected;
      if LoginAccepted(payload) {
        verdict := Accepted;
        if state == Connected {
          sessionId, state := SessionOf(payload), LoggedIn;
        }
      }
      pending := NoRequest;
    }

    method OnResponse(packet: Packet) returns (verdict: Verdict)
      requires IsResponse(packet.kind)
      modifies this
      ensures (Value(), verdict) == ClientModel.OnResponse(old(Value()), packet)
    {
      if !Expected(Client(state, pending, negotiating, sessionId), packet.kind) {
        return Rejected;
      }
      var parsed := Parse(packet.payload);
      if parsed.Err? {
        pending := NoRequest;
        return Rejected;
      }
      if packet.kind == LOGIN_RES {
        verdict := OnLoginResponse(parsed.value);
      } else if packet.kind == CREATE_ROOM_RES {
        verdict := OnRoomResponse(parsed.value, Ascii("CREATE_ROOM"), LoggedIn, InRoom);
      } else if packet.kind == JOIN_ROOM_RES {
        verdict := OnRoomResponse(parsed.value, Ascii("JOIN_ROOM"), LoggedIn, InRoom);
      } else {
        verdict := OnRoomResponse(parsed.value, Ascii("LEAVE_ROOM"), InRoom, LoggedIn);
      }
    }

    method OnNegotiation(packet: Packet) returns (verdict: Verdict)
      modifies this
      ensures (Value(), verdict) == OnVersion(old(Value()), packet)
    {
      negotiating, verdict := false, GivenUp;
      if packet.kind == VERSION_RES {
        var version := DecodeResponse(packet.payload);
        if version.Some? && MIN_PROTOCOL_VERSION <= version.value <= MAX_PROTOCOL_VERSION {
          state, verdict := Connected, Accepted;
        }
      }
    }

    method OnPacketReceived(packet: Packet) returns (verdict: Verdict)
      modifies this
      ensures (Value(), verdict) == OnPacket(old(Value()), packet)
    {
      if state == Disconnected || (state == Connecting && !negotiating) {
        return Ignored;
      }
      if negotiating {
        verdict := OnNegotiation(packet);
      } else if IsResponse(packet.kind) {
        verdict := OnResponse(packet);
      } else if packet.kind == ROOM_BROADCAST {
        var parsed := Parse(packet.payload);
        verdict := if parsed.Ok? && BroadcastAccepted(parsed.value) then Accepted else Rejected;
      } else if packet.kind == ERROR {
        var valid := IsValidText(packet.payload);
        ValidIffText(packet.payload);
        pending := NoRequest;
        verdict := if valid then Accepted else Rejected;
      } else {
        verdict := Ignored;
      }
    }
  }

  lemma TrimMeets(text: seq<Byte>, core: seq<Byte>)
    requires IsTrimOf(text, core)
    ensures core == Trim(text)
  {
    TrimCuts(text);
    TrimIsUnique(text, core, Trim(text));
  }
}

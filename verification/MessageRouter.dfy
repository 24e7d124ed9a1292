/** The message router as an object over the room service, proved against the router's functions. */
module MessageRouter {
  import opened Wrappers
  import opened Bytes
  import opened TextValidation
  import opened StructuredPayload
  import opened Decimal
  import opened Messages
  import opened ProtocolVersion
  import opened Router
  import opened Emission
  import Model = RoomModel
  import RoomService

  /** The service is what the router says, and its output is emitted up to the first message that is refused. */
  ghost predicate Sends(h: Handled, service: Model.Service, context: Context, before: Kept)
    reads context
  {
    service == h.service && Emitted(context.budget, before, h.out, context.Value())
  }

  function AsOut(m: Message): Out
    requires !m.Disconnect?
  {
    if m.Send? then To(m.session, m.packet) else Last(m.session, m.packet)
  }

  function AsMessage(o: Out): Message
    requires !o.ToAll?
  {
    if o.To? then Send(o.session, o.packet) else SendLast(o.session, o.packet)
  }

  /** The versions and the output after the gate's answer, if it has one, has been offered. */
  function Negotiated(b: Budget, gate: (map<nat, nat>, seq<Out>), s: nat, k: Kept): (map<nat, nat>, Kept) {
    if gate.1 == [] || gate.1[0].ToAll? then (gate.0, k)
    else
      var offered := Offer(b, k, AsMessage(gate.1[0]));
      if offered.1 then (gate.0, offered.0) else (gate.0[s := 0], Offer(b, offered.0, Disconnect(s)).0)
  }

  /** The gate's answer, if it has one, is one message to the packet's session, and ends the session exactly
      when it leaves it without a version. */
  lemma GateAnswersOnce(versions: map<nat, nat>, s: nat, packet: Packet)
    requires Gate(versions, s, packet).Some?
    ensures var gate := Gate(versions, s, packet).value;
            && gate.0 == versions[s := gate.0[s]]
            && (gate.1 == [] ==> gate.0 == versions)
            && (gate.1 == [] || exists m: Message :: !m.Disconnect? && m.session == s && gate.1 == [AsOut(m)])
            && (gate.1 != [] ==> (gate.1[0].Last? <==> gate.0[s] == 0))
  {
    var version := GateSetsOwnVersion(versions, s, packet);
    var gate := Gate(versions, s, packet).value;
    assert gate.1 != [] && !gate.1[0].ToAll? ==> gate.1 == [AsOut(AsMessage(gate.1[0]))];
  }

  /** However the answer fares, only the session's own version changes. A session that is answered keeps the
      version it was given; a session whose answer is refused is turned away and disconnected. */
  lemma RefusedIsTurnedAway(b: Budget, versions: map<nat, nat>, s: nat, packet: Packet, k: Kept)
    requires Gate(versions, s, packet).Some? && b.own == s && !k.disconnecting
    ensures var gate := Gate(versions, s, packet).value;
            var after := Negotiated(b, gate, s, k);
            && s in after.0 && after.0 == versions[s := after.0[s]]
            && (gate.1 == [] ==> after == (versions, k))
            && (gate.1 != [] ==>
                  || (after.0 == gate.0 && !gate.1[0].ToAll?
                      && after.1.messages == k.messages + [AsMessage(gate.1[0])])
                  || (after.0[s] == 0 && after.1.messages == k.messages + [Disconnect(s)]))
  {
    GateAnswersOnce(versions, s, packet);
    var gate := Gate(versions, s, packet).value;
    assert gate.0[s := 0] == versions[s := 0];
  }

  datatype Event = Received(session: nat, packet: Packet) | Disconnected(session: nat)

  datatype View = View(versions: map<nat, nat>, service: Model.Service, kept: Kept)

  ghost predicate HandledEvent(e: Event, show: U32 -> seq<Byte>, b: Budget, v: View, v': View,
                               login: Option<LoginName>)
  {
    var s := e.session;
    if e.Disconnected? then
      && v'.versions == v.versions - {s} && login == None
      && v'.service == OnDisconnected(v.service, s).0
      && Emitted(b, v.kept, OnDisconnected(v.service, s).1, v'.kept)
    else
      var gate := Gate(v.versions, s, e.packet);
      if gate.Some? then
        (v'.versions, v'.kept) == Negotiated(b, gate.value, s, v.kept) && v'.service == v.service && login == None
      else
        var h := Router.HandlePacket(v.service, s, e.packet, show);
        && v'.versions == v.versions && v'.service == h.service && login == h.login
        && Emitted(b, v.kept, h.out, v'.kept)
  }

  class Handler {
    var versions: map<nat, nat>
    const rooms: RoomService.Rooms

    ghost predicate Valid()
      reads this, rooms, rooms.lobby
    {
      rooms.Valid()
    }

    ghost function Service(): Model.Service
      reads rooms, rooms.lobby, rooms.lobby.rooms.Values
    {
      rooms.Value()
    }

    constructor (rooms: RoomService.Rooms)
      requires rooms.Valid()
      ensures this.rooms == rooms && versions == map[] && Valid()
    {
      this.rooms, versions := rooms, map[];
    }

    /** The version gate: whether it has dealt with the packet. An answer that is refused turns the session
        away. */
    method HandleNegotiation(s: nat, packet: Packet, context: Context) returns (handled: bool)
      modifies this`versions, context
      ensures handled <==> Gate(old(versions), s, packet).Some?
      ensures !handled ==> versions == old(versions) && context.Value() == old(context.Value())
      ensures handled ==> (versions, context.Value())
                          == Negotiated(context.budget, Gate(old(versions), s, packet).value, s, old(context.Value()))
    {
      handled := true;
      var response := Send(s, Packet(ERROR, []));
      if s in versions {
        if versions[s] == 0 {
          return;
        }
        if packet.kind != VERSION_REQ {
          return false;
        }
        versions := versions[s := 0];
        response := SendLast(s, Packet(ERROR, Ascii("protocol version already negotiated")));
      } else if packet.kind != VERSION_REQ {
        versions := versions[s := 0];
        response := SendLast(s, Packet(ERROR, Ascii("protocol version negotiation required")));
      } else {
        var version: nat;
        version, response := FirstRequest(s, packet.payload);
        versions := versions[s := version];
      }
      var ok := context.Emit(response);
      if !ok {
        versions := versions[s := 0];
        ok := context.Emit(Disconnect(s));
      }
    }

    /** The first version request: the version it gets, and the answer. */
    method FirstRequest(s: nat, payload: seq<Byte>) returns (version: nat, response: Message)
      ensures !response.Disconnect?
      ensures forall vs: map<nat, nat> | s !in vs ::
                Gate(vs, s, Packet(VERSION_REQ, payload)) == Some((vs[s := version], [AsOut(response)]))
    {
      version := 0;
      var range := DecodeRequest(payload);
      if range == None {
        return 0, SendLast(s, Packet(ERROR, Ascii("invalid protocol version request")));
      }
      var best := Negotiate(range.value);
      if best == None {
        return 0, SendLast(s, Packet(ERROR, Ascii("unsupported protocol version")));
      }
      version, response := best.value, Send(s, Packet(VERSION_RES, Text(ResponsePayload(best.value))));
    }

    method OnCreate(s: nat, payload: seq<Byte>) returns (out: seq<Out>)
      requires Valid()
      modifies rooms, rooms.lobby
      ensures Valid() && Handled(Service(), out, None) == Router.OnCreate(old(Service()), s, payload)
    {
      var name := Model.NormalizedName(payload);
      if name == None {
        return [Error(s, Ascii("invalid room name"))];
      }
      var outcome := rooms.CreateRoom(s, name.value);
      if outcome.Refused? {
        return [Error(s, Refusal(outcome.error))];
      }
      out := [To(s, RoomPacket(CREATE_ROOM_RES, Ascii("CREATE_ROOM"), outcome.room, outcome.actor))];
    }

    method OnJoin(s: nat, payload: seq<Byte>) returns (out: seq<Out>)
      requires Valid()
      modifies rooms, rooms.lobby.rooms.Values
      ensures Valid() && Handled(Service(), out, None) == Router.OnJoin(old(Service()), s, payload)
    {
      var id := ParseBelow(payload, Model.ROOM_ID_SPACE);
      if id == None {
        return [Error(s, Ascii("invalid room id"))];
      }
      var outcome := rooms.JoinRoom(s, id.value);
      if outcome.Refused? {
        return [Error(s, Refusal(outcome.error))];
      }
      out := Announce(s, JOIN_ROOM_RES, Ascii("JOIN_ROOM"), Ascii("JOIN"), outcome);
    }

    method OnLeave(s: nat, payload: seq<Byte>) returns (out: seq<Out>)
      requires Valid()
      modifies rooms, rooms.lobby, rooms.lobby.rooms.Values
      ensures Valid() && Handled(Service(), out, None) == Router.OnLeave(old(Service()), s, payload)
    {
      if payload != [] {
        return [Error(s, Ascii("invalid leave room request"))];
      }
      var outcome := rooms.LeaveRoom(s);
      if outcome.Refused? {
        return [Error(s, Refusal(outcome.error))];
      }
      out := Announce(s, LEAVE_ROOM_RES, Ascii("LEAVE_ROOM"), Ascii("LEAVE"), outcome);
    }

    method OnChat(s: nat, payload: seq<Byte>) returns (out: seq<Out>)
      requires Valid()
      ensures Handled(Service(), out, None) == Router.OnChat(Service(), s, payload)
    {
      if |payload| > MAX_CHAT_MESSAGE_BYTES {
        return [Error(s, Ascii("chat message too large"))];
      }
      var valid := IsValidText(payload);
      ValidIffText(payload);
      if !valid {
        return [Error(s, Ascii("invalid chat message"))];
      }
      var outcome := rooms.Chat(s);
      if outcome.Refused? {
        return [Error(s, Refusal(outcome.error))];
      }
      var text := Text(ChatPayload(outcome.room, outcome.actor, payload));
      out := [ToAll(outcome.recipients, Packet(ROOM_BROADCAST, text))];
    }

    method OnPosition(s: nat, payload: seq<Byte>, show: U32 -> seq<Byte>) returns (out: seq<Out>)
      requires Valid()
      modifies rooms.lobby.rooms.Values
      ensures Valid() && Handled(Service(), out, None) == Router.OnPosition(old(Service()), s, payload, show)
    {
      if |payload| != 8 {
        return [Error(s, Ascii("position payload must be exactly 8 bytes"))];
      }
      var p := Model.Position(ReadU32(payload, 0), ReadU32(payload, 4));
      var outcome := rooms.UpdatePosition(s, p);
      if outcome.Refused? {
        return [Error(s, Refusal(outcome.error))];
      }
      var text := Text(PositionPayload(outcome.room, outcome.actor, show(p.x), show(p.y)));
      out := [ToAll(outcome.recipients, Packet(ROOM_BROADCAST, text))];
    }

    /** A packet of a negotiated session; `login` is set when the answer waits for the repository. */
    method Respond(s: nat, packet: Packet, show: U32 -> seq<Byte>)
      returns (out: seq<Out>, login: Option<LoginName>)
      requires Valid()
      modifies rooms, rooms.lobby, rooms.lobby.rooms.Values
      ensures Valid() && Handled(Service(), out, login) == Router.HandlePacket(old(Service()), s, packet, show)
    {
      login := None;
      if packet.kind == LOGIN_REQ {
        var name := Model.NormalizedName(packet.payload);
        if name == None {
          out := [Error(s, Ascii("invalid user name"))];
        } else {
          out, login := [], Some(LoginName(Lower(name.value), name.value));
        }
      } else if packet.kind == CREATE_ROOM_REQ {
        out := OnCreate(s, packet.payload);
      } else if packet.kind == JOIN_ROOM_REQ {
        out := OnJoin(s, packet.payload);
      } else if packet.kind == LEAVE_ROOM_REQ {
        out := OnLeave(s, packet.payload);
      } else if packet.kind == CHAT_REQ {
        out := OnChat(s, packet.payload);
      } else if packet.kind == POSITION_UPDATE {
        out := OnPosition(s, packet.payload, show);
      } else if packet.kind == PING {
        out := if packet.payload != [] then [Error(s, Ascii("invalid ping request"))]
               else [To(s, Packet(PONG, Ascii("PONG")))];
      } else {
        out := [Error(s, Ascii("unsupported packet type"))];
      }
    }

    /** A packet of a negotiated session; `login` is set when the answer waits for the repository. */
    method HandlePacket(s: nat, packet: Packet, show: U32 -> seq<Byte>, context: Context)
      returns (login: Option<LoginName>)
      requires Valid()
      modifies rooms, rooms.lobby, rooms.lobby.rooms.Values, context
      ensures Valid() && login == Router.HandlePacket(old(Service()), s, packet, show).login
      ensures Sends(Router.HandlePacket(old(Service()), s, packet, show), Service(), context, old(context.Value()))
    {
      var out;
      out, login := Respond(s, packet, show);
      context.EmitInTurn(out);
    }

    /** The repository's callback. */
    method FinishLogin(s: nat, result: UserResult) returns (packet: Packet)
      requires Valid()
      modifies rooms
      ensures Valid() && (Service(), packet) == Router.FinishLogin(old(Service()), s, result)
    {
      if result.Missing? {
        return Packet(ERROR, PersistenceText(result.error));
      }
      var outcome := rooms.AttachUser(s, result.id, result.name);
      if outcome.Refused? {
        return Packet(ERROR, Refusal(outcome.error));
      }
      packet := Packet(LOGIN_RES, Text(LoginPayload(outcome.actor)));
    }

    /** The session is forgotten: first the version, then the user and the room. */
    method Forget(s: nat) returns (out: seq<Out>)
      requires Valid()
      modifies this`versions, rooms, rooms.lobby, rooms.lobby.rooms.Values
      ensures Valid() && versions == old(versions) - {s} && (Service(), out) == OnDisconnected(old(Service()), s)
    {
      versions := versions - {s};
      var outcome := rooms.Disconnect(s);
      if outcome.Refused? || outcome.room == 0 {
        return [];
      }
      out := [ToAll(outcome.recipients - {s},
                    RoomPacket(ROOM_BROADCAST, Ascii("LEAVE"), outcome.room, outcome.actor))];
    }

    /** The end of a session. */
    method HandleDisconnected(s: nat, context: Context)
      requires Valid()
      modifies this`versions, rooms, rooms.lobby, rooms.lobby.rooms.Values, context
      ensures Valid() && versions == old(versions) - {s} && Service() == OnDisconnected(old(Service()), s).0
      ensures Emitted(context.budget, old(context.Value()), OnDisconnected(old(Service()), s).1, context.Value())
    {
      var out := Forget(s);
      context.EmitInTurn(out);
    }

    /** An event: the end of a session, or a packet, which has to pass the gate. */
    method Handle(event: Event, show: U32 -> seq<Byte>, context: Context) returns (login: Option<LoginName>)
      requires Valid()
      modifies this`versions, rooms, rooms.lobby, rooms.lobby.rooms.Values, context
      ensures Valid()
      ensures HandledEvent(event, show, context.budget, View(old(versions), old(Service()), old(context.Value())),
                           View(versions, Service(), context.Value()), login)
    {
      login := None;
      if event.Disconnected? {
        HandleDisconnected(event.session, context);
      } else {
        var handled := HandleNegotiation(event.session, event.packet, context);
        if !handled {
          login := HandlePacket(event.session, event.packet, show, context);
        }
      }
    }
  }
}

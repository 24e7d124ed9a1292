/** What the turns of one session make another hear: only broadcasts the client accepts, and only while the
    other is in a room. */
module OtherTurns {
  import opened Wrappers
  import opened Bytes
  import opened TextValidation
  import opened StructuredPayload
  import opened Decimal
  import opened Messages
  import opened ClientModel
  import opened Agreement
  import Router
  import Rooms = RoomModel

  // ---- Packets ----

  lemma BuiltPacket(p: Payload)
    requires Buildable(p)
    ensures ParsePayload(Router.Text(p)) == Ok(p)
  {
    ParseBuild(p);
  }

  lemma BroadcastIsNews(p: Payload)
    requires Buildable(p) && BroadcastAccepted(p)
    ensures IsNews(Packet(ROOM_BROADCAST, Router.Text(p)))
  {
    BuiltPacket(p);
  }

  lemma RoomNews(event: seq<Byte>, room: U32, actor: Rooms.User)
    requires ValidUser(actor) && room != 0 && (event == Ascii("JOIN") || event == Ascii("LEAVE"))
    ensures IsNews(Router.RoomPacket(ROOM_BROADCAST, event, room, actor))
  {
    RoomIsAccepted(event, room, actor);
    BroadcastIsNews(RoomPayload(event, room, actor));
  }

  lemma ChatNews(room: U32, actor: Rooms.User, message: seq<Byte>)
    requires ValidUser(actor) && room != 0 && ValidText(message)
    ensures IsNews(Packet(ROOM_BROADCAST, Router.Text(ChatPayload(room, actor, message))))
  {
    ChatIsAccepted(room, actor, message);
    BroadcastIsNews(ChatPayload(room, actor, message));
  }

  lemma PositionNews(room: U32, actor: Rooms.User, x: seq<Byte>, y: seq<Byte>)
    requires ValidUser(actor) && room != 0 && ValidText(x) && ValidText(y) && x != [] && y != []
    ensures IsNews(Packet(ROOM_BROADCAST, Router.Text(PositionPayload(room, actor, x, y))))
  {
    PositionIsAccepted(room, actor, x, y);
    BroadcastIsNews(PositionPayload(room, actor, x, y));
  }

  lemma HeardOne(o: Router.Out, s: nat)
    ensures Router.Heard([o], s) == Router.Hears(o, s)
  {
    assert [o][1..] == [];
  }

  lemma HeardTwo(a: Router.Out, b: Router.Out, s: nat)
    ensures Router.Heard([a, b], s) == Router.Hears(a, s) + Router.Hears(b, s)
  {
    assert [a, b][1..] == [b];
    HeardOne(b, s);
  }

  lemma {:induction false} NewsAppend(a: seq<Packet>, b: seq<Packet>)
    ensures AllNews(a + b) <==> AllNews(a) && AllNews(b)
  {
    if a == [] {
      assert a + b == b;
    } else {
      NewsAppend(a[1..], b);
      assert (a + b)[1..] == a[1..] + b;
    }
  }

  lemma OneNews(p: Packet)
    ensures AllNews([p]) <==> IsNews(p)
  {
    assert [p][1..] == [];
  }

  // ---- What is granted ----

  /** Someone in a room is a valid user in a room with an id, and one of its members. */
  lemma InsideRoom(v: Rooms.Service, s: nat, n: nat)
    requires Rooms.Consistent(v) && Rooms.IdsSpent(v, n) && UsersOk(v) && s in v.roomOf
    ensures s in v.users && ValidUser(v.users[s]) && v.roomOf[s] in v.rooms && v.roomOf[s] != 0
    ensures s in v.rooms[v.roomOf[s]].members
  {
  }

  /** A call that is granted names a valid user and a room with an id, and tells members only. */
  ghost predicate Tells(v: Rooms.Service, t: nat, o: Rooms.Outcome) {
    o.Granted? ==>
      ValidUser(o.actor) && o.room != 0 && forall q | q in o.recipients && q != t :: q in v.roomOf
  }

  lemma MembersArePlaced(v: Rooms.Service, r: U32)
    requires Rooms.Rooted(v) && r in v.rooms
    ensures forall q | q in v.rooms[r].members :: q in v.roomOf
  {
    assert Rooms.RoomAgrees(v.users, v.roomOf, r, v.rooms[r]);
  }

  lemma JoinTells(v: Rooms.Service, t: nat, id: U32, n: nat)
    requires Rooms.Consistent(v) && Rooms.IdsSpent(v, n) && UsersOk(v)
    ensures Tells(v, t, Rooms.JoinRoom(v, t, id).1)
  {
    if id in v.rooms {
      MembersArePlaced(v, id);
    }
  }

  lemma MemberTells(v: Rooms.Service, t: nat, p: Rooms.Position, n: nat)
    requires Rooms.Consistent(v) && Rooms.IdsSpent(v, n) && UsersOk(v)
    ensures Tells(v, t, Rooms.LeaveRoom(v, t).1) && Tells(v, t, Rooms.ChatIn(v, t).1)
    ensures Tells(v, t, Rooms.UpdatePosition(v, t, p).1)
    ensures Rooms.DisconnectUser(v, t).1.Granted? && Rooms.DisconnectUser(v, t).1.room != 0 ==>
              Tells(v, t, Rooms.DisconnectUser(v, t).1)
  {
    if t in v.roomOf {
      InsideRoom(v, t, n);
      MembersArePlaced(v, v.roomOf[t]);
    }
  }

  // ---- What is heard ----

  /** Session `s` hears news only, and none unless it is in a room. */
  ghost predicate NewsOnly(v: Rooms.Service, out: seq<Router.Out>, s: nat) {
    // The body has a name so that the verifier proves and uses the predicate whole, not split into its parts.
    var only := AllNews(Router.Heard(out, s)) && (Router.Heard(out, s) != [] ==> s in v.roomOf);
    only
  }

  lemma ToOneself(v: Rooms.Service, t: nat, p: Packet, s: nat)
    requires s != t
    ensures NewsOnly(v, [Router.To(t, p)], s)
  {
    HeardOne(Router.To(t, p), s);
  }

  lemma ToMembers(v: Rooms.Service, recipients: set<nat>, p: Packet, s: nat)
    requires IsNews(p) && (s in recipients ==> s in v.roomOf)
    ensures NewsOnly(v, [Router.ToAll(recipients, p)], s)
  {
    HeardOne(Router.ToAll(recipients, p), s);
    OneNews(p);
  }

  lemma AnnounceIsNews(v: Rooms.Service, t: nat, kind: U16, answer: seq<Byte>, news: seq<Byte>, o: Rooms.Outcome, s: nat)
    requires s != t && o.Granted? && Tells(v, t, o) && (news == Ascii("JOIN") || news == Ascii("LEAVE"))
    ensures NewsOnly(v, Router.Announce(t, kind, answer, news, o), s)
  {
    RoomNews(news, o.room, o.actor);
    HeardTwo(Router.To(t, Router.RoomPacket(kind, answer, o.room, o.actor)),
             Router.ToAll(o.recipients - {t}, Router.RoomPacket(ROOM_BROADCAST, news, o.room, o.actor)), s);
    OneNews(Router.RoomPacket(ROOM_BROADCAST, news, o.room, o.actor));
  }

  lemma JoinIsNews(v: Rooms.Service, t: nat, payload: seq<Byte>, s: nat, n: nat)
    requires s != t && Rooms.Consistent(v) && Rooms.IdsSpent(v, n) && UsersOk(v)
    ensures NewsOnly(v, Router.OnJoin(v, t, payload).out, s)
  {
    var id := ParseBelow(payload, Rooms.ROOM_ID_SPACE);
    if id == None {
      ToOneself(v, t, Packet(ERROR, Ascii("invalid room id")), s);
    } else {
      var o := Rooms.JoinRoom(v, t, id.value).1;
      JoinTells(v, t, id.value, n);
      if o.Refused? {
        ToOneself(v, t, Packet(ERROR, Router.Refusal(o.error)), s);
      } else {
        AnnounceIsNews(v, t, JOIN_ROOM_RES, Ascii("JOIN_ROOM"), Ascii("JOIN"), o, s);
      }
    }
  }

  lemma LeaveIsNews(v: Rooms.Service, t: nat, payload: seq<Byte>, s: nat)
    requires s != t && Tells(v, t, Rooms.LeaveRoom(v, t).1)
    ensures NewsOnly(v, Router.OnLeave(v, t, payload).out, s)
  {
    var o := Rooms.LeaveRoom(v, t).1;
    if payload != [] {
      ToOneself(v, t, Packet(ERROR, Ascii("invalid leave room request")), s);
    } else if o.Refused? {
      ToOneself(v, t, Packet(ERROR, Router.Refusal(o.error)), s);
    } else {
      AnnounceIsNews(v, t, LEAVE_ROOM_RES, Ascii("LEAVE_ROOM"), Ascii("LEAVE"), o, s);
    }
  }

  lemma ChatIsNews(v: Rooms.Service, t: nat, payload: seq<Byte>, s: nat)
    requires s != t && Tells(v, t, Rooms.ChatIn(v, t).1)
    ensures NewsOnly(v, Router.OnChat(v, t, payload).out, s)
  {
    var o := Rooms.ChatIn(v, t).1;
    if |payload| > MAX_CHAT_MESSAGE_BYTES {
      ToOneself(v, t, Packet(ERROR, Ascii("chat message too large")), s);
    } else if !ValidText(payload) {
      ToOneself(v, t, Packet(ERROR, Ascii("invalid chat message")), s);
    } else if o.Refused? {
      ToOneself(v, t, Packet(ERROR, Router.Refusal(o.error)), s);
    } else {
      ChatNews(o.room, o.actor, payload);
      ToMembers(v, o.recipients, Packet(ROOM_BROADCAST, Router.Text(ChatPayload(o.room, o.actor, payload))), s);
    }
  }

  lemma PositionIsNews(v: Rooms.Service, t: nat, payload: seq<Byte>, show: U32 -> seq<Byte>, s: nat, n: nat)
    requires s != t && Prints(show) && Rooms.Consistent(v) && Rooms.IdsSpent(v, n) && UsersOk(v)
    ensures NewsOnly(v, Router.OnPosition(v, t, payload, show).out, s)
  {
    if |payload| != 8 {
      ToOneself(v, t, Packet(ERROR, Ascii("position payload must be exactly 8 bytes")), s);
    } else {
      var p := Rooms.Position(Router.ReadU32(payload, 0), Router.ReadU32(payload, 4));
      var o := Rooms.UpdatePosition(v, t, p).1;
      MemberTells(v, t, p, n);
      if o.Refused? {
        ToOneself(v, t, Packet(ERROR, Router.Refusal(o.error)), s);
      } else {
        PositionNews(o.room, o.actor, show(p.x), show(p.y));
        ToMembers(v, o.recipients,
                  Packet(ROOM_BROADCAST, Router.Text(PositionPayload(o.room, o.actor, show(p.x), show(p.y)))), s);
      }
    }
  }

  /** Requests that concern nobody else. */
  lemma PrivateIsNews(v: Rooms.Service, t: nat, payload: seq<Byte>, s: nat)
    requires s != t
    ensures NewsOnly(v, Router.OnLogin(v, t, payload).out, s) && NewsOnly(v, Router.OnCreate(v, t, payload).out, s)
    ensures NewsOnly(v, Router.OnPing(v, t, payload).out, s)
    ensures NewsOnly(v, Router.Refused(v, t, Ascii("unsupported packet type")).out, s)
  {
    forall p: Packet ensures Router.Heard([Router.To(t, p)], s) == [] {
      HeardOne(Router.To(t, p), s);
    }
  }

  /** Whatever packet another session sends, this one hears news only, and none unless it is in a room. */
  lemma PacketIsNews(v: Rooms.Service, t: nat, packet: Packet, show: U32 -> seq<Byte>, s: nat, n: nat)
    requires s != t && Prints(show) && Rooms.Consistent(v) && Rooms.IdsSpent(v, n) && UsersOk(v)
    ensures NewsOnly(v, Router.HandlePacket(v, t, packet, show).out, s)
  {
    MemberTells(v, t, Rooms.Position(0, 0), n);
    if packet.kind == JOIN_ROOM_REQ {
      JoinIsNews(v, t, packet.payload, s, n);
    } else if packet.kind == LEAVE_ROOM_REQ {
      LeaveIsNews(v, t, packet.payload, s);
    } else if packet.kind == CHAT_REQ {
      ChatIsNews(v, t, packet.payload, s);
    } else if packet.kind == POSITION_UPDATE {
      PositionIsNews(v, t, packet.payload, show, s, n);
    } else {
      PrivateIsNews(v, t, packet.payload, s);
    }
  }

  /** So does the end of another session. */
  lemma EndIsNews(v: Rooms.Service, t: nat, s: nat, n: nat)
    requires s != t && Rooms.Consistent(v) && Rooms.IdsSpent(v, n) && UsersOk(v)
    ensures NewsOnly(v, Router.OnDisconnected(v, t).1, s)
  {
    var o := Rooms.DisconnectUser(v, t).1;
    MemberTells(v, t, Rooms.Position(0, 0), n);
    if o.Granted? && o.room != 0 {
      RoomNews(Ascii("LEAVE"), o.room, o.actor);
      ToMembers(v, o.recipients - {t}, Router.RoomPacket(ROOM_BROADCAST, Ascii("LEAVE"), o.room, o.actor), s);
    }
  }

  /** The gate answers the session it holds back, and nobody else. */
  lemma GateIsPrivate(versions: map<nat, nat>, t: nat, packet: Packet, s: nat)
    requires s != t && Router.Gate(versions, t, packet).Some?
    ensures Router.Heard(Router.Gate(versions, t, packet).value.1, s) == []
    ensures var versions' := Router.Gate(versions, t, packet).value.0;
            (s in versions' <==> s in versions) && (s in versions ==> versions'[s] == versions[s])
  {
    forall p: Packet ensures Router.Heard([Router.To(t, p)], s) == [] && Router.Heard([Router.Last(t, p)], s) == [] {
      HeardOne(Router.To(t, p), s);
      HeardOne(Router.Last(t, p), s);
    }
  }

  /** A whole turn of another session, gate included. */
  lemma TurnIsNews(w: World, s: nat, t: nat, packet: Packet, show: U32 -> seq<Byte>)
    requires s != t && Prints(show) && ServiceOk(w.service, w.creations)
    ensures var turn := TurnWith(w, t, packet, show);
            && NewsOnly(w.service, turn.out, s)
            && (s in turn.versions <==> s in w.versions) && (s in w.versions ==> turn.versions[s] == w.versions[s])
  {
    if Router.Gate(w.versions, t, packet).Some? {
      GateIsPrivate(w.versions, t, packet, s);
    } else {
      PacketIsNews(w.service, t, packet, show, s, w.creations);
    }
  }
}

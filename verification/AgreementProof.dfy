/** Every action of the conversation keeps the two sides in agreement. */
module AgreementProof {
  import opened Wrappers
  import opened Bytes
  import opened TextValidation
  import opened StructuredPayload
  import opened Decimal
  import opened Messages
  import opened ProtocolVersion
  import opened ClientModel
  import opened Agreement
  import opened OtherTurns
  import Router
  import Rooms = RoomModel

  // ---- The service ----

  lemma UsersAfter(v: Rooms.Service, t: nat, op: Rooms.Op)
    ensures var users := Rooms.Apply(v, t, op).0.users;
            users == v.users || users == v.users - {t}
            || (op.Attach? && t !in v.users && users == v.users[t := Rooms.User(op.id, t, op.name)])
  {
  }

  lemma UsersStayOk(v: Rooms.Service, t: nat, op: Rooms.Op)
    requires UsersOk(v) && (op.Attach? ==> ValidUser(Rooms.User(op.id, t, op.name)))
    ensures UsersOk(Rooms.Apply(v, t, op).0)
  {
    UsersAfter(v, t, op);
  }

  lemma ServiceStays(w: World, t: nat, op: Rooms.Op, w': World)
    requires ServiceOk(w.service, w.creations) && w'.creations < Rooms.ROOM_ID_SPACE
    requires op.Attach? ==> ValidUser(Rooms.User(op.id, t, op.name))
    requires w'.service == Rooms.Apply(w.service, t, op).0
    requires w'.creations == w.creations + if Rooms.Creates(w.service, t, op) then 1 else 0
    ensures ServiceOk(w'.service, w'.creations)
  {
    var n := Rooms.IdsStep(w.service, t, op, w.creations);
    Rooms.ConsistentStaysIff(w.service, t, op);
    UsersStayOk(w.service, t, op);
  }

  lemma OthersKeepStatus(v: Rooms.Service, s: nat, t: nat, op: Rooms.Op)
    requires Rooms.Consistent(v) && s != t
    ensures Status(Rooms.Apply(v, t, op).0, s) == Status(v, s)
  {
    Rooms.OthersKeepTheirPlace(v, t, op, s);
  }

  // ---- Packets ----

  lemma ErrorPacket(text: seq<Byte>)
    requires PlainAscii(text)
    ensures IsError(Packet(ERROR, text))
  {
    PlainAsciiIsValid(text);
  }

  // ---- What the server answers ----

  /** The session hears one packet: an error that changes nothing, or the answer to its request. */
  ghost predicate Answers(v: Rooms.Service, s: nat, h: Router.Handled, r: Request) {
    && h.login == None && |Router.Heard(h.out, s)| == 1
    && var p := Router.Heard(h.out, s)[0];
       (IsError(p) && Status(h.service, s) == Status(v, s)) || (IsAnswer(p, r, s) && Status(h.service, s) == Into(r))
  }

  lemma RefusedAnswers(v: Rooms.Service, s: nat, text: seq<Byte>, r: Request)
    requires PlainAscii(text)
    ensures Answers(v, s, Router.Refused(v, s, text), r)
  {
    HeardOne(Router.Error(s, text), s);
    ErrorPacket(text);
  }

  lemma RoomAnswer(kind: U16, event: seq<Byte>, room: U32, actor: Rooms.User)
    requires ValidUser(actor) && room != 0 && PlainAscii(event)
    ensures var p := ParsePayload(Router.RoomPacket(kind, event, room, actor).payload);
            p.Ok? && RoomAccepted(p.value, event)
  {
    RoomIsAccepted(event, room, actor);
    BuiltPacket(RoomPayload(event, room, actor));
  }

  lemma CreatedAnswers(v: Rooms.Service, v': Rooms.Service, s: nat, room: U32, actor: Rooms.User)
    requires ValidUser(actor) && room != 0 && Status(v', s) == InRoom
    ensures var answer := Router.RoomPacket(CREATE_ROOM_RES, Ascii("CREATE_ROOM"), room, actor);
            Answers(v, s, Router.Handled(v', [Router.To(s, answer)], None), CreateRoom)
  {
    RoomAnswer(CREATE_ROOM_RES, Ascii("CREATE_ROOM"), room, actor);
    HeardOne(Router.To(s, Router.RoomPacket(CREATE_ROOM_RES, Ascii("CREATE_ROOM"), room, actor)), s);
  }

  lemma CreateOutcome(v: Rooms.Service, s: nat, name: seq<Byte>, n: nat)
    requires Rooms.IdsSpent(v, n) && UsersOk(v)
    requires n + Spent(v, Rooms.CreateRoom(v, s, name).0) < Rooms.ROOM_ID_SPACE
    ensures GoodOutcome(v, Rooms.CreateRoom(v, s, name), s, InRoom)
  {
    Rooms.CreatesIffGranted(v, s, Rooms.Create(name));
  }

  lemma CreateAnswers(v: Rooms.Service, s: nat, payload: seq<Byte>, n: nat)
    requires Rooms.IdsSpent(v, n) && UsersOk(v)
    requires n + Spent(v, Router.OnCreate(v, s, payload).service) < Rooms.ROOM_ID_SPACE
    ensures Answers(v, s, Router.OnCreate(v, s, payload), CreateRoom)
  {
    var name := Rooms.NormalizedName(payload);
    if name == None {
      RefusedAnswers(v, s, Ascii("invalid room name"), CreateRoom);
    } else {
      var r := Rooms.CreateRoom(v, s, name.value);
      CreateOutcome(v, s, name.value, n);
      if r.1.Refused? {
        RefusedAnswers(v, s, Router.Refusal(r.1.error), CreateRoom);
      } else {
        CreatedAnswers(v, r.0, s, r.1.room, r.1.actor);
      }
    }
  }

  lemma AnnounceHeard(s: nat, kind: U16, answer: seq<Byte>, news: seq<Byte>, o: Rooms.Outcome)
    requires o.Granted?
    ensures Router.Heard(Router.Announce(s, kind, answer, news, o), s) == [Router.RoomPacket(kind, answer, o.room, o.actor)]
  {
    var mine := Router.To(s, Router.RoomPacket(kind, answer, o.room, o.actor));
    var theirs := Router.ToAll(o.recipients - {s}, Router.RoomPacket(ROOM_BROADCAST, news, o.room, o.actor));
    HeardTwo(mine, theirs, s);
  }

  predicate AnswersWith(r: Request, kind: U16, event: seq<Byte>) {
    || (r == JoinRoom && kind == JOIN_ROOM_RES && event == Ascii("JOIN_ROOM"))
    || (r == LeaveRoom && kind == LEAVE_ROOM_RES && event == Ascii("LEAVE_ROOM"))
  }

  lemma AnnouncedAnswers(v: Rooms.Service, v': Rooms.Service, s: nat, kind: U16, answer: seq<Byte>, news: seq<Byte>,
                         o: Rooms.Outcome, r: Request)
    requires o.Granted? && ValidUser(o.actor) && o.room != 0 && PlainAscii(answer) && AnswersWith(r, kind, answer)
    requires Status(v', s) == Into(r)
    ensures Answers(v, s, Router.Handled(v', Router.Announce(s, kind, answer, news, o), None), r)
  {
    RoomAnswer(kind, answer, o.room, o.actor);
    AnnounceHeard(s, kind, answer, news, o);
  }

  /** A refusal changes nothing; a grant names a valid user and a room, and leads to `to`. */
  ghost predicate GoodOutcome(v: Rooms.Service, r: (Rooms.Service, Rooms.Outcome), s: nat, to: ClientState) {
    if r.1.Refused? then r.0 == v else ValidUser(r.1.actor) && r.1.room != 0 && Status(r.0, s) == to
  }

  lemma JoinOutcome(v: Rooms.Service, s: nat, id: U32, n: nat)
    requires Rooms.IdsSpent(v, n) && UsersOk(v)
    ensures GoodOutcome(v, Rooms.JoinRoom(v, s, id), s, InRoom)
  {
  }

  lemma LeaveOutcome(v: Rooms.Service, s: nat, n: nat)
    requires Rooms.Consistent(v) && Rooms.IdsSpent(v, n) && UsersOk(v)
    ensures GoodOutcome(v, Rooms.LeaveRoom(v, s), s, LoggedIn)
  {
    if s in v.roomOf {
      InsideRoom(v, s, n);
    }
  }

  lemma JoinAnswers(v: Rooms.Service, s: nat, payload: seq<Byte>)
    requires forall id: U32 :: GoodOutcome(v, Rooms.JoinRoom(v, s, id), s, InRoom)
    ensures Answers(v, s, Router.OnJoin(v, s, payload), JoinRoom)
  {
    var id := ParseBelow(payload, Rooms.ROOM_ID_SPACE);
    if id == None {
      RefusedAnswers(v, s, Ascii("invalid room id"), JoinRoom);
    } else {
      var r := Rooms.JoinRoom(v, s, id.value);
      assert GoodOutcome(v, r, s, InRoom);
      if r.1.Refused? {
        RefusedAnswers(v, s, Router.Refusal(r.1.error), JoinRoom);
      } else {
        AnnouncedAnswers(v, r.0, s, JOIN_ROOM_RES, Ascii("JOIN_ROOM"), Ascii("JOIN"), r.1, JoinRoom);
      }
    }
  }

  lemma LeaveAnswers(v: Rooms.Service, s: nat, payload: seq<Byte>)
    requires GoodOutcome(v, Rooms.LeaveRoom(v, s), s, LoggedIn)
    ensures Answers(v, s, Router.OnLeave(v, s, payload), LeaveRoom)
  {
    if payload != [] {
      RefusedAnswers(v, s, Ascii("invalid leave room request"), LeaveRoom);
    } else {
      var r := Rooms.LeaveRoom(v, s);
      if r.1.Refused? {
        RefusedAnswers(v, s, Router.Refusal(r.1.error), LeaveRoom);
      } else {
        AnnouncedAnswers(v, r.0, s, LEAVE_ROOM_RES, Ascii("LEAVE_ROOM"), Ascii("LEAVE"), r.1, LeaveRoom);
      }
    }
  }

  lemma ChatHeard(v: Rooms.Service, s: nat, payload: seq<Byte>, n: nat)
    requires Rooms.Consistent(v) && Rooms.IdsSpent(v, n) && UsersOk(v) && s in v.roomOf
    requires |payload| <= MAX_CHAT_MESSAGE_BYTES && ValidText(payload)
    ensures var h := Router.OnChat(v, s, payload);
            h.service == v && h.login == None && |Router.Heard(h.out, s)| == 1 && IsNews(Router.Heard(h.out, s)[0])
  {
    InsideRoom(v, s, n);
    var room := v.roomOf[s];
    ChatNews(room, v.users[s], payload);
    HeardOne(Router.ToAll(v.rooms[room].members.Keys,
                          Packet(ROOM_BROADCAST, Router.Text(ChatPayload(room, v.users[s], payload)))), s);
  }

  lemma LoginNamesSession(u: Rooms.User)
    requires ValidUser(u)
    ensures SessionOf(LoginPayload(u)) == Some(u.session)
  {
    LoginIsAccepted(u);
    LookupAt(LoginPayload(u).fields, 1);
    NumbersComeBack(u.session, U64_SPACE);
  }

  lemma LoginAnswer(u: Rooms.User)
    requires ValidUser(u)
    ensures IsAnswer(Packet(LOGIN_RES, Router.Text(LoginPayload(u))), Login, u.session)
  {
    LoginIsAccepted(u);
    LoginNamesSession(u);
    BuiltPacket(LoginPayload(u));
  }

  lemma LoginFinished(v: Rooms.Service, s: nat, result: Router.UserResult)
    requires result.Found? ==> ValidUser(Rooms.User(result.id, s, result.name))
    requires Rooms.Consistent(v) && Status(v, s) == Connected
    ensures var r := Router.FinishLogin(v, s, result);
            && ((IsError(r.1) && r.0 == v) || (IsAnswer(r.1, Login, s) && Status(r.0, s) == LoggedIn))
            && (result.Found? ==> r.0 == Rooms.Apply(v, s, Rooms.Attach(result.id, result.name)).0)
  {
    if result.Missing? {
      ErrorPacket(Router.PersistenceText(result.error));
    } else {
      LoginAnswer(Rooms.User(result.id, s, result.name));
    }
  }

  // ---- Delivery ----

  lemma DropFirst(a: seq<Packet>, b: seq<Packet>)
    requires a != []
    ensures (a + b)[0] == a[0] && (a + b)[1..] == a[1..] + b
  {
  }

  lemma MoveOver(a: seq<Packet>, b: seq<Packet>)
    requires b != []
    ensures a + [b[0]] + b[1..] == a + b
  {
  }

  lemma AddLast(a: seq<Packet>, b: seq<Packet>, ps: seq<Packet>, p: Packet)
    requires |ps| == 1 && ps[0] == p
    ensures a + (b + ps) == a + b + [p]
  {
  }

  lemma NewsTaken(c: Client, p: Packet)
    requires IsNews(p) && c.state != Disconnected && c.state != Connecting && !c.negotiating
    ensures OnPacket(c, p) == (c, Accepted)
  {
    assert ReadsAs(p.payload, ParsePayload(p.payload));
  }

  lemma ErrorTaken(c: Client, p: Packet)
    requires IsError(p) && c.state != Disconnected && c.state != Connecting && !c.negotiating
    ensures OnPacket(c, p) == (Done(c), Accepted)
  {
    assert TextIs(p.payload, ValidText(p.payload));
  }

  lemma LoginTaken(c: Client, p: Packet, payload: Payload)
    requires c.pending == Login && c.state == Connected && !c.negotiating
    requires p.kind == LOGIN_RES && ParsePayload(p.payload) == Ok(payload) && LoginAccepted(payload)
    ensures OnPacket(c, p) == (Done(c.(state := LoggedIn, sessionId := SessionOf(payload))), Accepted)
  {
  }

  lemma RoomTaken(c: Client, p: Packet, payload: Payload)
    requires c.pending != NoRequest && c.pending != Login && c.state == From(c.pending) && !c.negotiating
    requires p.kind == AnswerKind(c.pending) && ParsePayload(p.payload) == Ok(payload)
    requires AnswerAccepted(payload, c.pending, 0)
    ensures OnPacket(c, p) == (Done(c.(state := Into(c.pending))), Accepted)
  {
  }

  lemma AnswerTaken(c: Client, p: Packet, session: nat)
    requires IsAnswer(p, c.pending, session) && c.state == From(c.pending) && c.state != Connecting && !c.negotiating
    requires c.pending != NoRequest
    ensures OnPacket(c, p).1 == Accepted
    ensures var c' := OnPacket(c, p).0;
            && c'.state == Into(c.pending) && c'.pending == NoRequest && !c'.negotiating
            && c'.sessionId == if c.pending == Login then Some(session) else c.sessionId
  {
    assert ReadsAs(p.payload, ParsePayload(p.payload));
    var payload := ParsePayload(p.payload).value;
    if c.pending == Login {
      LoginTaken(c, p, payload);
    } else {
      RoomTaken(c, p, payload);
    }
  }

  /** Whatever reaches the client next, it accepts. */
  lemma NextIsAccepted(w: World, s: nat, token: Token)
    requires Inv(w, s, token) && w.s2c != []
    ensures OnPacket(w.client, w.s2c[0]).1 == Accepted
  {
    var c, p := w.client, w.s2c[0];
    assert Line(w)[0] == p;
    if c.state != Connecting {
      var token' := Delivered(c, ServerSide(w.service, s), Line(w), w.c2s, token);
    }
  }

  lemma AnswerDelivered(c: Client, side: Side, line: seq<Packet>, c2s: seq<Packet>)
    requires Talk(c, side, line, c2s, Answered) && c.state != Disconnected && c.state != Connecting && !c.negotiating
    requires Settles(c, side, line[0]) && AllNews(line[1..])
    ensures var r := OnPacket(c, line[0]);
            && r.1 == Accepted && Talk(r.0, side, line[1..], c2s, Silent)
            && r.0.state != Disconnected && r.0.state != Connecting && !r.0.negotiating
  {
    if IsError(line[0]) {
      ErrorTaken(c, line[0]);
    } else {
      AnswerTaken(c, line[0], side.session);
    }
  }

  /** The first packet on its way reaches the client. */
  lemma Delivered(c: Client, side: Side, line: seq<Packet>, c2s: seq<Packet>, token: Token)
    returns (token': Token)
    requires Talk(c, side, line, c2s, token) && line != []
    requires c.state != Disconnected && c.state != Connecting && !c.negotiating
    ensures var r := OnPacket(c, line[0]);
            && r.1 == Accepted && Talk(r.0, side, line[1..], c2s, token') && (token' == Deferred <==> token == Deferred)
            && r.0.state != Disconnected && r.0.state != Connecting && !r.0.negotiating
  {
    token' := token;
    if IsNews(line[0]) {
      NewsTaken(c, line[0]);
      NotBoth(c, side, line[0]);
    } else {
      token' := Silent;
      AnswerDelivered(c, side, line, c2s);
    }
  }

  lemma NotBoth(c: Client, side: Side, p: Packet)
    ensures !IsNews(p) || !Settles(c, side, p)
  {
  }

  lemma Welcomed(w: World, s: nat, token: Token, w': World)
    requires Inv(w, s, token) && w.s2c != [] && w.client.state == Connecting
    requires w' == w.(client := OnPacket(w.client, w.s2c[0]).0, s2c := w.s2c[1..])
    ensures Inv(w', s, Silent)
  {
    assert Line(w)[0] == w.s2c[0];
    assert Line(w') == [];
  }

  /** The first packet is gone, and the client has become `c`. */
  lemma AfterDelivery(w: World, s: nat, token: Token, c: Client, token': Token)
    requires Inv(w, s, token) && w.client.state != Connecting && w.s2c != []
    requires Talk(c, ServerSide(w.service, s), Line(w)[1..], w.c2s, token') && (token' == Deferred <==> token == Deferred)
    requires c.state != Disconnected && c.state != Connecting && !c.negotiating
    ensures Inv(w.(client := c, s2c := w.s2c[1..]), s, token')
  {
    DropFirst(w.s2c, w.held);
  }

  lemma DeliverKeeps(w: World, s: nat, token: Token, c: Client) returns (token': Token)
    requires Inv(w, s, token) && w.s2c != [] && c == OnPacket(w.client, w.s2c[0]).0
    ensures Inv(w.(client := c, s2c := w.s2c[1..]), s, token')
  {
    if w.client.state == Connecting {
      token' := Silent;
      Welcomed(w, s, token, w.(client := c, s2c := w.s2c[1..]));
    } else {
      DropFirst(w.s2c, w.held);
      token' := Delivered(w.client, ServerSide(w.service, s), Line(w), w.c2s, token);
      AfterDelivery(w, s, token, c, token');
    }
  }

  /** Publishing changes nothing that is on its way. */
  lemma PublishKeeps(w: World, s: nat, token: Token, w': World)
    requires Inv(w, s, token) && w.held != []
    requires w' == w.(s2c := w.s2c + [w.held[0]], held := w.held[1..])
    ensures Inv(w', s, token)
  {
    MoveOver(w.s2c, w.held);
  }

  // ---- News on its way ----

  lemma {:induction false} BringsMore(a: seq<Packet>, p: Packet, b: seq<Packet>, c: Client, side: Side)
    requires Brings(a + b, c, side) && IsNews(p)
    ensures Brings(a + [p] + b, c, side)
  {
    if a == [] {
      assert a + b == b && a + [p] + b == [p] + b && ([p] + b)[1..] == b;
    } else {
      assert (a + b)[1..] == a[1..] + b && (a + [p] + b)[1..] == a[1..] + [p] + b;
      if IsNews(a[0]) {
        NotBoth(c, side, a[0]);
        BringsMore(a[1..], p, b, c, side);
      } else {
        NewsMore(a[1..], p, b);
      }
    }
  }

  lemma NewsMore(a: seq<Packet>, p: Packet, b: seq<Packet>)
    requires AllNews(a + b) && IsNews(p)
    ensures AllNews(a + [p] + b)
  {
    NewsAppend(a, b);
    OneNews(p);
    NewsAppend(a, [p]);
    NewsAppend(a + [p], b);
  }

  lemma TalkMore(c: Client, side: Side, a: seq<Packet>, p: Packet, b: seq<Packet>, c2s: seq<Packet>,
                 token: Token)
    requires Talk(c, side, a + b, c2s, token) && IsNews(p)
    ensures Talk(c, side, a + [p] + b, c2s, token)
  {
    if token == Answered {
      BringsMore(a, p, b, c, side);
    } else {
      NewsMore(a, p, b);
    }
  }

  lemma {:induction false} NewsWithout(ps: seq<Packet>, i: nat)
    requires AllNews(ps) && i < |ps|
    ensures AllNews(ps[..i] + ps[i + 1..]) && IsNews(ps[i])
  {
    if i == 0 {
      assert ps[..0] + ps[1..] == ps[1..];
    } else {
      NewsWithout(ps[1..], i - 1);
      assert (ps[..i] + ps[i + 1..])[1..] == ps[1..][..i - 1] + ps[1..][i..];
    }
  }

  lemma SpreadKeeps(w: World, s: nat, token: Token, i: nat, w': World)
    requires Inv(w, s, token) && i < |w.flight|
    requires w' == w.(s2c := w.s2c + [w.flight[i]], flight := w.flight[..i] + w.flight[i + 1..])
    ensures Inv(w', s, token)
  {
    NewsWithout(w.flight, i);
    TalkMore(w.client, ServerSide(w.service, s), w.s2c, w.flight[i], w.held, w.c2s, token);
  }

  // ---- Turns of other sessions ----

  /** Another session's turn: the service, the versions and the news in flight change, nothing else. */
  lemma OtherKeeps(w: World, s: nat, token: Token, w': World, out: seq<Router.Out>)
    requires Inv(w, s, token) && ServiceOk(w'.service, w'.creations) && Status(w'.service, s) == Status(w.service, s)
    requires NewsOnly(w.service, out, s)
    requires w' == w.(versions := w'.versions, service := w'.service, creations := w'.creations,
                      flight := w.flight + Router.Heard(out, s))
    requires (s in w'.versions <==> s in w.versions) && (s in w.versions ==> w'.versions[s] == w.versions[s])
    ensures Inv(w', s, token)
  {
    assert Line(w') == Line(w);
    NewsAppend(w.flight, Router.Heard(out, s));
    if w.client.state == Connecting {
      assert s !in w.service.users && Rooms.Rooted(w.service);
    }
  }

  lemma OtherTurnKeeps(w: World, s: nat, token: Token, t: nat, p: Packet, show: U32 -> seq<Byte>, turn: Turn)
    requires Inv(w, s, token) && Prints(show) && t != s && turn == TurnWith(w, t, p, show)
    requires turn.creations < Rooms.ROOM_ID_SPACE
    ensures Inv(AfterOther(w, s, turn), s, token)
  {
    TurnIsNews(w, s, t, p, show);
    TurnServed(w, t, p, show, AfterOther(w, s, turn));
    TurnKeepsOthers(w, s, t, p, show);
    OtherKeeps(w, s, token, AfterOther(w, s, turn), turn.out);
  }

  lemma OtherLoginKeeps(w: World, s: nat, token: Token, t: nat, result: Router.UserResult, w': World)
    requires Inv(w, s, token) && t != s && FoundIsValid(t, result)
    requires w' == w.(service := Router.FinishLogin(w.service, t, result).0)
    ensures Inv(w', s, token)
  {
    Router.LoginIsAttach(w.service, t, result);
    if result.Found? {
      var op := Rooms.Attach(result.id, result.name);
      ServiceStays(w, t, op, w');
      OthersKeepStatus(w.service, s, t, op);
    }
    assert w.flight + Router.Heard([], s) == w.flight;
    OtherKeeps(w, s, token, w', []);
  }

  lemma EndIsDisconnect(v: Rooms.Service, t: nat)
    ensures Router.OnDisconnected(v, t).0 == Rooms.Apply(v, t, Rooms.Disconnect).0
  {
  }

  lemma OtherEndKeeps(w: World, s: nat, token: Token, t: nat, r: (Rooms.Service, seq<Router.Out>))
    requires Inv(w, s, token) && t != s && r == Router.OnDisconnected(w.service, t)
    ensures Inv(AfterEnd(w, s, t, r), s, token)
  {
    EndIsNews(w.service, t, s, w.creations);
    EndIsDisconnect(w.service, t);
    ServiceStays(w, t, Rooms.Disconnect, AfterEnd(w, s, t, r));
    OthersKeepStatus(w.service, s, t, Rooms.Disconnect);
    OtherKeeps(w, s, token, AfterEnd(w, s, t, r), r.1);
  }

  // ---- Sending ----

  lemma GreetKeeps(w: World, s: nat, token: Token, w': World)
    requires Inv(w, s, token) && w.client.state == Connecting && !w.client.negotiating
    requires w' == w.(client := w.client.(negotiating := true), c2s := w.c2s + [Hello()])
    ensures Inv(w', s, Asked)
  {
    assert Line(w') == Line(w);
  }

  lemma SentIs(c: Client, a: Action)
    requires Sent(c, a).Some?
    ensures c.pending == NoRequest && c.state != Connecting
    ensures if a.Chat? then c.state == InRoom && IsChat(Sent(c, a).value)
            else Asks(a) != NoRequest && c.state == From(Asks(a)) && IsAsking(Sent(c, a).value, Asks(a))
  {
  }

  lemma {:induction false} ChatsAppend(ps: seq<Packet>, p: Packet, r: Request)
    requires AllChats(ps)
    ensures IsChat(p) ==> AllChats(ps + [p])
    ensures IsAsking(p, r) ==> Requests(ps + [p], r)
  {
    if ps == [] {
      assert ps + [p] == [p] && [p][1..] == [];
    } else {
      ChatsAppend(ps[1..], p, r);
      assert (ps + [p])[1..] == ps[1..] + [p];
    }
  }

  lemma ChatSent(c: Client, side: Side, line: seq<Packet>, c2s: seq<Packet>, token: Token, p: Packet)
    requires Talk(c, side, line, c2s, token) && c.pending == NoRequest && c.state == InRoom && IsChat(p)
    ensures token == Silent && Talk(c, side, line, c2s + [p], Silent)
  {
    ChatsAppend(c2s, p, NoRequest);
  }

  lemma RequestSent(c: Client, side: Side, line: seq<Packet>, c2s: seq<Packet>, token: Token, p: Packet,
                    r: Request)
    requires Talk(c, side, line, c2s, token) && c.pending == NoRequest
    requires r != NoRequest && c.state == From(r) && IsAsking(p, r)
    ensures token == Silent && Talk(c.(pending := r), side, line, c2s + [p], Asked)
  {
    ChatsAppend(c2s, p, r);
  }

  lemma SendKeeps(w: World, s: nat, token: Token, a: Action) returns (token': Token)
    requires Inv(w, s, token) && Sent(w.client, a).Some?
    ensures Inv(SendRequest(w, a), s, token')
  {
    SentIs(w.client, a);
    token' := if a.Chat? then Silent else Asked;
    var w', p := SendRequest(w, a), Sent(w.client, a).value;
    assert Line(w') == Line(w);
    if a.Chat? {
      ChatSent(w.client, ServerSide(w.service, s), Line(w), w.c2s, token, p);
    } else {
      RequestSent(w.client, ServerSide(w.service, s), Line(w), w.c2s, token, p, Asks(a));
    }
  }

  // ---- Turns ----

  /** Whoever's turn it is, the service stays in order. */
  lemma TurnServed(w: World, t: nat, p: Packet, show: U32 -> seq<Byte>, w': World)
    requires ServiceOk(w.service, w.creations) && w'.creations < Rooms.ROOM_ID_SPACE
    requires w'.service == TurnWith(w, t, p, show).service && w'.creations == TurnWith(w, t, p, show).creations
    ensures ServiceOk(w'.service, w'.creations)
  {
    if Router.Gate(w.versions, t, p) == None {
      var op := Router.PacketIsOneCall(w.service, t, p, show);
      Rooms.CreatesIffGranted(w.service, t, op);
      ServiceStays(w, t, op, w');
    }
  }

  lemma TurnKeepsOthers(w: World, s: nat, t: nat, p: Packet, show: U32 -> seq<Byte>)
    requires Rooms.Consistent(w.service) && s != t
    ensures Status(TurnWith(w, t, p, show).service, s) == Status(w.service, s)
  {
    if Router.Gate(w.versions, t, p) == None {
      var op := Router.PacketIsOneCall(w.service, t, p, show);
      OthersKeepStatus(w.service, s, t, op);
    }
  }

  lemma HelloAnswered(versions: map<nat, nat>, s: nat)
    requires s !in versions
    ensures var gate := Router.Gate(versions, s, Hello());
            && gate.Some? && gate.value.0 == versions[s := 1]
            && |Router.Heard(gate.value.1, s)| == 1
            && IsWelcome(Router.Heard(gate.value.1, s)[0])
  {
    RequestComesBack(VersionRange(MIN_PROTOCOL_VERSION, MAX_PROTOCOL_VERSION));
    ResponseComesBack(1);
    HeardOne(Router.To(s, Packet(VERSION_RES, Router.Text(ResponsePayload(1)))), s);
  }

  lemma HelloTurn(w: World, s: nat, show: U32 -> seq<Byte>)
    requires s !in w.versions
    ensures var turn := TurnWith(w, s, Hello(), show);
            && turn == Turn(w.versions[s := 1], w.service, turn.out, false, w.creations)
            && |Router.Heard(turn.out, s)| == 1 && IsWelcome(Router.Heard(turn.out, s)[0])
  {
    HelloAnswered(w.versions, s);
  }

  lemma ServeHello(w: World, s: nat, token: Token, turn: Turn)
    requires Inv(w, s, token) && w.client.state == Connecting && w.c2s != []
    requires turn == Turn(w.versions[s := 1], w.service, turn.out, false, w.creations)
    requires |Router.Heard(turn.out, s)| == 1 && IsWelcome(Router.Heard(turn.out, s)[0])
    ensures Inv(AfterTurn(w, s, turn), s, Answered)
  {
    assert Line(AfterTurn(w, s, turn)) == Router.Heard(turn.out, s);
  }

  /** A negotiated session's packets pass the gate. */
  lemma PassesGate(w: World, s: nat, p: Packet, show: U32 -> seq<Byte>, h: Router.Handled)
    requires s in w.versions && w.versions[s] == 1 && p.kind != VERSION_REQ
    requires h == Router.HandlePacket(w.service, s, p, show)
    ensures TurnWith(w, s, p, show)
         == Turn(w.versions, h.service, h.out, h.login.Some?, w.creations + Spent(w.service, h.service))
  {
  }

  lemma ChatGone(c: Client, side: Side, line: seq<Packet>, c2s: seq<Packet>, token: Token, p: Packet)
    requires Talk(c, side, line, c2s, token) && c2s != [] && IsNews(p)
    requires token == Silent || (token == Asked && |c2s| > 1)
    ensures Talk(c, side, line + [p], c2s[1..], token)
  {
    OneNews(p);
    NewsAppend(line, [p]);
  }

  lemma ChatIsNext(c: Client, side: Side, line: seq<Packet>, c2s: seq<Packet>, token: Token)
    requires Talk(c, side, line, c2s, token) && c2s != [] && (token == Asked ==> |c2s| > 1)
    ensures (token == Silent || token == Asked) && IsChat(c2s[0]) && side.state == InRoom
  {
  }

  lemma ChatHandled(v: Rooms.Service, s: nat, p: Packet, show: U32 -> seq<Byte>)
    requires p.kind == CHAT_REQ
    ensures Router.HandlePacket(v, s, p, show) == Router.OnChat(v, s, p.payload)
  {
  }

  /** The turn changes nothing, and its session hears one news. */
  ghost predicate TellsOnly(w: World, s: nat, turn: Turn) {
    && turn == Turn(w.versions, w.service, turn.out, false, w.creations)
    && |Router.Heard(turn.out, s)| == 1 && IsNews(Router.Heard(turn.out, s)[0])
  }

  lemma TurnTellsOnly(w: World, s: nat, p: Packet, show: U32 -> seq<Byte>, h: Router.Handled)
    requires s in w.versions && w.versions[s] == 1 && p.kind == CHAT_REQ
    requires h == Router.HandlePacket(w.service, s, p, show)
    requires h.service == w.service && h.login == None
    requires |Router.Heard(h.out, s)| == 1 && IsNews(Router.Heard(h.out, s)[0])
    ensures TellsOnly(w, s, TurnWith(w, s, p, show))
  {
    PassesGate(w, s, p, show, h);
  }

  lemma ChatTurn(w: World, s: nat, p: Packet, show: U32 -> seq<Byte>)
    requires ServiceOk(w.service, w.creations) && IsChat(p) && ValidText(p.payload) && s in w.service.roomOf
    requires s in w.versions && w.versions[s] == 1
    ensures TellsOnly(w, s, TurnWith(w, s, p, show))
  {
    ChatHeard(w.service, s, p.payload, w.creations);
    ChatHandled(w.service, s, p, show);
    TurnTellsOnly(w, s, p, show, Router.OnChat(w.service, s, p.payload));
  }

  lemma ChatIsText(p: Packet)
    requires IsChat(p)
    ensures ValidText(p.payload)
  {
    assert TextIs(p.payload, ValidText(p.payload));
  }

  /** The session's turn has told it one news. */
  lemma AfterTelling(w: World, s: nat, token: Token, c2s: seq<Packet>, held: seq<Packet>)
    requires Inv(w, s, token) && w.client.state != Connecting && !w.login
    requires Talk(w.client, ServerSide(w.service, s), w.s2c + held, c2s, token)
    ensures Inv(w.(c2s := c2s, held := held, login := false), s, token)
  {
  }

  lemma ServeChat(w: World, s: nat, token: Token, turn: Turn)
    requires Inv(w, s, token) && w.c2s != [] && !w.login
    requires w.client.state != Connecting && (token == Silent || (token == Asked && |w.c2s| > 1))
    requires TellsOnly(w, s, turn)
    ensures Inv(AfterTurn(w, s, turn), s, token)
  {
    var heard := Router.Heard(turn.out, s);
    ChatGone(w.client, ServerSide(w.service, s), Line(w), w.c2s, token, heard[0]);
    AddLast(w.s2c, w.held, heard, heard[0]);
    AfterTelling(w, s, token, w.c2s[1..], w.held + heard);
  }

  lemma RequestAnswers(w: World, s: nat, p: Packet, r: Request, show: U32 -> seq<Byte>, h: Router.Handled)
    requires ServiceOk(w.service, w.creations) && IsAsking(p, r) && r != Login
    requires h == Router.HandlePacket(w.service, s, p, show)
    requires w.creations + Spent(w.service, h.service) < Rooms.ROOM_ID_SPACE
    ensures Answers(w.service, s, h, r)
  {
    match r {
      case CreateRoom => CreateAnswers(w.service, s, p.payload, w.creations);
      case JoinRoom =>
        forall id: U32 ensures GoodOutcome(w.service, Rooms.JoinRoom(w.service, s, id), s, InRoom) {
          JoinOutcome(w.service, s, id, w.creations);
        }
        JoinAnswers(w.service, s, p.payload);
      case LeaveRoom =>
        LeaveOutcome(w.service, s, w.creations);
        LeaveAnswers(w.service, s, p.payload);
    }
  }

  /** The login request is refused at once or left to the repository. */
  lemma LoginAsked(v: Rooms.Service, s: nat, p: Packet, show: U32 -> seq<Byte>)
    requires p.kind == LOGIN_REQ
    ensures var h := Router.HandlePacket(v, s, p, show);
            h.service == v && if h.login.Some? then Router.Heard(h.out, s) == [] else Answers(v, s, h, Login)
  {
    if Rooms.NormalizedName(p.payload) == None {
      RefusedAnswers(v, s, Ascii("invalid user name"), Login);
    }
  }

  lemma {:induction false} BringsLast(ps: seq<Packet>, p: Packet, c: Client, side: Side)
    requires AllNews(ps) && Settles(c, side, p)
    ensures Brings(ps + [p], c, side)
  {
    if ps == [] {
      assert ps + [p] == [p] && [p][1..] == [];
    } else {
      BringsLast(ps[1..], p, c, side);
      assert (ps + [p])[1..] == ps[1..] + [p];
    }
  }

  lemma AnswerSent(c: Client, side: Side, line: seq<Packet>, c2s: seq<Packet>, token: Token,
                   side': Side, p: Packet)
    requires Talk(c, side, line, c2s, token) && (token == Deferred || (token == Asked && |c2s| == 1))
    requires Settles(c, side', p) && side'.session == side.session
    ensures Talk(c, side', line + [p], [], Answered)
  {
    BringsLast(line, p, c, side');
  }

  lemma LoginLeft(c: Client, side: Side, line: seq<Packet>, c2s: seq<Packet>)
    requires Talk(c, side, line, c2s, Asked) && |c2s| == 1 && c.pending == Login
    ensures Talk(c, side, line, [], Deferred)
  {
  }

  /** The turn of a request answers it, or leaves it to the repository. */
  ghost predicate Responds(w: World, s: nat, turn: Turn, r: Request) {
    && turn.versions == w.versions
    && if turn.login then r == Login && turn.service == w.service && Router.Heard(turn.out, s) == []
       else Answers(w.service, s, Router.Handled(turn.service, turn.out, None), r)
  }

  lemma RequestTurn(w: World, s: nat, p: Packet, r: Request, show: U32 -> seq<Byte>)
    requires ServiceOk(w.service, w.creations) && IsAsking(p, r) && s in w.versions && w.versions[s] == 1
    requires TurnWith(w, s, p, show).creations < Rooms.ROOM_ID_SPACE
    ensures Responds(w, s, TurnWith(w, s, p, show), r)
  {
    var h := Router.HandlePacket(w.service, s, p, show);
    PassesGate(w, s, p, show, h);
    if r == Login {
      LoginAsked(w.service, s, p, show);
    } else {
      RequestAnswers(w, s, p, r, show, h);
    }
  }

  lemma ServeRequest(w: World, s: nat, turn: Turn) returns (token': Token)
    requires Inv(w, s, Asked) && w.client.state != Connecting && |w.c2s| == 1
    requires Responds(w, s, turn, w.client.pending) && ServiceOk(turn.service, turn.creations)
    ensures Inv(AfterTurn(w, s, turn), s, token')
  {
    var w', side := AfterTurn(w, s, turn), ServerSide(w.service, s);
    assert w.c2s[1..] == [];
    if turn.login {
      token' := Deferred;
      LoginLeft(w.client, side, Line(w), w.c2s);
      assert Line(w') == Line(w);
    } else {
      token' := Answered;
      var answer := Router.Heard(turn.out, s)[0];
      AnswerSent(w.client, side, Line(w), w.c2s, Asked, ServerSide(turn.service, s), answer);
      AddLast(w.s2c, w.held, Router.Heard(turn.out, s), answer);
    }
  }

  lemma ServeKeeps(w: World, s: nat, token: Token, show: U32 -> seq<Byte>, turn: Turn)
    returns (token': Token)
    requires Inv(w, s, token) && Enabled(w, s, Serve) && turn == TurnWith(w, s, w.c2s[0], show)
    requires turn.creations < Rooms.ROOM_ID_SPACE
    ensures Inv(AfterTurn(w, s, turn), s, token')
  {
    token' := token;
    if w.client.state == Connecting {
      HelloTurn(w, s, show);
      ServeHello(w, s, token, turn);
      token' := Answered;
    } else if token == Asked && |w.c2s| == 1 {
      RequestTurn(w, s, w.c2s[0], w.client.pending, show);
      TurnServed(w, s, w.c2s[0], show, AfterTurn(w, s, turn));
      token' := ServeRequest(w, s, turn);
    } else {
      ChatIsNext(w.client, ServerSide(w.service, s), Line(w), w.c2s, token);
      ChatIsText(w.c2s[0]);
      ChatTurn(w, s, w.c2s[0], show);
      ServeChat(w, s, token, turn);
    }
  }

  lemma FinishKeeps(w: World, s: nat, token: Token, result: Router.UserResult, w': World)
    returns (token': Token)
    requires Inv(w, s, token) && Enabled(w, s, FinishLogin(result))
    requires var r := Router.FinishLogin(w.service, s, result);
             w' == w.(service := r.0, held := w.held + [r.1], login := false)
    ensures Inv(w', s, token')
  {
    var r := Router.FinishLogin(w.service, s, result);
    LoginFinished(w.service, s, result);
    token' := Answered;
    if result.Found? {
      ServiceStays(w, s, Rooms.Attach(result.id, result.name), w');
    }
    AnswerSent(w.client, ServerSide(w.service, s), Line(w), w.c2s, token, ServerSide(r.0, s), r.1);
    AddLast(w.s2c, w.held, [r.1], r.1);
  }

  // ---- Runs ----

  /** The step keeps the conversation in order. */
  ghost predicate Continues(w: World, s: nat, a: Action, show: U32 -> seq<Byte>, token: Token)
    requires Enabled(w, s, a)
  {
    // The body has a name so that the verifier proves and uses the predicate whole, not split into its parts.
    var continues := Inv(Next(w, s, a, show), s, token);
    continues
  }

  lemma OtherServeKeeps(w: World, s: nat, token: Token, t: nat, p: Packet, show: U32 -> seq<Byte>)
    requires Inv(w, s, token) && Prints(show) && Enabled(w, s, OtherServe(t, p))
    requires TurnWith(w, t, p, show).creations < Rooms.ROOM_ID_SPACE
    ensures Continues(w, s, OtherServe(t, p), show, token)
  {
    OtherTurnKeeps(w, s, token, t, p, show, TurnWith(w, t, p, show));
  }

  lemma OtherGoneKeeps(w: World, s: nat, token: Token, t: nat, show: U32 -> seq<Byte>)
    requires Inv(w, s, token) && Enabled(w, s, OtherGone(t))
    ensures Continues(w, s, OtherGone(t), show, token)
  {
    OtherEndKeeps(w, s, token, t, Router.OnDisconnected(w.service, t));
  }

  lemma OtherFinishKeeps(w: World, s: nat, token: Token, t: nat, result: Router.UserResult,
                         show: U32 -> seq<Byte>)
    requires Inv(w, s, token) && Enabled(w, s, OtherFinishLogin(t, result))
    ensures Continues(w, s, OtherFinishLogin(t, result), show, token)
  {
    OtherLoginKeeps(w, s, token, t, result, Next(w, s, OtherFinishLogin(t, result), show));
  }

  lemma OwnServeKeeps(w: World, s: nat, token: Token, show: U32 -> seq<Byte>) returns (token': Token)
    requires Inv(w, s, token) && Enabled(w, s, Serve)
    requires TurnWith(w, s, w.c2s[0], show).creations < Rooms.ROOM_ID_SPACE
    ensures Continues(w, s, Serve, show, token')
  {
    token' := ServeKeeps(w, s, token, show, TurnWith(w, s, w.c2s[0], show));
  }

  lemma OwnFinishKeeps(w: World, s: nat, token: Token, result: Router.UserResult, show: U32 -> seq<Byte>)
    returns (token': Token)
    requires Inv(w, s, token) && Enabled(w, s, FinishLogin(result))
    ensures Continues(w, s, FinishLogin(result), show, token')
  {
    token' := FinishKeeps(w, s, token, result, Next(w, s, FinishLogin(result), show));
  }

  lemma OwnGreetKeeps(w: World, s: nat, token: Token, show: U32 -> seq<Byte>)
    requires Inv(w, s, token) && Enabled(w, s, Greet)
    ensures Continues(w, s, Greet, show, Asked)
  {
    GreetKeeps(w, s, token, Next(w, s, Greet, show));
  }

  lemma OwnPublishKeeps(w: World, s: nat, token: Token, show: U32 -> seq<Byte>)
    requires Inv(w, s, token) && Enabled(w, s, Publish)
    ensures Continues(w, s, Publish, show, token)
  {
    PublishKeeps(w, s, token, Next(w, s, Publish, show));
  }

  lemma OtherSpreadKeeps(w: World, s: nat, token: Token, i: nat, show: U32 -> seq<Byte>)
    requires Inv(w, s, token) && Enabled(w, s, Spread(i))
    ensures Continues(w, s, Spread(i), show, token)
  {
    SpreadKeeps(w, s, token, i, Next(w, s, Spread(i), show));
  }

  lemma OwnDeliverKeeps(w: World, s: nat, token: Token, show: U32 -> seq<Byte>) returns (token': Token)
    requires Inv(w, s, token) && Enabled(w, s, Deliver)
    ensures Continues(w, s, Deliver, show, token')
  {
    token' := DeliverKeeps(w, s, token, OnPacket(w.client, w.s2c[0]).0);
  }

  predicate IsRequest(a: Action) {
    a.LogIn? || a.Create? || a.Join? || a.Leave? || a.Chat?
  }

  lemma UserKeeps(w: World, s: nat, token: Token, a: Action, show: U32 -> seq<Byte>) returns (token': Token)
    requires Inv(w, s, token) && Enabled(w, s, a) && IsRequest(a)
    ensures Continues(w, s, a, show, token')
  {
    token' := SendKeeps(w, s, token, a);
  }

  lemma NextKeeps(w: World, s: nat, token: Token, a: Action, show: U32 -> seq<Byte>)
    returns (token': Token)
    requires Inv(w, s, token) && Enabled(w, s, a) && Prints(show)
    requires Next(w, s, a, show).creations < Rooms.ROOM_ID_SPACE
    ensures Continues(w, s, a, show, token')
  {
    token' := token;
    if IsRequest(a) {
      token' := UserKeeps(w, s, token, a, show);
    } else {
      match a {
        case Serve => token' := OwnServeKeeps(w, s, token, show);
        case FinishLogin(result) => token' := OwnFinishKeeps(w, s, token, result, show);
        case OtherServe(t, packet) => OtherServeKeeps(w, s, token, t, packet, show);
        case OtherFinishLogin(t, result) => OtherFinishKeeps(w, s, token, t, result, show);
        case OtherGone(t) => OtherGoneKeeps(w, s, token, t, show);
        case Greet =>
          OwnGreetKeeps(w, s, token, show);
          token' := Asked;
        case Publish => OwnPublishKeeps(w, s, token, show);
        case Spread(i) => OtherSpreadKeeps(w, s, token, i, show);
        case Deliver => token' := OwnDeliverKeeps(w, s, token, show);
      }
    }
  }

  lemma StartInv(s: nat)
    ensures Inv(Start(), s, Silent)
  {
  }

  lemma {:induction false} RunInv(s: nat, actions: seq<Action>, show: U32 -> seq<Byte>, w: World)
    returns (token: Token)
    requires Reaches(s, actions, show, w) && Prints(show)
    ensures Inv(w, s, token)
    decreases |actions|
  {
    if actions == [] {
      StartInv(s);
      token := Silent;
    } else {
      var k := |actions| - 1;
      var mid :| Reaches(s, actions[..k], show, mid) && Enabled(mid, s, actions[k])
                 && w == Next(mid, s, actions[k], show) && w.creations < Rooms.ROOM_ID_SPACE;
      token := RunInv(s, actions[..k], show, mid);
      token := NextKeeps(mid, s, token, actions[k], show);
    }
  }

  /** In every run, a client without a pending request is logged in, or in a room, exactly when the
      server says so; and whenever it is, it knows the server's id for its session. */
  lemma SidesAgree(s: nat, actions: seq<Action>, show: U32 -> seq<Byte>, w: World)
    requires Prints(show) && Reaches(s, actions, show, w)
    ensures w.client.state == LoggedIn || w.client.state == InRoom ==> w.client.sessionId == Some(s)
    ensures w.client.pending == NoRequest ==>
              && (w.client.state == LoggedIn <==> s in w.service.users && s !in w.service.roomOf)
              && (w.client.state == InRoom <==> s in w.service.roomOf)
  {
    var token := RunInv(s, actions, show, w);
    assert Rooms.Rooted(w.service);
  }

  /** In every run, the client accepts every packet that reaches it. */
  lemma NothingMalformed(s: nat, actions: seq<Action>, show: U32 -> seq<Byte>, w: World)
    requires Prints(show) && Reaches(s, actions, show, w) && w.s2c != []
    ensures OnPacket(w.client, w.s2c[0]).1 == Accepted
  {
    var token := RunInv(s, actions, show, w);
    NextIsAccepted(w, s, token);
  }
}

/** One client and the server over an open connection with two first-in first-out channels, while other
    sessions have turns of their own: the two sides agree, and the client never finds a packet malformed. */
module Agreement {
  import opened Wrappers
  import opened Bytes
  import opened TextValidation
  import opened StructuredPayload
  import opened Decimal
  import opened Messages
  import opened ProtocolVersion
  import opened ClientModel
  import Router
  import Rooms = RoomModel

  /** `held` is what the session's own last turn has still to publish, `flight` what turns of other sessions
      have still to publish to this one; `login` while the session's turn waits for the user repository;
      `creations` counts the rooms created, by all sessions. */
  datatype World = World(
    client: Client, c2s: seq<Packet>, s2c: seq<Packet>, held: seq<Packet>, flight: seq<Packet>,
    versions: map<nat, nat>, service: Rooms.Service, login: bool, creations: nat)

  datatype Action =
    | Greet                                      // the transport is connected
    | LogIn(name: seq<Byte>)                     // the user
    | Create(name: seq<Byte>)
    | Join(text: seq<Byte>, numeric: bool)
    | Leave
    | Chat(message: seq<Byte>)
    | Serve                                      // the session's next turn on the server
    | FinishLogin(result: Router.UserResult)
    | Publish                                    // the turn's next packet leaves
    | Deliver                                    // the next packet reaches the client
    | OtherServe(t: nat, packet: Packet)         // turns of other sessions
    | OtherFinishLogin(t: nat, result: Router.UserResult)
    | OtherGone(t: nat)
    | Spread(i: nat)                             // one of their packets to this session leaves

  /** Coordinates are printed as text, as something, and within the bound of `Messages.PositionAlwaysFits`. */
  ghost predicate Prints(show: U32 -> seq<Byte>) {
    forall c: U32 :: ValidText(show(c)) && 0 < |show(c)| <= 36
  }

  /** What the user's action makes the client send. */
  function Sent(c: Client, a: Action): Option<Packet> {
    match a
    case LogIn(name) => LoginPacket(c, name)
    case Create(name) => CreatePacket(c, name)
    case Join(text, numeric) => JoinPacket(c, text, numeric)
    case Leave => LeavePacket(c)
    case Chat(message) => ChatPacket(c, message)
    case _ => None
  }

  function Asks(a: Action): Request {
    match a
    case LogIn(_) => Login
    case Create(_) => CreateRoom
    case Join(_, _) => JoinRoom
    case Leave => LeaveRoom
    case _ => NoRequest
  }

  /** The user repository returns valid records. */
  ghost predicate Enabled(w: World, s: nat, a: Action) {
    match a
    case Greet => w.client.state == Connecting && !w.client.negotiating
    case Serve => w.c2s != [] && !w.login && w.held == []
    case FinishLogin(result) => w.login && FoundIsValid(s, result)
    case Publish => w.held != []
    case Deliver => w.s2c != []
    case OtherServe(t, packet) => t != s
    case OtherFinishLogin(t, result) => t != s && FoundIsValid(t, result)
    case OtherGone(t) => t != s
    case Spread(i) => i < |w.flight|
    case _ => Sent(w.client, a).Some?
  }

  ghost predicate FoundIsValid(t: nat, result: Router.UserResult) {
    result.Found? ==> ValidUser(Rooms.User(result.id, t, result.name))
  }

  /** Whether a room id was handed out between `v` and `v'`. */
  function Spent(v: Rooms.Service, v': Rooms.Service): nat {
    if v'.nextRoomId == v.nextRoomId then 0 else 1
  }

  /** What a turn leaves behind, and everything it emits. */
  datatype Turn = Turn(versions: map<nat, nat>, service: Rooms.Service, out: seq<Router.Out>, login: bool,
                       creations: nat)

  /** The turn of session `t` with packet `p`. */
  function TurnWith(w: World, t: nat, p: Packet, show: U32 -> seq<Byte>): Turn {
    var gate := Router.Gate(w.versions, t, p);
    if gate.Some? then Turn(gate.value.0, w.service, gate.value.1, false, w.creations)
    else
      var h := Router.HandlePacket(w.service, t, p, show);
      Turn(w.versions, h.service, h.out, h.login.Some?, w.creations + Spent(w.service, h.service))
  }

  function AfterTurn(w: World, s: nat, turn: Turn): World
    requires w.c2s != []
  {
    w.(c2s := w.c2s[1..], versions := turn.versions, service := turn.service,
       held := w.held + Router.Heard(turn.out, s), login := turn.login, creations := turn.creations)
  }

  function AfterOther(w: World, s: nat, turn: Turn): World {
    w.(versions := turn.versions, service := turn.service, flight := w.flight + Router.Heard(turn.out, s),
       creations := turn.creations)
  }

  function AfterEnd(w: World, s: nat, t: nat, r: (Rooms.Service, seq<Router.Out>)): World {
    w.(versions := w.versions - {t}, service := r.0, flight := w.flight + Router.Heard(r.1, s))
  }

  function SendRequest(w: World, a: Action): World
    requires Sent(w.client, a).Some?
  {
    w.(c2s := w.c2s + [Sent(w.client, a).value],
       client := if a.Chat? then w.client else w.client.(pending := Asks(a)))
  }

  ghost function Next(w: World, s: nat, a: Action, show: U32 -> seq<Byte>): World
    requires Enabled(w, s, a)
  {
    match a
    case Greet => w.(client := w.client.(negotiating := true), c2s := w.c2s + [Hello()])
    case Serve => AfterTurn(w, s, TurnWith(w, s, w.c2s[0], show))
    case FinishLogin(result) =>
      var r := Router.FinishLogin(w.service, s, result);
      w.(service := r.0, held := w.held + [r.1], login := false)
    case Publish => w.(s2c := w.s2c + [w.held[0]], held := w.held[1..])
    case Deliver => w.(client := OnPacket(w.client, w.s2c[0]).0, s2c := w.s2c[1..])
    case OtherServe(t, packet) => AfterOther(w, s, TurnWith(w, t, packet, show))
    case OtherFinishLogin(t, result) => w.(service := Router.FinishLogin(w.service, t, result).0)
    case OtherGone(t) => AfterEnd(w, s, t, Router.OnDisconnected(w.service, t))
    case Spread(i) => w.(s2c := w.s2c + [w.flight[i]], flight := w.flight[..i] + w.flight[i + 1..])
    case _ => SendRequest(w, a)
  }

  function Start(): World {
    World(Client(Connecting, NoRequest, false, None), [], [], [], [], map[], Rooms.EMPTY, false, 0)
  }

  /** Fewer than 2^32 rooms are created. */
  ghost predicate Reaches(s: nat, actions: seq<Action>, show: U32 -> seq<Byte>, w: World)
    decreases |actions|
  {
    if actions == [] then w == Start()
    else
      var n := |actions| - 1;
      exists mid :: Reaches(s, actions[..n], show, mid) && Enabled(mid, s, actions[n])
                    && w == Next(mid, s, actions[n], show) && w.creations < Rooms.ROOM_ID_SPACE
  }

  // ---- Where the conversation stands ----

  /** Nothing outstanding; the request on its way; the login at the repository; the answer on its way. */
  datatype Token = Silent | Asked | Deferred | Answered

  /** What the server holds for the session, in the client's terms. */
  function Status(v: Rooms.Service, s: nat): ClientState {
    if s !in v.users then Connected else if s !in v.roomOf then LoggedIn else InRoom
  }

  /** The server's side: the status of the session, and its id. */
  datatype Side = Side(state: ClientState, session: nat)

  function ServerSide(v: Rooms.Service, s: nat): Side {
    Side(Status(v, s), s)
  }

  /** `IsText(text)` is `ValidText(text)`, under a quantifier over `TextIs` so that the validator is unfolded
      only where a proof mentions `TextIs`. */
  predicate TextIs(text: seq<Byte>, valid: bool) {
    valid == ValidText(text)
  }

  ghost predicate IsText(text: seq<Byte>) {
    forall valid :: TextIs(text, valid) ==> valid
  }

  ghost predicate IsChat(p: Packet) {
    p.kind == CHAT_REQ && |p.payload| <= MAX_CHAT_MESSAGE_BYTES && IsText(p.payload)
  }

  /** As `TextIs`, for the payload parser. */
  predicate ReadsAs(payload: seq<Byte>, r: Result<Payload, PayloadError>) {
    r == ParsePayload(payload)
  }

  ghost predicate IsNews(p: Packet) {
    p.kind == ROOM_BROADCAST && forall r :: ReadsAs(p.payload, r) ==> r.Ok? && BroadcastAccepted(r.value)
  }

  ghost predicate IsError(p: Packet) {
    p.kind == ERROR && IsText(p.payload)
  }

  predicate IsAsking(p: Packet, r: Request) {
    match r
    case NoRequest => false
    case Login => p.kind == LOGIN_REQ
    case CreateRoom => p.kind == CREATE_ROOM_REQ
    case JoinRoom => p.kind == JOIN_ROOM_REQ
    case LeaveRoom => p.kind == LEAVE_ROOM_REQ
  }

  function AnswerKind(r: Request): U16 {
    match r
    case CreateRoom => CREATE_ROOM_RES
    case JoinRoom => JOIN_ROOM_RES
    case LeaveRoom => LEAVE_ROOM_RES
    case _ => LOGIN_RES
  }

  predicate AnswerAccepted(p: Payload, r: Request, session: nat) {
    match r
    case NoRequest => false
    case Login => LoginAccepted(p) && SessionOf(p) == Some(session)
    case CreateRoom => RoomAccepted(p, Ascii("CREATE_ROOM"))
    case JoinRoom => RoomAccepted(p, Ascii("JOIN_ROOM"))
    case LeaveRoom => RoomAccepted(p, Ascii("LEAVE_ROOM"))
  }

  ghost predicate IsAnswer(p: Packet, r: Request, session: nat) {
    p.kind == AnswerKind(r) && forall q :: ReadsAs(p.payload, q) ==> q.Ok? && AnswerAccepted(q.value, r, session)
  }

  /** The state a request is made in, and the one a positive answer leads to. */
  function From(r: Request): ClientState {
    match r
    case LeaveRoom => InRoom
    case Login => Connected
    case _ => LoggedIn
  }

  function Into(r: Request): ClientState {
    match r
    case CreateRoom => InRoom
    case JoinRoom => InRoom
    case _ => LoggedIn
  }

  ghost predicate AllNews(ps: seq<Packet>) {
    ps == [] || (IsNews(ps[0]) && AllNews(ps[1..]))
  }

  ghost predicate AllChats(ps: seq<Packet>) {
    ps == [] || (IsChat(ps[0]) && AllChats(ps[1..]))
  }

  /** The packet that answers the pending request leaves both sides with the same status. */
  ghost predicate Settles(c: Client, side: Side, p: Packet) {
    (IsError(p) && side.state == c.state) || (IsAnswer(p, c.pending, side.session) && side.state == Into(c.pending))
  }

  /** Among news, there is one answer. */
  ghost predicate Brings(ps: seq<Packet>, c: Client, side: Side) {
    && ps != []
    && ((IsNews(ps[0]) && Brings(ps[1..], c, side)) || (Settles(c, side, ps[0]) && AllNews(ps[1..])))
  }

  /** After chats, there is one request. */
  ghost predicate Requests(ps: seq<Packet>, r: Request) {
    ps != [] && if |ps| == 1 then IsAsking(ps[0], r) else IsChat(ps[0]) && Requests(ps[1..], r)
  }

  /** What is on its way to the client from its own session's turns, with the news before it. */
  function Line(w: World): seq<Packet> {
    w.s2c + w.held
  }

  predicate IsWelcome(p: Packet) {
    p.kind == VERSION_RES && DecodeResponse(p.payload) == Some(1)
  }

  /** The version exchange. */
  ghost predicate Greeting(w: World, s: nat, token: Token) {
    && w.client.pending == NoRequest && !w.login && Status(w.service, s) == Connected && w.flight == []
    && if !w.client.negotiating then w.c2s == [] && Line(w) == [] && s !in w.versions && token == Silent
       else if token == Asked then w.c2s == [Hello()] && Line(w) == [] && s !in w.versions
       else
         && token == Answered && w.c2s == [] && |Line(w)| == 1 && IsWelcome(Line(w)[0])
         && s in w.versions && w.versions[s] == 1
  }

  /** Requests and answers: `line` is what is on its way to the client, `c2s` to the server. */
  ghost predicate Talk(c: Client, side: Side, line: seq<Packet>, c2s: seq<Packet>, token: Token) {
    // The body has a name so that the verifier proves and uses the predicate whole, not split into its parts.
    var sound :=
      && Knows(c, side)
      && match token
         case Silent =>
           && c.pending == NoRequest && side.state == c.state && AllNews(line)
           && AllChats(c2s) && (c2s != [] ==> c.state == InRoom)
         case Asked =>
           && c.pending != NoRequest && c.state == From(c.pending) && side.state == c.state && AllNews(line)
           && Requests(c2s, c.pending) && (|c2s| > 1 ==> c.state == InRoom)
         case Deferred =>
           c.pending == Login && c.state == Connected && side.state == Connected && AllNews(line) && c2s == []
         case Answered => c.pending != NoRequest && c.state == From(c.pending) && c2s == [] && Brings(line, c, side);
    sound
  }

  /** A client that is logged in knows its session id. */
  predicate Knows(c: Client, side: Side) {
    c.state == LoggedIn || c.state == InRoom ==> c.sessionId == Some(side.session)
  }

  ghost predicate Open(w: World, s: nat, token: Token) {
    !w.client.negotiating && s in w.versions && w.versions[s] == 1 && (w.login <==> token == Deferred)
  }

  ghost predicate Talking(w: World, s: nat, token: Token) {
    Open(w, s, token) && AllNews(w.flight) && Talk(w.client, ServerSide(w.service, s), Line(w), w.c2s, token)
  }

  ghost predicate UsersOk(v: Rooms.Service) {
    forall t | t in v.users :: ValidUser(v.users[t]) && v.users[t].session == t
  }

  /** The rooms are in order, and `creations` ids are spent. */
  ghost predicate ServiceOk(v: Rooms.Service, creations: nat) {
    var sound := Rooms.Consistent(v) && Rooms.IdsSpent(v, creations) && UsersOk(v);
    sound
  }

  ghost predicate Inv(w: World, s: nat, token: Token) {
    var sound := && ServiceOk(w.service, w.creations)
                 && w.client.state != Disconnected
                 && if w.client.state == Connecting then Greeting(w, s, token) else Talking(w, s, token);
    sound
  }
}

/** Users, rooms and membership as values, with every service call as a function on them. */
module RoomModel {
  import opened Wrappers
  import opened Bytes
  import opened TextValidation

  const MAX_NAME_BYTES := 32
  const ROOM_ID_SPACE := 0x1_0000_0000

  datatype User = User(id: seq<Byte>, session: nat, name: seq<Byte>)
  /** Coordinates are kept as the 32-bit patterns the wire carries. */
  datatype Position = Position(x: U32, y: U32)
  datatype RoomData = RoomData(name: seq<Byte>, members: map<nat, User>, positions: map<nat, Position>)

  datatype Service = Service(
    users: map<nat, User>,
    roomOf: map<nat, U32>,
    rooms: map<U32, RoomData>,
    nextRoomId: U32)

  const EMPTY := Service(map[], map[], map[], 1)

  datatype RoomError =
    AlreadyLoggedIn | InvalidRoomName | LoginRequired | LeaveCurrentRoomFirst |
    AlreadyInRoom | RoomNotFound | NotInRoom | UnknownUser

  datatype Op =
    | Attach(id: seq<Byte>, name: seq<Byte>)
    | Create(roomName: seq<Byte>)
    | Enter(room: U32)
    | Leave
    | Chat
    | Move(position: Position)
    | Disconnect

  /** `recipients` are the members to be told, the caller among them. */
  datatype Outcome = Refused(error: RoomError) | Granted(room: U32, actor: User, recipients: set<nat>)

  function NormalizedName(input: seq<Byte>): Option<seq<Byte>> {
    var trimmed := Trim(input);
    if trimmed == [] || |trimmed| > MAX_NAME_BYTES || !ValidText(trimmed) then None else Some(trimmed)
  }

  // ---- The calls ----

  function Admit(room: RoomData, user: User): RoomData {
    room.(members := room.members[user.session := user])
  }

  function Without(room: RoomData, s: nat): RoomData {
    if s in room.members then room.(members := room.members - {s}, positions := room.positions - {s}) else room
  }

  function Placed(room: RoomData, s: nat, p: Position): RoomData {
    if s in room.members then room.(positions := room.positions[s := p]) else room
  }

  /** Removes one member; a room that loses its last member is erased. */
  function Expel(v: Service, s: nat, id: U32): Service
    requires id in v.rooms
  {
    var left := Without(v.rooms[id], s);
    v.(roomOf := v.roomOf - {s},
       rooms := if left.members == map[] then v.rooms - {id} else v.rooms[id := left])
  }

  function AttachUser(v: Service, s: nat, id: seq<Byte>, name: seq<Byte>): (Service, Outcome) {
    if s in v.users then (v, Refused(AlreadyLoggedIn))
    else
      var user := User(id, s, name);
      (v.(users := v.users[s := user]), Granted(0, user, {}))
  }

  function CreateRoom(v: Service, s: nat, input: seq<Byte>): (Service, Outcome) {
    var name := NormalizedName(input);
    if name == None then (v, Refused(InvalidRoomName))
    else if s !in v.users then (v, Refused(LoginRequired))
    else if s in v.roomOf then (v, Refused(LeaveCurrentRoomFirst))
    else
      var id := v.nextRoomId;
      var room := Admit(RoomData(name.value, map[], map[]), v.users[s]);
      (v.(nextRoomId := (id + 1) % ROOM_ID_SPACE, rooms := v.rooms[id := room], roomOf := v.roomOf[s := id]),
       Granted(id, v.users[s], room.members.Keys))
  }

  function JoinRoom(v: Service, s: nat, id: U32): (Service, Outcome) {
    if s !in v.users then (v, Refused(LoginRequired))
    else if s in v.roomOf then (v, Refused(if v.roomOf[s] == id then AlreadyInRoom else LeaveCurrentRoomFirst))
    else if id !in v.rooms then (v, Refused(RoomNotFound))
    else
      var room := Admit(v.rooms[id], v.users[s]);
      (v.(rooms := v.rooms[id := room], roomOf := v.roomOf[s := id]),
       Granted(id, v.users[s], room.members.Keys))
  }

  function LeaveRoom(v: Service, s: nat): (Service, Outcome) {
    if s !in v.users then (v, Refused(LoginRequired))
    else if s !in v.roomOf then (v, Refused(NotInRoom))
    else
      var id := v.roomOf[s];
      if id !in v.rooms then (v.(roomOf := v.roomOf - {s}), Refused(RoomNotFound))
      else (Expel(v, s, id), Granted(id, v.users[s], v.rooms[id].members.Keys))
  }

  function ChatIn(v: Service, s: nat): (Service, Outcome) {
    if s !in v.users then (v, Refused(LoginRequired))
    else if s !in v.roomOf then (v, Refused(NotInRoom))
    else
      var id := v.roomOf[s];
      if id !in v.rooms then (v, Refused(RoomNotFound))
      else (v, Granted(id, v.users[s], v.rooms[id].members.Keys))
  }

  function UpdatePosition(v: Service, s: nat, p: Position): (Service, Outcome) {
    if s !in v.users then (v, Refused(LoginRequired))
    else if s !in v.roomOf then (v, Refused(NotInRoom))
    else
      var id := v.roomOf[s];
      if id !in v.rooms then (v, Refused(RoomNotFound))
      else
        (v.(rooms := v.rooms[id := Placed(v.rooms[id], s, p)]), Granted(id, v.users[s], v.rooms[id].members.Keys))
  }

  function DisconnectUser(v: Service, s: nat): (Service, Outcome) {
    if s !in v.users then (v, Refused(UnknownUser))
    else
      var gone := v.users - {s};
      if s in v.roomOf && v.roomOf[s] in v.rooms then
        var id := v.roomOf[s];
        (Expel(v, s, id).(users := gone), Granted(id, v.users[s], v.rooms[id].members.Keys))
      else (v.(users := gone, roomOf := v.roomOf - {s}), Granted(0, v.users[s], {}))
  }

  function Apply(v: Service, s: nat, op: Op): (Service, Outcome) {
    match op
    case Attach(id, name) => AttachUser(v, s, id, name)
    case Create(name) => CreateRoom(v, s, name)
    case Enter(room) => JoinRoom(v, s, room)
    case Leave => LeaveRoom(v, s)
    case Chat => ChatIn(v, s)
    case Move(p) => UpdatePosition(v, s, p)
    case Disconnect => DisconnectUser(v, s)
  }

  // ---- Membership is a bijection ----

  /** What a room says about its members is what the service says about them. */
  ghost predicate RoomAgrees(users: map<nat, User>, roomOf: map<nat, U32>, r: U32, room: RoomData) {
    && room.members != map[]
    && (forall s | s in room.members :: s in roomOf && roomOf[s] == r && s in users && room.members[s] == users[s])
    && room.positions.Keys <= room.members.Keys
  }

  ghost predicate Rooted(v: Service) {
    && (forall s | s in v.users :: v.users[s].session == s)
    && v.roomOf.Keys <= v.users.Keys
    && (forall r | r in v.rooms :: RoomAgrees(v.users, v.roomOf, r, v.rooms[r]))
  }

  /** Everyone the service places in a room is a member of that room. */
  ghost predicate Located(v: Service) {
    forall s | s in v.roomOf :: v.roomOf[s] in v.rooms && s in v.rooms[v.roomOf[s]].members
  }

  ghost predicate Consistent(v: Service) {
    Rooted(v) && Located(v)
  }

  /** The call will create a room. */
  predicate Creates(v: Service, s: nat, op: Op) {
    op.Create? && NormalizedName(op.roomName).Some? && s in v.users && s !in v.roomOf
  }

  lemma CreatesIffGranted(v: Service, s: nat, op: Op)
    ensures Creates(v, s, op) <==> op.Create? && Apply(v, s, op).1.Granted?
    ensures Creates(v, s, op) <==> Apply(v, s, op).0.nextRoomId != v.nextRoomId
  {
  }

  /** The call would hand out a room id that is still in use: possible only after 2^32 creations. */
  predicate ReusesRoomId(v: Service, s: nat, op: Op) {
    Creates(v, s, op) && v.nextRoomId in v.rooms
  }

  /** The room that is entered agrees with the service. */
  lemma AdmitAgrees(v: Service, s: nat, id: U32, room: RoomData)
    requires Rooted(v) && s in v.users && s !in v.roomOf
    requires (room.members == map[] && room.positions == map[]) || (id in v.rooms && room == v.rooms[id])
    ensures RoomAgrees(v.users, v.roomOf[s := id], id, Admit(room, v.users[s]))
  {
    assert s in Admit(room, v.users[s]).members;
    if id in v.rooms {
      assert RoomAgrees(v.users, v.roomOf, id, v.rooms[id]);
    }
  }

  lemma OtherRoomAgrees(v: Service, s: nat, id: U32, r: U32)
    requires Rooted(v) && s !in v.roomOf && r in v.rooms && r != id
    ensures RoomAgrees(v.users, v.roomOf[s := id], r, v.rooms[r])
  {
    assert RoomAgrees(v.users, v.roomOf, r, v.rooms[r]);
  }

  lemma AdmitRooted(v: Service, s: nat, id: U32, room: RoomData, next: U32)
    requires Rooted(v) && s in v.users && s !in v.roomOf
    requires (room.members == map[] && room.positions == map[]) || (id in v.rooms && room == v.rooms[id])
    ensures Rooted(v.(nextRoomId := next, rooms := v.rooms[id := Admit(room, v.users[s])],
                      roomOf := v.roomOf[s := id]))
  {
    AdmitAgrees(v, s, id, room);
    forall r | r in v.rooms && r != id ensures RoomAgrees(v.users, v.roomOf[s := id], r, v.rooms[r]) {
      OtherRoomAgrees(v, s, id, r);
    }
  }

  lemma ExpelRooted(v: Service, s: nat)
    requires Rooted(v) && s in v.roomOf && v.roomOf[s] in v.rooms
    ensures var w := Expel(v, s, v.roomOf[s]);
            && Rooted(w) && Rooted(w.(users := v.users - {s}))
            && forall r | r in w.rooms :: s !in w.rooms[r].members
  {
    var id := v.roomOf[s];
    var w := Expel(v, s, id);
    forall r | r in w.rooms
      ensures RoomAgrees(w.users, w.roomOf, r, w.rooms[r]) && RoomAgrees(v.users - {s}, w.roomOf, r, w.rooms[r])
      ensures s !in w.rooms[r].members
    {
      assert RoomAgrees(v.users, v.roomOf, r, v.rooms[r]);
    }
  }

  lemma MoveRooted(v: Service, s: nat, p: Position)
    requires Rooted(v)
    ensures Rooted(UpdatePosition(v, s, p).0)
  {
    var w := UpdatePosition(v, s, p).0;
    forall r | r in w.rooms ensures RoomAgrees(w.users, w.roomOf, r, w.rooms[r]) {
      assert RoomAgrees(v.users, v.roomOf, r, v.rooms[r]);
    }
  }

  lemma AttachRooted(v: Service, s: nat, id: seq<Byte>, name: seq<Byte>)
    requires Rooted(v)
    ensures Rooted(AttachUser(v, s, id, name).0)
  {
    var w := AttachUser(v, s, id, name).0;
    forall r | r in w.rooms ensures RoomAgrees(w.users, w.roomOf, r, w.rooms[r]) {
      assert RoomAgrees(v.users, v.roomOf, r, v.rooms[r]);
    }
  }

  /** Losing a user or a place that no room mentions leaves every room in agreement. */
  lemma UnplacedRooted(v: Service, s: nat)
    requires Rooted(v) && (s in v.roomOf ==> v.roomOf[s] !in v.rooms)
    ensures Rooted(v.(roomOf := v.roomOf - {s})) && Rooted(v.(users := v.users - {s}, roomOf := v.roomOf - {s}))
  {
    forall r | r in v.rooms
      ensures RoomAgrees(v.users, v.roomOf - {s}, r, v.rooms[r])
      ensures RoomAgrees(v.users - {s}, v.roomOf - {s}, r, v.rooms[r])
    {
      assert RoomAgrees(v.users, v.roomOf, r, v.rooms[r]);
    }
  }

  lemma RootedStays(v: Service, s: nat, op: Op)
    requires Rooted(v)
    ensures Rooted(Apply(v, s, op).0)
  {
    match op
    case Attach(id, name) => AttachRooted(v, s, id, name);
    case Create(input) =>
      var w := CreateRoom(v, s, input).0;
      if w != v {
        AdmitRooted(v, s, v.nextRoomId, RoomData(NormalizedName(input).value, map[], map[]), w.nextRoomId);
      }
    case Enter(id) =>
      if JoinRoom(v, s, id).0 != v {
        AdmitRooted(v, s, id, v.rooms[id], v.nextRoomId);
      }
    case Move(p) => MoveRooted(v, s, p);
    case Chat =>
    case _ =>
      if s in v.roomOf && v.roomOf[s] in v.rooms {
        ExpelRooted(v, s);
      } else {
        UnplacedRooted(v, s);
      }
  }

  lemma ExpelLocated(v: Service, s: nat)
    requires Consistent(v) && s in v.roomOf
    ensures Located(Expel(v, s, v.roomOf[s]))
  {
    var id := v.roomOf[s];
    var w := Expel(v, s, id);
    forall t | t in w.roomOf ensures w.roomOf[t] in w.rooms && t in w.rooms[w.roomOf[t]].members {
      if v.roomOf[t] == id {
        assert t in v.rooms[id].members - {s};
      }
    }
  }

  lemma AdmitLocated(v: Service, s: nat, id: U32, room: RoomData, next: U32)
    requires Consistent(v) && s in v.users && s !in v.roomOf
    requires (id !in v.rooms && room.members == map[]) || (id in v.rooms && room == v.rooms[id])
    ensures Located(v.(nextRoomId := next, rooms := v.rooms[id := Admit(room, v.users[s])],
                       roomOf := v.roomOf[s := id]))
  {
  }

  lemma LocatedStays(v: Service, s: nat, op: Op)
    requires Consistent(v) && !ReusesRoomId(v, s, op)
    ensures Located(Apply(v, s, op).0)
  {
    match op
    case Create(input) =>
      var w := CreateRoom(v, s, input).0;
      if w != v {
        AdmitLocated(v, s, v.nextRoomId, RoomData(NormalizedName(input).value, map[], map[]), w.nextRoomId);
      }
    case Enter(id) =>
      if JoinRoom(v, s, id).0 != v {
        AdmitLocated(v, s, id, v.rooms[id], v.nextRoomId);
      }
    case Attach(_, _) =>
    case Move(_) =>
    case Chat =>
    case _ =>
      if s in v.roomOf {
        ExpelLocated(v, s);
      }
  }

  /** A call keeps the bijection exactly when it does not hand out a room id that is in use. */
  lemma ConsistentStaysIff(v: Service, s: nat, op: Op)
    requires Consistent(v)
    ensures Consistent(Apply(v, s, op).0) <==> !ReusesRoomId(v, s, op)
  {
    if ReusesRoomId(v, s, op) {
      var w := Apply(v, s, op).0;
      var m :| m in v.rooms[v.nextRoomId].members;
      assert w.roomOf[m] == v.nextRoomId && m !in w.rooms[w.roomOf[m]].members;
    } else {
      RootedStays(v, s, op);
      LocatedStays(v, s, op);
    }
  }

  /** In a consistent state a refused call changes nothing, and only a join can fail to find a room. */
  lemma RefusalChangesNothing(v: Service, s: nat, op: Op)
    requires Consistent(v) && Apply(v, s, op).1.Refused?
    ensures Apply(v, s, op).0 == v
    ensures Apply(v, s, op).1.error == RoomNotFound ==> op.Enter?
  {
  }

  /** Runs of service calls, from the empty service. */
  ghost function Run(calls: seq<(nat, Op)>): Service {
    if calls == [] then EMPTY
    else
      var last := calls[|calls| - 1];
      Apply(Run(calls[..|calls| - 1]), last.0, last.1).0
  }

  /** How many rooms the calls create; refused requests do not count. */
  ghost function Creations(calls: seq<(nat, Op)>): nat {
    if calls == [] then 0
    else
      var before, last := calls[..|calls| - 1], calls[|calls| - 1];
      Creations(before) + if Creates(Run(before), last.0, last.1) then 1 else 0
  }

  /** Room ids 1 to `n` are spent; the next one is unused. */
  ghost predicate IdsSpent(v: Service, n: nat) {
    n < ROOM_ID_SPACE && v.nextRoomId == (n + 1) % ROOM_ID_SPACE && forall r | r in v.rooms :: 1 <= r <= n
  }

  lemma IdsStep(v: Service, s: nat, op: Op, n: nat) returns (m: nat)
    requires IdsSpent(v, n)
    ensures m == n + (if Creates(v, s, op) then 1 else 0) && (m < ROOM_ID_SPACE ==> IdsSpent(Apply(v, s, op).0, m))
    ensures !ReusesRoomId(v, s, op)
  {
    m := if Creates(v, s, op) then n + 1 else n;
  }

  lemma NoIdIsReused(v: Service, s: nat, op: Op, n: nat)
    requires Consistent(v) && (n < ROOM_ID_SPACE ==> IdsSpent(v, n)) && (Creates(v, s, op) ==> n < ROOM_ID_SPACE)
    ensures Consistent(Apply(v, s, op).0)
  {
    if Creates(v, s, op) {
      var m := IdsStep(v, s, op, n);
    }
    ConsistentStaysIff(v, s, op);
  }

  ghost predicate InOrder(v: Service, n: nat) {
    // The body has a name so that the verifier proves and uses the predicate whole, not split into its parts.
    var inOrder := Consistent(v) && (n < ROOM_ID_SPACE ==> IdsSpent(v, n));
    inOrder
  }

  lemma MoreIdsSpent(v: Service, s: nat, op: Op, n: nat, v': Service, m: nat)
    requires n < ROOM_ID_SPACE ==> IdsSpent(v, n)
    requires v' == Apply(v, s, op).0 && m == n + (if Creates(v, s, op) then 1 else 0)
    ensures m < ROOM_ID_SPACE ==> IdsSpent(v', m)
  {
    if n < ROOM_ID_SPACE {
      var k := IdsStep(v, s, op, n);
    }
  }

  lemma OneMoreCall(v: Service, s: nat, op: Op, n: nat, v': Service, m: nat)
    requires InOrder(v, n) && v' == Apply(v, s, op).0 && m == n + (if Creates(v, s, op) then 1 else 0)
    requires m <= ROOM_ID_SPACE
    ensures InOrder(v', m)
  {
    assert Consistent(v') by {
      NoIdIsReused(v, s, op, n);
    }
    MoreIdsSpent(v, s, op, n, v', m);
  }

  lemma {:induction false} RunInOrder(calls: seq<(nat, Op)>)
    requires Creations(calls) <= ROOM_ID_SPACE
    ensures InOrder(Run(calls), Creations(calls))
    decreases |calls|
  {
    if calls != [] {
      var before, last := calls[..|calls| - 1], calls[|calls| - 1];
      RunInOrder(before);
      OneMoreCall(Run(before), last.0, last.1, Creations(before), Run(calls), Creations(calls));
    }
  }

  /** After every sequence of calls that creates at most 2^32 rooms, for every number of sessions,
      membership is a bijection; with fewer, no room has id 0. */
  lemma RunIsConsistent(calls: seq<(nat, Op)>)
    requires Creations(calls) <= ROOM_ID_SPACE
    ensures Consistent(Run(calls))
    ensures Creations(calls) < ROOM_ID_SPACE ==> IdsSpent(Run(calls), Creations(calls))
  {
    RunInOrder(calls);
  }

  /** For any run at all, however many rooms it creates, rooms never disagree with the service. */
  lemma {:induction false} RunIsRooted(calls: seq<(nat, Op)>)
    ensures Rooted(Run(calls))
    decreases |calls|
  {
    if calls != [] {
      var last := calls[|calls| - 1];
      RunIsRooted(calls[..|calls| - 1]);
      RootedStays(Run(calls[..|calls| - 1]), last.0, last.1);
    }
  }

  // ---- Traces of a session ----

  /** Some part of the service still knows the session. */
  ghost predicate Present(v: Service, s: nat) {
    || s in v.users || s in v.roomOf
    || exists r :: r in v.rooms && (s in v.rooms[r].members || s in v.rooms[r].positions)
  }

  lemma UntouchedStaysAbsent(v: Service, w: Service, s: nat, t: nat)
    requires Touches(v, w, s) && !Present(v, t) && s != t
    ensures !Present(w, t)
  {
    assert t !in w.users - {s} && t !in w.roomOf - {s};
  }

  lemma OthersDoNotRevive(v: Service, s: nat, op: Op, t: nat)
    requires Rooted(v) && !Present(v, t) && s != t
    ensures !Present(Apply(v, s, op).0, t)
  {
    TouchesOnlyOwn(v, s, op);
    UntouchedStaysAbsent(v, Apply(v, s, op).0, s, t);
  }

  lemma DisconnectErases(v: Service, s: nat)
    requires Rooted(v)
    ensures !Present(DisconnectUser(v, s).0, s)
  {
    if s in v.users && s in v.roomOf && v.roomOf[s] in v.rooms {
      ExpelRooted(v, s);
    }
  }

  /** What one session does never moves another: its user and its room stay. */
  lemma OthersKeepTheirPlace(v: Service, s: nat, op: Op, t: nat)
    requires Rooted(v) && s != t
    ensures var w := Apply(v, s, op).0;
            && (t in w.users <==> t in v.users) && (t in v.users ==> w.users[t] == v.users[t])
            && (t in w.roomOf <==> t in v.roomOf) && (t in v.roomOf ==> w.roomOf[t] == v.roomOf[t])
  {
    TouchesOnlyOwn(v, s, op);
    var w := Apply(v, s, op).0;
    assert t in w.users - {s} <==> t in v.users - {s};
    assert t in w.roomOf - {s} <==> t in v.roomOf - {s};
  }

  /** From `v` to `w`, only what concerns session `s` changed, except that rooms may vanish. */
  ghost predicate Touches(v: Service, w: Service, s: nat) {
    && v.users - {s} == w.users - {s} && v.roomOf - {s} == w.roomOf - {s}
    && forall r | r in w.rooms ::
         var was := if r in v.rooms then v.rooms[r] else RoomData([], map[], map[]);
         w.rooms[r].members.Keys <= was.members.Keys + {s} && w.rooms[r].positions.Keys <= was.positions.Keys + {s}
  }

  lemma ExpelTouches(v: Service, s: nat, id: U32)
    requires id in v.rooms
    ensures Touches(v, Expel(v, s, id), s) && Touches(v, Expel(v, s, id).(users := v.users - {s}), s)
  {
  }

  lemma AdmitTouches(v: Service, s: nat, id: U32, room: RoomData, next: U32, user: User)
    requires user.session == s
    requires (room.members == map[] && room.positions == map[]) || (id in v.rooms && room == v.rooms[id])
    ensures Touches(v, v.(nextRoomId := next, rooms := v.rooms[id := Admit(room, user)],
                          roomOf := v.roomOf[s := id]), s)
  {
  }

  lemma MoveTouches(v: Service, s: nat, p: Position)
    ensures Touches(v, UpdatePosition(v, s, p).0, s)
  {
  }

  lemma TouchesOnlyOwn(v: Service, s: nat, op: Op)
    requires forall t | t in v.users :: v.users[t].session == t
    ensures Touches(v, Apply(v, s, op).0, s)
  {
    match op
    case Attach(_, _) =>
    case Create(input) =>
      var w := CreateRoom(v, s, input).0;
      if w != v {
        AdmitTouches(v, s, v.nextRoomId, RoomData(NormalizedName(input).value, map[], map[]), w.nextRoomId, v.users[s]);
      }
    case Enter(id) =>
      if JoinRoom(v, s, id).0 != v {
        AdmitTouches(v, s, id, v.rooms[id], v.nextRoomId, v.users[s]);
      }
    case Move(p) => MoveTouches(v, s, p);
    case Chat =>
    case _ =>
      if s in v.roomOf && v.roomOf[s] in v.rooms {
        ExpelTouches(v, s, v.roomOf[s]);
      }
  }
}

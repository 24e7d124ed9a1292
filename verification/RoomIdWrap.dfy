/** What happens when room ids come round: after 2^32 creations membership can stop being a bijection, and
    the creation before that hands out id 0, which the client does not accept. */
module RoomIdWrap {
  import opened Wrappers
  import opened Bytes
  import opened TextValidation
  import opened StructuredPayload
  import opened Messages
  import opened RoomModel
  import Router
  import Client = ClientModel

  const NAME_A: seq<Byte> := [0x61]
  const ID_A: seq<Byte> := Digits36()

  function Digits36(): (id: seq<Byte>)
    ensures |id| == 36 && forall b | b in id :: b == 0x30
  {
    seq(36, i => 0x30)
  }

  function Visitor(s: nat): User {
    User(ID_A, s, NAME_A)
  }

  lemma NameStays()
    ensures ValidText(NAME_A) && NormalizedName(NAME_A) == Some(NAME_A)
  {
    PlainAsciiIsValid(NAME_A);
    assert TrimStart(NAME_A) == NAME_A && TrimEnd(NAME_A) == NAME_A;
  }

  lemma VisitorIsValid(s: nat)
    requires 0 < s < U64_SPACE
    ensures ValidUser(Visitor(s))
  {
    NameStays();
  }

  /** Session 1 is in room 1, session 2 in none, and `next` is the next room id. */
  function Resting(next: U32): Service {
    Service(map[1 := Visitor(1), 2 := Visitor(2)], map[1 := 1],
            map[1 := RoomData(NAME_A, map[1 := Visitor(1)], map[])], next)
  }

  lemma Extend(calls: seq<(nat, Op)>, s: nat, op: Op)
    ensures Run(calls + [(s, op)]) == Apply(Run(calls), s, op).0
    ensures Creations(calls + [(s, op)]) == Creations(calls) + if Creates(Run(calls), s, op) then 1 else 0
  {
    assert (calls + [(s, op)])[..|calls|] == calls;
  }

  lemma Settled() returns (calls: seq<(nat, Op)>)
    ensures Run(calls) == Resting(2) && Creations(calls) == 1
  {
    NameStays();
    Extend([], 1, Attach(ID_A, NAME_A));
    calls := [] + [(1, Attach(ID_A, NAME_A))];
    Extend(calls, 2, Attach(ID_A, NAME_A));
    calls := calls + [(2, Attach(ID_A, NAME_A))];
    assert Run(calls) == Service(map[1 := Visitor(1), 2 := Visitor(2)], map[], map[], 1);
    Extend(calls, 1, Create(NAME_A));
    calls := calls + [(1, Create(NAME_A))];
  }

  lemma CreateAndLeave(next: U32)
    requires next != 1
    ensures LeaveRoom(CreateRoom(Resting(next), 2, NAME_A).0, 2).0 == Resting((next + 1) % ROOM_ID_SPACE)
  {
    NameStays();
    var v := Resting(next);
    var w := CreateRoom(v, 2, NAME_A).0;
    assert w.rooms == v.rooms[next := RoomData(NAME_A, map[2 := Visitor(2)], map[])];
    assert w.roomOf == map[1 := 1, 2 := next];
    var left := Without(w.rooms[next], 2);
    assert left.members == map[];
    assert w.rooms - {next} == v.rooms && w.roomOf - {2} == v.roomOf;
  }

  lemma OneRound(calls: seq<(nat, Op)>, next: U32) returns (more: seq<(nat, Op)>)
    requires Run(calls) == Resting(next) && next != 1
    ensures Run(more) == Resting((next + 1) % ROOM_ID_SPACE) && Creations(more) == Creations(calls) + 1
  {
    var mid := calls + [(2, Create(NAME_A))];
    Extend(calls, 2, Create(NAME_A));
    more := mid + [(2, Leave)];
    Extend(mid, 2, Leave);
    CreateAndLeave(next);
  }

  lemma NextId(k: nat) returns (next: U32)
    requires 0 < k < ROOM_ID_SPACE
    ensures next == (1 + k) % ROOM_ID_SPACE && next != 1 && (next + 1) % ROOM_ID_SPACE == (2 + k) % ROOM_ID_SPACE
  {
    next := if k == ROOM_ID_SPACE - 1 then 0 else 1 + k;
  }

  /** Session 2 creates a room and leaves it, `k` times. */
  lemma {:induction false} Rounds(k: nat) returns (calls: seq<(nat, Op)>)
    requires k < ROOM_ID_SPACE
    ensures Run(calls) == Resting((2 + k) % ROOM_ID_SPACE) && Creations(calls) == 1 + k
  {
    if k == 0 {
      calls := Settled();
    } else {
      calls := Rounds(k - 1);
      var next := NextId(k);
      calls := OneRound(calls, next);
    }
  }

  lemma ReusesOne()
    ensures ReusesRoomId(Resting(1), 2, Create(NAME_A)) && Consistent(Resting(1))
  {
    NameStays();
    var v := Resting(1);
    assert RoomAgrees(v.users, v.roomOf, 1, v.rooms[1]) by {
      assert 1 in v.rooms[1].members;
    }
  }

  lemma BreaksFrom(calls: seq<(nat, Op)>, v: Service)
    requires Run(calls) == v && Consistent(v) && ReusesRoomId(v, 2, Create(NAME_A))
    ensures !Consistent(Run(calls + [(2, Create(NAME_A))]))
    ensures Creations(calls + [(2, Create(NAME_A))]) == Creations(calls) + 1
  {
    ConsistentStaysIff(v, 2, Create(NAME_A));
    Extend(calls, 2, Create(NAME_A));
  }

  /** One creation more than `RunIsConsistent` allows, and a session is placed in a room it is not in. */
  lemma WrapBreaks() returns (calls: seq<(nat, Op)>)
    ensures Creations(calls) == ROOM_ID_SPACE + 1 && !Consistent(Run(calls))
  {
    calls := Rounds(ROOM_ID_SPACE - 1);
    ReusesOne();
    BreaksFrom(calls, Resting(1));
    calls := calls + [(2, Create(NAME_A))];
  }

  // ---- Room 0 ----

  lemma ZeroIsHandedOut()
    ensures var answer := Router.RoomPacket(CREATE_ROOM_RES, Ascii("CREATE_ROOM"), 0, Visitor(2));
            Router.OnCreate(Resting(0), 2, NAME_A).out == [Router.To(2, answer)]
  {
    NameStays();
  }

  lemma UnacceptedIsRejected(c: Client.Client, p: Packet, payload: Payload)
    requires c.state == Client.LoggedIn && c.pending == Client.CreateRoom && !c.negotiating
    requires p.kind == CREATE_ROOM_RES && ParsePayload(p.payload) == Ok(payload)
    requires !RoomAccepted(payload, Ascii("CREATE_ROOM"))
    ensures Client.OnPacket(c, p).1 == Client.Rejected
  {
  }

  lemma ZeroIsRead(event: seq<Byte>)
    requires PlainAscii(event)
    ensures ParsePayload(Router.Text(RoomPayload(event, 0, Visitor(2)))) == Ok(RoomPayload(event, 0, Visitor(2)))
  {
    VisitorIsValid(2);
    RoomBuildable(event, 0, Visitor(2));
    ParseBuild(RoomPayload(event, 0, Visitor(2)));
  }

  lemma ZeroIsMissed(c: Client.Client, event: seq<Byte>)
    requires c.state == Client.LoggedIn && c.pending == Client.CreateRoom && !c.negotiating
    requires event == Ascii("CREATE_ROOM")
    ensures Client.OnPacket(c, Router.RoomPacket(CREATE_ROOM_RES, event, 0, Visitor(2))).1 == Client.Rejected
  {
    ZeroIsRead(event);
    ZeroRoomIsRejected(event, Visitor(2));
    UnacceptedIsRejected(c, Router.RoomPacket(CREATE_ROOM_RES, event, 0, Visitor(2)), RoomPayload(event, 0, Visitor(2)));
  }

  /** Session 2 gets an answer, and client `c` does not accept it. */
  ghost predicate AnswerIsRejected(out: seq<Router.Out>, c: Client.Client) {
    // The body has a name so that the verifier proves and uses the predicate whole, not split into its parts.
    var rejected := |out| == 1 && out[0].To? && out[0].session == 2
                    && Client.OnPacket(c, out[0].packet).1 == Client.Rejected;
    rejected
  }

  lemma ZeroIsRejected(c: Client.Client)
    requires c.state == Client.LoggedIn && c.pending == Client.CreateRoom && !c.negotiating
    ensures AnswerIsRejected(Router.OnCreate(Resting(0), 2, NAME_A).out, c)
  {
    ZeroIsHandedOut();
    ZeroIsMissed(c, Ascii("CREATE_ROOM"));
  }

  lemma ReachesZero() returns (calls: seq<(nat, Op)>)
    ensures Run(calls) == Resting(0) && Creations(calls) == ROOM_ID_SPACE - 1
  {
    calls := Rounds(ROOM_ID_SPACE - 2);
  }

  /** The answer to creation number 2^32 names no room, and the client that asked for it finds it malformed. */
  lemma LastIdIsRejected(c: Client.Client) returns (calls: seq<(nat, Op)>)
    requires c.state == Client.LoggedIn && c.pending == Client.CreateRoom && !c.negotiating
    ensures Creations(calls) == ROOM_ID_SPACE - 1
    ensures AnswerIsRejected(Router.OnCreate(Run(calls), 2, NAME_A).out, c)
  {
    ZeroIsRejected(c);
    calls := ReachesZero();
  }
}

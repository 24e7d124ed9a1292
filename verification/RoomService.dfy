/** The room service as the objects the server keeps, each call proved against the values of the model. */
module RoomService {
  import opened Wrappers
  import opened Bytes
  import opened TextValidation
  import opened RoomModel

  class Room {
    const id: U32
    const name: seq<Byte>
    var members: map<nat, User>
    var positions: map<nat, Position>

    ghost function Value(): RoomData
      reads this
    {
      RoomData(name, members, positions)
    }

    constructor (id: U32, name: seq<Byte>)
      ensures this.id == id && Value() == RoomData(name, map[], map[])
    {
      this.id, this.name := id, name;
      members, positions := map[], map[];
    }

    method Join(user: User)
      modifies this
      ensures Value() == Admit(old(Value()), user)
    {
      members := members[user.session := user];
    }

    method Leave(s: nat)
      modifies this
      ensures Value() == Without(old(Value()), s)
    {
      if s in members {
        members, positions := members - {s}, positions - {s};
      }
    }

    method SetPosition(s: nat, p: Position)
      modifies this
      ensures Value() == Placed(old(Value()), s, p)
    {
      if s in members {
        positions := positions[s := p];
      }
    }
  }

  class Lobby {
    var nextRoomId: U32
    var rooms: map<U32, Room>

    /** No room object stands under two ids. */
    ghost predicate Valid()
      reads this
    {
      forall a, b | a in rooms && b in rooms && a != b :: rooms[a] != rooms[b]
    }

    ghost function Value(): map<U32, RoomData>
      reads this, rooms.Values
    {
      map id | id in rooms :: rooms[id].Value()
    }

    constructor ()
      ensures Valid() && rooms == map[] && nextRoomId == 1
    {
      nextRoomId, rooms := 1, map[];
    }

    method CreateRoom(name: seq<Byte>) returns (room: Room)
      requires Valid()
      modifies this
      ensures Valid() && fresh(room) && room.id == old(nextRoomId) && room.Value() == RoomData(name, map[], map[])
      ensures rooms == old(rooms)[old(nextRoomId) := room]
      ensures nextRoomId == (old(nextRoomId) + 1) % ROOM_ID_SPACE
    {
      var id := nextRoomId;
      nextRoomId := (id + 1) % ROOM_ID_SPACE;
      room := new Room(id, name);
      rooms := rooms[id := room];
    }

    /** A new room with its first member. */
    method Open(name: seq<Byte>, user: User) returns (room: Room)
      requires Valid()
      modifies this
      ensures Valid() && fresh(room) && room.id == old(nextRoomId)
      ensures room.Value() == Admit(RoomData(name, map[], map[]), user)
      ensures Value() == old(Value())[room.id := room.Value()]
      ensures nextRoomId == (old(nextRoomId) + 1) % ROOM_ID_SPACE
    {
      room := CreateRoom(name);
      room.Join(user);
    }

    method Leave(s: nat, id: U32)
      requires Valid() && id in rooms
      modifies rooms[id]
      ensures Value() == old(Value())[id := Without(old(Value())[id], s)]
    {
      rooms[id].Leave(s);
    }

    method EraseIfEmpty(id: U32)
      requires Valid()
      modifies this
      ensures Valid() && nextRoomId == old(nextRoomId)
      ensures Value() == if id in old(Value()) && old(Value())[id].members == map[] then old(Value()) - {id}
                         else old(Value())
    {
      if id in rooms && rooms[id].members == map[] {
        rooms := rooms - {id};
        assert Value() == old(Value()) - {id};
      }
    }
  }

  lemma Dropped(rooms: map<U32, RoomData>, id: U32, left: RoomData)
    ensures rooms[id := left] - {id} == rooms - {id}
  {
  }

  class Rooms {
    var users: map<nat, User>
    var roomOf: map<nat, U32>
    const lobby: Lobby

    ghost predicate Valid()
      reads this, lobby
    {
      lobby.Valid()
    }

    ghost function Value(): Service
      reads this, lobby, lobby.rooms.Values
    {
      Service(users, roomOf, lobby.Value(), lobby.nextRoomId)
    }

    constructor ()
      ensures Valid() && Value() == EMPTY && fresh(lobby)
    {
      users, roomOf := map[], map[];
      lobby := new Lobby();
    }

    method AttachUser(s: nat, id: seq<Byte>, name: seq<Byte>) returns (outcome: Outcome)
      requires Valid()
      modifies this
      ensures Valid() && (Value(), outcome) == RoomModel.AttachUser(old(Value()), s, id, name)
    {
      if s in users {
        return Refused(AlreadyLoggedIn);
      }
      var user := User(id, s, name);
      users := users[s := user];
      outcome := Granted(0, user, {});
    }

    method CreateRoom(s: nat, input: seq<Byte>) returns (outcome: Outcome)
      requires Valid()
      modifies this, lobby
      ensures Valid() && (Value(), outcome) == RoomModel.CreateRoom(old(Value()), s, input)
    {
      var name := NormalizedName(input);
      if name == None {
        return Refused(InvalidRoomName);
      }
      if s !in users {
        return Refused(LoginRequired);
      }
      if s in roomOf {
        return Refused(LeaveCurrentRoomFirst);
      }
      var room := lobby.Open(name.value, users[s]);
      roomOf := roomOf[s := room.id];
      outcome := Granted(room.id, users[s], room.members.Keys);
    }

    method JoinRoom(s: nat, id: U32) returns (outcome: Outcome)
      requires Valid()
      modifies this, lobby.rooms.Values
      ensures Valid() && (Value(), outcome) == RoomModel.JoinRoom(old(Value()), s, id)
    {
      if s !in users {
        return Refused(LoginRequired);
      }
      if s in roomOf {
        return Refused(if roomOf[s] == id then AlreadyInRoom else LeaveCurrentRoomFirst);
      }
      if id !in lobby.rooms {
        return Refused(RoomNotFound);
      }
      var room := lobby.rooms[id];
      room.Join(users[s]);
      assert lobby.Value() == old(lobby.Value())[id := room.Value()];
      roomOf := roomOf[s := id];
      outcome := Granted(id, users[s], room.members.Keys);
    }

    /** Takes a member out of a room and erases the room if nobody is left. */
    method Expel(s: nat, id: U32)
      requires Valid() && id in lobby.rooms
      modifies this`roomOf, lobby, lobby.rooms.Values
      ensures Valid() && Value() == RoomModel.Expel(old(Value()), s, id)
    {
      ghost var before := lobby.Value();
      ghost var left := Without(before[id], s);
      lobby.Leave(s, id);
      roomOf := roomOf - {s};
      assert lobby.Value() == before[id := left];
      lobby.EraseIfEmpty(id);
      assert lobby.Value() == if left.members == map[] then before[id := left] - {id} else before[id := left];
      Dropped(before, id, left);
    }

    method LeaveRoom(s: nat) returns (outcome: Outcome)
      requires Valid()
      modifies this, lobby, lobby.rooms.Values
      ensures Valid() && (Value(), outcome) == RoomModel.LeaveRoom(old(Value()), s)
    {
      if s !in users {
        return Refused(LoginRequired);
      }
      if s !in roomOf {
        return Refused(NotInRoom);
      }
      var id := roomOf[s];
      if id !in lobby.rooms {
        roomOf := roomOf - {s};
        return Refused(RoomNotFound);
      }
      outcome := Granted(id, users[s], lobby.rooms[id].members.Keys);
      Expel(s, id);
    }

    method Chat(s: nat) returns (outcome: Outcome)
      requires Valid()
      ensures (Value(), outcome) == RoomModel.ChatIn(Value(), s)
    {
      if s !in users {
        return Refused(LoginRequired);
      }
      if s !in roomOf {
        return Refused(NotInRoom);
      }
      if roomOf[s] !in lobby.rooms {
        return Refused(RoomNotFound);
      }
      outcome := Granted(roomOf[s], users[s], lobby.rooms[roomOf[s]].members.Keys);
    }

    method UpdatePosition(s: nat, p: Position) returns (outcome: Outcome)
      requires Valid()
      modifies lobby.rooms.Values
      ensures Valid() && (Value(), outcome) == RoomModel.UpdatePosition(old(Value()), s, p)
    {
      if s !in users {
        return Refused(LoginRequired);
      }
      if s !in roomOf {
        return Refused(NotInRoom);
      }
      if roomOf[s] !in lobby.rooms {
        return Refused(RoomNotFound);
      }
      var room := lobby.rooms[roomOf[s]];
      room.SetPosition(s, p);
      assert lobby.Value() == old(lobby.Value())[roomOf[s] := room.Value()];
      outcome := Granted(roomOf[s], users[s], room.members.Keys);
    }

    method Disconnect(s: nat) returns (outcome: Outcome)
      requires Valid()
      modifies this, lobby, lobby.rooms.Values
      ensures Valid() && (Value(), outcome) == RoomModel.DisconnectUser(old(Value()), s)
    {
      if s !in users {
        return Refused(UnknownUser);
      }
      if s in roomOf && roomOf[s] in lobby.rooms {
        outcome := Granted(roomOf[s], users[s], lobby.rooms[roomOf[s]].members.Keys);
        Expel(s, roomOf[s]);
      } else {
        outcome := Granted(0, users[s], {});
        roomOf := roomOf - {s};
      }
      users := users - {s};
    }
  }
}

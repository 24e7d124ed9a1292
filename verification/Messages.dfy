/** The payloads the server builds, and what the client demands of them. */
module Messages {
  import opened Wrappers
  import opened Bytes
  import opened TextValidation
  import opened Framing
  import opened StructuredPayload
  import opened Decimal
  import Rooms = RoomModel

  const MAX_CHAT_MESSAGE_BYTES := 1291
  const U64_SPACE := 0x1_0000_0000_0000_0000

  predicate IsPlain(c: char) {
    0x20 <= c as int < 0x7F
  }

  /** The bytes of a text constant; all of them are plain ASCII. */
  function Ascii(s: string): (bytes: seq<Byte>)
    ensures |bytes| == |s| && PlainAscii(bytes)
    ensures forall i | 0 <= i < |s| && IsPlain(s[i]) :: bytes[i] == s[i] as int
  {
    seq(|s|, i requires 0 <= i < |s| => if IsPlain(s[i]) then s[i] as int else 0x3F)
  }

  const EVENT := Ascii("event")
  const ROOM_ID := Ascii("room_id")
  const USER_ID := Ascii("user_id")
  const SESSION_ID := Ascii("session_id")
  const NAME := Ascii("name")
  const MESSAGE := Ascii("message")
  const X_COORD := Ascii("x")
  const Y_COORD := Ascii("y")

  // ---- Packet types ----

  const LOGIN_REQ: U16 := 1
  const LOGIN_RES: U16 := 2
  const VERSION_REQ: U16 := 3
  const VERSION_RES: U16 := 4
  const CREATE_ROOM_REQ: U16 := 10
  const CREATE_ROOM_RES: U16 := 11
  const JOIN_ROOM_REQ: U16 := 12
  const JOIN_ROOM_RES: U16 := 13
  const LEAVE_ROOM_REQ: U16 := 14
  const LEAVE_ROOM_RES: U16 := 15
  const CHAT_REQ: U16 := 20
  const POSITION_UPDATE: U16 := 21
  const ROOM_BROADCAST: U16 := 22
  const PING: U16 := 30
  const PONG: U16 := 31
  const ERROR: U16 := 100

  // ---- What the server writes ----

  function UserId(u: Rooms.User): Field {
    Field(USER_ID, u.id)
  }

  function UserSession(u: Rooms.User): Field {
    Field(SESSION_ID, Digits(u.session))
  }

  function UserName(u: Rooms.User): Field {
    Field(NAME, u.name)
  }

  function Event(name: seq<Byte>): Field {
    Field(EVENT, name)
  }

  function RoomId(room: U32): Field {
    Field(ROOM_ID, Digits(room))
  }

  function LoginPayload(u: Rooms.User): Payload {
    Payload(true, [UserId(u), UserSession(u), UserName(u)])
  }

  /** Room 0 stands for no room and is not mentioned. */
  function RoomPayload(event: seq<Byte>, room: U32, actor: Rooms.User): Payload {
    Payload(true, if room != 0 then [Event(event), RoomId(room), UserId(actor), UserSession(actor), UserName(actor)]
                  else [Event(event), UserId(actor), UserSession(actor), UserName(actor)])
  }

  function ChatPayload(room: U32, actor: Rooms.User, message: seq<Byte>): Payload {
    Payload(false, [Event(Ascii("CHAT")), RoomId(room), UserId(actor), UserSession(actor), UserName(actor),
                    Field(MESSAGE, message)])
  }

  function PositionPayload(room: U32, actor: Rooms.User, x: seq<Byte>, y: seq<Byte>): Payload {
    Payload(false, [Event(Ascii("POSITION")), RoomId(room), UserId(actor), UserSession(actor), UserName(actor),
                    Field(X_COORD, x), Field(Y_COORD, y)])
  }

  /** A user as the server knows it: an id of 36 hexadecimal digits and dashes, a name that has passed
      normalization, a 64-bit session id. */
  ghost predicate ValidUser(u: Rooms.User) {
    && |u.id| == 36 && (forall b | b in u.id :: IsKeyByte(b) || b == 0x2D)
    && u.name != [] && |u.name| <= Rooms.MAX_NAME_BYTES && ValidText(u.name)
    && 0 < u.session < U64_SPACE
  }

  // ---- Building them succeeds ----

  lemma PlainValue(text: seq<Byte>)
    requires forall b | b in text :: IsKeyByte(b) || b == 0x2D
    ensures ValidText(text) && Escape(text) == text
  {
    assert forall i | 0 <= i < |text| :: text[i] in text;
    PlainAsciiIsValid(text);
    EscapePlain(text);
  }

  lemma {:induction false} EscapePlain(text: seq<Byte>)
    requires PERCENT !in text && BAR !in text && EQUALS !in text
    ensures Escape(text) == text
  {
    if text != [] {
      var n := |text| - 1;
      EscapePlain(text[..n]);
      assert text[..n] + [text[n]] == text;
    }
  }

  lemma NumberValue(n: nat)
    ensures ValidText(Digits(n)) && Escape(Digits(n)) == Digits(n)
  {
    forall b | b in Digits(n) ensures IsKeyByte(b) {
      assert IsDigit(b);
    }
    PlainValue(Digits(n));
  }

  lemma KeysAreValid()
    ensures ValidKey(EVENT) && ValidKey(ROOM_ID) && ValidKey(USER_ID) && ValidKey(SESSION_ID) && ValidKey(NAME)
    ensures ValidKey(MESSAGE) && ValidKey(X_COORD) && ValidKey(Y_COORD)
  {
  }

  lemma KeysDiffer()
    ensures EVENT != ROOM_ID && EVENT != USER_ID && EVENT != SESSION_ID && EVENT != NAME && EVENT != MESSAGE
    ensures ROOM_ID != USER_ID && ROOM_ID != SESSION_ID && ROOM_ID != NAME && ROOM_ID != MESSAGE
    ensures USER_ID != SESSION_ID && USER_ID != NAME && USER_ID != MESSAGE
    ensures SESSION_ID != NAME && SESSION_ID != MESSAGE && NAME != MESSAGE
    ensures X_COORD != Y_COORD && |X_COORD| == 1 && |Y_COORD| == 1
  {
    assert ROOM_ID[0] == 'r' as int && USER_ID[0] == 'u' as int && MESSAGE[0] == 'm' as int;
    assert X_COORD[0] == 'x' as int && Y_COORD[0] == 'y' as int;
  }

  /** The place of a key in the order in which the server writes fields. */
  function Rank(key: seq<Byte>): int {
    if key == EVENT then 0
    else if key == ROOM_ID then 1
    else if key == USER_ID then 2
    else if key == SESSION_ID then 3
    else if key == NAME then 4
    else if key == MESSAGE || key == X_COORD then 5
    else 6
  }

  ghost predicate Fits(f: Field, rank: int) {
    // The body has a name so that the verifier proves and uses the predicate whole, not split into its parts.
    var fits := ValidKey(f.key) && ValidText(f.value) && Rank(f.key) == rank;
    fits
  }

  /** Fields in the order of their ranks are distinct. */
  lemma Ordered(fields: seq<Field>, ranks: seq<int>)
    requires |ranks| == |fields| && forall i | 0 <= i < |fields| :: Fits(fields[i], ranks[i])
    requires forall i, j | 0 <= i < j < |ranks| :: ranks[i] < ranks[j]
    ensures FieldsOk(fields)
  {
    forall i, j | 0 <= i < j < |fields| ensures fields[i].key != fields[j].key {
      assert Fits(fields[i], ranks[i]) && Fits(fields[j], ranks[j]);
    }
  }

  lemma FourFit(a: Field, c: Field, d: Field, e: Field)
    requires Fits(a, 0) && Fits(c, 2) && Fits(d, 3) && Fits(e, 4)
    ensures FieldsOk([c, d, e]) && FieldsOk([a, c, d, e])
  {
    Ordered([c, d, e], [2, 3, 4]);
    Ordered([a, c, d, e], [0, 2, 3, 4]);
  }

  lemma FiveFit(a: Field, b: Field, c: Field, d: Field, e: Field)
    requires Fits(a, 0) && Fits(b, 1) && Fits(c, 2) && Fits(d, 3) && Fits(e, 4)
    ensures FieldsOk([a, b, c, d, e])
  {
    Ordered([a, b, c, d, e], [0, 1, 2, 3, 4]);
  }

  lemma SixFit(a: Field, b: Field, c: Field, d: Field, e: Field, f: Field)
    requires Fits(a, 0) && Fits(b, 1) && Fits(c, 2) && Fits(d, 3) && Fits(e, 4) && Fits(f, 5)
    ensures FieldsOk([a, b, c, d, e, f])
  {
    Ordered([a, b, c, d, e, f], [0, 1, 2, 3, 4, 5]);
  }

  lemma SevenFit(a: Field, b: Field, c: Field, d: Field, e: Field, f: Field, g: Field)
    requires Fits(a, 0) && Fits(b, 1) && Fits(c, 2) && Fits(d, 3) && Fits(e, 4) && Fits(f, 5) && Fits(g, 6)
    ensures FieldsOk([a, b, c, d, e, f, g])
  {
    Ordered([a, b, c, d, e, f, g], [0, 1, 2, 3, 4, 5, 6]);
  }

  lemma EventFits(event: seq<Byte>)
    requires PlainAscii(event)
    ensures Fits(Event(event), 0)
  {
    PlainAsciiIsValid(event);
    KeysAreValid();
  }

  lemma RoomIdFits(room: U32)
    ensures Fits(RoomId(room), 1)
  {
    NumberValue(room);
    KeysAreValid();
    KeysDiffer();
  }

  lemma UserIdFits(u: Rooms.User)
    requires ValidUser(u)
    ensures Fits(UserId(u), 2)
  {
    PlainValue(u.id);
    KeysAreValid();
    KeysDiffer();
  }

  lemma UserSessionFits(u: Rooms.User)
    ensures Fits(UserSession(u), 3)
  {
    NumberValue(u.session);
    KeysAreValid();
    KeysDiffer();
  }

  lemma UserNameFits(u: Rooms.User)
    requires ValidUser(u)
    ensures Fits(UserName(u), 4)
  {
    KeysAreValid();
    KeysDiffer();
  }

  lemma CommonFit(event: seq<Byte>, room: U32, u: Rooms.User)
    requires ValidUser(u) && PlainAscii(event)
    ensures Fits(Event(event), 0) && Fits(RoomId(room), 1)
    ensures Fits(UserId(u), 2) && Fits(UserSession(u), 3) && Fits(UserName(u), 4)
  {
    EventFits(event);
    RoomIdFits(room);
    UserIdFits(u);
    UserSessionFits(u);
    UserNameFits(u);
  }

  lemma RestFits(message: seq<Byte>, x: seq<Byte>, y: seq<Byte>)
    requires ValidText(message) && ValidText(x) && ValidText(y)
    ensures Fits(Field(MESSAGE, message), 5) && Fits(Field(X_COORD, x), 5) && Fits(Field(Y_COORD, y), 6)
  {
    KeysAreValid();
    KeysDiffer();
  }

  lemma RoomBuildable(event: seq<Byte>, room: U32, actor: Rooms.User)
    requires ValidUser(actor) && PlainAscii(event)
    ensures Buildable(RoomPayload(event, room, actor)) && Buildable(LoginPayload(actor))
  {
    CommonFit(event, room, actor);
    FourFit(Event(event), UserId(actor), UserSession(actor), UserName(actor));
    FiveFit(Event(event), RoomId(room), UserId(actor), UserSession(actor), UserName(actor));
  }

  lemma ChatBuildable(room: U32, actor: Rooms.User, message: seq<Byte>)
    requires ValidUser(actor) && ValidText(message)
    ensures Buildable(ChatPayload(room, actor, message))
  {
    CommonFit(Ascii("CHAT"), room, actor);
    RestFits(message, [], []);
    SixFit(Event(Ascii("CHAT")), RoomId(room), UserId(actor), UserSession(actor), UserName(actor),
           Field(MESSAGE, message));
  }

  lemma PositionBuildable(room: U32, actor: Rooms.User, x: seq<Byte>, y: seq<Byte>)
    requires ValidUser(actor) && ValidText(x) && ValidText(y)
    ensures Buildable(PositionPayload(room, actor, x, y))
  {
    CommonFit(Ascii("POSITION"), room, actor);
    RestFits([], x, y);
    SevenFit(Event(Ascii("POSITION")), RoomId(room), UserId(actor), UserSession(actor), UserName(actor),
             Field(X_COORD, x), Field(Y_COORD, y));
  }

  // ---- What the client demands ----

  function Lookup(fields: seq<Field>, key: seq<Byte>): Option<seq<Byte>> {
    if fields == [] then None
    else if fields[0].key == key then Some(fields[0].value) else Lookup(fields[1..], key)
  }

  predicate Present(p: Payload, key: seq<Byte>) {
    Lookup(p.fields, key).Some? && Lookup(p.fields, key).value != []
  }

  predicate Positive(p: Payload, key: seq<Byte>) {
    var text := Lookup(p.fields, key);
    text.Some? && ParseBelow(text.value, U64_SPACE).Some? && ParseBelow(text.value, U64_SPACE).value > 0
  }

  predicate HasUser(p: Payload) {
    Present(p, USER_ID) && Present(p, NAME) && Positive(p, SESSION_ID)
  }

  predicate LoginAccepted(p: Payload) {
    p.ok && HasUser(p)
  }

  predicate RoomAccepted(p: Payload, event: seq<Byte>) {
    p.ok && Lookup(p.fields, EVENT) == Some(event) && Positive(p, ROOM_ID) && HasUser(p)
  }

  predicate BroadcastAccepted(p: Payload) {
    var event := Lookup(p.fields, EVENT);
    && event.Some?
    && (if event.value == Ascii("JOIN") || event.value == Ascii("LEAVE") then p.ok
        else if event.value == Ascii("CHAT") then !p.ok && Lookup(p.fields, MESSAGE).Some?
        else event.value == Ascii("POSITION") && !p.ok && Present(p, X_COORD) && Present(p, Y_COORD))
    && Positive(p, ROOM_ID) && HasUser(p)
  }

  lemma {:induction false} LookupAt(fields: seq<Field>, i: nat)
    requires FieldsOk(fields) && i < |fields|
    ensures Lookup(fields, fields[i].key) == Some(fields[i].value)
    decreases |fields|
  {
    if i > 0 {
      assert fields[1..][i - 1] == fields[i];
      LookupAt(fields[1..], i - 1);
    }
  }

  lemma PositiveAt(p: Payload, i: nat, n: nat)
    requires FieldsOk(p.fields) && i < |p.fields| && p.fields[i].value == Digits(n) && 0 < n < U64_SPACE
    ensures Positive(p, p.fields[i].key)
  {
    LookupAt(p.fields, i);
    NumbersComeBack(n, U64_SPACE);
  }

  /** The user fields stand somewhere in the payload. */
  lemma UserAt(p: Payload, i: nat, u: Rooms.User)
    requires FieldsOk(p.fields) && i + 3 <= |p.fields| && ValidUser(u)
    requires p.fields[i] == UserId(u) && p.fields[i + 1] == UserSession(u) && p.fields[i + 2] == UserName(u)
    ensures HasUser(p)
  {
    LookupAt(p.fields, i);
    LookupAt(p.fields, i + 2);
    PositiveAt(p, i + 1, u.session);
  }

  /** What the server writes, the client accepts. */
  lemma LoginIsAccepted(u: Rooms.User)
    requires ValidUser(u)
    ensures Buildable(LoginPayload(u)) && LoginAccepted(LoginPayload(u))
  {
    RoomBuildable([], 0, u);
    UserAt(LoginPayload(u), 0, u);
  }

  lemma RoomIsAccepted(event: seq<Byte>, room: U32, actor: Rooms.User)
    requires ValidUser(actor) && PlainAscii(event) && room != 0
    ensures Buildable(RoomPayload(event, room, actor)) && RoomAccepted(RoomPayload(event, room, actor), event)
    ensures event == Ascii("JOIN") || event == Ascii("LEAVE") ==> BroadcastAccepted(RoomPayload(event, room, actor))
  {
    var p := RoomPayload(event, room, actor);
    RoomBuildable(event, room, actor);
    LookupAt(p.fields, 0);
    PositiveAt(p, 1, room);
    UserAt(p, 2, actor);
  }

  lemma FourLackRoom(fields: seq<Field>)
    requires |fields| == 4 && forall i | 0 <= i < 4 :: fields[i].key != ROOM_ID
    ensures Lookup(fields, ROOM_ID) == None
  {
    var rest := fields[1..];
    assert rest[0] == fields[1] && rest[1..][0] == fields[2] && rest[1..][1..][0] == fields[3];
    assert rest[1..][1..][1..] == [];
    assert Lookup(rest[1..][1..], ROOM_ID) == None;
    assert Lookup(rest, ROOM_ID) == None;
  }

  /** A room with id 0 is not mentioned, and the client misses it. */
  lemma ZeroRoomIsRejected(event: seq<Byte>, actor: Rooms.User)
    ensures !RoomAccepted(RoomPayload(event, 0, actor), event)
  {
    KeysDiffer();
    FourLackRoom(RoomPayload(event, 0, actor).fields);
  }

  lemma ChatIsAccepted(room: U32, actor: Rooms.User, message: seq<Byte>)
    requires ValidUser(actor) && ValidText(message) && room != 0
    ensures Buildable(ChatPayload(room, actor, message)) && BroadcastAccepted(ChatPayload(room, actor, message))
  {
    var p := ChatPayload(room, actor, message);
    ChatBuildable(room, actor, message);
    assert Ascii("CHAT")[0] == 'C' as int && Ascii("JOIN")[0] == 'J' as int;
    LookupAt(p.fields, 0);
    LookupAt(p.fields, 5);
    PositiveAt(p, 1, room);
    UserAt(p, 2, actor);
  }

  lemma PositionIsAccepted(room: U32, actor: Rooms.User, x: seq<Byte>, y: seq<Byte>)
    requires ValidUser(actor) && ValidText(x) && ValidText(y) && x != [] && y != [] && room != 0
    ensures Buildable(PositionPayload(room, actor, x, y)) && BroadcastAccepted(PositionPayload(room, actor, x, y))
  {
    var p := PositionPayload(room, actor, x, y);
    PositionBuildable(room, actor, x, y);
    LookupAt(p.fields, 0);
    LookupAt(p.fields, 5);
    LookupAt(p.fields, 6);
    PositiveAt(p, 1, room);
    UserAt(p, 2, actor);
  }

  // ---- The largest chat ----

  lemma {:induction false} EscapeLength(v: seq<Byte>)
    ensures |v| <= |Escape(v)| <= 3 * |v|
    ensures (forall i | 0 <= i < |v| :: v[i] == PERCENT) ==> |Escape(v)| == 3 * |v|
  {
    if v != [] {
      EscapeLength(v[..|v| - 1]);
    }
  }

  function Size(fields: seq<Field>): nat {
    if fields == [] then 0 else |FieldSegment(fields[0])| + 1 + Size(fields[1..])
  }

  lemma {:induction false} JoinedSize(fields: seq<Field>)
    requires fields != []
    ensures Rendered(fields) != [] && |Join(Rendered(fields))| + 1 == Size(fields)
  {
    var segments := Rendered(fields);
    assert segments[0] == FieldSegment(fields[0]) && segments[1..] == Rendered(fields[1..]);
    if |fields| > 1 {
      JoinedSize(fields[1..]);
    } else {
      assert fields[1..] == [] && segments == [FieldSegment(fields[0])];
    }
  }

  lemma SizeOfSix(a: Field, b: Field, c: Field, d: Field, e: Field, f: Field)
    ensures Size([a, b, c, d, e, f])
         == |FieldSegment(a)| + |FieldSegment(b)| + |FieldSegment(c)| + |FieldSegment(d)| + |FieldSegment(e)|
            + |FieldSegment(f)| + 6
  {
    assert [f][1..] == [] && [e, f][1..] == [f] && [d, e, f][1..] == [e, f];
    assert Size([f]) == |FieldSegment(f)| + 1;
    assert Size([e, f]) == |FieldSegment(e)| + 1 + Size([f]);
    assert Size([d, e, f]) == |FieldSegment(d)| + 1 + Size([e, f]);
    assert [c, d, e, f][1..] == [d, e, f] && [b, c, d, e, f][1..] == [c, d, e, f];
    assert Size([c, d, e, f]) == |FieldSegment(c)| + 1 + Size([d, e, f]);
    assert Size([b, c, d, e, f]) == |FieldSegment(b)| + 1 + Size([c, d, e, f]);
    assert [a, b, c, d, e, f][1..] == [b, c, d, e, f];
  }

  function ChatSize(room: U32, actor: Rooms.User, message: seq<Byte>): nat {
    91 + |Digits(room)| + |Digits(actor.session)| + |Escape(actor.name)| + |Escape(message)|
  }

  lemma ChatWord()
    ensures Escape(Ascii("CHAT")) == Ascii("CHAT")
  {
    assert ValidKey(Ascii("CHAT"));
    PlainValue(Ascii("CHAT"));
  }

  lemma SegmentSize(f: Field)
    ensures |FieldSegment(f)| == |f.key| + 1 + |Escape(f.value)|
  {
  }

  lemma ChatSegments(room: U32, actor: Rooms.User, message: seq<Byte>)
    requires ValidUser(actor)
    ensures |FieldSegment(Event(Ascii("CHAT")))| == 10 && |FieldSegment(RoomId(room))| == 8 + |Digits(room)|
    ensures |FieldSegment(UserId(actor))| == 44 && |FieldSegment(UserSession(actor))| == 11 + |Digits(actor.session)|
    ensures |FieldSegment(UserName(actor))| == 5 + |Escape(actor.name)|
    ensures |FieldSegment(Field(MESSAGE, message))| == 8 + |Escape(message)|
  {
    ChatWord();
    SegmentSize(Event(Ascii("CHAT")));
    NumberValue(room);
    SegmentSize(RoomId(room));
    PlainValue(actor.id);
    SegmentSize(UserId(actor));
    NumberValue(actor.session);
    SegmentSize(UserSession(actor));
    SegmentSize(UserName(actor));
    SegmentSize(Field(MESSAGE, message));
  }

  lemma ChatPayloadSize(room: U32, actor: Rooms.User, message: seq<Byte>)
    requires ValidUser(actor)
    ensures var r := BuildPayload(ChatPayload(room, actor, message));
            r.Ok? && |r.value| == ChatSize(room, actor, message)
  {
    var p := ChatPayload(room, actor, message);
    ChatSegments(room, actor, message);
    JoinedSize(p.fields);
    SizeOfSix(Event(Ascii("CHAT")), RoomId(room), UserId(actor), UserSession(actor), UserName(actor),
              Field(MESSAGE, message));
    assert [] + Rendered(p.fields) == Rendered(p.fields);
  }

  /** A chat packet fits exactly when its escaped parts leave room for the fixed ones. */
  lemma ChatFitsIff(room: U32, actor: Rooms.User, message: seq<Byte>)
    requires ValidUser(actor)
    ensures var payload := BuildPayload(ChatPayload(room, actor, message)).value;
            Encode(Packet(ROOM_BROADCAST, payload)).Ok? <==>
              ChatSize(room, actor, message) + HEADER_SIZE <= MAX_PACKET_SIZE
  {
    ChatPayloadSize(room, actor, message);
  }

  lemma PowersOfTen()
    ensures Power10(9) == 1_000_000_000 && Power10(10) == 10_000_000_000
    ensures Power10(19) == 10_000_000_000_000_000_000 && Power10(20) == 100_000_000_000_000_000_000
  {
    assert Power10(5) == 100_000;
    assert Power10(10) == 10_000_000_000;
    assert Power10(15) == 1_000_000_000_000_000;
    assert Power10(20) == 100_000_000_000_000_000_000;
  }

  /** For every valid sender and every message the server accepts, encoding the broadcast never fails. */
  lemma ChatAlwaysFits(room: U32, actor: Rooms.User, message: seq<Byte>)
    requires ValidUser(actor) && ValidText(message) && |message| <= MAX_CHAT_MESSAGE_BYTES
    ensures var payload := BuildPayload(ChatPayload(room, actor, message)).value;
            Encode(Packet(ROOM_BROADCAST, payload)).Ok?
  {
    PowersOfTen();
    DigitCount(room, 10);
    DigitCount(actor.session, 20);
    EscapeLength(actor.name);
    EscapeLength(message);
    ChatFitsIff(room, actor, message);
  }

  /** One byte more and some chat would not fit: the limit is exact. */
  lemma ChatLimitIsExact() returns (room: U32, actor: Rooms.User, message: seq<Byte>)
    ensures ValidUser(actor) && ValidText(message) && |message| == MAX_CHAT_MESSAGE_BYTES + 1
    ensures var payload := BuildPayload(ChatPayload(room, actor, message)).value;
            Encode(Packet(ROOM_BROADCAST, payload)).Err?
  {
    room := 0xFFFF_FFFF;
    var id: seq<Byte>, name: seq<Byte> := seq(36, _ => 0x30), seq(Rooms.MAX_NAME_BYTES, _ => PERCENT);
    message := seq(MAX_CHAT_MESSAGE_BYTES + 1, _ => PERCENT);
    PlainAsciiIsValid(name);
    PlainAsciiIsValid(message);
    actor := Rooms.User(id, U64_SPACE - 1, name);
    PowersOfTen();
    DigitCountAtLeast(room, 9);
    DigitCountAtLeast(actor.session, 19);
    EscapeLength(name);
    EscapeLength(message);
    ChatFitsIff(room, actor, message);
  }

  // ---- The other packets are small ----

  predicate Small(f: Field) {
    |f.key| <= 10 && |f.value| <= 36
  }

  lemma {:induction false} SmallSize(fields: seq<Field>)
    requires forall i | 0 <= i < |fields| :: Small(fields[i])
    ensures Size(fields) <= 120 * |fields|
  {
    if fields != [] {
      SmallSize(fields[1..]);
      SegmentSize(fields[0]);
      EscapeLength(fields[0].value);
    }
  }

  lemma SmallPayloadFits(p: Payload, kind: U16)
    requires 0 < |p.fields| <= 7 && forall i | 0 <= i < |p.fields| :: Small(p.fields[i])
    ensures BuildPayload(p).Ok? && Encode(Packet(kind, BuildPayload(p).value)).Ok?
  {
    SmallSize(p.fields);
    JoinedSize(p.fields);
    var rendered := Rendered(p.fields);
    if p.ok {
      assert ([OK] + rendered)[1..] == rendered;
      assert Join([OK] + rendered) == OK + [BAR] + Join(rendered);
    } else {
      assert [] + rendered == rendered;
    }
  }

  lemma UserIsSmall(u: Rooms.User, room: U32)
    requires ValidUser(u)
    ensures Small(UserId(u)) && Small(UserSession(u)) && Small(UserName(u)) && Small(RoomId(room))
  {
    PowersOfTen();
    DigitCount(u.session, 20);
    DigitCount(room, 10);
  }

  /** Encoding a login or room answer, or the news of a room, never fails. */
  lemma RoomAlwaysFits(kind: U16, event: seq<Byte>, room: U32, u: Rooms.User)
    requires ValidUser(u) && |event| <= 36
    ensures Encode(Packet(kind, BuildPayload(LoginPayload(u)).value)).Ok?
    ensures Encode(Packet(kind, BuildPayload(RoomPayload(event, room, u)).value)).Ok?
  {
    UserIsSmall(u, room);
    SmallPayloadFits(LoginPayload(u), kind);
    SmallPayloadFits(RoomPayload(event, room, u), kind);
  }

  /** Nor does encoding a position, if its coordinates are printed with at most 36 bytes each. */
  lemma PositionAlwaysFits(room: U32, u: Rooms.User, x: seq<Byte>, y: seq<Byte>)
    requires ValidUser(u) && |x| <= 36 && |y| <= 36
    ensures Encode(Packet(ROOM_BROADCAST, BuildPayload(PositionPayload(room, u, x, y)).value)).Ok?
  {
    UserIsSmall(u, room);
    SmallPayloadFits(PositionPayload(room, u, x, y), ROOM_BROADCAST);
  }
}

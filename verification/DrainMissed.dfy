/** Runs in which parking overflow leaves a draining pool open with nothing left to do. There is one for
    every parking limit the pool accepts: two workers, and three packets of one session more than fit. */
module DrainMissed {
  import opened Wrappers
  import opened SessionEvents
  import opened Turns
  import opened PoolModel
  import opened PoolSteps
  import opened DrainTheorem

  function Start(limit: nat): Pool {
    Init(limit, 2, 2)
  }

  /** The pool as far as these runs let it vary; the only session is session 0. */
  datatype View = View(x: Session, inbox: seq<Event>, intake: Option<Event>, workers: seq<Desk>,
                       drain: bool, overflowed: bool)

  function Show(limit: nat, v: View): Pool {
    Pool(limit, 2, v.inbox, false, v.intake, map[0 := v.x], 0, v.drain, v.workers, v.overflowed, false)
  }

  function Arrived(k: nat): Event {
    Event(PacketEvent, 0, k, 0, None)
  }

  /** Packet 0 has arrived. */
  const FIRST := View(ProduceNext(NEW, Arrived(0)), [Arrived(0)], None, [Idle, Idle], false, false)

  /** Holds once packet 0 has arrived, and still holds after any one action. */
  ghost predicate Inductive(limit: nat, gets: View -> bool) {
    && gets(FIRST)
    && forall v, a, v' | gets(v) && Enabled(Show(limit, v), a) && Show(limit, v') == Next(Show(limit, v), a) :: gets(v')
  }

  lemma After(limit: nat, gets: View -> bool, v: View, a: Action, v': View)
    requires Inductive(limit, gets)
    requires gets(v) && Enabled(Show(limit, v), a) && Show(limit, v') == Next(Show(limit, v), a)
    ensures gets(v')
  {
  }

  // ---- One action each ----

  lemma DoEnqueue(limit: nat, gets: View -> bool, v: View, ev: Event)
    requires Inductive(limit, gets)
    requires gets(v) && |v.inbox| < 2 && ev.session == 0 && Produces(v.x, ev)
    ensures gets(v.(x := ProduceNext(v.x, ev), inbox := v.inbox + [ev]))
  {
    var v' := v.(x := ProduceNext(v.x, ev), inbox := v.inbox + [ev]);
    assert Show(limit, v').sessions == Show(limit, v).sessions[0 := v'.x];
    After(limit, gets, v, Enqueue(ev), v');
  }

  lemma DoIntake(limit: nat, gets: View -> bool, v: View, w: nat, ev: Event)
    requires Inductive(limit, gets)
    requires gets(v) && v.inbox == [ev] && ev.session == 0 && v.intake == None
    requires w < |v.workers| && v.workers[w] == Idle
    ensures gets(v.(x := AcquireNext(v.x, w, ev), inbox := [], workers := v.workers[w := Busy(0)]))
  {
    var v1 := v.(inbox := [], intake := Some(ev), workers := v.workers[w := Intaking]);
    assert Show(limit, v1) == Next(Show(limit, v), Pop(w));
    After(limit, gets, v, Pop(w), v1);
    var v2 := v.(x := AcquireNext(v.x, w, ev), inbox := [], workers := v.workers[w := Busy(0)]);
    assert v2.workers == v1.workers[w := Busy(0)];
    assert Show(limit, v2).sessions == Show(limit, v1).sessions[0 := v2.x];
    After(limit, gets, v1, Acquire(w), v2);
  }

  /** Whether the step finds no room to park its event. */
  predicate Overflows(limit: nat, x: Session, w: nat, move: MoveStep)
    requires OnSlot(x, w)
  {
    move.Try? && TryStart(SlotOf(x, w), x.hands[w].ev, limit).1 == ParkedLimit
  }

  lemma ShowMove(limit: nat, v: View, w: nat, move: MoveStep, x': Session)
    requires w < |v.workers| && v.workers[w] == Busy(0) && MoveEnabled(v.x, w, move)
    requires move.Try? ==> TryStart(SlotOf(v.x, w), v.x.hands[w].ev, limit).1 != Discarded
    requires x' == MoveNext(v.x, w, move, limit)
    ensures Enabled(Show(limit, v), Move(w, move))
    ensures MovePool(Show(limit, v), w, move)
         == Show(limit, v.(x := x', workers := v.workers[w := if w in x'.hands then Busy(0) else Idle],
                           overflowed := v.overflowed || Overflows(limit, v.x, w, move)))
  {
    assert Of(Show(limit, v), 0) == v.x;
    assert map[0 := v.x][0 := x'] == map[0 := x'];
  }

  lemma DoMove(limit: nat, gets: View -> bool, v: View, w: nat, move: MoveStep)
    requires Inductive(limit, gets)
    requires gets(v) && w < |v.workers| && v.workers[w] == Busy(0) && MoveEnabled(v.x, w, move)
    requires move.Try? ==> TryStart(SlotOf(v.x, w), v.x.hands[w].ev, limit).1 != Discarded
    ensures var x' := MoveNext(v.x, w, move, limit);
            gets(v.(x := x', workers := v.workers[w := if w in x'.hands then Busy(0) else Idle],
                    overflowed := v.overflowed || Overflows(limit, v.x, w, move)))
  {
    var x' := MoveNext(v.x, w, move, limit);
    ShowMove(limit, v, w, move, x');
    After(limit, gets, v, Move(w, move),
          v.(x := x', workers := v.workers[w := if w in x'.hands then Busy(0) else Idle],
             overflowed := v.overflowed || Overflows(limit, v.x, w, move)));
  }

  lemma ShowTurn(limit: nat, v: View, w: nat, turn: TurnStep, ev: Event, x': Session)
    requires w < |v.workers| && v.workers[w] == Busy(0)
    requires !turn.Suspend? && (turn.Complete? ==> !v.drain && ev.kind == PacketEvent)
    ensures AfterTurn(Show(limit, v), w, turn, ev, x')
         == Show(limit, v.(x := x', workers := v.workers[w := if w in x'.hands then Busy(0) else Idle]))
  {
    assert map[0 := v.x][0 := x'] == map[0 := x'];
  }

  lemma DoTurn(limit: nat, gets: View -> bool, v: View, w: nat, turn: TurnStep, x': Session)
    requires Inductive(limit, gets)
    requires gets(v) && w < |v.workers| && v.workers[w] == Busy(0) && TurnEnabled(v.x, w, turn)
    requires !turn.Suspend? && (turn.Complete? ==> !v.drain && v.x.hands[w].ev.kind == PacketEvent)
    requires x' == TurnNext(v.x, w, turn)
    ensures gets(v.(x := x', workers := v.workers[w := if w in x'.hands then Busy(0) else Idle]))
  {
    assert Of(Show(limit, v), 0) == v.x;
    ShowTurn(limit, v, w, turn, v.x.hands[w].ev, x');
    After(limit, gets, v, Proceed(w, turn),
           v.(x := x', workers := v.workers[w := if w in x'.hands then Busy(0) else Idle]));
  }

  /** A parked event holds the inbox open. */
  lemma DoBeginStop(limit: nat, gets: View -> bool, v: View)
    requires Inductive(limit, gets)
    requires gets(v) && |v.x.slots| == 1 && v.x.current == Some(0) && v.x.slots[0].parked != map[]
    ensures gets(v.(drain := true))
  {
    var st := Show(limit, v).(drain := true);
    assert 0 in Table(st) && !Quiet(Table(st)[0]);
    After(limit, gets, v, BeginStop, v.(drain := true));
  }

  // ---- The session in these runs ----

  function SessionAt(t: TurnState, hands: map<nat, Hand>, produced: nat, handled: seq<Event>): Session {
    Session([t], Some(0), hands, map[], map[], produced, false, handled, [])
  }

  /** Packets `from` to `end - 1`, parked. */
  function Waiting(from: nat, end: nat): map<nat, Event> {
    map k: nat | from <= k < end :: Arrived(k)
  }

  /** The turn of packet `i` is active and the packets after it, below `end`, are parked. */
  function Active(i: nat, end: nat): TurnState {
    FRESH.(next := i, active := true, parked := Waiting(i + 1, end))
  }

  function Handles(i: nat, phase: Phase): Hand {
    Turn(0, Arrived(i), phase)
  }

  function Refuses(k: nat, stage: RejectStage): Hand {
    Rejecting(0, Arrived(k), stage)
  }

  lemma {:induction false} WaitingCount(from: nat, end: nat)
    requires from <= end
    ensures |Waiting(from, end)| == end - from
    decreases end
  {
    if from == end {
      assert Waiting(from, end) == map[];
    } else {
      WaitingCount(from, end - 1);
      assert Waiting(from, end) == Waiting(from, end - 1)[end - 1 := Arrived(end - 1)];
    }
  }

  // ---- Packet 0 begins and packets 1 to `limit` are parked ----

  /** The turn of packet 0 is active, and the packets from 1 to `k - 1` are parked. */
  function Parking(k: nat): View {
    View(SessionAt(Active(0, k), map[0 := Handles(0, Admitted)], k, []), [], None, [Busy(0), Idle], false, false)
  }

  lemma Begins0(limit: nat, gets: View -> bool)
    requires Inductive(limit, gets)
    ensures gets(Parking(1))
  {
    var v := FIRST;
    DoIntake(limit, gets, v, 0, Arrived(0));
    var x := SessionAt(FRESH, map[0 := Trying(0, Arrived(0))], 1, []);
    assert AcquireNext(v.x, 0, Arrived(0)) == x;
    assert [Idle, Idle][0 := Busy(0)] == [Busy(0), Idle];
    var v1 := View(x, [], None, [Busy(0), Idle], false, false);
    DoMove(limit, gets, v1, 0, Try(0));
    assert Waiting(1, 1) == map[];
    assert MoveNext(x, 0, Try(0), limit) == SessionAt(Active(0, 1), map[0 := Handles(0, Admitted)], 1, []);
    assert v1.workers[0 := Busy(0)] == v1.workers;
  }

  /** Worker 1 takes packet `k` while turn 0 is active. */
  lemma Takes(limit: nat, gets: View -> bool, k: nat)
    requires Inductive(limit, gets)
    requires gets(Parking(k))
    ensures gets(View(SessionAt(Active(0, k), map[0 := Handles(0, Admitted), 1 := Trying(0, Arrived(k))], k + 1, []),
                             [], None, [Busy(0), Busy(0)], false, false))
  {
    var x := SessionAt(Active(0, k), map[0 := Handles(0, Admitted)], k, []);
    var v := View(x, [], None, [Busy(0), Idle], false, false);
    DoEnqueue(limit, gets, v, Arrived(k));
    var x1 := x.(produced := k + 1);
    assert ProduceNext(x, Arrived(k)) == x1 && v.inbox + [Arrived(k)] == [Arrived(k)];
    var v1 := v.(x := x1, inbox := [Arrived(k)]);
    DoIntake(limit, gets, v1, 1, Arrived(k));
    assert AcquireNext(x1, 1, Arrived(k))
        == SessionAt(Active(0, k), map[0 := Handles(0, Admitted), 1 := Trying(0, Arrived(k))], k + 1, []);
    assert v1.workers[1 := Busy(0)] == [Busy(0), Busy(0)];
  }

  lemma ParkedWhenRoom(limit: nat, k: nat)
    requires 1 <= k <= limit
    ensures TryStart(Active(0, k), Arrived(k), limit) == (Active(0, k + 1), Parked)
  {
    WaitingCount(1, k);
    assert Waiting(1, k)[k := Arrived(k)] == Waiting(1, k + 1);
  }

  lemma Parks(limit: nat, gets: View -> bool, k: nat)
    requires Inductive(limit, gets)
    requires 1 <= k <= limit
    requires gets(Parking(k))
    ensures gets(Parking(k + 1))
  {
    Takes(limit, gets, k);
    var x := SessionAt(Active(0, k), map[0 := Handles(0, Admitted), 1 := Trying(0, Arrived(k))], k + 1, []);
    var v := View(x, [], None, [Busy(0), Busy(0)], false, false);
    ParkedWhenRoom(limit, k);
    DoMove(limit, gets, v, 1, Try(0));
    assert x.hands - {1} == map[0 := Handles(0, Admitted)];
    assert MoveNext(x, 1, Try(0), limit) == SessionAt(Active(0, k + 1), map[0 := Handles(0, Admitted)], k + 1, []);
    assert v.workers[1 := Idle] == [Busy(0), Idle];
  }

  lemma {:induction false} ParksAll(limit: nat, gets: View -> bool, k: nat)
    requires Inductive(limit, gets)
    requires 1 <= k <= limit + 1
    ensures gets(Parking(k))
    decreases k
  {
    if k == 1 {
      Begins0(limit, gets);
    } else {
      ParksAll(limit, gets, k - 1);
      Parks(limit, gets, k - 1);
    }
  }

  lemma RefusedWhenFull(limit: nat, k: nat, x: Session)
    requires k == limit + 1
    requires x == SessionAt(Active(0, k), map[0 := Handles(0, Admitted), 1 := Trying(0, Arrived(k))], k + 1, [])
    ensures TryStart(Active(0, k), Arrived(k), limit) == (Active(0, k), ParkedLimit)
    ensures MoveEnabled(x, 1, Try(0))
    ensures MoveNext(x, 1, Try(0), limit)
         == SessionAt(Active(0, k), map[0 := Handles(0, Admitted), 1 := Refuses(k, Marking)], k + 1, [])
  {
    WaitingCount(1, k);
    assert x.hands[1 := Refuses(k, Marking)] == map[0 := Handles(0, Admitted), 1 := Refuses(k, Marking)];
  }

  /** Worker 1 finds no room for the packet after those, and is held up before it quarantines the session. */
  lemma FindsNoRoom(limit: nat, gets: View -> bool)
    requires Inductive(limit, gets)
    ensures gets(During(limit, 0, Admitted, []))
  {
    var k := limit + 1;
    ParksAll(limit, gets, k);
    Takes(limit, gets, k);
    var x := SessionAt(Active(0, k), map[0 := Handles(0, Admitted), 1 := Trying(0, Arrived(k))], k + 1, []);
    var v := View(x, [], None, [Busy(0), Busy(0)], false, false);
    RefusedWhenFull(limit, k, x);
    assert v.workers[1 := Busy(0)] == v.workers;
    DoMove(limit, gets, v, 1, Try(0));
  }

  // ---- Worker 0 handles packets 0 to `limit` ----

  function During(limit: nat, i: nat, phase: Phase, handled: seq<Event>): View {
    View(SessionAt(Active(i, limit + 1),
                   map[0 := Handles(i, phase), 1 := Refuses(limit + 1, Marking)], limit + 2, handled),
         [], None, [Busy(0), Busy(0)], false, true)
  }

  lemma Enters(limit: nat, gets: View -> bool, i: nat, handled: seq<Event>)
    requires Inductive(limit, gets)
    requires gets(During(limit, i, Admitted, handled))
    ensures gets(During(limit, i, Running(false, 0), handled + [Arrived(i)]))
  {
    var v, v' := During(limit, i, Admitted, handled), During(limit, i, Running(false, 0), handled + [Arrived(i)]);
    assert v.x.hands[0 := Handles(i, Running(false, 0))] == v'.x.hands;
    DoTurn(limit, gets, v, 0, Admit, v'.x);
    assert v.workers[0 := Busy(0)] == v.workers;
  }

  lemma Returns(limit: nat, gets: View -> bool, i: nat, handled: seq<Event>)
    requires Inductive(limit, gets)
    requires gets(During(limit, i, Running(false, 0), handled))
    ensures gets(During(limit, i, Completing, handled))
  {
    var v := During(limit, i, Running(false, 0), handled);
    var v1 := During(limit, i, Publishing([], ThenComplete), handled);
    assert v.x.hands[0 := Handles(i, Publishing([], ThenComplete))] == v1.x.hands;
    DoTurn(limit, gets, v, 0, Return([]), v1.x);
    assert v.workers[0 := Busy(0)] == v.workers;
    var v2 := During(limit, i, Completing, handled);
    assert v1.x.hands[0 := Handles(i, Completing)] == v2.x.hands;
    DoTurn(limit, gets, v1, 0, Published, v2.x);
  }

  lemma TurnEnds(i: nat, end: nat)
    requires i + 1 < end
    ensures CompleteTurn(Active(i, end)) == (FRESH.(next := i + 1, parked := Waiting(i + 2, end)), Some(Arrived(i + 1)))
  {
    assert Waiting(i + 1, end) - {i + 1} == Waiting(i + 2, end);
  }

  /** Between two turns: worker 0 has the parked packet `i` in its hand. */
  function Between(limit: nat, i: nat, handled: seq<Event>): View {
    View(SessionAt(FRESH.(next := i, parked := Waiting(i + 1, limit + 1)),
                   map[0 := Trying(0, Arrived(i)), 1 := Refuses(limit + 1, Marking)], limit + 2, handled),
         [], None, [Busy(0), Busy(0)], false, true)
  }

  lemma EndsWithNext(limit: nat, i: nat, handled: seq<Event>)
    requires i < limit
    ensures var x := During(limit, i, Completing, handled).x;
            TurnEnabled(x, 0, Complete) && TurnNext(x, 0, Complete) == Between(limit, i + 1, handled).x
  {
    TurnEnds(i, limit + 1);
    var x := During(limit, i, Completing, handled).x;
    assert x.hands[0 := Trying(0, Arrived(i + 1))] == Between(limit, i + 1, handled).x.hands;
  }

  /** The turn ends, and its worker gets the packet parked behind it. */
  lemma GetsNext(limit: nat, gets: View -> bool, i: nat, handled: seq<Event>)
    requires Inductive(limit, gets)
    requires i < limit && gets(During(limit, i, Completing, handled))
    ensures gets(Between(limit, i + 1, handled))
  {
    EndsWithNext(limit, i, handled);
    var v := During(limit, i, Completing, handled);
    assert v.workers[0 := Busy(0)] == v.workers;
    DoTurn(limit, gets, v, 0, Complete, Between(limit, i + 1, handled).x);
  }

  lemma BeginsNext(limit: nat, gets: View -> bool, i: nat, handled: seq<Event>)
    requires Inductive(limit, gets)
    requires gets(Between(limit, i, handled))
    ensures gets(During(limit, i, Admitted, handled))
  {
    var v, v' := Between(limit, i, handled), During(limit, i, Admitted, handled);
    assert v.x.hands[0 := Handles(i, Admitted)] == v'.x.hands;
    assert MoveNext(v.x, 0, Try(0), limit) == v'.x;
    assert v.workers[0 := Busy(0)] == v.workers;
    DoMove(limit, gets, v, 0, Try(0));
  }

  lemma {:induction false} HandlesAll(limit: nat, gets: View -> bool, i: nat) returns (handled: seq<Event>)
    requires Inductive(limit, gets)
    requires i <= limit
    ensures gets(During(limit, i, Completing, handled))
    decreases i
  {
    var before := [];
    if i == 0 {
      FindsNoRoom(limit, gets);
    } else {
      before := HandlesAll(limit, gets, i - 1);
      GetsNext(limit, gets, i - 1, before);
      BeginsNext(limit, gets, i, before);
    }
    handled := before + [Arrived(i)];
    Enters(limit, gets, i, before);
    Returns(limit, gets, i, handled);
  }

  lemma EndsAlone(limit: nat, handled: seq<Event>)
    ensures var x := During(limit, limit, Completing, handled).x;
            && TurnEnabled(x, 0, Complete)
            && TurnNext(x, 0, Complete)
               == SessionAt(FRESH.(next := limit + 1), map[1 := Refuses(limit + 1, Marking)], limit + 2, handled)
  {
    assert Waiting(limit + 1, limit + 1) == map[];
    assert CompleteTurn(Active(limit, limit + 1)) == (FRESH.(next := limit + 1), None);
    var x := During(limit, limit, Completing, handled).x;
    assert x.hands - {0} == map[1 := Refuses(limit + 1, Marking)];
  }

  /** The last parked packet has been handled: the session is idle again, but worker 1 still holds its packet. */
  lemma Catches(limit: nat, gets: View -> bool) returns (handled: seq<Event>)
    requires Inductive(limit, gets)
    ensures gets(View(SessionAt(FRESH.(next := limit + 1), map[1 := Refuses(limit + 1, Marking)], limit + 2,
                                       handled),
                             [], None, [Idle, Busy(0)], false, true))
  {
    handled := HandlesAll(limit, gets, limit);
    EndsAlone(limit, handled);
    var v := During(limit, limit, Completing, handled);
    assert v.workers[0 := Idle] == [Idle, Busy(0)];
    DoTurn(limit, gets, v, 0, Complete,
           SessionAt(FRESH.(next := limit + 1), map[1 := Refuses(limit + 1, Marking)], limit + 2, handled));
  }

  // ---- One more packet is parked, the drain is requested, and the rejection ends last ----

  function Behind(limit: nat, parked: map<nat, Event>): TurnState {
    FRESH.(next := limit + 1, parked := parked)
  }

  function Last(limit: nat, t: TurnState, hands: map<nat, Hand>, handled: seq<Event>): Session {
    SessionAt(t, hands, limit + 3, handled)
  }

  lemma TakesLast(limit: nat, gets: View -> bool) returns (handled: seq<Event>)
    requires Inductive(limit, gets)
    ensures gets(View(Last(limit, FRESH.(next := limit + 1),
                                  map[0 := Trying(0, Arrived(limit + 2)), 1 := Refuses(limit + 1, Marking)], handled),
                             [], None, [Busy(0), Busy(0)], false, true))
  {
    handled := Catches(limit, gets);
    var k := limit + 2;
    var hands := map[1 := Refuses(limit + 1, Marking)];
    var x := SessionAt(FRESH.(next := limit + 1), hands, k, handled);
    var v := View(x, [], None, [Idle, Busy(0)], false, true);
    DoEnqueue(limit, gets, v, Arrived(k));
    var x1 := Last(limit, FRESH.(next := limit + 1), hands, handled);
    assert ProduceNext(x, Arrived(k)) == x1 && v.inbox + [Arrived(k)] == [Arrived(k)];
    var v1 := v.(x := x1, inbox := [Arrived(k)]);
    DoIntake(limit, gets, v1, 0, Arrived(k));
    assert hands[0 := Trying(0, Arrived(k))] == map[0 := Trying(0, Arrived(k)), 1 := Refuses(limit + 1, Marking)];
    assert v1.workers[0 := Busy(0)] == [Busy(0), Busy(0)];
  }

  lemma ParksLast(limit: nat, gets: View -> bool) returns (handled: seq<Event>)
    requires Inductive(limit, gets)
    requires limit > 0
    ensures gets(View(Last(limit, Behind(limit, map[limit + 2 := Arrived(limit + 2)]),
                                  map[1 := Refuses(limit + 1, Marking)], handled),
                             [], None, [Idle, Busy(0)], true, true))
  {
    handled := TakesLast(limit, gets);
    var k := limit + 2;
    var hands := map[0 := Trying(0, Arrived(k)), 1 := Refuses(limit + 1, Marking)];
    var x := Last(limit, FRESH.(next := limit + 1), hands, handled);
    var v := View(x, [], None, [Busy(0), Busy(0)], false, true);
    assert TryStart(FRESH.(next := limit + 1), Arrived(k), limit) == (Behind(limit, map[k := Arrived(k)]), Parked);
    DoMove(limit, gets, v, 0, Try(0));
    assert hands - {0} == map[1 := Refuses(limit + 1, Marking)];
    var x1 := Last(limit, Behind(limit, map[k := Arrived(k)]), map[1 := Refuses(limit + 1, Marking)], handled);
    assert MoveNext(x, 0, Try(0), limit) == x1;
    assert v.workers[0 := Idle] == [Idle, Busy(0)];
    assert k in x1.slots[0].parked;
    DoBeginStop(limit, gets, View(x1, [], None, [Idle, Busy(0)], false, true));
  }

  /** Quarantine discards the parked packet. */
  lemma Quarantines(limit: nat, gets: View -> bool) returns (handled: seq<Event>)
    requires Inductive(limit, gets)
    requires limit > 0
    ensures gets(View(Last(limit, FRESH.(next := limit + 1, failed := true),
                                  map[1 := Refuses(limit + 1, Resolving)], handled),
                             [], None, [Idle, Busy(0)], true, true))
  {
    handled := ParksLast(limit, gets);
    var t := Behind(limit, map[limit + 2 := Arrived(limit + 2)]);
    var x := Last(limit, t, map[1 := Refuses(limit + 1, Marking)], handled);
    var v := View(x, [], None, [Idle, Busy(0)], true, true);
    assert forall k | k in t.parked :: t.parked[k].kind == PacketEvent;
    assert MarkFailed(t) == (FRESH.(next := limit + 1, failed := true), true);
    DoMove(limit, gets, v, 1, Mark);
    var x1 := Last(limit, FRESH.(next := limit + 1, failed := true), map[1 := Refuses(limit + 1, Telling)], handled);
    assert x.hands[1 := Refuses(limit + 1, Telling)] == x1.hands;
    assert MoveNext(x, 1, Mark, limit) == x1;
    assert v.workers[1 := Busy(0)] == v.workers;
    DoMove(limit, gets, v.(x := x1), 1, Tell);
    assert x1.hands[1 := Refuses(limit + 1, Resolving)] == map[1 := Refuses(limit + 1, Resolving)];
  }

  lemma RejectionEnds(limit: nat, x: Session, handled: seq<Event>)
    requires x == Last(limit, FRESH.(next := limit + 1, failed := true), map[1 := Refuses(limit + 1, Resolving)], handled)
    ensures MoveEnabled(x, 1, Resolve)
    ensures MoveNext(x, 1, Resolve, limit) == Last(limit, FRESH.(next := limit + 1, failed := true), map[], handled)
  {
    assert x.hands - {1} == map[];
  }

  lemma LeavesOpen(limit: nat, gets: View -> bool) returns (handled: seq<Event>)
    requires Inductive(limit, gets)
    requires limit > 0
    ensures gets(View(Last(limit, FRESH.(next := limit + 1, failed := true), map[], handled),
                             [], None, [Idle, Idle], true, true))
  {
    handled := Quarantines(limit, gets);
    var x := Last(limit, FRESH.(next := limit + 1, failed := true), map[1 := Refuses(limit + 1, Resolving)], handled);
    var v := View(x, [], None, [Idle, Busy(0)], true, true);
    RejectionEnds(limit, x, handled);
    assert v.workers[1 := Idle] == [Idle, Idle];
    DoMove(limit, gets, v, 1, Resolve);
  }

  // ---- These views are reached ----

  ghost predicate Gets(limit: nat, v: View) {
    exists actions :: Reaches(Start(limit), actions, Show(limit, v))
  }

  lemma Extend(limit: nat, v: View, a: Action, v': View)
    requires Gets(limit, v) && Enabled(Show(limit, v), a) && Show(limit, v') == Next(Show(limit, v), a)
    ensures Gets(limit, v')
  {
    var actions :| Reaches(Start(limit), actions, Show(limit, v));
    RunGrows(Start(limit), actions, Show(limit, v), a);
  }

  lemma GetsFirst(limit: nat)
    ensures Gets(limit, FIRST)
  {
    assert Reaches(Start(limit), [], Start(limit));
    assert [Enqueue(Arrived(0))][..0] == [];
    assert Show(limit, FIRST) == Next(Start(limit), Enqueue(Arrived(0)));
    assert Reaches(Start(limit), [Enqueue(Arrived(0))], Show(limit, FIRST));
  }

  lemma GetsIsInductive(limit: nat)
    ensures Inductive(limit, v => Gets(limit, v))
  {
    GetsFirst(limit);
    forall v, a, v' | Gets(limit, v) && Enabled(Show(limit, v), a) && Show(limit, v') == Next(Show(limit, v), a)
      ensures Gets(limit, v')
    {
      Extend(limit, v, a, v');
    }
  }

  /** For every parking limit: the drain is requested and everything is done, yet the inbox is open, so both
      workers wait forever. */
  lemma OverflowMissesClose(limit: nat) returns (actions: seq<Action>, st: Pool)
    requires limit > 0
    ensures Reaches(Start(limit), actions, st) && st.drain && Quiescent(st) && !st.closed
    ensures forall w: nat | w < |st.workers| :: st.workers[w] == Idle && !Enabled(st, Pop(w)) && !Enabled(st, Exit(w))
  {
    GetsIsInductive(limit);
    var handled := LeavesOpen(limit, v => Gets(limit, v));
    st := Show(limit, View(Last(limit, FRESH.(next := limit + 1, failed := true), map[], handled), [], None, [Idle, Idle],
                           true, true));
    actions :| Reaches(Start(limit), actions, st);
  }
}

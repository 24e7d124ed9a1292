/** Every action of the pool keeps the invariant. */
module PoolSteps {
  import opened Wrappers
  import opened SessionEvents
  import opened Turns
  import opened PoolModel
  import opened SessionInvariant
  import opened SessionSteps
  import opened TurnSteps
  import opened ArrivalSteps
  import opened PoolInvariant

  lemma SessionOf(st: Pool, lg: Ledger, s: nat)
    requires Inv(st, lg)
    ensures Seated(st.workers, lg.log, lg.base, s, Of(st, s), MarksOf(lg, s))
  {
  }

  // ---- Only desks, flags or the split of the line change ----

  lemma DeskMoveKeeps(st: Pool, lg: Ledger, st': Pool, w: nat)
    requires Inv(st, lg) && w < |st.workers| && !st.workers[w].Busy?
    requires st'.sessions == st.sessions && Line(st') == Line(st)
    requires |st'.workers| == |st.workers|
    requires forall v: nat | v < |st.workers| && v != w :: st'.workers[v] == st.workers[v]
    requires st'.outstanding == st.outstanding && !st'.crashed
    ensures Inv(st', lg)
  {
    forall s: nat ensures Seated(st'.workers, lg.log, lg.base, s, Of(st', s), MarksOf(lg, s)) {
      SessionOf(st, lg, s);
      assert Of(st', s) == Of(st, s);
    }
  }

  lemma FlagsKeep(st: Pool, lg: Ledger, st': Pool)
    requires Inv(st, lg)
    requires st'.sessions == st.sessions && st'.inbox == st.inbox && st'.intake == st.intake
    requires st'.workers == st.workers && st'.outstanding == st.outstanding && !st'.crashed
    ensures Inv(st', lg)
  {
    forall s: nat ensures Seated(st'.workers, lg.log, lg.base, s, Of(st', s), MarksOf(lg, s)) {
      SessionOf(st, lg, s);
      assert Of(st', s) == Of(st, s);
    }
  }

  // ---- The line grows at its end ----

  lemma LineGrows(log: seq<Event>, ev: Event, base: nat, q: nat, y: Session, m: Marks)
    requires LineOf(log, base, q, y, m) && TicketsOf(log, base, q, m) && ev.session != q
    ensures LineOf(log + [ev], base, q, y, m) && TicketsOf(log + [ev], base, q, m)
  {
    var log' := log + [ev];
    assert forall i: nat | i < |log| :: log'[i] == log[i];
  }

  lemma LineGrowsHere(log: seq<Event>, ev: Event, base: nat, x: Session, m: Marks, x': Session)
    requires LineOf(log, base, ev.session, x, m) && TicketsOf(log, base, ev.session, m) && base <= |log|
    requires if ev.kind == DeferredCompletion
             then ev.sequence in m.comp && !m.comp[ev.sequence].AtLine?
             else ev.sequence !in m.io
    requires KindOk(x', ev)
    requires forall i | base <= i < |log| && log[i].session == ev.session :: KindOk(x', log[i])
    ensures LineOf(log + [ev], base, ev.session, x', MarkEvent(m, ev, AtLine(|log|)))
    ensures TicketsOf(log + [ev], base, ev.session, MarkEvent(m, ev, AtLine(|log|)))
  {
    var log', m' := log + [ev], MarkEvent(m, ev, AtLine(|log|));
    assert forall i: nat | i < |log| :: log'[i] == log[i];
    forall i | base <= i < |log'| && log'[i].session == ev.session
      ensures MarkedAs(m', log'[i], AtLine(i)) && KindOk(x', log'[i])
    {
      if i < |log| {
        assert MarkedAs(m, log[i], AtLine(i));
      }
    }
    assert Standing(log', base, |log|, ev.session, ev.sequence, ev.kind == DeferredCompletion);
  }

  lemma AppendKeeps(st: Pool, lg: Ledger, st': Pool, ev: Event, m': Marks)
    requires Inv(st, lg) && !st'.crashed && Line(st') == Line(st) + [ev] && st'.workers == st.workers
    requires st'.sessions == st.sessions[ev.session := Of(st', ev.session)] && st'.outstanding == st.outstanding
    requires Seated(st'.workers, lg.log + [ev], lg.base, ev.session, Of(st', ev.session), m')
    requires Awaits(Of(st', ev.session)) == Awaits(Of(st, ev.session))
    ensures Inv(st', Ledger(lg.of[ev.session := m'], lg.log + [ev], lg.base))
  {
    forall q: nat | q != ev.session ensures Apart(st'.workers, lg.log + [ev], lg.base, q, Of(st, q), MarksOf(lg, q)) {
      SessionOf(st, lg, q);
      LineGrows(lg.log, ev, lg.base, q, Of(st, q), MarksOf(lg, q));
    }
    OneSessionKeeps(st, lg, st', lg.log + [ev], lg.base, ev.session, Of(st', ev.session), m');
  }

  /** An accepted event was numbered after everything the line holds for its session. */
  lemma ArrivalFits(log: seq<Event>, base: nat, x: Session, m: Marks, ev: Event)
    requires LineOf(log, base, ev.session, x, m) && KnownInv(x, m) && Produces(x, ev)
    ensures forall i | base <= i < |log| && log[i].session == ev.session :: KindOk(ProduceNext(x, ev), log[i])
  {
    forall i | base <= i < |log| && log[i].session == ev.session ensures KindOk(ProduceNext(x, ev), log[i]) {
      assert MarkedAs(m, log[i], AtLine(i)) && KindOk(x, log[i]);
    }
  }

  lemma ArriveSeats(workers: seq<Desk>, log: seq<Event>, base: nat, x: Session, m: Marks, ev: Event)
    returns (m': Marks)
    requires Seated(workers, log, base, ev.session, x, m) && Produces(x, ev) && base <= |log|
    ensures Seated(workers, log + [ev], base, ev.session, ProduceNext(x, ev), m')
  {
    ArrivalFits(log, base, x, m, ev);
    ArriveKeeps(x, m, ev, |log|);
    LineGrowsHere(log, ev, base, x, m, ProduceNext(x, ev));
    m' := MarkEvent(m, ev, AtLine(|log|));
  }

  lemma EnqueueKeeps(st: Pool, lg: Ledger, ev: Event) returns (lg': Ledger)
    requires Inv(st, lg) && Produces(Of(st, ev.session), ev)
    ensures Inv(EnqueuePool(st, ev), lg')
  {
    var st' := EnqueuePool(st, ev);
    SessionOf(st, lg, ev.session);
    var m' := ArriveSeats(st.workers, lg.log, lg.base, Of(st, ev.session), MarksOf(lg, ev.session), ev);
    assert Of(st', ev.session) == ProduceNext(Of(st, ev.session), ev) && Line(st') == Line(st) + [ev];
    AppendKeeps(st, lg, st', ev, m');
    lg' := Ledger(lg.of[ev.session := m'], lg.log + [ev], lg.base);
  }

  // ---- The line shrinks at its head ----

  lemma LineShrinks(log: seq<Event>, base: nat, q: nat, y: Session, m: Marks)
    requires base < |log| && LineOf(log, base, q, y, m) && TicketsOf(log, base, q, m) && log[base].session != q
    ensures LineOf(log, base + 1, q, y, m) && TicketsOf(log, base + 1, q, m)
  {
  }

  lemma LineShrinksHere(log: seq<Event>, base: nat, x: Session, m: Marks, w: nat, x': Session, ev: Event)
    requires base < |log| && log[base] == ev && LineOf(log, base, ev.session, x, m) && TicketsOf(log, base, ev.session, m)
    requires x'.produced == x.produced && x'.ended == x.ended
    ensures var m' := MarkEvent(m, ev, AtWorker(w));
            LineOf(log, base + 1, ev.session, x', m') && TicketsOf(log, base + 1, ev.session, m')
  {
    assert MarkedAs(m, log[base], AtLine(base));
  }

  lemma AcquireSession(log: seq<Event>, base: nat, ev: Event, x: Session, m: Marks, w: nat)
    requires base < |log| && log[base] == ev
    requires LineOf(log, base, ev.session, x, m) && TicketsOf(log, base, ev.session, m)
    requires SessionInv(x, m) && w !in x.hands
    ensures SessionInv(AcquireNext(x, w, ev), MarkEvent(m, ev, AtWorker(w)))
    ensures Awaits(AcquireNext(x, w, ev)) == Awaits(x)
  {
    assert MarkedAs(m, log[base], AtLine(base)) && KindOk(x, log[base]);
    forall k | k in m.io && m.io[k].AtLine? ensures m.io[k].ticket >= base {
      assert Standing(log, base, m.io[k].ticket, ev.session, k, false);
    }
    IntakeFindsOne(x, m, ev, base);
    IntakeKeeps(x, m, w, ev, base);
  }

  lemma AcquireDesks(workers: seq<Desk>, s: nat, ev: Event, x: Session, w: nat)
    requires DesksOf(workers, s, x) && PushesOf(s, x) && w < |workers|
    ensures DesksOf(workers[w := Busy(s)], s, AcquireNext(x, w, ev)) && PushesOf(s, AcquireNext(x, w, ev))
  {
  }

  lemma AcquireSeats(workers: seq<Desk>, log: seq<Event>, base: nat, ev: Event, x: Session, m: Marks, w: nat, x': Session)
    returns (m': Marks)
    requires base < |log| && log[base] == ev && Seated(workers, log, base, ev.session, x, m)
    requires w < |workers| && workers[w] == Intaking && x' == AcquireNext(x, w, ev)
    ensures Seated(workers[w := Busy(ev.session)], log, base + 1, ev.session, x', m') && Awaits(x') == Awaits(x)
  {
    m' := MarkEvent(m, ev, AtWorker(w));
    AcquireSession(log, base, ev, x, m, w);
    LineShrinksHere(log, base, x, m, w, x', ev);
    AcquireDesks(workers, ev.session, ev, x, w);
  }

  lemma TakenKeeps(st: Pool, lg: Ledger, st': Pool, w: nat, ev: Event, m': Marks)
    requires Inv(st, lg) && !st'.crashed && Line(st) != [] && Line(st)[0] == ev && Line(st') == Line(st)[1..]
    requires At(st, w, Intaking) && st'.workers == st.workers[w := Busy(ev.session)]
    requires st'.sessions == st.sessions[ev.session := Of(st', ev.session)] && st'.outstanding == st.outstanding
    requires Seated(st'.workers, lg.log, lg.base + 1, ev.session, Of(st', ev.session), m')
    requires Awaits(Of(st', ev.session)) == Awaits(Of(st, ev.session))
    ensures Inv(st', Ledger(lg.of[ev.session := m'], lg.log, lg.base + 1))
  {
    forall q: nat | q != ev.session ensures Apart(st'.workers, lg.log, lg.base + 1, q, Of(st, q), MarksOf(lg, q)) {
      SessionOf(st, lg, q);
      LineShrinks(lg.log, lg.base, q, Of(st, q), MarksOf(lg, q));
    }
    OneSessionKeeps(st, lg, st', lg.log, lg.base + 1, ev.session, Of(st', ev.session), m');
  }

  lemma AcquireKeeps(st: Pool, lg: Ledger, w: nat) returns (lg': Ledger)
    requires Inv(st, lg) && At(st, w, Intaking) && st.intake.Some?
    ensures Inv(AcquirePool(st, w), lg')
  {
    var ev, st' := st.intake.value, AcquirePool(st, w);
    SessionOf(st, lg, ev.session);
    assert Line(st)[0] == ev && Line(st') == Line(st)[1..];
    var m' := AcquireSeats(st.workers, lg.log, lg.base, ev, Of(st, ev.session), MarksOf(lg, ev.session), w,
                           Of(st', ev.session));
    TakenKeeps(st, lg, st', w, ev, m');
    lg' := Ledger(lg.of[ev.session := m'], lg.log, lg.base + 1);
  }

  // ---- Completions ----

  lemma FulfillFrame(s: nat, x: Session, ev: Event)
    requires ev.sequence in x.deferrals && ev.session == s && PushesOf(s, x)
    ensures var x' := CompleteObjectNext(x, ev);
            && x'.slots == x.slots && x'.hands == x.hands && x'.produced == x.produced && x'.ended == x.ended
            && PushesOf(s, x')
  {
  }

  lemma FulfillPoolKeeps(st: Pool, lg: Ledger, s: nat, k: nat, payload: CompletionPayload) returns (lg': Ledger)
    requires Inv(st, lg) && k in Of(st, s).deferrals
    ensures Inv(FulfillPool(st, s, k, payload), lg')
  {
    var ev, st' := CompletionOf(s, k, payload), FulfillPool(st, s, k, payload);
    SessionOf(st, lg, s);
    FulfillFrame(s, Of(st, s), ev);
    var m' := FulfillKeeps(Of(st, s), MarksOf(lg, s), ev);
    lg' := Remark(lg, s, m');
    LocalKeeps(st, lg, st', s, |st.workers|, m');
  }

  lemma PushSeats(workers: seq<Desk>, log: seq<Event>, base: nat, x: Session, m: Marks, k: nat, ev: Event)
    returns (m': Marks)
    requires Seated(workers, log, base, ev.session, x, m) && base <= |log| && k in x.pushing && x.pushing[k] == ev
    ensures Seated(workers, log + [ev], base, ev.session, x.(pushing := x.pushing - {k}), m')
  {
    PushKeeps(x, m, k, AtLine(|log|));
    LineGrowsHere(log, ev, base, x, m, x.(pushing := x.pushing - {k}));
    m' := MarkEvent(m, ev, AtLine(|log|));
  }

  lemma PushLost(x: Session, m: Marks, k: nat) returns (m': Marks)
    requires SessionInv(x, m) && k in x.pushing
    ensures SessionInv(x.(pushing := x.pushing - {k}), m') && LinesSame(m, m')
  {
    PushKeeps(x, m, k, Lost);
    m' := MarkComp(m, k, Lost);
  }

  lemma PushAccepted(st: Pool, lg: Ledger, s: nat, k: nat, ev: Event) returns (lg': Ledger)
    requires Inv(st, lg) && k in Of(st, s).pushing && Of(st, s).pushing[k] == ev && ev.session == s && !st.closed
    ensures Inv(PushPool(st, s, k), lg')
  {
    var x, st' := Of(st, s), PushPool(st, s, k);
    SessionOf(st, lg, s);
    var m' := PushSeats(st.workers, lg.log, lg.base, x, MarksOf(lg, s), k, ev);
    assert Line(st') == Line(st) + [ev];
    AppendKeeps(st, lg, st', ev, m');
    lg' := Ledger(lg.of[s := m'], lg.log + [ev], lg.base);
  }

  lemma PushRefused(st: Pool, lg: Ledger, s: nat, k: nat) returns (lg': Ledger)
    requires Inv(st, lg) && k in Of(st, s).pushing && st.closed
    ensures Inv(PushPool(st, s, k), lg')
  {
    SessionOf(st, lg, s);
    var m' := PushLost(Of(st, s), MarksOf(lg, s), k);
    LocalKeeps(st, lg, PushPool(st, s, k), s, |st.workers|, m');
    lg' := Remark(lg, s, m');
  }

  lemma PushPoolKeeps(st: Pool, lg: Ledger, s: nat, k: nat) returns (lg': Ledger)
    requires Inv(st, lg) && k in Of(st, s).pushing
    ensures Inv(PushPool(st, s, k), lg')
  {
    SessionOf(st, lg, s);
    if st.closed {
      lg' := PushRefused(st, lg, s, k);
    } else {
      lg' := PushAccepted(st, lg, s, k, Of(st, s).pushing[k]);
    }
  }

  // ---- A worker with an event ----

  /** What a step of worker `w` leaves alone in its session. */
  ghost predicate OwnStep(x: Session, x': Session, w: nat) {
    // The body has a name so that the verifier proves and uses the predicate whole, not split into its parts.
    var own := && x'.produced == x.produced && x'.ended == x.ended && x'.pushing == x.pushing
               && forall v | v in x'.hands && v != w :: v in x.hands;
    own
  }

  lemma TryFrame(x: Session, w: nat, kept: nat, limit: nat)
    requires OnSlot(x, w) && HasSlot(x) && x.hands[w].gen == 0
    ensures OwnStep(x, TryNext(x, w, kept, limit), w)
    ensures Awaits(TryNext(x, w, kept, limit)) == Awaits(x)
  {
  }

  lemma MoveFrame(x: Session, m: Marks, w: nat, move: MoveStep, limit: nat)
    requires HandInv(x, m) && MoveEnabled(x, w, move)
    ensures OwnStep(x, MoveNext(x, w, move, limit), w)
    ensures Awaits(MoveNext(x, w, move, limit)) == Awaits(x)
  {
    assert HandOk(x, m, w, x.hands[w]);
    if move.Try? {
      TryFrame(x, w, move.kept, limit);
    }
  }

  lemma MoveKeepsSession(x: Session, m: Marks, w: nat, move: MoveStep, limit: nat) returns (m': Marks)
    requires SessionInv(x, m) && MoveEnabled(x, w, move)
    ensures SessionInv(MoveNext(x, w, move, limit), m') && LinesSame(m, m')
  {
    match move {
      case Try(kept) => m' := TryKeeps(x, m, w, kept, limit);
      case Mark => m' := MarkKeeps(x, m, w);
      case Tell => TellKeeps(x, m, w); m' := m;
      case Resolve => m' := ResolveKeeps(x, m, w);
    }
  }

  lemma EndFrame(x: Session, m: Marks, w: nat, turn: TurnStep)
    requires HandInv(x, m) && TurnEnabled(x, w, turn) && (turn.Suspend? || turn.Complete? || turn.Fail?)
    ensures OwnStep(x, TurnNext(x, w, turn), w)
  {
  }

  lemma TurnFrame(x: Session, m: Marks, w: nat, turn: TurnStep)
    requires HandInv(x, m) && TurnEnabled(x, w, turn)
    ensures OwnStep(x, TurnNext(x, w, turn), w)
  {
    if turn.Suspend? || turn.Complete? || turn.Fail? {
      EndFrame(x, m, w, turn);
    }
  }

  lemma TurnAwaits(x: Session, m: Marks, w: nat, turn: TurnStep)
    requires HandInv(x, m) && TurnEnabled(x, w, turn) && HasSlot(x)
    requires FlagsInv(x.slots[0]) && TurnInv(x, m, x.slots[0])
    ensures match turn
            case Suspend => !Awaits(x) && Awaits(SuspendNext(x, w))
            case Complete => !Awaits(CompleteNext(x, w)) && (Awaits(x) <==> x.hands[w].ev.kind == DeferredCompletion)
            case _ => Awaits(TurnNext(x, w, turn)) == Awaits(x)
  {
    assert TurnOf(x.slots[0], x.hands[w].ev) && PhaseOk(x, m, x.hands[w].ev, x.hands[w].phase);
  }

  lemma TurnKeepsSession(x: Session, m: Marks, w: nat, turn: TurnStep) returns (m': Marks)
    requires SessionInv(x, m) && TurnEnabled(x, w, turn)
    ensures SessionInv(TurnNext(x, w, turn), m') && LinesSame(m, m')
  {
    m' := m;
    if turn.Complete? {
      m' := CompleteKeeps(x, m, w);
    } else if turn.Suspend? {
      m' := SuspendKeeps(x, m, w);
    } else if IsAdvance(x, w, turn) {
      AdvancesKeep(x, m, w, turn);
    } else if turn.Fail? {
      FailInTurnKeeps(x, m, w);
      m' := FailMarks(x, m);
    }
  }

  lemma WorkerKeeps(st: Pool, lg: Ledger, st': Pool, w: nat, s: nat, m': Marks)
    requires Inv(st, lg) && !st'.crashed && At(st, w, Busy(s))
    requires st'.sessions == st.sessions[s := Of(st', s)] && st'.inbox == st.inbox && st'.intake == st.intake
    requires |st'.workers| == |st.workers| && st'.workers == st.workers[w := st'.workers[w]]
    requires w in Of(st', s).hands ==> st'.workers[w] == Busy(s)
    requires OwnStep(Of(st, s), Of(st', s), w)
    requires SessionInv(Of(st', s), m') && LinesSame(MarksOf(lg, s), m')
    requires st'.outstanding
          == st.outstanding + (if Awaits(Of(st', s)) then 1 else 0) - (if Awaits(Of(st, s)) then 1 else 0)
    ensures Inv(st', Remark(lg, s, m'))
  {
    SessionOf(st, lg, s);
    LocalKeeps(st, lg, st', s, w, m');
  }

  lemma MoveKeeps(st: Pool, lg: Ledger, w: nat, move: MoveStep) returns (lg': Ledger)
    requires Inv(st, lg) && Enabled(st, Move(w, move))
    ensures Inv(MovePool(st, w, move), lg')
  {
    var s, st' := st.workers[w].session, MovePool(st, w, move);
    SessionOf(st, lg, s);
    MoveFrame(Of(st, s), MarksOf(lg, s), w, move, st.limit);
    var m' := MoveKeepsSession(Of(st, s), MarksOf(lg, s), w, move, st.limit);
    lg' := Remark(lg, s, m');
    assert Of(st', s) == MoveNext(Of(st, s), w, move, st.limit);
    WorkerKeeps(st, lg, st', w, s, m');
  }

  lemma AfterTurnIs(st: Pool, w: nat, turn: TurnStep, ev: Event, x': Session)
    requires IsBusy(st, w)
    ensures var s, st' := st.workers[w].session, AfterTurn(st, w, turn, ev, x');
            && st'.sessions == st.sessions[s := x'] && Of(st', s) == x'
            && st'.inbox == st.inbox && st'.intake == st.intake && st'.crashed == st.crashed
            && st'.workers == st.workers[w := if w in x'.hands then Busy(s) else Idle]
            && st'.outstanding == match turn
                case Suspend => st.outstanding + 1
                case Complete =>
                  if ev.kind == DeferredCompletion && st.outstanding > 0 then st.outstanding - 1 else st.outstanding
                case _ => st.outstanding
  {
  }

  lemma SomeoneAwaits(st: Pool, lg: Ledger, s: nat)
    requires Inv(st, lg) && Awaits(Of(st, s))
    ensures st.outstanding > 0
  {
    assert s in Awaiting(st.sessions);
  }

  lemma TurnKeeps(st: Pool, lg: Ledger, w: nat, turn: TurnStep) returns (lg': Ledger)
    requires Inv(st, lg) && Enabled(st, Proceed(w, turn))
    ensures Inv(TurnPool(st, w, turn), lg')
  {
    var s, st' := st.workers[w].session, TurnPool(st, w, turn);
    SessionOf(st, lg, s);
    TurnFrame(Of(st, s), MarksOf(lg, s), w, turn);
    TurnAwaits(Of(st, s), MarksOf(lg, s), w, turn);
    var m' := TurnKeepsSession(Of(st, s), MarksOf(lg, s), w, turn);
    lg' := Remark(lg, s, m');
    AfterTurnIs(st, w, turn, Of(st, s).hands[w].ev, TurnNext(Of(st, s), w, turn));
    if Awaits(Of(st, s)) {
      SomeoneAwaits(st, lg, s);
    }
    WorkerKeeps(st, lg, st', w, s, m');
  }

  // ---- Any action ----

  lemma NoCrash(st: Pool, lg: Ledger, w: nat)
    requires Inv(st, lg) && IsBusy(st, w)
    ensures !Crashes(Of(st, st.workers[w].session), w)
  {
    var s := st.workers[w].session;
    var x := Of(st, s);
    SessionOf(st, lg, s);
    if InTurn(x, w) {
      assert TurnOf(x.slots[0], x.hands[w].ev);
    }
  }

  lemma NextKeeps(st: Pool, lg: Ledger, a: Action) returns (lg': Ledger)
    requires Inv(st, lg) && Enabled(st, a)
    ensures Inv(Next(st, a), lg')
  {
    lg' := lg;
    match a {
      case Enqueue(ev) => lg' := EnqueueKeeps(st, lg, ev);
      case BeginStop => FlagsKeep(st, lg, Next(st, a));
      case Pop(w) => DeskMoveKeeps(st, lg, Next(st, a), w);
      case Acquire(w) => lg' := AcquireKeeps(st, lg, w);
      case Check(w) => DeskMoveKeeps(st, lg, Next(st, a), w);
      case Exit(w) => DeskMoveKeeps(st, lg, Next(st, a), w);
      case Move(w, move) => lg' := MoveKeeps(st, lg, w, move);
      case Proceed(w, turn) => lg' := TurnKeeps(st, lg, w, turn);
      case Crash(w) => NoCrash(st, lg, w);
      case Attach(_, _, _, _) =>
      case CompleteObject(s, k, payload) => lg' := FulfillPoolKeeps(st, lg, s, k, payload);
      case Push(s, k) => lg' := PushPoolKeeps(st, lg, s, k);
    }
  }

  /** Every reachable state, of every run. */
  lemma {:induction false} ReachableInv(limit: nat, capacity: nat, n: nat, actions: seq<Action>, st: Pool)
    returns (lg: Ledger)
    requires Reaches(Init(limit, capacity, n), actions, st)
    ensures Inv(st, lg)
    decreases |actions|
  {
    if actions == [] {
      InitInv(limit, capacity, n);
      lg := Ledger(map[], [], 0);
    } else {
      var k := |actions| - 1;
      var mid :| Reaches(Init(limit, capacity, n), actions[..k], mid) && Enabled(mid, actions[k])
                 && st == Next(mid, actions[k]);
      var lg0 := ReachableInv(limit, capacity, n, actions[..k], mid);
      lg := NextKeeps(mid, lg0, actions[k]);
    }
  }

  /** A run goes on with any enabled action. */
  lemma RunGrows(from: Pool, actions: seq<Action>, st: Pool, a: Action)
    requires Reaches(from, actions, st) && Enabled(st, a)
    ensures Reaches(from, actions + [a], Next(st, a))
  {
    assert (actions + [a])[..|actions|] == actions && (actions + [a])[|actions|] == a;
  }
}

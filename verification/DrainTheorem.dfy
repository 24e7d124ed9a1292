/** Graceful drain: when nothing is left to do the inbox is closed, so that no worker waits forever.
    The parking limit is the exception. */
module DrainTheorem {
  import opened Wrappers
  import opened SessionEvents
  import opened Turns
  import opened PoolModel
  import opened SessionInvariant
  import opened SessionSteps
  import opened PoolInvariant
  import opened PoolSteps

  /** Some session in the table still has a turn or a stored event. */
  ghost predicate Restless(st: Pool) {
    exists s :: s in Table(st) && !Quiet(Table(st)[s])
  }

  predicate Working(d: Desk) {
    d.Intaking? || d.Busy? || d.Checking?
  }

  /** Nothing in the inbox or in any hand, no session with unfinished business, no suspended turn. */
  ghost predicate Quiescent(st: Pool) {
    // The body has a name so that the verifier proves and uses the predicate whole, not split into its parts.
    var quiescent := && st.inbox == [] && st.intake == None && st.outstanding == 0 && !Restless(st)
                     && forall w | 0 <= w < |st.workers| :: !Working(st.workers[w]);
    quiescent
  }

  /** A draining pool with nothing left to do has closed its inbox. */
  ghost predicate Settled(st: Pool) {
    st.drain && Quiescent(st) ==> st.closed
  }

  ghost predicate NoRejects(x: Session) {
    forall w | w in x.hands :: !x.hands[w].Rejecting?
  }

  /** Without parking overflow nobody rejects. */
  ghost predicate DrainInv(st: Pool) {
    !st.overflowed ==> Settled(st) && NobodyRejects(st)
  }

  lemma WorkingIsBusy(st: Pool, w: nat)
    requires w < |st.workers| && Working(st.workers[w])
    ensures !Quiescent(st)
  {
  }

  lemma MaybeCloseSettles(st: Pool)
    ensures Settled(MaybeClose(st))
  {
    if Quiescent(st) && st.drain {
      assert forall s | s in Table(st) :: Quiet(Table(st)[s]);
    }
  }

  // ---- Nobody rejects ----

  lemma MoveNoRejects(x: Session, m: Marks, w: nat, move: MoveStep, limit: nat)
    requires SessionInv(x, m) && MoveEnabled(x, w, move) && NoRejects(x)
    ensures move.Try?
    ensures TryStart(SlotOf(x, w), x.hands[w].ev, limit).1 != ParkedLimit ==> NoRejects(MoveNext(x, w, move, limit))
  {
    assert !x.hands[w].Rejecting?;
    TryFacts(x, m, w);
    TryShapes(x, m, w, x.slots[0], x.hands[w].ev, move.kept, limit);
  }

  lemma TurnNoRejects(x: Session, w: nat, turn: TurnStep)
    requires TurnEnabled(x, w, turn) && NoRejects(x)
    ensures NoRejects(TurnNext(x, w, turn))
  {
  }

  // ---- A worker that lets go leaves work behind, or tests ----

  lemma ParkedIsNotQuiet(t: TurnState, ev: Event, limit: nat)
    requires TryStart(t, ev, limit).1 == Parked
    ensures !Quiet(TryStart(t, ev, limit).0)
  {
    var t' := TryStart(t, ev, limit).0;
    if t'.parked == t.parked[ev.sequence := ev] {
      assert ev.sequence in t'.parked;
    }
  }

  /** An event put aside makes its session restless. */
  lemma ParkedIsRestless(x: Session, m: Marks, w: nat, kept: nat, limit: nat)
    requires HandInv(x, m) && TableInv(x, m) && MoveEnabled(x, w, Try(kept))
    requires TryStart(SlotOf(x, w), x.hands[w].ev, limit).1 == Parked
    ensures var x' := TryNext(x, w, kept, limit);
            HasSlot(x') && x'.current == Some(0) && !Quiet(x'.slots[0])
  {
    assert HandOk(x, m, w, x.hands[w]);
    assert HasSlot(x) && SlotOf(x, w) == x.slots[0];
    ParkedIsNotQuiet(x.slots[0], x.hands[w].ev, limit);
  }

  lemma RestlessSession(st: Pool, s: nat)
    requires s in st.sessions && HasSlot(st.sessions[s]) && st.sessions[s].current == Some(0)
    requires !Quiet(st.sessions[s].slots[0])
    ensures !Quiescent(st)
  {
    assert s in Table(st) && !Quiet(Table(st)[s]);
  }

  lemma MovedIs(st: Pool, w: nat, move: MoveStep, s: nat, x': Session)
    requires Enabled(st, Move(w, move)) && s == st.workers[w].session && x' == MoveNext(Of(st, s), w, move, st.limit)
    ensures var st' := MovePool(st, w, move);
            && st'.sessions == st.sessions[s := x'] && |st'.workers| == |st.workers|
            && (w in x'.hands ==> st'.workers[w] == Busy(s))
            && (w !in x'.hands && move.Try?
                && TryStart(SlotOf(Of(st, s), w), Of(st, s).hands[w].ev, st.limit).1 == Discarded ==>
                  st'.workers[w] == Checking)
  {
  }

  lemma ParkedDrains(st: Pool, lg: Ledger, w: nat, kept: nat, s: nat, x: Session)
    requires Inv(st, lg) && Enabled(st, Move(w, Try(kept))) && s == st.workers[w].session && x == Of(st, s)
    requires TryStart(SlotOf(x, w), x.hands[w].ev, st.limit).1 == Parked
    ensures !Quiescent(MovePool(st, w, Try(kept)))
  {
    SessionOf(st, lg, s);
    ParkedIsRestless(x, MarksOf(lg, s), w, kept, st.limit);
    MovedIs(st, w, Try(kept), s, TryNext(x, w, kept, st.limit));
    RestlessSession(MovePool(st, w, Try(kept)), s);
  }

  lemma KeepsOrParks(x: Session, w: nat, move: MoveStep, limit: nat)
    requires MoveEnabled(x, w, move) && !move.Resolve?
    ensures || w in MoveNext(x, w, move, limit).hands
            || (move.Try? && TryStart(SlotOf(x, w), x.hands[w].ev, limit).1 == Parked)
            || (move.Try? && TryStart(SlotOf(x, w), x.hands[w].ev, limit).1 == Discarded)
  {
  }

  lemma MoveDrains(st: Pool, lg: Ledger, w: nat, move: MoveStep)
    requires Inv(st, lg) && Enabled(st, Move(w, move)) && !move.Resolve?
    ensures !Quiescent(MovePool(st, w, move))
  {
    var s := st.workers[w].session;
    var x := Of(st, s);
    KeepsOrParks(x, w, move, st.limit);
    if move.Try? && TryStart(SlotOf(x, w), x.hands[w].ev, st.limit).1 == Parked {
      ParkedDrains(st, lg, w, move.kept, s, x);
    } else {
      MovedIs(st, w, move, s, MoveNext(x, w, move, st.limit));
      WorkingIsBusy(MovePool(st, w, move), w);
    }
  }

  lemma StaysInHand(x: Session, w: nat, turn: TurnStep)
    requires TurnEnabled(x, w, turn) && !turn.Suspend? && !turn.Complete?
    ensures w in TurnNext(x, w, turn).hands
  {
  }

  lemma TurnDrains(st: Pool, w: nat, turn: TurnStep)
    requires Enabled(st, Proceed(w, turn))
    ensures Settled(TurnPool(st, w, turn))
  {
    var s, st' := st.workers[w].session, TurnPool(st, w, turn);
    var x, x' := Of(st, s), TurnNext(Of(st, s), w, turn);
    AfterTurnIs(st, w, turn, x.hands[w].ev, x');
    if w in x'.hands {
      WorkingIsBusy(st', w);
    } else if turn.Complete? {
      var st1 := Seat(Put(st, s, x'), w, Idle);
      var drop := x.hands[w].ev.kind == DeferredCompletion && st.outstanding > 0;
      MaybeCloseSettles(st1.(outstanding := if drop then st.outstanding - 1 else st.outstanding));
    } else {
      if !turn.Suspend? {
        StaysInHand(x, w, turn);
      }
    }
  }

  // ---- Completion objects do not disturb the test ----

  lemma SameTable(st: Pool, st': Pool, s: nat)
    requires st'.sessions == st.sessions[s := Of(st', s)]
    requires Of(st', s).slots == Of(st, s).slots && Of(st', s).current == Of(st, s).current
    ensures Table(st') == Table(st)
  {
  }

  lemma ObjectDrains(st: Pool, st': Pool, s: nat)
    requires st'.sessions == st.sessions[s := Of(st', s)]
    requires Of(st', s).slots == Of(st, s).slots && Of(st', s).current == Of(st, s).current
    requires st'.workers == st.workers && st'.intake == st.intake && st'.outstanding == st.outstanding
    requires st'.drain == st.drain && st'.closed == st.closed && (st'.inbox == st.inbox || st'.inbox != [])
    requires Settled(st)
    ensures Settled(st')
  {
    SameTable(st, st', s);
  }

  lemma FulfillDrains(st: Pool, s: nat, k: nat, payload: CompletionPayload)
    requires k in Of(st, s).deferrals && Settled(st)
    ensures Settled(FulfillPool(st, s, k, payload))
  {
    ObjectDrains(st, FulfillPool(st, s, k, payload), s);
  }

  lemma PushDrains(st: Pool, s: nat, k: nat)
    requires k in Of(st, s).pushing && Settled(st)
    ensures Settled(PushPool(st, s, k))
  {
    ObjectDrains(st, PushPool(st, s, k), s);
  }

  predicate EndsRejection(a: Action) {
    a.Move? && a.move.Resolve?
  }

  lemma StepSettles(st: Pool, lg: Ledger, a: Action)
    requires Inv(st, lg) && Enabled(st, a) && Settled(st) && !EndsRejection(a)
    ensures Settled(Next(st, a))
  {
    match a {
      case BeginStop => MaybeCloseSettles(st.(drain := true));
      case Acquire(w) => WorkingIsBusy(Next(st, a), w);
      case Check(w) => MaybeCloseSettles(Seat(st, w, Idle));
      case Move(w, move) => MoveDrains(st, lg, w, move);
      case Proceed(w, turn) => TurnDrains(st, w, turn);
      case CompleteObject(s, k, payload) => FulfillDrains(st, s, k, payload);
      case Push(s, k) => PushDrains(st, s, k);
      case _ =>
    }
  }

  /** The step after which a draining pool has nothing left to do closes the inbox, unless it is the
      end of a rejection: that path leaves the event loop without a drain test. */
  lemma ClosesIffNotRejection(st: Pool, lg: Ledger, a: Action)
    requires Inv(st, lg) && Enabled(st, a) && !st.closed && Settled(st)
    requires Next(st, a).drain && Quiescent(Next(st, a))
    ensures Next(st, a).closed <==> !EndsRejection(a)
  {
    if !EndsRejection(a) {
      StepSettles(st, lg, a);
    }
  }

  // ---- Runs without parking overflow ----

  ghost predicate NobodyRejects(st: Pool) {
    var calm := forall s: nat :: NoRejects(Of(st, s));
    calm
  }

  lemma OneChanged(st: Pool, st': Pool, s: nat)
    requires NobodyRejects(st) && st'.sessions == st.sessions[s := Of(st', s)]
    requires NoRejects(Of(st, s)) ==> NoRejects(Of(st', s))
    ensures NobodyRejects(st')
  {
    forall q: nat ensures NoRejects(Of(st', q)) {
      assert NoRejects(Of(st, q));
    }
  }

  lemma MovesNoRejects(st: Pool, lg: Ledger, w: nat, move: MoveStep)
    requires Inv(st, lg) && Enabled(st, Move(w, move)) && !MovePool(st, w, move).overflowed && NobodyRejects(st)
    ensures move.Try? && NobodyRejects(MovePool(st, w, move))
  {
    var s := st.workers[w].session;
    SessionOf(st, lg, s);
    MoveNoRejects(Of(st, s), MarksOf(lg, s), w, move, st.limit);
    OneChanged(st, MovePool(st, w, move), s);
  }

  lemma TurnsNoRejects(st: Pool, w: nat, turn: TurnStep)
    requires Enabled(st, Proceed(w, turn)) && NobodyRejects(st)
    ensures NobodyRejects(TurnPool(st, w, turn))
  {
    var s := st.workers[w].session;
    TurnNoRejects(Of(st, s), w, turn);
    AfterTurnIs(st, w, turn, Of(st, s).hands[w].ev, TurnNext(Of(st, s), w, turn));
    OneChanged(st, TurnPool(st, w, turn), s);
  }

  lemma ArriveNoRejects(st: Pool, ev: Event)
    requires NobodyRejects(st)
    ensures NobodyRejects(EnqueuePool(st, ev))
  {
    OneChanged(st, EnqueuePool(st, ev), ev.session);
  }

  lemma AcquireNoRejects(st: Pool, w: nat)
    requires NobodyRejects(st) && w < |st.workers| && st.intake.Some?
    ensures NobodyRejects(AcquirePool(st, w))
  {
    OneChanged(st, AcquirePool(st, w), st.intake.value.session);
  }

  lemma FulfillNoRejects(st: Pool, s: nat, k: nat, payload: CompletionPayload)
    requires NobodyRejects(st) && k in Of(st, s).deferrals
    ensures NobodyRejects(FulfillPool(st, s, k, payload))
  {
    OneChanged(st, FulfillPool(st, s, k, payload), s);
  }

  lemma PushNoRejects(st: Pool, s: nat, k: nat)
    requires NobodyRejects(st) && k in Of(st, s).pushing
    ensures NobodyRejects(PushPool(st, s, k))
  {
    OneChanged(st, PushPool(st, s, k), s);
  }

  lemma OthersNoRejects(st: Pool, a: Action)
    requires Enabled(st, a) && NobodyRejects(st)
    requires a.BeginStop? || a.Pop? || a.Check? || a.Exit? || a.Crash? || a.Attach?
    ensures NobodyRejects(Next(st, a))
  {
    var st' := Next(st, a);
    assert st'.sessions == st.sessions;
    assert forall s: nat :: Of(st', s) == Of(st, s);
  }

  lemma StepNoRejects(st: Pool, lg: Ledger, a: Action)
    requires Inv(st, lg) && Enabled(st, a) && !Next(st, a).overflowed && NobodyRejects(st)
    ensures !EndsRejection(a) && NobodyRejects(Next(st, a))
  {
    match a {
      case Enqueue(ev) => ArriveNoRejects(st, ev);
      case Acquire(w) => AcquireNoRejects(st, w);
      case Move(w, move) => MovesNoRejects(st, lg, w, move);
      case Proceed(w, turn) => TurnsNoRejects(st, w, turn);
      case CompleteObject(s, k, payload) => FulfillNoRejects(st, s, k, payload);
      case Push(s, k) => PushNoRejects(st, s, k);
      case _ => OthersNoRejects(st, a);
    }
  }

  lemma TurnOverflowStays(st: Pool, w: nat, turn: TurnStep)
    requires Enabled(st, Proceed(w, turn)) && st.overflowed
    ensures TurnPool(st, w, turn).overflowed
  {
  }

  lemma OverflowStays(st: Pool, a: Action)
    requires Enabled(st, a) && st.overflowed
    ensures Next(st, a).overflowed
  {
    match a {
      case Proceed(w, turn) => TurnOverflowStays(st, w, turn);
      case _ =>
    }
  }

  lemma DrainStep(st: Pool, lg: Ledger, a: Action)
    requires Inv(st, lg) && Enabled(st, a) && DrainInv(st)
    ensures DrainInv(Next(st, a))
  {
    if !Next(st, a).overflowed {
      if st.overflowed {
        OverflowStays(st, a);
      }
      StepNoRejects(st, lg, a);
      StepSettles(st, lg, a);
    }
  }

  lemma {:induction false} RunDrains(limit: nat, capacity: nat, n: nat, actions: seq<Action>, st: Pool)
    requires Reaches(Init(limit, capacity, n), actions, st)
    ensures DrainInv(st)
    decreases |actions|
  {
    if actions != [] {
      var k := |actions| - 1;
      var mid :| Reaches(Init(limit, capacity, n), actions[..k], mid) && Enabled(mid, actions[k])
                 && st == Next(mid, actions[k]);
      RunDrains(limit, capacity, n, actions[..k], mid);
      var lg := ReachableInv(limit, capacity, n, actions[..k], mid);
      DrainStep(mid, lg, actions[k]);
    }
  }

  /** In every run without parking overflow, a draining pool with nothing left to do has closed its
      inbox, and every worker that still waits can leave. */
  lemma NoMissedClose(limit: nat, capacity: nat, n: nat, actions: seq<Action>, st: Pool, w: nat)
    requires Reaches(Init(limit, capacity, n), actions, st) && !st.overflowed && st.drain && Quiescent(st)
    ensures st.closed && (At(st, w, Idle) ==> Enabled(st, Exit(w)))
  {
    RunDrains(limit, capacity, n, actions, st);
  }

  // ---- Exactly when a run misses the close ----

  /** Everything is done and the drain is requested, but the inbox is open. */
  ghost predicate Missed(st: Pool) {
    var missed := st.drain && Quiescent(st) && !st.closed;
    missed
  }

  /** Worker `w`, which is about to end the rejection of a packet, is the only one with anything to do. */
  ghost predicate LastOne(st: Pool, w: nat)
    requires Enabled(st, Move(w, Resolve))
  {
    && st.inbox == [] && st.intake == None && st.outstanding == 0 && !Restless(st)
    && (forall v | 0 <= v < |st.workers| && v != w :: !Working(st.workers[v]))
    && Of(st, st.workers[w].session).hands[w].ev.kind != Disconnected
  }

  lemma ResolveLetsGo(x: Session, w: nat)
    requires OnSlot(x, w) && x.hands[w].ev.kind != Disconnected && TakePending(SlotOf(x, w)).1 == None
    ensures w !in ResolveNext(x, w).hands && ResolveNext(x, w).slots == x.slots && ResolveNext(x, w).current == x.current
  {
  }

  /** A kept disconnect makes the session restless. */
  lemma KeptIsRestless(st: Pool, s: nat, x: Session, m: Marks)
    requires SessionInv(x, m) && s in st.sessions && st.sessions[s] == x && HasSlot(x)
    requires TakePending(x.slots[0]).1.Some?
    ensures Restless(st)
  {
    assert s in Table(st) && !Quiet(Table(st)[s]);
  }

  lemma ResolveKeepsBusy(st: Pool, w: nat, s: nat, x: Session)
    requires Enabled(st, Move(w, Resolve)) && s == st.workers[w].session && x == Of(st, s)
    requires x.hands[w].ev.kind == Disconnected || TakePending(SlotOf(x, w)).1.Some?
    ensures !Quiescent(MovePool(st, w, Resolve))
  {
    MovedIs(st, w, Resolve, s, ResolveNext(x, w));
    WorkingIsBusy(MovePool(st, w, Resolve), w);
  }

  lemma IdleAt(workers: seq<Desk>, workers': seq<Desk>, w: nat)
    requires w < |workers| && workers' == workers[w := Idle]
    ensures (forall v | 0 <= v < |workers'| :: !Working(workers'[v])) <==>
            (forall v | 0 <= v < |workers| && v != w :: !Working(workers[v]))
  {
    assert forall v | 0 <= v < |workers| && v != w :: workers[v] == workers'[v];
  }

  lemma ResolvedPool(st: Pool, w: nat, s: nat, x: Session)
    requires Enabled(st, Move(w, Resolve)) && s == st.workers[w].session && x == Of(st, s) && s in st.sessions
    requires x.hands[w].ev.kind != Disconnected && TakePending(SlotOf(x, w)).1 == None
    ensures Quiescent(MovePool(st, w, Resolve)) <==> LastOne(st, w)
  {
    var st' := MovePool(st, w, Resolve);
    ResolveLetsGo(x, w);
    SameTable(st, st', s);
    assert Restless(st') <==> Restless(st);
    assert st'.workers == st.workers[w := Idle];
    IdleAt(st.workers, st'.workers, w);
  }

  /** The guard that decides, before the step, whether the end of a rejection leaves nothing to do. */
  lemma EndsLastIff(st: Pool, lg: Ledger, w: nat)
    requires Inv(st, lg) && Enabled(st, Move(w, Resolve))
    ensures Quiescent(MovePool(st, w, Resolve)) <==> LastOne(st, w)
  {
    var s := st.workers[w].session;
    var x, m := Of(st, s), MarksOf(lg, s);
    SessionOf(st, lg, s);
    assert HandOk(x, m, w, x.hands[w]) && s in st.sessions;
    if x.hands[w].ev.kind == Disconnected {
      ResolveKeepsBusy(st, w, s, x);
    } else if TakePending(SlotOf(x, w)).1.Some? {
      ResolveKeepsBusy(st, w, s, x);
      KeptIsRestless(st, s, x, m);
    } else {
      ResolvedPool(st, w, s, x);
    }
  }

  /** The step is the end of a rejection, by the only worker with anything to do, while the pool drains. */
  ghost predicate MissesClose(st: Pool, a: Action)
    requires Enabled(st, a)
  {
    EndsRejection(a) && st.drain && !st.closed && LastOne(st, a.w)
  }

  ghost predicate HasMissed(from: Pool, actions: seq<Action>) {
    exists i: nat, mid ::
      i < |actions| && Reaches(from, actions[..i], mid) && Enabled(mid, actions[i]) && MissesClose(mid, actions[i])
  }

  lemma PrefixHasMissed(from: Pool, actions: seq<Action>, j: nat)
    requires j <= |actions| && HasMissed(from, actions[..j])
    ensures HasMissed(from, actions)
  {
    var i: nat, mid :| i < j && Reaches(from, actions[..j][..i], mid) && Enabled(mid, actions[..j][i])
                       && MissesClose(mid, actions[..j][i]);
    assert actions[..j][..i] == actions[..i] && actions[..j][i] == actions[i];
  }

  lemma MissingStep(st: Pool, lg: Ledger, a: Action)
    requires Inv(st, lg) && Enabled(st, a) && Settled(st) && Missed(Next(st, a))
    ensures MissesClose(st, a)
  {
    if !EndsRejection(a) {
      StepSettles(st, lg, a);
    } else {
      EndsLastIff(st, lg, a.w);
    }
  }

  lemma {:induction false} MissedHasMissed(limit: nat, capacity: nat, n: nat, actions: seq<Action>, st: Pool)
    requires Reaches(Init(limit, capacity, n), actions, st) && Missed(st)
    ensures HasMissed(Init(limit, capacity, n), actions)
    decreases |actions|
  {
    var from, j := Init(limit, capacity, n), |actions| - 1;
    var mid :| Reaches(from, actions[..j], mid) && Enabled(mid, actions[j]) && st == Next(mid, actions[j]);
    if Settled(mid) {
      var lg := ReachableInv(limit, capacity, n, actions[..j], mid);
      MissingStep(mid, lg, actions[j]);
    } else {
      MissedHasMissed(limit, capacity, n, actions[..j], mid);
      PrefixHasMissed(from, actions, j);
    }
  }

  lemma MissingIsMissed(st: Pool, lg: Ledger, a: Action)
    requires Inv(st, lg) && Enabled(st, a) && MissesClose(st, a)
    ensures Missed(Next(st, a))
  {
    EndsLastIff(st, lg, a.w);
  }

  lemma PassesAt(from: Pool, actions: seq<Action>, i: nat, mid: Pool)
    requires i < |actions| && Reaches(from, actions[..i], mid) && Enabled(mid, actions[i]) && Missed(Next(mid, actions[i]))
    ensures PassesMissed(from, actions)
  {
    RunGrows(from, actions[..i], mid, actions[i]);
    assert actions[..i] + [actions[i]] == actions[..i + 1];
  }

  /** The run passes through a state in which the close is missed. */
  ghost predicate PassesMissed(from: Pool, actions: seq<Action>) {
    exists i: nat, mid :: i <= |actions| && Reaches(from, actions[..i], mid) && Missed(mid)
  }

  lemma HasMissedPasses(limit: nat, capacity: nat, n: nat, actions: seq<Action>)
    requires HasMissed(Init(limit, capacity, n), actions)
    ensures PassesMissed(Init(limit, capacity, n), actions)
  {
    var from := Init(limit, capacity, n);
    var i: nat, mid :| i < |actions| && Reaches(from, actions[..i], mid) && Enabled(mid, actions[i])
                       && MissesClose(mid, actions[i]);
    var lg := ReachableInv(limit, capacity, n, actions[..i], mid);
    MissingIsMissed(mid, lg, actions[i]);
    PassesAt(from, actions, i, mid);
  }

  /** A run passes through a missed close if and only if, in a draining open pool, some rejection of a packet
      ends when its worker is the only one with anything to do. */
  lemma MissedIff(limit: nat, capacity: nat, n: nat, actions: seq<Action>)
    ensures PassesMissed(Init(limit, capacity, n), actions) <==> HasMissed(Init(limit, capacity, n), actions)
  {
    var from := Init(limit, capacity, n);
    if PassesMissed(from, actions) {
      var i: nat, mid :| i <= |actions| && Reaches(from, actions[..i], mid) && Missed(mid);
      MissedHasMissed(limit, capacity, n, actions[..i], mid);
      PrefixHasMissed(from, actions, i);
    }
    if HasMissed(from, actions) {
      HasMissedPasses(limit, capacity, n, actions);
    }
  }
}

/** A draining pool may close its inbox while a worker still carries an event: if that event's handler defers,
    its completion is refused and the turn never ends. A completion is refused exactly when its turn was started
    with the inbox already closed. */
module DrainHasty {
  import opened Wrappers
  import opened SessionEvents
  import opened Turns
  import opened PoolModel
  import opened SessionInvariant
  import opened PoolInvariant
  import opened PoolSteps
  import opened PoolTheorems

  predicate Carries(d: Desk) {
    d.Intaking? || d.Busy?
  }

  /** No worker has an event in hand or at intake. */
  ghost predicate Unburdened(st: Pool) {
    forall w | 0 <= w < |st.workers| :: !Carries(st.workers[w])
  }

  /** The step closes the inbox while some worker carries an event. */
  ghost predicate ClosesHastily(st: Pool, a: Action)
    requires Enabled(st, a)
  {
    !st.closed && Next(st, a).closed && !Unburdened(Next(st, a))
  }

  /** Some step of the run did so. */
  ghost predicate ClosedHastily(from: Pool, actions: seq<Action>) {
    exists i: nat, mid ::
      i < |actions| && Reaches(from, actions[..i], mid) && Enabled(mid, actions[i]) && ClosesHastily(mid, actions[i])
  }

  predicate Dormant(x: Session) {
    forall i | 0 <= i < |x.slots| :: !x.slots[i].active
  }

  ghost predicate AllDormant(st: Pool) {
    // The body has a name so that the verifier proves and uses the predicate whole, not split into its parts.
    var dormant := forall s: nat :: Dormant(Of(st, s));
    dormant
  }

  /** Once closed, nobody has anything to do. */
  ghost predicate Calm(st: Pool) {
    var calm := st.closed ==> st.inbox == [] && Unburdened(st) && AllDormant(st);
    calm
  }

  // ---- A calm close ----

  lemma CloseIsReady(st: Pool)
    requires !st.closed && MaybeClose(st).closed
    ensures st.inbox == [] && (forall s | s in Table(st) :: Quiet(Table(st)[s]))
    ensures MaybeClose(st) == st.(closed := true)
  {
  }

  lemma TurnCloses(st: Pool, w: nat, turn: TurnStep) returns (u: Pool)
    requires Enabled(st, Proceed(w, turn)) && !st.closed && TurnPool(st, w, turn).closed
    ensures !u.closed && TurnPool(st, w, turn) == MaybeClose(u)
  {
    var s := st.workers[w].session;
    var x := Of(st, s);
    var x' := TurnNext(x, w, turn);
    var drop := x.hands[w].ev.kind == DeferredCompletion && st.outstanding > 0;
    u := Seat(Put(st, s, x'), w, if w in x'.hands then Busy(s) else Idle)
         .(outstanding := if drop then st.outstanding - 1 else st.outstanding);
  }

  /** Whatever step closes the inbox, its test has passed. */
  lemma ClosingTests(st: Pool, a: Action) returns (u: Pool)
    requires Enabled(st, a) && !st.closed && Next(st, a).closed
    ensures !u.closed && Next(st, a) == MaybeClose(u)
  {
    match a {
      case BeginStop => u := st.(drain := true);
      case Check(w) => u := Seat(st, w, Idle);
      case Proceed(w, turn) => u := TurnCloses(st, w, turn);
    }
  }

  lemma QuietIsDormant(st: Pool, lg: Ledger, s: nat)
    requires Inv(st, lg) && forall q | q in Table(st) :: Quiet(Table(st)[q])
    ensures Dormant(Of(st, s))
  {
    SessionOf(st, lg, s);
    var x := Of(st, s);
    if HasSlot(x) && x.current.Some? {
      assert s in Table(st) && Table(st)[s] == x.slots[0];
    }
  }

  lemma ClosingIsCalm(st: Pool, a: Action, lg: Ledger)
    requires Enabled(st, a) && !st.closed && Next(st, a).closed && Inv(Next(st, a), lg)
    requires !ClosesHastily(st, a)
    ensures Calm(Next(st, a))
  {
    var st' := Next(st, a);
    var u := ClosingTests(st, a);
    CloseIsReady(u);
    assert Table(st') == Table(u);
    forall s: nat ensures Dormant(Of(st', s)) {
      QuietIsDormant(st', lg, s);
    }
  }

  // ---- It stays calm ----

  lemma OneStaysDormant(st: Pool, st': Pool, s: nat)
    requires AllDormant(st) && st'.sessions == st.sessions[s := Of(st', s)] && Of(st', s).slots == Of(st, s).slots
    ensures AllDormant(st')
  {
    forall q: nat ensures Dormant(Of(st', q)) {
      assert Dormant(Of(st, q));
    }
  }

  lemma SameStaysDormant(st: Pool, st': Pool)
    requires AllDormant(st) && st'.sessions == st.sessions
    ensures AllDormant(st')
  {
    forall q: nat ensures Dormant(Of(st', q)) {
      assert Dormant(Of(st, q));
    }
  }

  /** With the inbox closed and nobody carrying anything, only idle workers and completion objects can act. */
  lemma CalmStays(st: Pool, a: Action)
    requires Enabled(st, a) && st.closed && Calm(st)
    ensures Next(st, a).closed && Calm(Next(st, a))
  {
    var st' := Next(st, a);
    match a {
      case CompleteObject(s, k, payload) => OneStaysDormant(st, st', s);
      case Push(s, k) => OneStaysDormant(st, st', s);
      case _ => SameStaysDormant(st, st');
    }
  }

  lemma StepIsCalm(st: Pool, a: Action, lg: Ledger)
    requires Inv(st, lg) && Enabled(st, a) && Calm(st) && !ClosesHastily(st, a)
    ensures Calm(Next(st, a))
  {
    if st.closed {
      CalmStays(st, a);
    } else if Next(st, a).closed {
      var lg' := NextKeeps(st, lg, a);
      ClosingIsCalm(st, a, lg');
    }
  }

  lemma LongerIsHasty(from: Pool, actions: seq<Action>)
    requires actions != [] && ClosedHastily(from, actions[..|actions| - 1])
    ensures ClosedHastily(from, actions)
  {
    var before := actions[..|actions| - 1];
    var i: nat, mid :| i < |before| && Reaches(from, before[..i], mid) && Enabled(mid, before[i])
                       && ClosesHastily(mid, before[i]);
    assert before[..i] == actions[..i] && before[i] == actions[i];
  }

  lemma {:induction false} CalmOrHasty(limit: nat, capacity: nat, n: nat, actions: seq<Action>, st: Pool)
    requires Reaches(Init(limit, capacity, n), actions, st)
    ensures Calm(st) || ClosedHastily(Init(limit, capacity, n), actions)
    decreases |actions|
  {
    if actions != [] {
      var from, k := Init(limit, capacity, n), |actions| - 1;
      var mid :| Reaches(from, actions[..k], mid) && Enabled(mid, actions[k]) && st == Next(mid, actions[k]);
      CalmOrHasty(limit, capacity, n, actions[..k], mid);
      if ClosedHastily(from, actions[..k]) {
        LongerIsHasty(from, actions);
      } else if !ClosesHastily(mid, actions[k]) {
        var lg := ReachableInv(limit, capacity, n, actions[..k], mid);
        StepIsCalm(mid, actions[k], lg);
      }
    }
  }

  /** In every run, a completion that finds the inbox closed, and whose handler did not throw, does so because
      the inbox was closed while some worker had an event in hand or at intake. */
  lemma RefusedOnlyIfHasty(limit: nat, capacity: nat, n: nat, actions: seq<Action>, st: Pool, s: nat, k: nat)
    requires Reaches(Init(limit, capacity, n), actions, st) && st.closed
    requires k in Of(st, s).pushing && k in Of(st, s).deferrals && !Of(st, s).deferrals[k].abandoned
    ensures ClosedHastily(Init(limit, capacity, n), actions)
  {
    CalmOrHasty(limit, capacity, n, actions, st);
    CompletedOnce(st, s, k, Pushing, Pushing);
    assert Calm(st) ==> Dormant(Of(st, s));
  }

  // ---- Exactly when a completion is refused ----

  /** Turn `k` of the session is under way. */
  predicate UnderWay(x: Session, k: nat) {
    HasSlot(x) && x.slots[0].active && x.slots[0].next == k
  }

  /** The step starts turn `k` of session `s` although the inbox is closed. */
  ghost predicate StartsLate(st: Pool, a: Action, s: nat, k: nat)
    requires Enabled(st, a)
  {
    st.closed && !UnderWay(Of(st, s), k) && UnderWay(Of(Next(st, a), s), k)
  }

  ghost predicate StartedLate(from: Pool, actions: seq<Action>, s: nat, k: nat) {
    exists i: nat, mid ::
      i < |actions| && Reaches(from, actions[..i], mid) && Enabled(mid, actions[i]) && StartsLate(mid, actions[i], s, k)
  }

  lemma LongerIsLate(from: Pool, actions: seq<Action>, s: nat, k: nat)
    requires actions != [] && StartedLate(from, actions[..|actions| - 1], s, k)
    ensures StartedLate(from, actions, s, k)
  {
    var before := actions[..|actions| - 1];
    var i: nat, mid :| i < |before| && Reaches(from, before[..i], mid) && Enabled(mid, before[i])
                       && StartsLate(mid, before[i], s, k);
    assert before[..i] == actions[..i] && before[i] == actions[i];
  }

  /** The step that closes the inbox leaves no turn under way. */
  lemma ClosingEndsTurns(st: Pool, a: Action, lg: Ledger, s: nat, k: nat)
    requires Inv(st, lg) && Enabled(st, a) && !st.closed && Next(st, a).closed
    ensures !UnderWay(Of(Next(st, a), s), k)
  {
    var lg' := NextKeeps(st, lg, a);
    var u := ClosingTests(st, a);
    CloseIsReady(u);
    assert Table(Next(st, a)) == Table(u);
    QuietIsDormant(Next(st, a), lg', s);
  }

  lemma {:induction false} UnderWayIsLate(limit: nat, capacity: nat, n: nat, actions: seq<Action>, st: Pool, s: nat,
                                          k: nat)
    requires Reaches(Init(limit, capacity, n), actions, st) && st.closed && UnderWay(Of(st, s), k)
    ensures StartedLate(Init(limit, capacity, n), actions, s, k)
    decreases |actions|
  {
    var from, j := Init(limit, capacity, n), |actions| - 1;
    var mid :| Reaches(from, actions[..j], mid) && Enabled(mid, actions[j]) && st == Next(mid, actions[j]);
    if !mid.closed {
      var lg := ReachableInv(limit, capacity, n, actions[..j], mid);
      ClosingEndsTurns(mid, actions[j], lg, s, k);
    } else if UnderWay(Of(mid, s), k) {
      UnderWayIsLate(limit, capacity, n, actions[..j], mid, s, k);
      LongerIsLate(from, actions, s, k);
    } else {
      assert StartsLate(mid, actions[j], s, k);
    }
  }

  lemma TurnStaysClosed(st: Pool, w: nat, turn: TurnStep)
    requires Enabled(st, Proceed(w, turn)) && st.closed
    ensures TurnPool(st, w, turn).closed
  {
  }

  lemma StaysClosed(st: Pool, a: Action, st': Pool)
    requires Enabled(st, a) && st.closed && st' == Next(st, a)
    ensures st'.closed
  {
    match a {
      case Proceed(w, turn) => TurnStaysClosed(st, w, turn);
      case _ =>
    }
  }

  lemma LastStep(from: Pool, actions: seq<Action>, st: Pool) returns (prev: Pool)
    requires actions != [] && Reaches(from, actions, st)
    ensures Reaches(from, actions[..|actions| - 1], prev) && Enabled(prev, actions[|actions| - 1])
    ensures st == Next(prev, actions[|actions| - 1])
  {
    var j := |actions| - 1;
    prev :| Reaches(from, actions[..j], prev) && Enabled(prev, actions[j]) && st == Next(prev, actions[j]);
  }

  /** A run determines its last state. */
  lemma {:induction false} OneEnd(from: Pool, actions: seq<Action>, st: Pool, st': Pool)
    requires Reaches(from, actions, st) && Reaches(from, actions, st')
    ensures st == st'
    decreases |actions|
  {
    if actions != [] {
      var prev := LastStep(from, actions, st);
      var prev' := LastStep(from, actions, st');
      OneEnd(from, actions[..|actions| - 1], prev, prev');
    }
  }

  /** What is closed in one state of a run is closed at its end. */
  lemma {:induction false} RunStaysClosed(from: Pool, actions: seq<Action>, st: Pool, i: nat, mid: Pool)
    requires Reaches(from, actions, st) && i <= |actions| && Reaches(from, actions[..i], mid) && mid.closed
    ensures st.closed
    decreases |actions|
  {
    if i == |actions| {
      assert actions[..i] == actions;
      OneEnd(from, actions, mid, st);
    } else {
      var j := |actions| - 1;
      var prev := LastStep(from, actions, st);
      assert actions[..j][..i] == actions[..i];
      RunStaysClosed(from, actions[..j], prev, i, mid);
      StaysClosed(prev, actions[j], st);
    }
  }

  lemma LateIsClosed(from: Pool, actions: seq<Action>, st: Pool, s: nat, k: nat)
    requires Reaches(from, actions, st) && StartedLate(from, actions, s, k)
    ensures st.closed
  {
    var i: nat, mid :| i < |actions| && Reaches(from, actions[..i], mid) && Enabled(mid, actions[i])
                       && StartsLate(mid, actions[i], s, k);
    RunStaysClosed(from, actions, st, i, mid);
  }

  /** In every run: a completion about to enter the inbox, whose handler did not throw, finds it closed if and
      only if its turn was started with the inbox already closed. */
  lemma RefusedIff(limit: nat, capacity: nat, n: nat, actions: seq<Action>, st: Pool, s: nat, k: nat)
    requires Reaches(Init(limit, capacity, n), actions, st)
    requires k in Of(st, s).pushing && k in Of(st, s).deferrals && !Of(st, s).deferrals[k].abandoned
    ensures st.closed <==> StartedLate(Init(limit, capacity, n), actions, s, k)
  {
    CompletedOnce(st, s, k, Pushing, Pushing);
    if st.closed {
      UnderWayIsLate(limit, capacity, n, actions, st, s, k);
    }
    if StartedLate(Init(limit, capacity, n), actions, s, k) {
      LateIsClosed(Init(limit, capacity, n), actions, st, s, k);
    }
  }

  // ---- A run that gets there ----

  /** The pool as far as this run lets it vary: one worker, one session. */
  datatype View = View(x: Session, inbox: seq<Event>, intake: Option<Event>, desk: Desk, closed: bool, drain: bool,
                       outstanding: nat)

  function Show(limit: nat, v: View): Pool {
    Pool(limit, 1, v.inbox, v.closed, v.intake, map[0 := v.x], v.outstanding, v.drain, [v.desk], false, false)
  }

  const PACKET := Event(PacketEvent, 0, 0, 0, None)
  const PAYLOAD := CompletionPayload(false, [])

  const FIRST := View(ProduceNext(NEW, PACKET), [PACKET], None, Idle, false, false, 0)

  function SessionAt(t: TurnState, hands: map<nat, Hand>, deferrals: map<nat, Deferral>, pushing: map<nat, Event>,
                     handled: seq<Event>): Session {
    Session([t], Some(0), hands, deferrals, pushing, 1, false, handled, [])
  }

  function Held(phase: Phase): map<nat, Hand> {
    map[0 := Turn(0, PACKET, phase)]
  }

  ghost predicate Inductive(limit: nat, gets: View -> bool) {
    && gets(FIRST)
    && forall v, a, v' | gets(v) && Enabled(Show(limit, v), a) && Show(limit, v') == Next(Show(limit, v), a) :: gets(v')
  }

  lemma After(limit: nat, gets: View -> bool, v: View, a: Action, v': View)
    requires Inductive(limit, gets)
    requires gets(v) && Enabled(Show(limit, v), a) && Show(limit, v') == Next(Show(limit, v), a)
    ensures gets(v')
  {
  }

  lemma TakesIn(limit: nat, gets: View -> bool)
    requires Inductive(limit, gets)
    ensures gets(View(SessionAt(FRESH, map[0 := Trying(0, PACKET)], map[], map[], []), [], None, Busy(0), false, false, 0))
  {
    var v1 := FIRST.(inbox := [], intake := Some(PACKET), desk := Intaking);
    assert [Idle][0 := Intaking] == [Intaking];
    After(limit, gets, FIRST, Pop(0), v1);
    var x := SessionAt(FRESH, map[0 := Trying(0, PACKET)], map[], map[], []);
    var v2 := View(x, [], None, Busy(0), false, false, 0);
    assert AcquireNext(v1.x, 0, PACKET) == x;
    assert [Intaking][0 := Busy(0)] == [Busy(0)];
    assert map[0 := v1.x][0 := x] == map[0 := x];
    After(limit, gets, v1, Acquire(0), v2);
  }

  /** The worker has not begun the turn yet, so the test finds nothing. */
  lemma ClosesEarly(limit: nat, gets: View -> bool)
    requires Inductive(limit, gets)
    ensures gets(View(SessionAt(FRESH, map[0 := Trying(0, PACKET)], map[], map[], []), [], None, Busy(0), true, true, 0))
  {
    TakesIn(limit, gets);
    var x := SessionAt(FRESH, map[0 := Trying(0, PACKET)], map[], map[], []);
    var v := View(x, [], None, Busy(0), false, false, 0);
    var st := Show(limit, v).(drain := true);
    assert Table(st) == map[0 := FRESH];
    After(limit, gets, v, BeginStop, v.(closed := true, drain := true));
  }

  function Working(t: TurnState, phase: Phase, deferrals: map<nat, Deferral>, handled: seq<Event>): View {
    View(SessionAt(t, Held(phase), deferrals, map[], handled), [], None, Busy(0), true, true, 0)
  }

  const ACTIVE := FRESH.(active := true)

  lemma Begins(limit: nat, gets: View -> bool)
    requires Inductive(limit, gets)
    ensures gets(Working(ACTIVE, Admitted, map[], []))
  {
    ClosesEarly(limit, gets);
    var x := SessionAt(FRESH, map[0 := Trying(0, PACKET)], map[], map[], []);
    var v, v' := View(x, [], None, Busy(0), true, true, 0), Working(ACTIVE, Admitted, map[], []);
    assert x.hands[0 := Turn(0, PACKET, Admitted)] == Held(Admitted);
    assert MoveNext(x, 0, Try(0), limit) == v'.x;
    assert map[0 := x][0 := v'.x] == map[0 := v'.x] && [Busy(0)][0 := Busy(0)] == [Busy(0)];
    After(limit, gets, v, Move(0, Try(0)), v');
  }

  /** A step inside the turn that stays in the turn. */
  lemma Goes(limit: nat, gets: View -> bool, v: View, turn: TurnStep, v': View)
    requires Inductive(limit, gets) && gets(v) && v.desk == Busy(0) && TurnEnabled(v.x, 0, turn)
    requires !turn.Suspend? && !turn.Complete? && v' == v.(x := TurnNext(v.x, 0, turn)) && 0 in v'.x.hands
    ensures gets(v')
  {
    assert map[0 := v.x][0 := v'.x] == map[0 := v'.x] && [Busy(0)][0 := Busy(0)] == [Busy(0)];
    assert Of(Show(limit, v), 0) == v.x;
    After(limit, gets, v, Proceed(0, turn), v');
  }

  const UNDONE := Deferral(false, false, false, None)
  const RETURNED := Deferral(false, true, false, None)

  lemma Defers(limit: nat, gets: View -> bool)
    requires Inductive(limit, gets)
    ensures gets(Working(ACTIVE, Running(true, 0), map[0 := UNDONE], [PACKET]))
  {
    Begins(limit, gets);
    var v, v1 := Working(ACTIVE, Admitted, map[], []), Working(ACTIVE, Running(false, 0), map[], [PACKET]);
    assert v.x.hands[0 := Turn(0, PACKET, Running(false, 0))] == v1.x.hands;
    Goes(limit, gets, v, Admit, v1);
    var v2 := Working(ACTIVE, Running(true, 0), map[0 := UNDONE], [PACKET]);
    assert v1.x.hands[0 := Turn(0, PACKET, Running(true, 0))] == v2.x.hands;
    Goes(limit, gets, v1, Defer, v2);
  }

  lemma Leaves(limit: nat, gets: View -> bool)
    requires Inductive(limit, gets)
    ensures gets(Working(ACTIVE, Deferring(None), map[0 := RETURNED], [PACKET]))
  {
    Defers(limit, gets);
    var v := Working(ACTIVE, Running(true, 0), map[0 := UNDONE], [PACKET]);
    var v1 := Working(ACTIVE, Publishing([], ThenDefer(None)), map[0 := RETURNED], [PACKET]);
    assert v.x.hands[0 := Turn(0, PACKET, Publishing([], ThenDefer(None)))] == v1.x.hands;
    assert v.x.deferrals[0 := RETURNED] == v1.x.deferrals;
    Goes(limit, gets, v, Return([]), v1);
    var v2 := Working(ACTIVE, Deferring(None), map[0 := RETURNED], [PACKET]);
    assert v1.x.hands[0 := Turn(0, PACKET, Deferring(None))] == v2.x.hands;
    Goes(limit, gets, v1, Published, v2);
  }

  const SUSPENDED := ACTIVE.(awaiting := true)

  function Waiting(d: Deferral, pushing: map<nat, Event>, desk: Desk): View {
    View(SessionAt(SUSPENDED, map[], map[0 := d], pushing, [PACKET]), [], None, desk, true, true, 1)
  }

  /** The turn is suspended, and the only worker leaves. */
  lemma Suspends(limit: nat, gets: View -> bool)
    requires Inductive(limit, gets)
    ensures gets(Waiting(RETURNED, map[], Exited))
  {
    Leaves(limit, gets);
    var v, v1 := Working(ACTIVE, Deferring(None), map[0 := RETURNED], [PACKET]), Waiting(RETURNED, map[], Idle);
    assert v.x.hands - {0} == map[];
    assert TurnNext(v.x, 0, Suspend) == v1.x;
    assert map[0 := v.x][0 := v1.x] == map[0 := v1.x] && [Busy(0)][0 := Idle] == [Idle];
    assert Of(Show(limit, v), 0) == v.x;
    After(limit, gets, v, Proceed(0, Suspend), v1);
    assert [Idle][0 := Exited] == [Exited];
    After(limit, gets, v1, Exit(0), Waiting(RETURNED, map[], Exited));
  }

  const COMPLETED := Deferral(true, true, false, None)

  lemma IsRefused(limit: nat, gets: View -> bool)
    requires Inductive(limit, gets)
    ensures gets(Waiting(COMPLETED, map[0 := CompletionOf(0, 0, PAYLOAD)], Exited))
    ensures gets(Waiting(COMPLETED, map[], Exited))
  {
    Suspends(limit, gets);
    var ev := CompletionOf(0, 0, PAYLOAD);
    var v, v1 := Waiting(RETURNED, map[], Exited), Waiting(COMPLETED, map[0 := ev], Exited);
    assert v.x.deferrals[0 := COMPLETED] == v1.x.deferrals && v.x.pushing[0 := ev] == v1.x.pushing;
    assert map[0 := v.x][0 := v1.x] == map[0 := v1.x] && Of(Show(limit, v), 0) == v.x;
    After(limit, gets, v, CompleteObject(0, 0, PAYLOAD), v1);
    var v2 := Waiting(COMPLETED, map[], Exited);
    assert v1.x.pushing - {0} == map[];
    assert map[0 := v1.x][0 := v2.x] == map[0 := v2.x] && Of(Show(limit, v1), 0) == v1.x;
    After(limit, gets, v1, Push(0, 0), v2);
  }

  ghost predicate Gets(limit: nat, v: View) {
    exists actions :: Reaches(Init(limit, 1, 1), actions, Show(limit, v))
  }

  lemma Extend(limit: nat, v: View, a: Action, v': View)
    requires Gets(limit, v) && Enabled(Show(limit, v), a) && Show(limit, v') == Next(Show(limit, v), a)
    ensures Gets(limit, v')
  {
    var actions :| Reaches(Init(limit, 1, 1), actions, Show(limit, v));
    RunGrows(Init(limit, 1, 1), actions, Show(limit, v), a);
  }

  lemma GetsFirst(limit: nat)
    ensures Gets(limit, FIRST)
  {
    assert Reaches(Init(limit, 1, 1), [], Init(limit, 1, 1));
    assert [Enqueue(PACKET)][..0] == [];
    assert Show(limit, FIRST) == Next(Init(limit, 1, 1), Enqueue(PACKET));
    assert Reaches(Init(limit, 1, 1), [Enqueue(PACKET)], Show(limit, FIRST));
  }

  lemma GetsIsInductive(limit: nat)
    ensures Inductive(limit, v => Gets(limit, v))
  {
    GetsFirst(limit);
    forall v, a, v' | Gets(limit, v) && Enabled(Show(limit, v), a) && Show(limit, v') == Next(Show(limit, v), a)
      ensures Gets(limit, v')
    {
      Extend(limit, v, a, v');
    }
  }

  /** For every parking limit: the completion is nowhere, its turn is still suspended, and every worker has left. */
  lemma HastyCloseLoses(limit: nat) returns (actions: seq<Action>, st: Pool)
    ensures Reaches(Init(limit, 1, 1), actions, st) && st.workers == [Exited]
    ensures var x := Of(st, 0);
            && 0 in x.deferrals && x.deferrals[0].completed && !x.deferrals[0].abandoned
            && HasSlot(x) && x.slots[0].active && x.slots[0].awaiting
            && forall p :: !HoldsCompletion(st, 0, 0, p)
  {
    GetsIsInductive(limit);
    IsRefused(limit, v => Gets(limit, v));
    st := Show(limit, Waiting(COMPLETED, map[], Exited));
    actions :| Reaches(Init(limit, 1, 1), actions, st);
  }
}

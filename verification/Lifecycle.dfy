/** The pool together with what its handler keeps per session: negotiated versions, users and rooms.
    A session whose disconnect turn has completed leaves nothing behind, and nothing brings it back. */
module Lifecycle {
  import opened Wrappers
  import opened Bytes
  import opened SessionEvents
  import opened Turns
  import opened PoolModel
  import opened SessionInvariant
  import opened TurnSteps
  import opened ArrivalSteps
  import opened PoolInvariant
  import opened PoolSteps
  import Rooms = RoomModel

  datatype Domain = Domain(versions: map<nat, nat>, service: Rooms.Service)
  datatype System = System(pool: Pool, dom: Domain)

  function Boot(limit: nat, capacity: nat, n: nat): System {
    System(Init(limit, capacity, n), Domain(map[], Rooms.EMPTY))
  }

  /** The router catches what follows a deferral, so a handler that has deferred does not throw. */
  predicate Allowed(st: Pool, a: Action) {
    Enabled(st, a)
    && (a.Proceed? && a.turn.Throw? ==> !Of(st, st.workers[a.w].session).hands[a.w].phase.deferred)
  }

  /** The call an action makes to the room service, with the session it is made for. A disconnect
      handler erases the version first and calls the service second. */
  function ServiceCall(st: Pool, a: Action): Option<(nat, Rooms.Op)>
    requires Enabled(st, a)
  {
    match a
    case Proceed(w, Act(Call(call))) => Some((st.workers[w].session, call))
    case Proceed(w, Clean) =>
      if Of(st, st.workers[w].session).hands[w].phase.cleaned == 0 then None
      else Some((st.workers[w].session, Rooms.Disconnect))
    case Attach(s, _, id, name) => Some((s, Rooms.Attach(id, name)))
    case _ => None
  }

  function VersionsAfter(st: Pool, versions: map<nat, nat>, a: Action): map<nat, nat>
    requires Enabled(st, a)
  {
    match a
    case Proceed(w, Act(SetVersion(version))) => versions[st.workers[w].session := version]
    case Proceed(w, Clean) =>
      if Of(st, st.workers[w].session).hands[w].phase.cleaned == 0 then versions - {st.workers[w].session} else versions
    case _ => versions
  }

  function Serve(service: Rooms.Service, call: Option<(nat, Rooms.Op)>): Rooms.Service {
    if call.Some? then Rooms.Apply(service, call.value.0, call.value.1).0 else service
  }

  function Effect(st: Pool, dom: Domain, a: Action): Domain
    requires Enabled(st, a)
  {
    Domain(VersionsAfter(st, dom.versions, a), Serve(dom.service, ServiceCall(st, a)))
  }

  ghost predicate SystemReaches(from: System, actions: seq<Action>, sys: System)
    decreases |actions|
  {
    if actions == [] then sys == from
    else
      var n := |actions| - 1;
      exists mid :: && SystemReaches(from, actions[..n], mid) && Allowed(mid.pool, actions[n])
                    && sys == System(Next(mid.pool, actions[n]), Effect(mid.pool, mid.dom, actions[n]))
  }

  // ---- What a session may still have ----

  /** No disconnect handler of this session has got past its `level`-th step. */
  ghost predicate Before(x: Session, level: nat) {
    && HasSlot(x) && !x.slots[0].closed
    && forall w | w in x.hands && x.hands[w].Turn? && x.hands[w].ev.kind == Disconnected ::
         x.hands[w].phase.Admitted? || (x.hands[w].phase.Running? && x.hands[w].phase.cleaned < level)
  }

  ghost predicate Kept(x: Session, dom: Domain, s: nat) {
    && (s in dom.versions ==> Before(x, 1))
    && (Rooms.Present(dom.service, s) ==> Before(x, 2))
  }

  ghost predicate NoneAbandoned(x: Session) {
    forall k | k in x.deferrals :: !x.deferrals[k].abandoned
  }

  ghost predicate SystemInv(sys: System, lg: Ledger) {
    && Inv(sys.pool, lg) && Rooms.Rooted(sys.dom.service)
    && forall s: nat :: Kept(Of(sys.pool, s), sys.dom, s) && NoneAbandoned(Of(sys.pool, s))
  }

  // ---- Steps of one session ----

  lemma TryBefore(x: Session, w: nat, kept: nat, limit: nat, level: nat)
    requires OnSlot(x, w) && HasSlot(x) && x.hands[w].gen == 0 && Before(x, level)
    ensures Before(TryNext(x, w, kept, limit), level)
  {
  }

  lemma MoveBefore(x: Session, m: Marks, w: nat, move: MoveStep, limit: nat, level: nat)
    requires HandInv(x, m) && MoveEnabled(x, w, move) && Before(x, level)
    ensures Before(MoveNext(x, w, move, limit), level)
  {
    assert HandOk(x, m, w, x.hands[w]);
    if move.Try? {
      TryBefore(x, w, move.kept, limit, level);
    }
  }

  lemma EndBefore(x: Session, m: Marks, w: nat, turn: TurnStep, level: nat)
    requires OnSlot(x, w) && HasSlot(x) && x.hands[w].gen == 0 && TurnOf(x.slots[0], x.hands[w].ev)
    requires TurnEnabled(x, w, turn) && Before(x, level) && (turn.Complete? || turn.Suspend? || turn.Fail?)
    ensures Before(TurnNext(x, w, turn), level)
  {
  }

  lemma TurnBefore(x: Session, m: Marks, w: nat, turn: TurnStep, level: nat)
    requires HandInv(x, m) && HasSlot(x) && TurnInv(x, m, x.slots[0]) && TurnEnabled(x, w, turn)
    requires Before(x, level) && 1 <= level <= 2
    requires turn.Clean? ==> x.hands[w].phase.cleaned + 1 < level
    ensures Before(TurnNext(x, w, turn), level)
  {
    assert HandOk(x, m, w, x.hands[w]) && TurnOf(x.slots[0], x.hands[w].ev);
    if turn.Complete? || turn.Suspend? || turn.Fail? {
      EndBefore(x, m, w, turn, level);
    }
  }

  lemma AcquireBefore(x: Session, m: Marks, w: nat, ev: Event, level: nat)
    requires TableInv(x, m) && Before(x, level)
    ensures Before(AcquireNext(x, w, ev), level)
  {
  }

  /** A packet handler runs only before the disconnect of its session. */
  lemma HandlingBefore(x: Session, m: Marks, w: nat, level: nat)
    requires HandInv(x, m) && HasSlot(x) && FlagsInv(x.slots[0]) && TurnInv(x, m, x.slots[0])
    requires Handling(x, w) && x.hands[w].ev.kind == PacketEvent
    ensures Before(x, level)
  {
    OnlyTurn(x, m, x.slots[0], w);
    assert TurnOf(x.slots[0], x.hands[w].ev);
  }

  /** So does whoever holds an open completion object. */
  lemma OpenBefore(x: Session, m: Marks, k: nat, level: nat)
    requires SessionInv(x, m) && k in x.deferrals && !x.deferrals[k].completed && !x.deferrals[k].abandoned
    ensures Before(x, level)
  {
    var t := x.slots[0];
    assert DeferralOk(m, t, k, x.deferrals[k]);
    assert forall w | w in x.hands && x.hands[w].Turn? :: TurnOf(t, x.hands[w].ev);
  }

  // ---- A step of the pool ----

  /** Whether `a` is a clean-up step of session `s` that ends the time before `level`. */
  predicate Passes(st: Pool, a: Action, s: nat, level: nat) {
    a.Proceed? && IsBusy(st, a.w) && st.workers[a.w].session == s && a.turn.Clean?
    && Handling(Of(st, s), a.w) && Of(st, s).hands[a.w].phase.cleaned + 1 >= level
  }

  lemma SameBefore(x: Session, x': Session, level: nat)
    requires Before(x, level) && x'.slots == x.slots && x'.hands == x.hands
    ensures Before(x', level)
  {
  }

  lemma ProceedBefore(st: Pool, lg: Ledger, w: nat, turn: TurnStep, s: nat, level: nat)
    requires Inv(st, lg) && Enabled(st, Proceed(w, turn)) && Before(Of(st, s), level) && 1 <= level <= 2
    requires !Passes(st, Proceed(w, turn), s, level)
    ensures Before(Of(TurnPool(st, w, turn), s), level)
  {
    var q := st.workers[w].session;
    AfterTurnIs(st, w, turn, Of(st, q).hands[w].ev, TurnNext(Of(st, q), w, turn));
    if q == s {
      SessionOf(st, lg, s);
      TurnBefore(Of(st, s), MarksOf(lg, s), w, turn, level);
    }
  }

  lemma MovedOnly(st: Pool, w: nat, move: MoveStep, q: nat, x': Session)
    requires Enabled(st, Move(w, move)) && q == st.workers[w].session && x' == MoveNext(Of(st, q), w, move, st.limit)
    ensures MovePool(st, w, move).sessions == st.sessions[q := x']
  {
  }

  lemma MovedBefore(st: Pool, lg: Ledger, w: nat, move: MoveStep, s: nat, level: nat)
    requires Inv(st, lg) && Enabled(st, Move(w, move)) && Before(Of(st, s), level)
    ensures Before(Of(MovePool(st, w, move), s), level)
  {
    var q := st.workers[w].session;
    MovedOnly(st, w, move, q, MoveNext(Of(st, q), w, move, st.limit));
    if q == s {
      SessionOf(st, lg, s);
      MoveBefore(Of(st, s), MarksOf(lg, s), w, move, st.limit, level);
    }
  }

  lemma AcquiredBefore(st: Pool, lg: Ledger, w: nat, s: nat, level: nat)
    requires Inv(st, lg) && At(st, w, Intaking) && st.intake.Some? && Before(Of(st, s), level)
    ensures Before(Of(AcquirePool(st, w), s), level)
  {
    if st.intake.value.session == s {
      SessionOf(st, lg, s);
      AcquireBefore(Of(st, s), MarksOf(lg, s), w, st.intake.value, level);
    }
  }

  lemma OutsideBefore(st: Pool, st': Pool, q: nat, s: nat, level: nat)
    requires st'.sessions == st.sessions[q := Of(st', q)]
    requires Of(st', q).slots == Of(st, q).slots && Of(st', q).hands == Of(st, q).hands
    requires Before(Of(st, s), level)
    ensures Before(Of(st', s), level)
  {
    SameBefore(Of(st, s), Of(st', s), level);
  }

  lemma EnqueuedBefore(st: Pool, ev: Event, s: nat, level: nat)
    requires Before(Of(st, s), level)
    ensures Before(Of(EnqueuePool(st, ev), s), level)
  {
    OutsideBefore(st, EnqueuePool(st, ev), ev.session, s, level);
  }

  lemma FulfilledBefore(st: Pool, q: nat, k: nat, payload: CompletionPayload, s: nat, level: nat)
    requires Before(Of(st, s), level) && k in Of(st, q).deferrals
    ensures Before(Of(FulfillPool(st, q, k, payload), s), level)
  {
    OutsideBefore(st, FulfillPool(st, q, k, payload), q, s, level);
  }

  lemma PushedBefore(st: Pool, q: nat, k: nat, s: nat, level: nat)
    requires Before(Of(st, s), level) && k in Of(st, q).pushing
    ensures Before(Of(PushPool(st, q, k), s), level)
  {
    OutsideBefore(st, PushPool(st, q, k), q, s, level);
  }

  lemma StepBefore(st: Pool, lg: Ledger, a: Action, s: nat, level: nat)
    requires Inv(st, lg) && Enabled(st, a) && Before(Of(st, s), level) && 1 <= level <= 2
    requires !Passes(st, a, s, level)
    ensures Before(Of(Next(st, a), s), level)
  {
    match a {
      case Enqueue(ev) => EnqueuedBefore(st, ev, s, level);
      case Acquire(w) => AcquiredBefore(st, lg, w, s, level);
      case Move(w, move) => MovedBefore(st, lg, w, move, s, level);
      case Proceed(w, turn) => ProceedBefore(st, lg, w, turn, s, level);
      case CompleteObject(q, k, payload) => FulfilledBefore(st, q, k, payload, s, level);
      case Push(q, k) => PushedBefore(st, q, k, s, level);
      case _ =>
    }
  }

  // ---- A step of the whole system ----

  lemma RootedServe(service: Rooms.Service, call: Option<(nat, Rooms.Op)>)
    requires Rooms.Rooted(service)
    ensures Rooms.Rooted(Serve(service, call))
  {
    if call.Some? {
      Rooms.RootedStays(service, call.value.0, call.value.1);
    }
  }

  lemma ServeOthers(service: Rooms.Service, call: Option<(nat, Rooms.Op)>, s: nat)
    requires Rooms.Rooted(service) && (call.Some? ==> call.value.0 != s || call.value.1 == Rooms.Disconnect)
    ensures Rooms.Present(Serve(service, call), s) ==>
              Rooms.Present(service, s) && call != Some((s, Rooms.Disconnect))
  {
    if call == Some((s, Rooms.Disconnect)) {
      Rooms.DisconnectErases(service, s);
    } else if call.Some? && !Rooms.Present(service, s) {
      Rooms.OthersDoNotRevive(service, call.value.0, call.value.1, s);
    }
  }

  /** Whoever adds something for session `s` to the router's state acts before its disconnect. */
  lemma AddsBefore(st: Pool, lg: Ledger, a: Action, s: nat, level: nat)
    requires Inv(st, lg) && Enabled(st, a) && NoneAbandoned(Of(st, s))
    requires || (a.Proceed? && st.workers[a.w].session == s && a.turn.Act?)
             || (a.Attach? && a.s == s)
    ensures Before(Of(st, s), level)
  {
    SessionOf(st, lg, s);
    if a.Attach? {
      OpenBefore(Of(st, s), MarksOf(lg, s), a.k, level);
    } else {
      HandlingBefore(Of(st, s), MarksOf(lg, s), a.w, level);
    }
  }

  lemma KeptIsNotPassing(st: Pool, versions: map<nat, nat>, a: Action, s: nat)
    requires Enabled(st, a) && s in VersionsAfter(st, versions, a) && (s in versions ==> Before(Of(st, s), 1))
    ensures !Passes(st, a, s, 1)
    ensures s in versions || (a.Proceed? && st.workers[a.w].session == s && a.turn.Act?)
  {
  }

  lemma VersionKept(st: Pool, lg: Ledger, dom: Domain, a: Action, s: nat)
    requires Inv(st, lg) && Enabled(st, a) && Kept(Of(st, s), dom, s) && NoneAbandoned(Of(st, s))
    requires s in VersionsAfter(st, dom.versions, a)
    ensures Before(Of(Next(st, a), s), 1)
  {
    KeptIsNotPassing(st, dom.versions, a, s);
    if s !in dom.versions {
      AddsBefore(st, lg, a, s, 1);
    }
    StepBefore(st, lg, a, s, 1);
  }

  lemma PresenceKept(st: Pool, lg: Ledger, dom: Domain, a: Action, s: nat)
    requires Inv(st, lg) && Enabled(st, a) && Kept(Of(st, s), dom, s) && NoneAbandoned(Of(st, s))
    requires Rooms.Rooted(dom.service) && Rooms.Present(Serve(dom.service, ServiceCall(st, a)), s)
    ensures Before(Of(Next(st, a), s), 2)
  {
    if (a.Proceed? && st.workers[a.w].session == s && a.turn.Act?) || (a.Attach? && a.s == s) {
      AddsBefore(st, lg, a, s, 2);
    } else {
      ServeOthers(dom.service, ServiceCall(st, a), s);
    }
    StepBefore(st, lg, a, s, 2);
  }

  // ---- No completion object is abandoned ----

  lemma TurnNoneAbandoned(x: Session, w: nat, turn: TurnStep)
    requires TurnEnabled(x, w, turn) && NoneAbandoned(x) && (turn.Throw? ==> !x.hands[w].phase.deferred)
    ensures NoneAbandoned(TurnNext(x, w, turn))
  {
  }

  lemma MoveNoneAbandoned(x: Session, w: nat, move: MoveStep, limit: nat)
    requires MoveEnabled(x, w, move) && NoneAbandoned(x)
    ensures NoneAbandoned(MoveNext(x, w, move, limit))
  {
  }

  lemma OneSession(st: Pool, st': Pool, q: nat, s: nat)
    requires st'.sessions == st.sessions[q := Of(st', q)]
    requires NoneAbandoned(Of(st, q)) ==> NoneAbandoned(Of(st', q))
    requires NoneAbandoned(Of(st, s))
    ensures NoneAbandoned(Of(st', s))
  {
  }

  lemma PoolTurnNoneAbandoned(st: Pool, w: nat, turn: TurnStep, s: nat)
    requires Allowed(st, Proceed(w, turn)) && NoneAbandoned(Of(st, s))
    ensures NoneAbandoned(Of(TurnPool(st, w, turn), s))
  {
    var q := st.workers[w].session;
    AfterTurnIs(st, w, turn, Of(st, q).hands[w].ev, TurnNext(Of(st, q), w, turn));
    if q == s {
      TurnNoneAbandoned(Of(st, s), w, turn);
    }
  }

  lemma PoolMoveNoneAbandoned(st: Pool, w: nat, move: MoveStep, s: nat)
    requires Enabled(st, Move(w, move)) && NoneAbandoned(Of(st, s))
    ensures NoneAbandoned(Of(MovePool(st, w, move), s))
  {
    var q := st.workers[w].session;
    if q == s {
      MoveNoneAbandoned(Of(st, s), w, move, st.limit);
    }
  }

  lemma ArrivalNoneAbandoned(st: Pool, a: Action, s: nat)
    requires Enabled(st, a) && NoneAbandoned(Of(st, s)) && !a.Move? && !a.Proceed?
    ensures NoneAbandoned(Of(Next(st, a), s))
  {
    match a {
      case Enqueue(ev) => OneSession(st, EnqueuePool(st, ev), ev.session, s);
      case Acquire(w) => OneSession(st, AcquirePool(st, w), st.intake.value.session, s);
      case CompleteObject(q, k, payload) => OneSession(st, FulfillPool(st, q, k, payload), q, s);
      case Push(q, k) => OneSession(st, PushPool(st, q, k), q, s);
      case _ =>
    }
  }

  lemma StepNoneAbandoned(st: Pool, a: Action, s: nat)
    requires Allowed(st, a) && NoneAbandoned(Of(st, s))
    ensures NoneAbandoned(Of(Next(st, a), s))
  {
    match a {
      case Move(w, move) => PoolMoveNoneAbandoned(st, w, move, s);
      case Proceed(w, turn) => PoolTurnNoneAbandoned(st, w, turn, s);
      case _ => ArrivalNoneAbandoned(st, a, s);
    }
  }

  // ---- Runs of the system ----

  lemma KeptStep(sys: System, lg: Ledger, a: Action, s: nat)
    requires SystemInv(sys, lg) && Allowed(sys.pool, a)
    ensures Kept(Of(Next(sys.pool, a), s), Effect(sys.pool, sys.dom, a), s)
    ensures NoneAbandoned(Of(Next(sys.pool, a), s))
  {
    var dom' := Effect(sys.pool, sys.dom, a);
    assert Kept(Of(sys.pool, s), sys.dom, s) && NoneAbandoned(Of(sys.pool, s));
    if s in dom'.versions {
      VersionKept(sys.pool, lg, sys.dom, a, s);
    }
    if Rooms.Present(dom'.service, s) {
      PresenceKept(sys.pool, lg, sys.dom, a, s);
    }
    StepNoneAbandoned(sys.pool, a, s);
  }

  lemma SystemStep(sys: System, lg: Ledger, a: Action) returns (lg': Ledger)
    requires SystemInv(sys, lg) && Allowed(sys.pool, a)
    ensures SystemInv(System(Next(sys.pool, a), Effect(sys.pool, sys.dom, a)), lg')
  {
    lg' := NextKeeps(sys.pool, lg, a);
    RootedServe(sys.dom.service, ServiceCall(sys.pool, a));
    forall s: nat
      ensures Kept(Of(Next(sys.pool, a), s), Effect(sys.pool, sys.dom, a), s)
           && NoneAbandoned(Of(Next(sys.pool, a), s))
    {
      KeptStep(sys, lg, a, s);
    }
  }

  lemma BootInv(limit: nat, capacity: nat, n: nat)
    ensures SystemInv(Boot(limit, capacity, n), Ledger(map[], [], 0))
  {
    InitInv(limit, capacity, n);
  }

  lemma {:induction false} SystemRunInv(limit: nat, capacity: nat, n: nat, actions: seq<Action>, sys: System)
    returns (lg: Ledger)
    requires SystemReaches(Boot(limit, capacity, n), actions, sys)
    ensures SystemInv(sys, lg)
    decreases |actions|
  {
    if actions == [] {
      BootInv(limit, capacity, n);
      lg := Ledger(map[], [], 0);
    } else {
      var k := |actions| - 1;
      var mid :| && SystemReaches(Boot(limit, capacity, n), actions[..k], mid) && Allowed(mid.pool, actions[k])
                 && sys == System(Next(mid.pool, actions[k]), Effect(mid.pool, mid.dom, actions[k]));
      var lg0 := SystemRunInv(limit, capacity, n, actions[..k], mid);
      lg := SystemStep(mid, lg0, actions[k]);
    }
  }

  // ---- Closed is forever ----

  predicate Gone(x: Session) {
    HasSlot(x) && x.slots[0].closed
  }

  lemma MoveGone(x: Session, m: Marks, w: nat, move: MoveStep, limit: nat)
    requires HandInv(x, m) && MoveEnabled(x, w, move) && Gone(x)
    ensures Gone(MoveNext(x, w, move, limit))
  {
    assert HandOk(x, m, w, x.hands[w]);
  }

  lemma NoTurnWhenGone(x: Session, m: Marks, w: nat)
    requires SessionInv(x, m) && Gone(x)
    ensures !InTurn(x, w)
  {
    assert forall v | v in x.hands && x.hands[v].Turn? :: TurnOf(x.slots[0], x.hands[v].ev);
  }

  lemma NoIntakeWhenGone(st: Pool, lg: Ledger, s: nat)
    requires Inv(st, lg) && Gone(Of(st, s)) && st.intake.Some?
    ensures st.intake.value.session != s
  {
    SessionOf(st, lg, s);
    var x, m, ev := Of(st, s), MarksOf(lg, s), st.intake.value;
    assert lg.log[lg.base] == Line(st)[0] == ev;
    assert ev.session == s ==> MarkedAs(m, ev, AtLine(lg.base)) && KindOk(x, ev);
    if MarkedAs(m, ev, AtLine(lg.base)) && KindOk(x, ev) {
      IntakeFindsOne(x, m, ev, lg.base);
    }
  }

  lemma MovedGone(st: Pool, lg: Ledger, w: nat, move: MoveStep, s: nat)
    requires Inv(st, lg) && Enabled(st, Move(w, move)) && Gone(Of(st, s))
    ensures Gone(Of(MovePool(st, w, move), s))
  {
    var q := st.workers[w].session;
    assert MovePool(st, w, move).sessions == st.sessions[q := MoveNext(Of(st, q), w, move, st.limit)];
    if q == s {
      SessionOf(st, lg, s);
      MoveGone(Of(st, s), MarksOf(lg, s), w, move, st.limit);
    }
  }

  lemma ProceedGone(st: Pool, lg: Ledger, w: nat, turn: TurnStep, s: nat)
    requires Inv(st, lg) && Enabled(st, Proceed(w, turn)) && Gone(Of(st, s))
    ensures Gone(Of(TurnPool(st, w, turn), s))
  {
    var q := st.workers[w].session;
    SessionOf(st, lg, s);
    NoTurnWhenGone(Of(st, s), MarksOf(lg, s), w);
    assert q != s;
    AfterTurnIs(st, w, turn, Of(st, q).hands[w].ev, TurnNext(Of(st, q), w, turn));
  }

  lemma OutsideGone(st: Pool, st': Pool, q: nat, s: nat)
    requires st'.sessions == st.sessions[q := Of(st', q)] && Of(st', q).slots == Of(st, q).slots
    requires Gone(Of(st, s))
    ensures Gone(Of(st', s))
  {
  }

  lemma EnqueuedGone(st: Pool, ev: Event, s: nat)
    requires Gone(Of(st, s))
    ensures Gone(Of(EnqueuePool(st, ev), s))
  {
    OutsideGone(st, EnqueuePool(st, ev), ev.session, s);
  }

  lemma FulfilledGone(st: Pool, q: nat, k: nat, payload: CompletionPayload, s: nat)
    requires Gone(Of(st, s)) && k in Of(st, q).deferrals
    ensures Gone(Of(FulfillPool(st, q, k, payload), s))
  {
    OutsideGone(st, FulfillPool(st, q, k, payload), q, s);
  }

  lemma PushedGone(st: Pool, q: nat, k: nat, s: nat)
    requires Gone(Of(st, s)) && k in Of(st, q).pushing
    ensures Gone(Of(PushPool(st, q, k), s))
  {
    OutsideGone(st, PushPool(st, q, k), q, s);
  }

  lemma AcquiredGone(st: Pool, lg: Ledger, w: nat, s: nat)
    requires Inv(st, lg) && At(st, w, Intaking) && st.intake.Some? && Gone(Of(st, s))
    ensures Gone(Of(AcquirePool(st, w), s))
  {
    NoIntakeWhenGone(st, lg, s);
  }

  lemma StepGone(st: Pool, lg: Ledger, a: Action, s: nat)
    requires Inv(st, lg) && Enabled(st, a) && Gone(Of(st, s))
    ensures Gone(Of(Next(st, a), s))
  {
    match a {
      case Enqueue(ev) => EnqueuedGone(st, ev, s);
      case CompleteObject(q, k, payload) => FulfilledGone(st, q, k, payload, s);
      case Push(q, k) => PushedGone(st, q, k, s);
      case Acquire(w) => AcquiredGone(st, lg, w, s);
      case Move(w, move) => MovedGone(st, lg, w, move, s);
      case Proceed(w, turn) => ProceedGone(st, lg, w, turn, s);
      case _ =>
    }
  }

  lemma {:induction false} GoneForever(sys: System, lg: Ledger, actions: seq<Action>, sys': System, s: nat)
    returns (lg': Ledger)
    requires SystemInv(sys, lg) && SystemReaches(sys, actions, sys') && Gone(Of(sys.pool, s))
    ensures SystemInv(sys', lg') && Gone(Of(sys'.pool, s))
    decreases |actions|
  {
    if actions == [] {
      lg' := lg;
    } else {
      var k := |actions| - 1;
      var mid :| && SystemReaches(sys, actions[..k], mid) && Allowed(mid.pool, actions[k])
                 && sys' == System(Next(mid.pool, actions[k]), Effect(mid.pool, mid.dom, actions[k]));
      var lg0 := GoneForever(sys, lg, actions[..k], mid, s);
      lg' := SystemStep(mid, lg0, actions[k]);
      StepGone(mid.pool, lg0, actions[k], s);
    }
  }

  /** Once the disconnect turn of a session has completed, no continuation of the run, whatever late
      events and login callbacks it contains, gives that session a second state object, a negotiated
      version, a user, a room or a position. */
  lemma NoResurrection(limit: nat, capacity: nat, n: nat, past: seq<Action>, sys: System,
                       future: seq<Action>, sys': System, s: nat)
    requires SystemReaches(Boot(limit, capacity, n), past, sys) && Gone(Of(sys.pool, s))
    requires SystemReaches(sys, future, sys')
    ensures |Of(sys'.pool, s).slots| == 1 && Of(sys'.pool, s).slots[0].closed
    ensures s !in sys'.dom.versions && !Rooms.Present(sys'.dom.service, s)
  {
    var lg := SystemRunInv(limit, capacity, n, past, sys);
    var lg' := GoneForever(sys, lg, future, sys', s);
    assert Kept(Of(sys'.pool, s), sys'.dom, s);
  }
}

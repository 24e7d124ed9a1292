/** Every step of one session keeps its invariant. */
module SessionSteps {
  import opened Wrappers
  import opened SessionEvents
  import opened Turns
  import opened PoolModel
  import opened SessionInvariant

  function MarkIo(m: Marks, k: nat, l: Loc): Marks {
    m.(io := m.io[k := l])
  }

  function MarkComp(m: Marks, k: nat, l: Loc): Marks {
    m.(comp := m.comp[k := l])
  }

  function MarkEvent(m: Marks, ev: Event, l: Loc): Marks {
    if ev.kind == DeferredCompletion then MarkComp(m, ev.sequence, l) else MarkIo(m, ev.sequence, l)
  }

  // ---- What a worker's step must show about places ----

  /** A mark that changes leaves no worker but `w` and enters a place that holds the event. */
  predicate Shifts(w: nat, l: Loc, l': Loc) {
    && !l.AtLine? && !l'.AtLine?
    && (l.AtWorker? ==> l.w == w) && (l'.AtWorker? ==> l'.w == w)
    && l != AtPusher
  }

  ghost predicate WorkerStep(x: Session, m: Marks, x': Session, m': Marks, w: nat) {
    && |x.slots| == 1 && |x'.slots| == 1
    && x'.produced == x.produced && x'.ended == x.ended && x'.pushing == x.pushing
    && (x.slots[0].failed ==> x'.slots[0].failed)
    && (forall k :: k in x'.deferrals && x'.deferrals[k].completed <==> k in x.deferrals && x.deferrals[k].completed)
    && (forall v | v != w :: v in x.hands <==> v in x'.hands)
    && (forall v | v != w && v in x.hands :: x'.hands[v] == x.hands[v])
    && m'.io.Keys == m.io.Keys && m'.comp.Keys == m.comp.Keys
    && (forall k | k in m.io && m'.io[k] != m.io[k] :: Shifts(w, m.io[k], m'.io[k]))
    && (forall k | k in m.comp && m'.comp[k] != m.comp[k] :: Shifts(w, m.comp[k], m'.comp[k]))
  }

  lemma KnownStep(x: Session, m: Marks, x': Session, m': Marks, w: nat)
    requires KnownInv(x, m) && WorkerStep(x, m, x', m', w)
    ensures KnownInv(x', m')
  {
    assert forall k: nat :: k in m'.io <==> k in m.io.Keys;
    assert forall k: nat :: k in m'.comp <==> k in m.comp.Keys;
  }

  lemma FifoStep(x: Session, m: Marks, x': Session, m': Marks, w: nat)
    requires FifoInv(m) && WorkerStep(x, m, x', m', w)
    ensures FifoInv(m')
  {
    forall k | k in m'.io ensures k in m.io && (m'.io[k].AtLine? || m.io[k].AtLine? ==> m'.io[k] == m.io[k]) {
      assert k in m.io.Keys;
    }
  }

  lemma WorkerLines(x: Session, m: Marks, x': Session, m': Marks, w: nat)
    requires WorkerStep(x, m, x', m', w)
    ensures LinesSame(m, m')
  {
    forall k | k in m'.io ensures k in m.io && (m'.io[k].AtLine? || m.io[k].AtLine? ==> m'.io[k] == m.io[k]) {
      assert k in m.io.Keys;
    }
    forall k | k in m.io ensures k in m'.io { assert k in m'.io.Keys; }
    forall k | k in m'.comp
      ensures k in m.comp && (m'.comp[k].AtLine? || m.comp[k].AtLine? ==> m'.comp[k] == m.comp[k])
    {
      assert k in m.comp.Keys;
    }
    forall k | k in m.comp ensures k in m'.comp { assert k in m'.comp.Keys; }
  }

  lemma SameLines(m: Marks)
    ensures LinesSame(m, m)
  {
  }

  lemma HandStep(x: Session, m: Marks, x': Session, m': Marks, w: nat)
    requires HandInv(x, m) && WorkerStep(x, m, x', m', w)
    requires w in x'.hands ==> HandOk(x', m', w, x'.hands[w])
    ensures HandInv(x', m')
  {
    forall v | v in x'.hands ensures HandOk(x', m', v, x'.hands[v]) {
      if v != w {
        assert v in x.hands && HandOk(x, m, v, x.hands[v]);
      }
    }
  }

  lemma BackStep(x: Session, m: Marks, x': Session, m': Marks, w: nat)
    requires BackInv(x, m) && WorkerStep(x, m, x', m', w)
    requires forall k | k in m'.io && !(m'.io[k].AtWorker? && m'.io[k].w != w) :: IoAt(x', k, m'.io[k])
    requires forall k | k in m'.comp && !(m'.comp[k].AtWorker? && m'.comp[k].w != w) :: CompAt(x', k, m'.comp[k])
    ensures BackInv(x', m')
  {
    forall k | k in m'.io ensures IoAt(x', k, m'.io[k]) {
      assert k in m.io.Keys && IoAt(x, k, m.io[k]);
    }
    forall k | k in m'.comp ensures CompAt(x', k, m'.comp[k]) {
      assert k in m.comp.Keys && CompAt(x, k, m.comp[k]);
    }
  }

  lemma PushStep(x: Session, m: Marks, x': Session, m': Marks, w: nat)
    requires PushInv(x, m) && WorkerStep(x, m, x', m', w)
    ensures PushInv(x', m')
  {
    forall k | k in x'.pushing ensures MarkedAs(m', x'.pushing[k], AtPusher) {
      assert k in m.comp.Keys;
    }
  }

  lemma PlaceStep(x: Session, m: Marks, x': Session, m': Marks, w: nat)
    requires PlaceInv(x, m) && WorkerStep(x, m, x', m', w)
    requires w in x'.hands ==> HandOk(x', m', w, x'.hands[w])
    requires forall k | k in m'.io && !(m'.io[k].AtWorker? && m'.io[k].w != w) :: IoAt(x', k, m'.io[k])
    requires forall k | k in m'.comp && !(m'.comp[k].AtWorker? && m'.comp[k].w != w) :: CompAt(x', k, m'.comp[k])
    requires TableInv(x', m')
    ensures PlaceInv(x', m')
  {
    KnownStep(x, m, x', m', w);
    FifoStep(x, m, x', m', w);
    HandStep(x, m, x', m', w);
    BackStep(x, m, x', m', w);
    PushStep(x, m, x', m', w);
  }

  // ---- Steps that leave the current turn as it is ----

  predicate SameTurn(t: TurnState, t': TurnState) {
    && t'.next == t.next && t'.active == t.active && t'.awaiting == t.awaiting
    && t'.activeDisconnect == t.activeDisconnect && t'.closed == t.closed && (t.failed ==> t'.failed)
  }

  ghost predicate Calm(x: Session, m: Marks, x': Session, m': Marks, w: nat, t: TurnState, t': TurnState) {
    && WorkerStep(x, m, x', m', w) && SameTurn(t, t') && x'.deferrals == x.deferrals
    && x'.handled == x.handled && x'.published == x.published
    && (w in x.hands && x.hands[w].Turn? ==>
          && w in x'.hands && x'.hands[w].Turn? && x'.hands[w].ev == x.hands[w].ev && x.hands[w].phase != Admitted)
    && (w in x'.hands && x'.hands[w].Turn? ==>
          && x'.hands[w].phase != Admitted && TurnOf(t', x'.hands[w].ev)
          && PhaseOk(x', m', x'.hands[w].ev, x'.hands[w].phase))
    && (t.active && t.next in m.io ==> m'.io[t.next] == m.io[t.next])
    && (forall k | k in m.comp && m'.comp[k] != m.comp[k] ::
          && m.comp[k] != AtObject && m.comp[k] != Retired && m'.comp[k] != AtObject && m'.comp[k] != Retired
          && (m'.comp[k] == AtEarly ==> !t.awaiting))
  }

  lemma CalmTurn(x: Session, m: Marks, x': Session, m': Marks, w: nat, t: TurnState, t': TurnState)
    requires TurnInv(x, m, t) && Calm(x, m, x', m', w, t, t')
    ensures TurnInv(x', m', t')
  {
    forall v | v in x'.hands && x'.hands[v].Turn? && v != w
      ensures PhaseOk(x', m', x'.hands[v].ev, x'.hands[v].phase)
    {
      assert PhaseOk(x, m, x.hands[v].ev, x.hands[v].phase);
      assert x.hands[v].ev.sequence in m'.comp <==> x.hands[v].ev.sequence in m.comp.Keys;
    }
  }

  lemma CalmPast(x: Session, m: Marks, x': Session, m': Marks, w: nat, t: TurnState, t': TurnState)
    requires PastInv(x, m, t) && Calm(x, m, x', m', w, t, t')
    ensures PastInv(x', m', t')
  {
    forall k | k in x'.deferrals ensures DeferralOk(m', t', k, x'.deferrals[k]) {
      assert DeferralOk(m, t, k, x.deferrals[k]);
      assert k in m'.comp <==> k in m.comp.Keys;
    }
    assert t'.next in m'.comp <==> t.next in m.comp.Keys;
    assert Entered(x', t') <==> Entered(x, t) by {
      assert forall v | v in x.hands && x.hands[v].Turn? && v != w :: x'.hands[v] == x.hands[v];
      assert forall v | v in x'.hands && x'.hands[v].Turn? && v != w :: x'.hands[v] == x.hands[v];
    }
  }

  lemma RescueStep(x: Session, x': Session, w: nat, t: TurnState, t': TurnState)
    requires RescueInv(x, t) && t'.active == t.active
    requires forall v | v != w && v in x.hands :: v in x'.hands && x'.hands[v] == x.hands[v]
    requires t'.pending.Some? && !t'.active ==> t.pending.Some? || (w in x'.hands && Rescues(x'.hands[w]))
    requires t'.pending.Some? && w in x.hands && Rescues(x.hands[w]) ==> w in x'.hands && Rescues(x'.hands[w])
    ensures RescueInv(x', t')
  {
    if t'.pending.Some? && !t'.active && t.pending.Some? {
      var v :| v in x.hands && Rescues(x.hands[v]);
      assert v in x'.hands && Rescues(x'.hands[v]);
    }
  }

  /** The marks of what the state object stores do not change. */
  ghost predicate StoresSame(m: Marks, m': Marks) {
    && (forall k | k in m.io && m.io[k] in {AtParked, AtPending} :: k in m'.io && m'.io[k] == m.io[k])
    && (forall k | k in m.comp && m.comp[k] == AtEarly :: k in m'.comp && m'.comp[k] == m.comp[k])
  }

  lemma OrderStep(x: Session, m: Marks, x': Session, t: TurnState)
    requires OrderInv(x, m, t) && x'.produced == x.produced && x'.ended == x.ended
    ensures OrderInv(x', m, t)
  {
  }

  lemma StoreStep(x: Session, m: Marks, x': Session, m': Marks, t: TurnState)
    requires StoreInv(x, m, t) && StoresSame(m, m') && x'.produced == x.produced && x'.ended == x.ended
    ensures StoreInv(x', m', t)
  {
  }

  // ---- Trying to start a turn ----

  ghost predicate Tries(x: Session, m: Marks, w: nat) {
    SessionInv(x, m) && HasSlot(x) && w in x.hands && x.hands[w].Trying?
  }

  // ---- A worker lets go of its event ----

  /** The state object `t'` is `t` with `ev` stored at place `l`, or `ev` is given up. */
  predicate Stored(t: TurnState, t': TurnState, ev: Event, l: Loc) {
    match l
    case AtParked => !t.failed && ev.sequence !in t.parked && ev.sequence > t.next && !t.activeDisconnect
                     && ev.kind != DeferredCompletion && t' == t.(parked := t.parked[ev.sequence := ev])
    case AtEarly => t.active && !t.awaiting && !t.activeDisconnect && t.early == None
                    && ev.kind == DeferredCompletion && ev.sequence == t.next && t' == t.(early := Some(ev))
    case AtPending => t.failed && t.active && !t.activeDisconnect && t.pending == None && ev.kind == Disconnected
                      && t' == t.(pending := Some(ev))
    case Retired => t.failed && ev.kind == PacketEvent && t' == t
    case _ => false
  }

  ghost predicate Releases(x: Session, m: Marks, w: nat, x': Session, m': Marks, t: TurnState, t': TurnState, l: Loc) {
    && x.slots == [t] && w in x.hands && !x.hands[w].Turn? && MarkedAs(m, x.hands[w].ev, AtWorker(w))
    && (t.active ==> x.hands[w].ev.kind == DeferredCompletion || x.hands[w].ev.sequence != t.next)
    && Stored(t, t', x.hands[w].ev, l)
    && (Rescues(x.hands[w]) ==> t.active || t.pending == None)
    && x' == x.(hands := x.hands - {w}, slots := [t']) && m' == MarkEvent(m, x.hands[w].ev, l)
  }

  lemma ReleaseCalm(x: Session, m: Marks, w: nat, x': Session, m': Marks, t: TurnState, t': TurnState, l: Loc)
    requires Releases(x, m, w, x', m', t, t', l)
    ensures Calm(x, m, x', m', w, t, t')
  {
    assert m'.io.Keys == m.io.Keys && m'.comp.Keys == m.comp.Keys;
  }

  lemma ReleaseBack(x: Session, m: Marks, w: nat, x': Session, m': Marks, t: TurnState, t': TurnState, l: Loc)
    requires BackInv(x, m) && Releases(x, m, w, x', m', t, t', l)
    ensures forall k | k in m'.io && !(m'.io[k].AtWorker? && m'.io[k].w != w) :: IoAt(x', k, m'.io[k])
    ensures forall k | k in m'.comp && !(m'.comp[k].AtWorker? && m'.comp[k].w != w) :: CompAt(x', k, m'.comp[k])
  {
    forall k | k in m'.io && !(m'.io[k].AtWorker? && m'.io[k].w != w) ensures IoAt(x', k, m'.io[k]) {
      assert k in m.io && IoAt(x, k, m.io[k]);
    }
    forall k | k in m'.comp && !(m'.comp[k].AtWorker? && m'.comp[k].w != w) ensures CompAt(x', k, m'.comp[k]) {
      assert k in m.comp && CompAt(x, k, m.comp[k]);
    }
  }

  lemma ReleasePlace(x: Session, m: Marks, w: nat, x': Session, m': Marks, t: TurnState, t': TurnState, l: Loc)
    requires PlaceInv(x, m) && Releases(x, m, w, x', m', t, t', l)
    ensures PlaceInv(x', m')
  {
    ReleaseCalm(x, m, w, x', m', t, t', l);
    ReleaseBack(x, m, w, x', m', t, t', l);
    PlaceStep(x, m, x', m', w);
  }

  lemma ReleaseStore(x: Session, m: Marks, w: nat, x': Session, m': Marks, t: TurnState, t': TurnState, l: Loc)
    requires StoreInv(x, m, t) && Releases(x, m, w, x', m', t, t', l) && KindOk(x, x.hands[w].ev)
    ensures StoreInv(x', m', t')
  {
  }

  lemma ReleaseOrder(x: Session, m: Marks, w: nat, x': Session, m': Marks, t: TurnState, t': TurnState, l: Loc)
    requires OrderInv(x, m, t) && Releases(x, m, w, x', m', t, t', l) && KindOk(x, x.hands[w].ev)
    ensures OrderInv(x', m', t')
  {
  }

  lemma ReleaseRescue(x: Session, m: Marks, w: nat, x': Session, m': Marks, t: TurnState, t': TurnState, l: Loc)
    requires RescueInv(x, t) && Releases(x, m, w, x', m', t, t', l)
    ensures RescueInv(x', t')
  {
    if !t.active {
      RescueStep(x, x', w, t, t');
    }
  }

  lemma ReleaseKeeps(x: Session, m: Marks, w: nat, x': Session, m': Marks, t: TurnState, t': TurnState, l: Loc)
    requires SessionInv(x, m) && Releases(x, m, w, x', m', t, t', l)
    ensures SessionInv(x', m') && LinesSame(m, m')
  {
    assert HandOk(x, m, w, x.hands[w]);
    ReleaseCalm(x, m, w, x', m', t, t', l);
    WorkerLines(x, m, x', m', w);
    ReleasePlace(x, m, w, x', m', t, t', l);
    ReleaseStore(x, m, w, x', m', t, t', l);
    ReleaseOrder(x, m, w, x', m', t, t', l);
    ReleaseRescue(x, m, w, x', m', t, t', l);
    CalmTurn(x, m, x', m', w, t, t');
    CalmPast(x, m, x', m', w, t, t');
  }

  // ---- A worker keeps its event but not in a turn of its own ----

  /** Same event, new standing: rejected, retried, or the completion of the turn that waits for it. */
  ghost predicate Retains(x: Session, m: Marks, w: nat, x': Session, t: TurnState, h: Hand) {
    && x.slots == [t] && w in x.hands && !x.hands[w].Turn?
    && h.gen == 0 && h.ev == x.hands[w].ev
    && (h.Rejecting? ==> h.ev.kind != DeferredCompletion && (h.stage != Marking ==> t.failed))
    && (Rescues(x.hands[w]) ==> Rescues(h))
    && (h.Turn? ==> h.ev.kind == DeferredCompletion && TurnOf(t, h.ev)
                    && (h.phase.Failing? || (h.phase.Publishing? && h.phase.after == ThenComplete)))
    && x' == x.(hands := x.hands[w := h])
  }

  lemma RetainCalm(x: Session, m: Marks, w: nat, x': Session, t: TurnState, h: Hand)
    requires Retains(x, m, w, x', t, h)
    ensures Calm(x, m, x', m, w, t, t)
  {
  }

  lemma RetainKeeps(x: Session, m: Marks, w: nat, x': Session, t: TurnState, h: Hand)
    requires SessionInv(x, m) && Retains(x, m, w, x', t, h)
    ensures SessionInv(x', m)
  {
    RetainCalm(x, m, w, x', t, h);
    RetainPlace(x, m, w, x', t, h);
    StoreStep(x, m, x', m, t);
    OrderStep(x, m, x', t);
    RescueStep(x, x', w, t, t);
    CalmTurn(x, m, x', m, w, t, t);
    CalmPast(x, m, x', m, w, t, t);
  }

  lemma RetainPlace(x: Session, m: Marks, w: nat, x': Session, t: TurnState, h: Hand)
    requires PlaceInv(x, m) && Retains(x, m, w, x', t, h)
    ensures PlaceInv(x', m)
  {
    assert HandOk(x, m, w, x.hands[w]);
    forall k | k in m.io && !(m.io[k].AtWorker? && m.io[k].w != w) ensures IoAt(x', k, m.io[k]) {
      assert IoAt(x, k, m.io[k]);
    }
    forall k | k in m.comp && !(m.comp[k].AtWorker? && m.comp[k].w != w) ensures CompAt(x', k, m.comp[k]) {
      assert CompAt(x, k, m.comp[k]);
    }
    PlaceStep(x, m, x', m, w);
  }

  // ---- A turn begins ----

  /** The next event in order, or the disconnect of a failed session, is admitted. */
  ghost predicate Begins(x: Session, m: Marks, w: nat, x': Session, t: TurnState, t': TurnState) {
    && x.slots == [t] && w in x.hands && x.hands[w].Trying?
    && MarkedAs(m, x.hands[w].ev, AtWorker(w)) && KindOk(x, x.hands[w].ev)
    && var ev := x.hands[w].ev;
    && !t.active && !t.closed && ev.kind != DeferredCompletion
    && (if t.failed then ev.kind == Disconnected else ev.sequence == t.next)
    && t' == t.(next := ev.sequence, active := true, activeDisconnect := ev.kind == Disconnected)
    && x' == x.(hands := x.hands[w := Turn(0, ev, Admitted)], slots := [t'])
  }

  lemma BeginPlace(x: Session, m: Marks, w: nat, x': Session, t: TurnState, t': TurnState)
    requires PlaceInv(x, m) && FlagsInv(t) && Begins(x, m, w, x', t, t')
    ensures PlaceInv(x', m)
  {
    forall k | k in m.io && !(m.io[k].AtWorker? && m.io[k].w != w) ensures IoAt(x', k, m.io[k]) {
      assert IoAt(x, k, m.io[k]);
    }
    forall k | k in m.comp && !(m.comp[k].AtWorker? && m.comp[k].w != w) ensures CompAt(x', k, m.comp[k]) {
      assert CompAt(x, k, m.comp[k]);
    }
    PlaceStep(x, m, x', m, w);
  }

  lemma BeginStore(x: Session, m: Marks, w: nat, x': Session, t: TurnState, t': TurnState)
    requires KnownInv(x, m) && StoreInv(x, m, t) && Begins(x, m, w, x', t, t')
    ensures StoreInv(x', m, t')
  {
    if t'.activeDisconnect {
      assert forall k | k in t.parked :: t.next < k && k in m.io && k < x.produced;
      assert t.parked == map[];
    }
  }

  lemma BeginOrder(x: Session, m: Marks, w: nat, x': Session, t: TurnState, t': TurnState)
    requires KnownInv(x, m) && OrderInv(x, m, t) && Begins(x, m, w, x', t, t')
    ensures OrderInv(x', m, t') && t.next <= t'.next
  {
  }

  lemma BeginTurn(x: Session, m: Marks, w: nat, x': Session, t: TurnState, t': TurnState)
    requires TurnInv(x, m, t) && DeferInv(x, m, t) && FlagsInv(t) && t.next <= t'.next && Begins(x, m, w, x', t, t')
    ensures TurnInv(x', m, t') && DeferInv(x', m, t')
  {
    forall k | k in x'.deferrals ensures DeferralOk(m, t', k, x'.deferrals[k]) {
      assert DeferralOk(m, t, k, x.deferrals[k]);
    }
  }

  lemma BeginHistory(x: Session, m: Marks, w: nat, x': Session, t: TurnState, t': TurnState)
    requires HistoryInv(x, t) && OutputInv(x, t) && FlagsInv(t) && t.next <= t'.next && Begins(x, m, w, x', t, t')
    ensures HistoryInv(x', t') && OutputInv(x', t')
  {
    assert x'.hands[w].phase == Admitted;
  }

  lemma BeginKeeps(x: Session, m: Marks, w: nat, x': Session, t: TurnState, t': TurnState)
    requires SessionInv(x, m) && Begins(x, m, w, x', t, t')
    ensures SessionInv(x', m)
  {
    BeginPlace(x, m, w, x', t, t');
    BeginStore(x, m, w, x', t, t');
    BeginOrder(x, m, w, x', t, t');
    BeginTurn(x, m, w, x', t, t');
    BeginHistory(x, m, w, x', t, t');
    assert RescueInv(x', t');
  }

  // ---- A session fails ----

  function FailMarks(x: Session, m: Marks): Marks {
    m.(io := map k | k in m.io ::
         if m.io[k] != AtParked then m.io[k]
         else if x.ended && k + 1 == x.produced then AtPending else Retired)
  }

  /** The worker's step marks the session failed: parked packets are given up, a parked disconnect is kept. */
  ghost predicate Fails(x: Session, m: Marks, w: nat, x': Session, m': Marks, t: TurnState, t': TurnState) {
    && x.slots == [t] && w in x.hands && !t.failed && !t.closed
    && t' == MarkFailed(t).0
    && x'.slots == [t'] && m' == FailMarks(x, m) && w in x'.hands
    && x' == x.(slots := [t'], hands := x.hands[w := x'.hands[w]])
    && x'.hands[w].gen == 0 && x'.hands[w].ev == x.hands[w].ev
    && ((x'.hands[w].Rejecting? && x'.hands[w].stage == Telling && x.hands[w].Rejecting? && x.hands[w].stage == Marking)
        || (x.hands[w].Turn? && x'.hands[w].Turn? && x.hands[w].phase == Failing && x'.hands[w].phase == Asking))
  }

  lemma RescuedIs(x: Session, m: Marks, t: TurnState)
    requires StoreInv(x, m, t) && !t.failed
    ensures Rescued(t) ==
            if x.ended && x.produced > 0 && x.produced - 1 in t.parked then Some(t.parked[x.produced - 1]) else None
  {
    if x.ended && x.produced > 0 && x.produced - 1 in t.parked {
      assert IsFirstDisconnected(t.parked, x.produced - 1);
    }
  }

  lemma FailStep(x: Session, m: Marks, w: nat, x': Session, m': Marks, t: TurnState, t': TurnState)
    requires Fails(x, m, w, x', m', t, t') && TurnInv(x, m, t) && KnownInv(x, m)
    ensures Calm(x, m, x', m', w, t, t')
  {
    assert m'.io.Keys == m.io.Keys;
    if x.hands[w].Turn? {
      assert PhaseOk(x, m, x.hands[w].ev, x.hands[w].phase);
    }
  }

  lemma FailPlace(x: Session, m: Marks, w: nat, x': Session, m': Marks, t: TurnState, t': TurnState)
    requires PlaceInv(x, m) && StoreInv(x, m, t) && WorkerStep(x, m, x', m', w) && Fails(x, m, w, x', m', t, t')
    ensures PlaceInv(x', m')
  {
    FailBack(x, m, w, x', m', t, t');
    assert HandOk(x, m, w, x.hands[w]);
    PlaceStep(x, m, x', m', w);
  }

  lemma FailBack(x: Session, m: Marks, w: nat, x': Session, m': Marks, t: TurnState, t': TurnState)
    requires BackInv(x, m) && StoreInv(x, m, t) && Fails(x, m, w, x', m', t, t')
    ensures forall k | k in m'.io && !(m'.io[k].AtWorker? && m'.io[k].w != w) :: IoAt(x', k, m'.io[k])
    ensures forall k | k in m'.comp && !(m'.comp[k].AtWorker? && m'.comp[k].w != w) :: CompAt(x', k, m'.comp[k])
  {
    RescuedIs(x, m, t);
    forall k | k in m'.io && !(m'.io[k].AtWorker? && m'.io[k].w != w) ensures IoAt(x', k, m'.io[k]) {
      assert k in m.io && IoAt(x, k, m.io[k]);
    }
    forall k | k in m'.comp && !(m'.comp[k].AtWorker? && m'.comp[k].w != w) ensures CompAt(x', k, m'.comp[k]) {
      assert CompAt(x, k, m.comp[k]);
    }
  }

  lemma FailSlot(x: Session, m: Marks, w: nat, x': Session, m': Marks, t: TurnState, t': TurnState)
    requires KnownInv(x, m) && StoreInv(x, m, t) && OrderInv(x, m, t) && Fails(x, m, w, x', m', t, t')
    ensures StoreInv(x', m', t') && OrderInv(x', m', t')
  {
    RescuedIs(x, m, t);
  }

  lemma FailRescue(x: Session, m: Marks, w: nat, x': Session, m': Marks, t: TurnState, t': TurnState)
    requires HandInv(x, m) && StoreInv(x, m, t) && TurnInv(x, m, t) && Fails(x, m, w, x', m', t, t')
    ensures RescueInv(x', t')
  {
    RescuedIs(x, m, t);
    assert HandOk(x, m, w, x.hands[w]);
    if !t'.active && t'.pending.Some? {
      assert Rescues(x'.hands[w]);
    }
  }

  lemma FailKeeps(x: Session, m: Marks, w: nat, x': Session, m': Marks, t: TurnState, t': TurnState)
    requires SessionInv(x, m) && Fails(x, m, w, x', m', t, t')
    ensures SessionInv(x', m') && LinesSame(m, m')
  {
    FailStep(x, m, w, x', m', t, t');
    WorkerLines(x, m, x', m', w);
    FailPlace(x, m, w, x', m', t, t');
    FailSlot(x, m, w, x', m', t, t');
    FailRescue(x, m, w, x', m', t, t');
    CalmTurn(x, m, x', m', w, t, t');
    CalmPast(x, m, x', m', w, t, t');
  }

  // ---- A rejected packet makes way for the kept disconnect ----

  ghost predicate Fetches(x: Session, m: Marks, w: nat, x': Session, m': Marks, t: TurnState, t': TurnState) {
    && x.slots == [t] && w in x.hands && x.hands[w].Rejecting? && x.hands[w].ev.kind == PacketEvent
    && MarkedAs(m, x.hands[w].ev, AtWorker(w))
    && !t.active && !t.closed && t.failed && t.pending.Some? && t.pending.value.kind == Disconnected
    && MarkedAs(m, t.pending.value, AtPending) && KindOk(x, t.pending.value)
    && t' == t.(pending := None)
    && x' == x.(hands := x.hands[w := Trying(0, t.pending.value)], slots := [t'])
    && m' == MarkIo(MarkIo(m, x.hands[w].ev.sequence, Retired), t.pending.value.sequence, AtWorker(w))
  }

  lemma FetchBack(x: Session, m: Marks, w: nat, x': Session, m': Marks, t: TurnState, t': TurnState)
    requires BackInv(x, m) && Fetches(x, m, w, x', m', t, t')
    ensures forall k | k in m'.io && !(m'.io[k].AtWorker? && m'.io[k].w != w) :: IoAt(x', k, m'.io[k])
    ensures forall k | k in m'.comp && !(m'.comp[k].AtWorker? && m'.comp[k].w != w) :: CompAt(x', k, m'.comp[k])
  {
    forall k | k in m'.io && !(m'.io[k].AtWorker? && m'.io[k].w != w) ensures IoAt(x', k, m'.io[k]) {
      assert k in m.io && IoAt(x, k, m.io[k]);
    }
    forall k | k in m'.comp && !(m'.comp[k].AtWorker? && m'.comp[k].w != w) ensures CompAt(x', k, m'.comp[k]) {
      assert CompAt(x, k, m.comp[k]);
    }
  }

  lemma FetchCalm(x: Session, m: Marks, w: nat, x': Session, m': Marks, t: TurnState, t': TurnState)
    requires Fetches(x, m, w, x', m', t, t')
    ensures Calm(x, m, x', m', w, t, t')
  {
    assert m'.io.Keys == m.io.Keys;
  }

  lemma FetchSlot(x: Session, m: Marks, w: nat, x': Session, m': Marks, t: TurnState, t': TurnState)
    requires StoreInv(x, m, t) && OrderInv(x, m, t) && Fetches(x, m, w, x', m', t, t')
    requires KindOk(x, x.hands[w].ev)
    ensures StoreInv(x', m', t') && OrderInv(x', m', t') && RescueInv(x', t')
  {
  }

  lemma FetchKeeps(x: Session, m: Marks, w: nat, x': Session, m': Marks, t: TurnState, t': TurnState)
    requires SessionInv(x, m) && Fetches(x, m, w, x', m', t, t')
    ensures SessionInv(x', m') && LinesSame(m, m')
  {
    assert HandOk(x, m, w, x.hands[w]);
    FetchCalm(x, m, w, x', m', t, t');
    WorkerLines(x, m, x', m', w);
    FetchBack(x, m, w, x', m', t, t');
    PlaceStep(x, m, x', m', w);
    FetchSlot(x, m, w, x', m', t, t');
    CalmTurn(x, m, x', m', w, t, t');
    CalmPast(x, m, x', m', w, t, t');
  }

  // ---- A worker's move, in all its cases ----

  /** What the invariant says about an event that is tried. */
  ghost predicate Tryable(x: Session, m: Marks, w: nat, t: TurnState, ev: Event) {
    && x.slots == [t] && w in x.hands && x.hands[w] == Trying(0, ev)
    && MarkedAs(m, ev, AtWorker(w)) && KindOk(x, ev)
    && (t.closed ==> t.failed && ev.kind == PacketEvent)
    && (ev.kind == DeferredCompletion ==>
          t.active && !t.activeDisconnect && ev.sequence == t.next && (t.awaiting || t.early == None))
    && (ev.kind != DeferredCompletion && t.active ==> ev.sequence != t.next)
    && (ev.kind == Disconnected ==> t.pending == None && !t.activeDisconnect)
    && (!t.failed && !t.closed && ev.kind != DeferredCompletion ==>
          && ev.sequence >= t.next && ev.sequence !in t.parked
          && (ev.sequence > t.next ==> !t.activeDisconnect))
  }

  lemma TryFacts(x: Session, m: Marks, w: nat)
    requires Tries(x, m, w)
    ensures Tryable(x, m, w, x.slots[0], x.hands[w].ev)
  {
    var t, ev := x.slots[0], x.hands[w].ev;
    assert HandOk(x, m, w, x.hands[w]);
    if ev.kind == DeferredCompletion {
      assert DeferralOk(m, t, ev.sequence, x.deferrals[ev.sequence]);
    }
  }

  function PlaceAfterTry(t: TurnState, ev: Event, d: Disposition): Loc {
    if d == Discarded then Retired
    else if ev.kind == DeferredCompletion then AtEarly
    else if t.failed then AtPending else AtParked
  }

  /** What each decision does. */
  ghost predicate Shaped(x: Session, m: Marks, w: nat, t: TurnState, ev: Event, kept: nat, x': Session,
                         r: (TurnState, Disposition)) {
    match r.1
    case InvalidSequence => false
    case ParkedLimit => Retains(x, m, w, x', t, Rejecting(0, ev, Marking))
    case Process =>
      if ev.kind == DeferredCompletion then Retains(x, m, w, x', t, Turn(0, ev, Started(ev, kept)))
      else Begins(x, m, w, x', t, r.0)
    case _ =>
      var l := PlaceAfterTry(t, ev, r.1);
      Releases(x, m, w, x', MarkEvent(m, ev, l), t, r.0, l)
  }

  lemma CompletionShapes(x: Session, m: Marks, w: nat, t: TurnState, ev: Event, kept: nat, limit: nat)
    requires Tryable(x, m, w, t, ev) && ev.kind == DeferredCompletion
    ensures Shaped(x, m, w, t, ev, kept, TryNext(x, w, kept, limit), TryStart(t, ev, limit))
  {
  }

  lemma FailedShapes(x: Session, m: Marks, w: nat, t: TurnState, ev: Event, kept: nat, limit: nat)
    requires Tryable(x, m, w, t, ev) && ev.kind != DeferredCompletion && (t.failed || t.closed)
    ensures Shaped(x, m, w, t, ev, kept, TryNext(x, w, kept, limit), TryStart(t, ev, limit))
  {
  }

  lemma BeginShapes(x: Session, m: Marks, w: nat, t: TurnState, ev: Event, kept: nat, limit: nat)
    requires Tryable(x, m, w, t, ev) && ev.kind != DeferredCompletion && !t.failed && !t.closed
    requires !t.active && ev.sequence == t.next
    ensures Shaped(x, m, w, t, ev, kept, TryNext(x, w, kept, limit), TryStart(t, ev, limit))
  {
  }

  lemma ParkShapes(x: Session, m: Marks, w: nat, t: TurnState, ev: Event, kept: nat, limit: nat)
    requires Tryable(x, m, w, t, ev) && ev.kind != DeferredCompletion && !t.failed && !t.closed
    requires t.active || ev.sequence != t.next
    ensures Shaped(x, m, w, t, ev, kept, TryNext(x, w, kept, limit), TryStart(t, ev, limit))
  {
  }

  lemma TryShapes(x: Session, m: Marks, w: nat, t: TurnState, ev: Event, kept: nat, limit: nat)
    requires Tryable(x, m, w, t, ev)
    ensures Shaped(x, m, w, t, ev, kept, TryNext(x, w, kept, limit), TryStart(t, ev, limit))
  {
    if ev.kind == DeferredCompletion {
      CompletionShapes(x, m, w, t, ev, kept, limit);
    } else if t.failed || t.closed {
      FailedShapes(x, m, w, t, ev, kept, limit);
    } else if !t.active && ev.sequence == t.next {
      BeginShapes(x, m, w, t, ev, kept, limit);
    } else {
      ParkShapes(x, m, w, t, ev, kept, limit);
    }
  }

  lemma TryKeeps(x: Session, m: Marks, w: nat, kept: nat, limit: nat) returns (m': Marks)
    requires Tries(x, m, w)
    ensures SessionInv(TryNext(x, w, kept, limit), m') && LinesSame(m, m')
  {
    var t, ev := x.slots[0], x.hands[w].ev;
    TryFacts(x, m, w);
    TryShapes(x, m, w, t, ev, kept, limit);
    var x', r := TryNext(x, w, kept, limit), TryStart(t, ev, limit);
    m' := m;
    SameLines(m);
    if r.1 == ParkedLimit {
      RetainKeeps(x, m, w, x', t, Rejecting(0, ev, Marking));
    } else if r.1 == Process {
      if ev.kind == DeferredCompletion {
        RetainKeeps(x, m, w, x', t, Turn(0, ev, Started(ev, kept)));
      } else {
        BeginKeeps(x, m, w, x', t, r.0);
      }
    } else {
      var l := PlaceAfterTry(t, ev, r.1);
      m' := MarkEvent(m, ev, l);
      ReleaseKeeps(x, m, w, x', m', t, r.0, l);
    }
  }

  /** What the invariant says about an event that is being rejected. */
  ghost predicate Rejected(x: Session, m: Marks, w: nat, t: TurnState, h: Hand) {
    && x.slots == [t] && w in x.hands && x.hands[w] == h && h.Rejecting? && h.gen == 0
    && MarkedAs(m, h.ev, AtWorker(w)) && KindOk(x, h.ev) && h.ev.kind != DeferredCompletion
    && (t.closed ==> t.failed) && (h.stage != Marking ==> t.failed)
    && (t.active ==> h.ev.sequence != t.next)
    && (h.ev.kind == Disconnected ==> t.pending == None)
    && (t.pending.Some? ==>
          && !t.closed && t.failed && t.pending.value.kind == Disconnected
          && MarkedAs(m, t.pending.value, AtPending) && KindOk(x, t.pending.value))
  }

  lemma RejectFacts(x: Session, m: Marks, w: nat)
    requires SessionInv(x, m) && HasSlot(x) && w in x.hands && x.hands[w].Rejecting?
    ensures Rejected(x, m, w, x.slots[0], x.hands[w])
  {
    assert HandOk(x, m, w, x.hands[w]);
  }

  lemma MarkKeeps(x: Session, m: Marks, w: nat) returns (m': Marks)
    requires SessionInv(x, m) && HasSlot(x) && MoveEnabled(x, w, Mark)
    ensures SessionInv(MarkNext(x, w), m') && LinesSame(m, m')
  {
    var t, h, x' := x.slots[0], x.hands[w], MarkNext(x, w);
    RejectFacts(x, m, w);
    MarkShapes(x, m, w, t, h);
    if t.failed {
      m' := m;
      SameLines(m);
      RetainKeeps(x, m, w, x', t, Rejecting(0, h.ev, Resolving));
    } else {
      m' := FailMarks(x, m);
      FailKeeps(x, m, w, x', m', t, MarkFailed(t).0);
    }
  }

  lemma MarkShapes(x: Session, m: Marks, w: nat, t: TurnState, h: Hand)
    requires Rejected(x, m, w, t, h) && h.stage == Marking
    ensures if t.failed then Retains(x, m, w, MarkNext(x, w), t, Rejecting(0, h.ev, Resolving))
            else Fails(x, m, w, MarkNext(x, w), FailMarks(x, m), t, MarkFailed(t).0)
  {
  }

  lemma TellKeeps(x: Session, m: Marks, w: nat)
    requires SessionInv(x, m) && HasSlot(x) && MoveEnabled(x, w, Tell)
    ensures SessionInv(TellNext(x, w), m)
  {
    RejectFacts(x, m, w);
    assert Retains(x, m, w, TellNext(x, w), x.slots[0], Rejecting(0, x.hands[w].ev, Resolving));
    RetainKeeps(x, m, w, TellNext(x, w), x.slots[0], Rejecting(0, x.hands[w].ev, Resolving));
  }

  predicate FetchesPending(t: TurnState, h: Hand) {
    h.ev.kind == PacketEvent && !t.active && t.pending.Some?
  }

  lemma ResolveShapes(x: Session, m: Marks, w: nat, t: TurnState, h: Hand)
    requires Rejected(x, m, w, t, h) && h.stage == Resolving
    ensures var x' := ResolveNext(x, w);
            if h.ev.kind == Disconnected then Retains(x, m, w, x', t, Trying(0, h.ev))
            else if FetchesPending(t, h) then
              Fetches(x, m, w, x',
                      MarkIo(MarkIo(m, h.ev.sequence, Retired), t.pending.value.sequence, AtWorker(w)),
                      t, t.(pending := None))
            else Releases(x, m, w, x', MarkEvent(m, h.ev, Retired), t, t, Retired)
  {
    assert x.slots[0 := t] == [t];
  }

  lemma ResolveKeeps(x: Session, m: Marks, w: nat) returns (m': Marks)
    requires SessionInv(x, m) && HasSlot(x) && MoveEnabled(x, w, Resolve)
    ensures SessionInv(ResolveNext(x, w), m') && LinesSame(m, m')
  {
    var t, h, x' := x.slots[0], x.hands[w], ResolveNext(x, w);
    RejectFacts(x, m, w);
    ResolveShapes(x, m, w, t, h);
    if h.ev.kind == Disconnected {
      m' := m;
      SameLines(m);
      RetainKeeps(x, m, w, x', t, Trying(0, h.ev));
    } else if FetchesPending(t, h) {
      m' := MarkIo(MarkIo(m, h.ev.sequence, Retired), t.pending.value.sequence, AtWorker(w));
      FetchKeeps(x, m, w, x', m', t, t.(pending := None));
    } else {
      m' := MarkEvent(m, h.ev, Retired);
      ReleaseKeeps(x, m, w, x', m', t, t, Retired);
    }
  }
}

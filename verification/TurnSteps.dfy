/** Every step inside a turn keeps the session invariant. */
module TurnSteps {
  import opened Wrappers
  import opened SessionEvents
  import opened Turns
  import opened PoolModel
  import opened SessionInvariant
  import opened SessionSteps

  /** At most one worker is in a turn of the session. */
  lemma OnlyTurn(x: Session, m: Marks, t: TurnState, w: nat)
    requires HandInv(x, m) && TurnInv(x, m, t) && w in x.hands && x.hands[w].Turn?
    ensures forall v | v in x.hands && x.hands[v].Turn? :: v == w
  {
    assert HandOk(x, m, w, x.hands[w]);
    forall v | v in x.hands && x.hands[v].Turn? ensures v == w {
      assert HandOk(x, m, v, x.hands[v]);
    }
  }

  // ---- Steps that change only where the worker stands in its turn ----

  ghost predicate Advances(x: Session, m: Marks, w: nat, x': Session, t: TurnState) {
    && x.slots == [t] && w in x.hands && x.hands[w].Turn? && w in x'.hands && x'.hands[w].Turn?
    && x'.hands[w].ev == x.hands[w].ev && x'.hands[w].gen == x.hands[w].gen
    && x' == x.(hands := x.hands[w := x'.hands[w]], deferrals := x'.deferrals, handled := x'.handled,
                published := x'.published)
    && (forall k :: k in x'.deferrals && x'.deferrals[k].completed <==> k in x.deferrals && x.deferrals[k].completed)
  }

  lemma AdvancePlace(x: Session, m: Marks, w: nat, x': Session, t: TurnState)
    requires PlaceInv(x, m) && Advances(x, m, w, x', t)
    ensures PlaceInv(x', m)
  {
    assert HandOk(x, m, w, x.hands[w]);
    forall k | k in m.io && !(m.io[k].AtWorker? && m.io[k].w != w) ensures IoAt(x', k, m.io[k]) {
      assert IoAt(x, k, m.io[k]);
    }
    forall k | k in m.comp && !(m.comp[k].AtWorker? && m.comp[k].w != w) ensures CompAt(x', k, m.comp[k]) {
      assert CompAt(x, k, m.comp[k]);
    }
    PlaceStep(x, m, x', m, w);
  }

  lemma AdvanceStore(x: Session, m: Marks, w: nat, x': Session, t: TurnState)
    requires StoreInv(x, m, t) && OrderInv(x, m, t) && RescueInv(x, t) && Advances(x, m, w, x', t)
    ensures StoreInv(x', m, t) && OrderInv(x', m, t) && RescueInv(x', t)
  {
    StoreStep(x, m, x', m, t);
    RescueStep(x, x', w, t, t);
  }

  /** The completion objects other than the turn's own do not change. */
  ghost predicate OwnDeferral(x: Session, x': Session, k: nat) {
    && x'.deferrals.Keys - {k} == x.deferrals.Keys - {k}
    && forall j | j in x.deferrals && j != k :: j in x'.deferrals && x'.deferrals[j] == x.deferrals[j]
  }

  lemma AdvanceTurn(x: Session, m: Marks, w: nat, x': Session, t: TurnState)
    requires HandInv(x, m) && TurnInv(x, m, t) && Advances(x, m, w, x', t)
    requires PhaseOk(x', m, x'.hands[w].ev, x'.hands[w].phase)
    ensures TurnInv(x', m, t)
  {
    OnlyTurn(x, m, t, w);
    assert forall v | v in x'.hands && x'.hands[v].Turn? :: v == w;
  }

  lemma AdvanceDefer(x: Session, m: Marks, w: nat, x': Session, t: TurnState)
    requires DeferInv(x, m, t) && Advances(x, m, w, x', t) && OwnDeferral(x, x', t.next) && !t.awaiting
    requires t.next in x'.deferrals ==> DeferralOk(m, t, t.next, x'.deferrals[t.next])
    ensures DeferInv(x', m, t)
  {
    forall k | k in x'.deferrals ensures DeferralOk(m, t, k, x'.deferrals[k]) {
      if k != t.next {
        assert k in x'.deferrals.Keys - {t.next};
        assert DeferralOk(m, t, k, x.deferrals[k]);
      }
    }
  }

  /** What the step adds to the histories: the event on entering the handler, one message on publishing. */
  predicate Records(x: Session, x': Session, w: nat, t: TurnState)
    requires w in x.hands && x.hands[w].Turn? && w in x'.hands && x'.hands[w].Turn?
  {
    var ev, was, now := x.hands[w].ev, x.hands[w].phase, x'.hands[w].phase;
    && (x'.published == x.published || x'.published == x.published + [t.next])
    && if was == Admitted && now != Admitted
       then if ev.kind == Disconnected || !t.failed then x'.handled == x.handled + [ev] && ev.kind != DeferredCompletion
            else x'.handled == x.handled
       else x'.handled == x.handled && (was == Admitted <==> now == Admitted)
  }

  lemma EnteredBy(x: Session, w: nat, t: TurnState)
    requires t.active && w in x.hands && x.hands[w].Turn? && forall v | v in x.hands && x.hands[v].Turn? :: v == w
    ensures Entered(x, t) <==> t.awaiting || x.hands[w].phase != Admitted
  {
  }

  lemma RecordsHistory(x: Session, w: nat, x': Session, t: TurnState)
    requires HistoryInv(x, t) && FlagsInv(t) && w in x.hands && x.hands[w].Turn? && w in x'.hands && x'.hands[w].Turn?
    requires TurnOf(t, x.hands[w].ev) && x'.hands[w].ev == x.hands[w].ev && Records(x, x', w, t)
    requires Entered(x, t) <==> t.awaiting || x.hands[w].phase != Admitted
    requires Entered(x', t) <==> t.awaiting || x'.hands[w].phase != Admitted
    ensures HistoryInv(x', t)
  {
  }

  lemma AdvanceHistory(x: Session, m: Marks, w: nat, x': Session, t: TurnState)
    requires HandInv(x, m) && TurnInv(x, m, t) && HistoryInv(x, t) && FlagsInv(t) && Advances(x, m, w, x', t)
    requires Records(x, x', w, t)
    ensures HistoryInv(x', t)
  {
    OnlyTurn(x, m, t, w);
    assert TurnOf(t, x.hands[w].ev);
    assert forall v | v in x'.hands && x'.hands[v].Turn? :: v == w;
    EnteredBy(x, w, t);
    EnteredBy(x', w, t);
    RecordsHistory(x, w, x', t);
  }

  ghost predicate Proceeds(x: Session, m: Marks, w: nat, x': Session, t: TurnState) {
    && Advances(x, m, w, x', t) && Records(x, x', w, t)
    && PhaseOk(x', m, x'.hands[w].ev, x'.hands[w].phase)
    && if t.awaiting then x'.deferrals == x.deferrals else
         && OwnDeferral(x, x', t.next)
         && (t.next in x'.deferrals ==> DeferralOk(m, t, t.next, x'.deferrals[t.next]))
  }

  lemma AdvanceKeeps(x: Session, m: Marks, w: nat, x': Session, t: TurnState)
    requires SessionInv(x, m) && Proceeds(x, m, w, x', t)
    ensures SessionInv(x', m)
  {
    AdvancePlace(x, m, w, x', t);
    AdvanceStore(x, m, w, x', t);
    AdvanceTurn(x, m, w, x', t);
    AdvanceHistory(x, m, w, x', t);
    assert TurnOf(t, x.hands[w].ev);
    if t.awaiting {
      assert DeferInv(x', m, t);
    } else {
      AdvanceDefer(x, m, w, x', t);
    }
    assert OutputInv(x', t);
  }

  // ---- Each of them ----

  /** What the invariant says about a worker in its turn. */
  ghost predicate OnTurn(x: Session, m: Marks, w: nat, t: TurnState, ev: Event, phase: Phase) {
    && x.slots == [t] && w in x.hands && x.hands[w] == Turn(0, ev, phase)
    && TurnOf(t, ev) && PhaseOk(x, m, ev, phase) && MarkedAs(m, ev, AtWorker(w)) && !t.closed
    && (ev.kind == DeferredCompletion ==> !phase.Admitted? && !phase.Running? && !phase.Deferring?)
    && (t.next in x.deferrals ==> DeferralOk(m, t, t.next, x.deferrals[t.next]))
    && t.next in m.io
  }

  lemma OnTurnFacts(x: Session, m: Marks, w: nat)
    requires SessionInv(x, m) && HasSlot(x) && w in x.hands && x.hands[w].Turn?
    ensures OnTurn(x, m, w, x.slots[0], x.hands[w].ev, x.hands[w].phase)
  {
    assert HandOk(x, m, w, x.hands[w]);
  }

  predicate IsAdvance(x: Session, w: nat, turn: TurnStep) {
    turn.Admit? || turn.Clean? || turn.Ask? || turn.Publish? || turn.Published? || turn.Defer? || turn.Return?
    || turn.Throw? || (turn.Fail? && HasSlot(x) && x.slots[0].failed)
  }

  lemma PublishProceeds(x: Session, m: Marks, w: nat, t: TurnState, ev: Event, phase: Phase, turn: TurnStep)
    requires OnTurn(x, m, w, t, ev, phase) && TurnEnabled(x, w, turn) && (turn.Publish? || turn.Published?)
    ensures Proceeds(x, m, w, TurnNext(x, w, turn), t)
  {
  }

  lemma PlainProceeds(x: Session, m: Marks, w: nat, t: TurnState, ev: Event, phase: Phase, turn: TurnStep)
    requires OnTurn(x, m, w, t, ev, phase) && TurnEnabled(x, w, turn)
    requires turn.Clean? || turn.Ask? || (turn.Fail? && t.failed)
    ensures Proceeds(x, m, w, TurnNext(x, w, turn), t)
  {
  }

  lemma AdmitProceeds(x: Session, m: Marks, w: nat, t: TurnState, ev: Event, phase: Phase)
    requires OnTurn(x, m, w, t, ev, phase) && phase == Admitted
    ensures Proceeds(x, m, w, AdmitNext(x, w), t)
  {
  }

  lemma DeferProceeds(x: Session, m: Marks, w: nat, t: TurnState, ev: Event, phase: Phase)
    requires OnTurn(x, m, w, t, ev, phase) && TurnEnabled(x, w, Defer)
    ensures Proceeds(x, m, w, DeferNext(x, w), t)
  {
  }

  lemma ReturnProceeds(x: Session, m: Marks, w: nat, t: TurnState, ev: Event, phase: Phase, out: seq<Outbound>)
    requires OnTurn(x, m, w, t, ev, phase) && MayLeaveHandler(x, w)
    ensures Proceeds(x, m, w, ReturnNext(x, w, out), t)
  {
  }

  lemma ThrowProceeds(x: Session, m: Marks, w: nat, t: TurnState, ev: Event, phase: Phase)
    requires OnTurn(x, m, w, t, ev, phase) && MayLeaveHandler(x, w)
    ensures Proceeds(x, m, w, ThrowNext(x, w), t)
  {
  }

  lemma AdvancesKeep(x: Session, m: Marks, w: nat, turn: TurnStep)
    requires SessionInv(x, m) && HasSlot(x) && TurnEnabled(x, w, turn) && IsAdvance(x, w, turn)
    ensures SessionInv(TurnNext(x, w, turn), m)
  {
    var t, ev, phase := x.slots[0], x.hands[w].ev, x.hands[w].phase;
    OnTurnFacts(x, m, w);
    match turn {
      case Admit => AdmitProceeds(x, m, w, t, ev, phase);
      case Defer => DeferProceeds(x, m, w, t, ev, phase);
      case Return(out) => ReturnProceeds(x, m, w, t, ev, phase, out);
      case Throw => ThrowProceeds(x, m, w, t, ev, phase);
      case Publish => PublishProceeds(x, m, w, t, ev, phase, turn);
      case Published => PublishProceeds(x, m, w, t, ev, phase, turn);
      case _ => PlainProceeds(x, m, w, t, ev, phase, turn);
    }
    AdvanceKeeps(x, m, w, TurnNext(x, w, turn), t);
  }

  // ---- A session fails inside its turn ----

  lemma FailInTurnKeeps(x: Session, m: Marks, w: nat)
    requires SessionInv(x, m) && HasSlot(x) && TurnEnabled(x, w, Fail) && !x.slots[0].failed
    ensures SessionInv(FailNext(x, w), FailMarks(x, m)) && LinesSame(m, FailMarks(x, m))
  {
    var t := x.slots[0];
    OnTurnFacts(x, m, w);
    assert Fails(x, m, w, FailNext(x, w), FailMarks(x, m), t, MarkFailed(t).0);
    FailKeeps(x, m, w, FailNext(x, w), FailMarks(x, m), t, MarkFailed(t).0);
  }

  // ---- The turn is suspended ----

  function SuspendMarks(m: Marks, ev: Event, w: nat, next: Option<Event>): Marks {
    var m1 := MarkIo(m, ev.sequence, Suspended);
    if next.Some? then MarkComp(m1, ev.sequence, AtWorker(w)) else m1
  }

  ghost predicate Suspends(x: Session, m: Marks, w: nat, x': Session, m': Marks, t: TurnState, t': TurnState,
                           ev: Event, inlined: Option<Event>) {
    && OnTurn(x, m, w, t, ev, Deferring(inlined))
    && (t.early.Some? ==> t.early.value.kind == DeferredCompletion && t.early.value.sequence == t.next
                          && MarkedAs(m, t.early.value, AtEarly))
    && var next := if inlined.Some? then inlined else t.early;
    && t' == t.(awaiting := true, early := None)
    && x' == x.(slots := [t'], hands := if next.Some? then x.hands[w := Trying(0, next.value)] else x.hands - {w})
    && m' == SuspendMarks(m, ev, w, next)
    && (next.None? && ev.sequence in m.comp ==> m.comp[ev.sequence] != AtEarly && m.comp[ev.sequence] != AtObject)
    && (ev.sequence in m.comp && t.early.None? ==> m.comp[ev.sequence] != AtEarly)
  }

  lemma SuspendNextIs(x: Session, m: Marks, w: nat, t: TurnState, ev: Event, inlined: Option<Event>)
    requires OnTurn(x, m, w, t, ev, Deferring(inlined)) && TurnEnabled(x, w, Suspend)
    ensures var next := if inlined.Some? then inlined else t.early;
            SuspendNext(x, w) == x.(slots := [t.(awaiting := true, early := None)],
              hands := if next.Some? then x.hands[w := Trying(0, next.value)] else x.hands - {w})
  {
  }

  lemma EarlyFacts(x: Session, m: Marks, t: TurnState, ev: Event, inlined: Option<Event>)
    requires BackInv(x, m) && KnownInv(x, m) && StoreInv(x, m, t) && x.slots == [t] && ev.sequence == t.next
    requires DefersWith(x, m, ev, inlined)
    ensures t.early.Some? ==> t.early.value.kind == DeferredCompletion && t.early.value.sequence == t.next
                              && MarkedAs(m, t.early.value, AtEarly)
    ensures inlined.None? && t.early.None? && ev.sequence in m.comp ==>
              m.comp[ev.sequence] != AtEarly && m.comp[ev.sequence] != AtObject
    ensures ev.sequence in m.comp && t.early.None? ==> m.comp[ev.sequence] != AtEarly
  {
    if ev.sequence in m.comp {
      assert CompAt(x, ev.sequence, m.comp[ev.sequence]);
    }
  }

  lemma SuspendFacts(x: Session, m: Marks, w: nat)
    requires SessionInv(x, m) && HasSlot(x) && TurnEnabled(x, w, Suspend)
    ensures var t, ev, inlined := x.slots[0], x.hands[w].ev, x.hands[w].phase.inlined;
            Suspends(x, m, w, SuspendNext(x, w), SuspendMarks(m, ev, w, if inlined.Some? then inlined else t.early),
                     t, t.(awaiting := true, early := None), ev, inlined)
  {
    var t, ev, inlined := x.slots[0], x.hands[w].ev, x.hands[w].phase.inlined;
    OnTurnFacts(x, m, w);
    SuspendNextIs(x, m, w, t, ev, inlined);
    EarlyFacts(x, m, t, ev, inlined);
  }

  lemma SuspendBack(x: Session, m: Marks, w: nat, x': Session, m': Marks, t: TurnState, t': TurnState,
                    ev: Event, inlined: Option<Event>)
    requires BackInv(x, m) && Suspends(x, m, w, x', m', t, t', ev, inlined)
    ensures forall k | k in m'.io && !(m'.io[k].AtWorker? && m'.io[k].w != w) :: IoAt(x', k, m'.io[k])
    ensures forall k | k in m'.comp && !(m'.comp[k].AtWorker? && m'.comp[k].w != w) :: CompAt(x', k, m'.comp[k])
  {
    forall k | k in m'.io && !(m'.io[k].AtWorker? && m'.io[k].w != w) ensures IoAt(x', k, m'.io[k]) {
      assert k in m.io && IoAt(x, k, m.io[k]);
    }
    forall k | k in m'.comp && !(m'.comp[k].AtWorker? && m'.comp[k].w != w) ensures CompAt(x', k, m'.comp[k]) {
      assert k in m.comp && CompAt(x, k, m.comp[k]);
    }
  }

  lemma SuspendWorker(x: Session, m: Marks, w: nat, x': Session, m': Marks, t: TurnState, t': TurnState,
                      ev: Event, inlined: Option<Event>)
    requires Suspends(x, m, w, x', m', t, t', ev, inlined)
    ensures WorkerStep(x, m, x', m', w)
    ensures w in x'.hands ==> HandOk(x', m', w, x'.hands[w])
  {
    assert m'.io.Keys == m.io.Keys && m'.comp.Keys == m.comp.Keys;
  }

  lemma SuspendStore(x: Session, m: Marks, w: nat, x': Session, m': Marks, t: TurnState, t': TurnState,
                     ev: Event, inlined: Option<Event>)
    requires StoreInv(x, m, t) && OrderInv(x, m, t) && Suspends(x, m, w, x', m', t, t', ev, inlined)
    ensures StoreInv(x', m', t') && OrderInv(x', m', t') && RescueInv(x', t')
  {
  }

  lemma SuspendTurn(x: Session, m: Marks, w: nat, x': Session, m': Marks, t: TurnState, t': TurnState,
                    ev: Event, inlined: Option<Event>)
    requires HandInv(x, m) && TurnInv(x, m, t) && Suspends(x, m, w, x', m', t, t', ev, inlined)
    ensures TurnInv(x', m', t')
  {
    OnlyTurn(x, m, t, w);
    assert forall v | v in x'.hands :: !x'.hands[v].Turn?;
  }

  lemma SuspendDefer(x: Session, m: Marks, w: nat, x': Session, m': Marks, t: TurnState, t': TurnState,
                     ev: Event, inlined: Option<Event>)
    requires DeferInv(x, m, t) && Suspends(x, m, w, x', m', t, t', ev, inlined)
    ensures DeferInv(x', m', t')
  {
    forall k | k in x'.deferrals ensures DeferralOk(m', t', k, x'.deferrals[k]) {
      assert DeferralOk(m, t, k, x.deferrals[k]);
    }
  }

  lemma SuspendHistory(x: Session, m: Marks, w: nat, x': Session, m': Marks, t: TurnState, t': TurnState,
                       ev: Event, inlined: Option<Event>)
    requires HandInv(x, m) && TurnInv(x, m, t) && HistoryInv(x, t) && OutputInv(x, t)
    requires Suspends(x, m, w, x', m', t, t', ev, inlined)
    ensures HistoryInv(x', t') && OutputInv(x', t')
  {
    OnlyTurn(x, m, t, w);
    EnteredBy(x, w, t);
    assert Entered(x', t');
  }

  lemma SuspendPast(x: Session, m: Marks, w: nat, x': Session, m': Marks, t: TurnState, t': TurnState,
                    ev: Event, inlined: Option<Event>)
    requires HandInv(x, m) && TurnInv(x, m, t) && PastInv(x, m, t) && Suspends(x, m, w, x', m', t, t', ev, inlined)
    ensures PastInv(x', m', t')
  {
    SuspendDefer(x, m, w, x', m', t, t', ev, inlined);
    SuspendHistory(x, m, w, x', m', t, t', ev, inlined);
  }

  lemma SuspendKeeps(x: Session, m: Marks, w: nat) returns (m': Marks)
    requires SessionInv(x, m) && HasSlot(x) && TurnEnabled(x, w, Suspend)
    ensures SessionInv(SuspendNext(x, w), m') && LinesSame(m, m')
  {
    var t, ev, inlined, x' := x.slots[0], x.hands[w].ev, x.hands[w].phase.inlined, SuspendNext(x, w);
    m' := SuspendMarks(m, ev, w, if inlined.Some? then inlined else t.early);
    var t' := t.(awaiting := true, early := None);
    SuspendFacts(x, m, w);
    SuspendWorker(x, m, w, x', m', t, t', ev, inlined);
    WorkerLines(x, m, x', m', w);
    SuspendBack(x, m, w, x', m', t, t', ev, inlined);
    PlaceStep(x, m, x', m', w);
    SuspendStore(x, m, w, x', m', t, t', ev, inlined);
    SuspendTurn(x, m, w, x', m', t, t', ev, inlined);
    SuspendPast(x, m, w, x', m', t, t', ev, inlined);
  }

  // ---- The turn is completed ----

  function CompleteMarks(m: Marks, k: nat, ev: Event, w: nat, next: Option<Event>): Marks {
    var m1 := MarkIo(if ev.kind == DeferredCompletion then MarkComp(m, k, Retired) else m, k, Retired);
    if next.Some? then MarkIo(m1, next.value.sequence, AtWorker(w)) else m1
  }

  /** What the next event of the session, if any, is known to be. */
  predicate NextOk(x: Session, m: Marks, t: TurnState, next: Option<Event>) {
    && t.early == None && (!t.failed ==> t.pending == None)
    && (next.Some? && !t.failed ==> next.value.sequence == t.next + 1)
    && (next.Some? ==>
          && next.value.kind != DeferredCompletion && KindOk(x, next.value) && next.value.sequence in m.io
          && m.io[next.value.sequence] == if t.failed then AtPending else AtParked)
  }

  ghost predicate Completes(x: Session, m: Marks, w: nat, x': Session, m': Marks, t: TurnState, t': TurnState,
                            ev: Event, next: Option<Event>) {
    && OnTurn(x, m, w, t, ev, Completing)
    && (t', next) == CompleteTurn(t)
    && x' == x.(slots := [t'], current := if t.activeDisconnect then None else x.current,
                hands := if next.Some? then x.hands[w := Trying(0, next.value)] else x.hands - {w})
    && m' == CompleteMarks(m, t.next, ev, w, next)
    && (m.io[t.next] == AtWorker(w) || m.io[t.next] == Suspended)
    && NextOk(x, m, t, next)
  }

  lemma CompleteNextIs(x: Session, m: Marks, w: nat, t: TurnState, ev: Event)
    requires OnTurn(x, m, w, t, ev, Completing)
    ensures var r := CompleteTurn(t);
            CompleteNext(x, w) == x.(slots := [r.0], current := if t.activeDisconnect then None else x.current,
              hands := if r.1.Some? then x.hands[w := Trying(0, r.1.value)] else x.hands - {w})
  {
  }

  lemma NextFacts(x: Session, m: Marks, t: TurnState)
    requires StoreInv(x, m, t) && t.active && (t.early.Some? ==> t.early.value.sequence !in m.comp)
    ensures NextOk(x, m, t, CompleteTurn(t).1)
  {
  }

  lemma NoneEarly(x: Session, m: Marks, w: nat)
    requires SessionInv(x, m) && HasSlot(x) && TurnEnabled(x, w, Complete)
    ensures x.slots[0].early == None
    ensures x.slots[0].next in m.io && (m.io[x.slots[0].next] == AtWorker(w) || m.io[x.slots[0].next] == Suspended)
  {
    OnTurnFacts(x, m, w);
  }

  lemma CompleteFacts(x: Session, m: Marks, w: nat)
    requires SessionInv(x, m) && HasSlot(x) && TurnEnabled(x, w, Complete)
    ensures var t, ev := x.slots[0], x.hands[w].ev;
            var r := CompleteTurn(t);
            Completes(x, m, w, CompleteNext(x, w), CompleteMarks(m, t.next, ev, w, r.1), t, r.0, ev, r.1)
  {
    OnTurnFacts(x, m, w);
    NoneEarly(x, m, w);
    NextFacts(x, m, x.slots[0]);
    CompleteNextIs(x, m, w, x.slots[0], x.hands[w].ev);
  }

  lemma CompleteBack(x: Session, m: Marks, w: nat, x': Session, m': Marks, t: TurnState, t': TurnState,
                     ev: Event, next: Option<Event>)
    requires BackInv(x, m) && Completes(x, m, w, x', m', t, t', ev, next)
    ensures forall k | k in m'.io && !(m'.io[k].AtWorker? && m'.io[k].w != w) :: IoAt(x', k, m'.io[k])
    ensures forall k | k in m'.comp && !(m'.comp[k].AtWorker? && m'.comp[k].w != w) :: CompAt(x', k, m'.comp[k])
  {
    forall k | k in m'.io && !(m'.io[k].AtWorker? && m'.io[k].w != w) ensures IoAt(x', k, m'.io[k]) {
      assert k in m.io && IoAt(x, k, m.io[k]);
    }
    forall k | k in m'.comp && !(m'.comp[k].AtWorker? && m'.comp[k].w != w) ensures CompAt(x', k, m'.comp[k]) {
      assert k in m.comp && CompAt(x, k, m.comp[k]);
    }
  }

  lemma CompleteHand(x: Session, m: Marks, w: nat, x': Session, m': Marks, t: TurnState, t': TurnState,
                     ev: Event, next: Option<Event>)
    requires Completes(x, m, w, x', m', t, t', ev, next)
    ensures w in x'.hands ==> HandOk(x', m', w, x'.hands[w])
  {
  }

  lemma CompleteShifts(x: Session, m: Marks, w: nat, x': Session, m': Marks, t: TurnState, t': TurnState,
                       ev: Event, next: Option<Event>)
    requires Completes(x, m, w, x', m', t, t', ev, next)
    ensures m'.io.Keys == m.io.Keys && m'.comp.Keys == m.comp.Keys
    ensures forall k | k in m.io && m'.io[k] != m.io[k] :: Shifts(w, m.io[k], m'.io[k])
    ensures forall k | k in m.comp && m'.comp[k] != m.comp[k] :: Shifts(w, m.comp[k], m'.comp[k])
  {
    assert m'.io.Keys == m.io.Keys && m'.comp.Keys == m.comp.Keys;
  }

  lemma CompleteWorker(x: Session, m: Marks, w: nat, x': Session, m': Marks, t: TurnState, t': TurnState,
                       ev: Event, next: Option<Event>)
    requires Completes(x, m, w, x', m', t, t', ev, next)
    ensures WorkerStep(x, m, x', m', w)
    ensures w in x'.hands ==> HandOk(x', m', w, x'.hands[w])
  {
    CompleteHand(x, m, w, x', m', t, t', ev, next);
    CompleteShifts(x, m, w, x', m', t, t', ev, next);
  }

  lemma CompleteStore(x: Session, m: Marks, w: nat, x': Session, m': Marks, t: TurnState, t': TurnState,
                      ev: Event, next: Option<Event>)
    requires StoreInv(x, m, t) && Completes(x, m, w, x', m', t, t', ev, next)
    ensures StoreInv(x', m', t') && RescueInv(x', t')
  {
  }

  lemma CompleteOrder(x: Session, m: Marks, w: nat, x': Session, m': Marks, t: TurnState, t': TurnState,
                      ev: Event, next: Option<Event>)
    requires OrderInv(x, m, t) && Completes(x, m, w, x', m', t, t', ev, next)
    ensures OrderInv(x', m', t')
  {
  }

  lemma CompleteTurns(x: Session, m: Marks, w: nat, x': Session, m': Marks, t: TurnState, t': TurnState,
                      ev: Event, next: Option<Event>)
    requires HandInv(x, m) && TurnInv(x, m, t) && Completes(x, m, w, x', m', t, t', ev, next)
    ensures TurnInv(x', m', t') && Entered(x, t) && !Entered(x', t')
  {
    OnlyTurn(x, m, t, w);
    assert forall v | v in x'.hands :: !x'.hands[v].Turn?;
  }

  lemma CompleteDefer(x: Session, m: Marks, w: nat, x': Session, m': Marks, t: TurnState, t': TurnState,
                      ev: Event, next: Option<Event>)
    requires KnownInv(x, m) && DeferInv(x, m, t) && FlagsInv(t) && Completes(x, m, w, x', m', t, t', ev, next)
    ensures DeferInv(x', m', t')
  {
    forall k | k in x'.deferrals ensures DeferralOk(m', t', k, x'.deferrals[k]) {
      assert DeferralOk(m, t, k, x.deferrals[k]);
    }
  }

  lemma CompleteHistory(x: Session, m: Marks, w: nat, x': Session, m': Marks, t: TurnState, t': TurnState,
                        ev: Event, next: Option<Event>)
    requires HistoryInv(x, t) && OutputInv(x, t) && FlagsInv(t) && Completes(x, m, w, x', m', t, t', ev, next)
    requires Entered(x, t) && !Entered(x', t')
    ensures HistoryInv(x', t') && OutputInv(x', t')
  {
  }

  lemma CompleteKeeps(x: Session, m: Marks, w: nat) returns (m': Marks)
    requires SessionInv(x, m) && HasSlot(x) && TurnEnabled(x, w, Complete)
    ensures SessionInv(CompleteNext(x, w), m') && LinesSame(m, m')
  {
    var t, ev, x' := x.slots[0], x.hands[w].ev, CompleteNext(x, w);
    var r := CompleteTurn(t);
    m' := CompleteMarks(m, t.next, ev, w, r.1);
    CompleteFacts(x, m, w);
    CompleteWorker(x, m, w, x', m', t, r.0, ev, r.1);
    WorkerLines(x, m, x', m', w);
    CompleteBack(x, m, w, x', m', t, r.0, ev, r.1);
    PlaceStep(x, m, x', m', w);
    CompleteStore(x, m, w, x', m', t, r.0, ev, r.1);
    CompleteOrder(x, m, w, x', m', t, r.0, ev, r.1);
    CompleteTurns(x, m, w, x', m', t, r.0, ev, r.1);
    CompleteDefer(x, m, w, x', m', t, r.0, ev, r.1);
    CompleteHistory(x, m, w, x', m', t, r.0, ev, r.1);
  }
}

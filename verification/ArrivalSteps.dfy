/** Arrivals keep the session invariant: events from the I/O thread, intake, and completions. */
module ArrivalSteps {
  import opened Wrappers
  import opened SessionEvents
  import opened Turns
  import opened PoolModel
  import opened SessionInvariant
  import opened SessionSteps

  // ---- The I/O thread hands over an event ----

  ghost predicate Arrives(x: Session, m: Marks, x': Session, m': Marks, ev: Event, ticket: nat) {
    && Produces(x, ev) && x' == ProduceNext(x, ev) && m' == MarkIo(m, ev.sequence, AtLine(ticket))
    && (forall k | k in m.io && m.io[k].AtLine? :: m.io[k].ticket < ticket)
    && ev.sequence !in m.io
  }

  lemma ArriveKnown(x: Session, m: Marks, x': Session, m': Marks, ev: Event, ticket: nat)
    requires KnownInv(x, m) && FifoInv(m) && TableInv(x, m) && Arrives(x, m, x', m', ev, ticket)
    ensures KnownInv(x', m') && FifoInv(m') && TableInv(x', m')
  {
  }

  lemma ArriveHand(x: Session, m: Marks, x': Session, m': Marks, ev: Event, ticket: nat)
    requires KnownInv(x, m) && HandInv(x, m) && PushInv(x, m) && Arrives(x, m, x', m', ev, ticket)
    ensures HandInv(x', m') && PushInv(x', m')
  {
    forall w | w in x'.hands ensures HandOk(x', m', w, x'.hands[w]) {
      assert HandOk(x, m, w, x.hands[w]);
    }
  }

  lemma ArriveBack(x: Session, m: Marks, x': Session, m': Marks, ev: Event, ticket: nat)
    requires BackInv(x, m) && Arrives(x, m, x', m', ev, ticket)
    ensures BackInv(x', m')
  {
    forall k | k in m'.io ensures IoAt(x', k, m'.io[k]) {
      if k != ev.sequence {
        assert IoAt(x, k, m.io[k]);
      }
    }
    forall k | k in m'.comp ensures CompAt(x', k, m'.comp[k]) {
      assert CompAt(x, k, m.comp[k]);
    }
  }

  lemma ArriveSlot(x: Session, m: Marks, x': Session, m': Marks, ev: Event, ticket: nat, t: TurnState)
    requires KnownInv(x, m) && SlotInv(x, m, t) && Arrives(x, m, x', m', ev, ticket)
    ensures SlotInv(x', m', t)
  {
    forall w | w in x'.hands && x'.hands[w].Turn? ensures PhaseOk(x', m', x'.hands[w].ev, x'.hands[w].phase) {
      assert PhaseOk(x, m, x.hands[w].ev, x.hands[w].phase);
    }
  }

  lemma ArrivePast(x: Session, m: Marks, x': Session, m': Marks, ev: Event, ticket: nat, t: TurnState)
    requires PastInv(x, m, t) && Arrives(x, m, x', m', ev, ticket)
    ensures PastInv(x', m', t)
  {
    forall k | k in x'.deferrals ensures DeferralOk(m', t, k, x'.deferrals[k]) {
      assert DeferralOk(m, t, k, x.deferrals[k]);
    }
    assert Entered(x', t) <==> Entered(x, t);
  }

  lemma ArriveKeeps(x: Session, m: Marks, ev: Event, ticket: nat)
    requires SessionInv(x, m) && Produces(x, ev)
    requires forall k | k in m.io && m.io[k].AtLine? :: m.io[k].ticket < ticket
    ensures SessionInv(ProduceNext(x, ev), MarkIo(m, ev.sequence, AtLine(ticket)))
  {
    var x', m' := ProduceNext(x, ev), MarkIo(m, ev.sequence, AtLine(ticket));
    assert Arrives(x, m, x', m', ev, ticket);
    ArriveKnown(x, m, x', m', ev, ticket);
    ArriveHand(x, m, x', m', ev, ticket);
    ArriveBack(x, m, x', m', ev, ticket);
    if HasSlot(x) {
      ArriveSlot(x, m, x', m', ev, ticket, x.slots[0]);
      ArrivePast(x, m, x', m', ev, ticket, x.slots[0]);
    }
  }

  // ---- A worker takes the event at the head of the line ----

  /** The event finds the session's only state object, or is its first event. */
  lemma IntakeFindsOne(x: Session, m: Marks, ev: Event, base: nat)
    requires SessionInv(x, m) && MarkedAs(m, ev, AtLine(base)) && KindOk(x, ev)
    ensures x.current == Some(0) || x.slots == []
    ensures x.slots == [] ==> ev.kind != DeferredCompletion
  {
    if HasSlot(x) && ev.kind == DeferredCompletion {
      assert DeferralOk(m, x.slots[0], ev.sequence, x.deferrals[ev.sequence]);
    }
  }

  ghost predicate Intakes(x: Session, m: Marks, w: nat, x': Session, m': Marks, ev: Event, base: nat) {
    && MarkedAs(m, ev, AtLine(base)) && KindOk(x, ev) && w !in x.hands
    && (forall k | k in m.io && m.io[k].AtLine? :: m.io[k].ticket >= base)
    && (x.current == Some(0) || (x.slots == [] && x.current == None && ev.kind != DeferredCompletion))
    && x' == AcquireNext(x, w, ev) && m' == MarkEvent(m, ev, AtWorker(w))
  }

  lemma IntakeKnown(x: Session, m: Marks, w: nat, x': Session, m': Marks, ev: Event, base: nat)
    requires KnownInv(x, m) && FifoInv(m) && TableInv(x, m) && Intakes(x, m, w, x', m', ev, base)
    ensures KnownInv(x', m') && FifoInv(m') && TableInv(x', m')
  {
    assert m'.io.Keys == m.io.Keys && m'.comp.Keys == m.comp.Keys;
    assert forall k: nat :: k in m'.io <==> k in m.io.Keys;
    assert forall k: nat :: k in m'.comp <==> k in m.comp.Keys;
    if ev.kind != DeferredCompletion {
      forall j | j in m.io && j < ev.sequence ensures !m.io[j].AtLine? {
        assert m.io[ev.sequence] == AtLine(base);
      }
    }
  }

  lemma IntakeHand(x: Session, m: Marks, w: nat, x': Session, m': Marks, ev: Event, base: nat)
    requires TableInv(x, m) && HandInv(x, m) && Intakes(x, m, w, x', m', ev, base)
    ensures HandInv(x', m')
  {
    forall v | v in x'.hands ensures HasSlot(x') && HandOk(x', m', v, x'.hands[v]) {
      if v != w {
        assert HandOk(x, m, v, x.hands[v]);
      }
    }
  }

  lemma IntakePush(x: Session, m: Marks, w: nat, x': Session, m': Marks, ev: Event, base: nat)
    requires PushInv(x, m) && Intakes(x, m, w, x', m', ev, base)
    ensures PushInv(x', m')
  {
  }

  lemma IntakeIoAt(x: Session, m: Marks, w: nat, x': Session, m': Marks, ev: Event, base: nat, k: nat)
    requires TableInv(x, m) && Intakes(x, m, w, x', m', ev, base) && k in m.io && IoAt(x, k, m.io[k])
    ensures k in m'.io && IoAt(x', k, m'.io[k])
  {
  }

  lemma IntakeCompAt(x: Session, m: Marks, w: nat, x': Session, m': Marks, ev: Event, base: nat, k: nat)
    requires TableInv(x, m) && Intakes(x, m, w, x', m', ev, base) && k in m.comp && CompAt(x, k, m.comp[k])
    ensures k in m'.comp && CompAt(x', k, m'.comp[k])
  {
  }

  lemma IntakeBack(x: Session, m: Marks, w: nat, x': Session, m': Marks, ev: Event, base: nat)
    requires TableInv(x, m) && BackInv(x, m) && Intakes(x, m, w, x', m', ev, base)
    ensures BackInv(x', m')
  {
    forall k | k in m'.io ensures IoAt(x', k, m'.io[k]) {
      IntakeIoAt(x, m, w, x', m', ev, base, k);
    }
    forall k | k in m'.comp ensures CompAt(x', k, m'.comp[k]) {
      IntakeCompAt(x, m, w, x', m', ev, base, k);
    }
  }

  lemma IntakeStore(x: Session, m: Marks, w: nat, x': Session, m': Marks, ev: Event, base: nat, t: TurnState)
    requires StoreInv(x, m, t) && x.slots == [t] && x.current == Some(0) && Intakes(x, m, w, x', m', ev, base)
    ensures StoreInv(x', m', t)
  {
    StoreStep(x, m, x', m', t);
  }

  lemma IntakeOrder(x: Session, m: Marks, w: nat, x': Session, m': Marks, ev: Event, base: nat, t: TurnState)
    requires OrderInv(x, m, t) && x.slots == [t] && x.current == Some(0) && Intakes(x, m, w, x', m', ev, base)
    ensures OrderInv(x', m', t)
  {
  }

  lemma IntakeTurn(x: Session, m: Marks, w: nat, x': Session, m': Marks, ev: Event, base: nat, t: TurnState)
    requires TurnInv(x, m, t) && RescueInv(x, t) && x.slots == [t] && x.current == Some(0)
    requires Intakes(x, m, w, x', m', ev, base)
    ensures TurnInv(x', m', t) && RescueInv(x', t)
  {
    assert forall v | v in x'.hands && x'.hands[v].Turn? :: v in x.hands && x'.hands[v] == x.hands[v];
    forall v | v in x'.hands && x'.hands[v].Turn? ensures PhaseOk(x', m', x'.hands[v].ev, x'.hands[v].phase) {
      assert PhaseOk(x, m, x.hands[v].ev, x.hands[v].phase);
    }
    if t.pending.Some? && !t.active {
      var v :| v in x.hands && Rescues(x.hands[v]);
      assert v in x'.hands && Rescues(x'.hands[v]);
    }
  }

  lemma IntakePast(x: Session, m: Marks, w: nat, x': Session, m': Marks, ev: Event, base: nat, t: TurnState)
    requires PastInv(x, m, t) && x.slots == [t] && x.current == Some(0) && Intakes(x, m, w, x', m', ev, base)
    ensures PastInv(x', m', t)
  {
    forall k | k in x'.deferrals ensures DeferralOk(m', t, k, x'.deferrals[k]) {
      assert DeferralOk(m, t, k, x.deferrals[k]);
    }
    assert forall v | v in x.hands :: v in x'.hands && x'.hands[v] == x.hands[v];
    assert Entered(x', t) <==> Entered(x, t);
  }

  lemma IntakeFresh(x: Session, m: Marks, w: nat, x': Session, m': Marks, ev: Event, base: nat)
    requires KnownInv(x, m) && TableInv(x, m) && x.slots == [] && Intakes(x, m, w, x', m', ev, base)
    ensures x'.slots == [FRESH] && SlotInv(x', m', FRESH) && PastInv(x', m', FRESH)
  {
  }

  lemma IntakePlace(x: Session, m: Marks, w: nat, x': Session, m': Marks, ev: Event, base: nat)
    requires PlaceInv(x, m) && Intakes(x, m, w, x', m', ev, base)
    ensures PlaceInv(x', m')
  {
    IntakeKnown(x, m, w, x', m', ev, base);
    IntakeHand(x, m, w, x', m', ev, base);
    IntakePush(x, m, w, x', m', ev, base);
    IntakeBack(x, m, w, x', m', ev, base);
  }

  lemma IntakeSlot(x: Session, m: Marks, w: nat, x': Session, m': Marks, ev: Event, base: nat, t: TurnState)
    requires SlotInv(x, m, t) && PastInv(x, m, t) && x.slots == [t] && x.current == Some(0)
    requires Intakes(x, m, w, x', m', ev, base)
    ensures SlotInv(x', m', t) && PastInv(x', m', t)
  {
    IntakeStore(x, m, w, x', m', ev, base, t);
    IntakeOrder(x, m, w, x', m', ev, base, t);
    IntakeTurn(x, m, w, x', m', ev, base, t);
    IntakePast(x, m, w, x', m', ev, base, t);
  }

  lemma IntakeKeeps(x: Session, m: Marks, w: nat, ev: Event, base: nat)
    requires SessionInv(x, m) && MarkedAs(m, ev, AtLine(base)) && KindOk(x, ev) && w !in x.hands
    requires forall k | k in m.io && m.io[k].AtLine? :: m.io[k].ticket >= base
    ensures SessionInv(AcquireNext(x, w, ev), MarkEvent(m, ev, AtWorker(w)))
  {
    var x', m' := AcquireNext(x, w, ev), MarkEvent(m, ev, AtWorker(w));
    IntakeFindsOne(x, m, ev, base);
    assert Intakes(x, m, w, x', m', ev, base);
    IntakePlace(x, m, w, x', m', ev, base);
    if x.slots == [] {
      IntakeFresh(x, m, w, x', m', ev, base);
    } else {
      IntakeSlot(x, m, w, x', m', ev, base, x.slots[0]);
    }
  }

  // ---- A completion object is completed ----

  ghost predicate Fulfills(x: Session, m: Marks, x': Session, m': Marks, ev: Event, t: TurnState) {
    && x.slots == [t] && ev.kind == DeferredCompletion && ev.sequence in x.deferrals
    && !x.deferrals[ev.sequence].completed && ev.sequence !in m.comp
    && x' == CompleteObjectNext(x, ev)
    && m' == MarkComp(m, ev.sequence, if x.deferrals[ev.sequence].returned then AtPusher else AtObject)
  }

  lemma FulfillKnown(x: Session, m: Marks, x': Session, m': Marks, ev: Event, t: TurnState)
    requires KnownInv(x, m) && FifoInv(m) && TableInv(x, m) && Fulfills(x, m, x', m', ev, t)
    ensures KnownInv(x', m') && FifoInv(m') && TableInv(x', m')
  {
  }

  lemma FulfillPush(x: Session, m: Marks, x': Session, m': Marks, ev: Event, t: TurnState)
    requires PushInv(x, m) && Fulfills(x, m, x', m', ev, t)
    ensures PushInv(x', m')
  {
  }

  lemma FulfillHand(x: Session, m: Marks, x': Session, m': Marks, ev: Event, t: TurnState)
    requires HandInv(x, m) && Fulfills(x, m, x', m', ev, t)
    ensures HandInv(x', m')
  {
    forall w | w in x'.hands ensures HandOk(x', m', w, x'.hands[w]) {
      assert HandOk(x, m, w, x.hands[w]);
    }
  }

  lemma FulfillBack(x: Session, m: Marks, x': Session, m': Marks, ev: Event, t: TurnState)
    requires BackInv(x, m) && Fulfills(x, m, x', m', ev, t)
    ensures BackInv(x', m')
  {
    forall k | k in m'.io ensures IoAt(x', k, m'.io[k]) {
      assert IoAt(x, k, m.io[k]);
    }
    forall k | k in m'.comp ensures CompAt(x', k, m'.comp[k]) {
      if k != ev.sequence {
        assert CompAt(x, k, m.comp[k]);
      }
    }
  }

  lemma FulfillSlot(x: Session, m: Marks, x': Session, m': Marks, ev: Event, t: TurnState)
    requires SlotInv(x, m, t) && Fulfills(x, m, x', m', ev, t)
    requires DeferralOk(m, t, ev.sequence, x.deferrals[ev.sequence])
    ensures SlotInv(x', m', t)
  {
    forall w | w in x'.hands && x'.hands[w].Turn? ensures PhaseOk(x', m', x'.hands[w].ev, x'.hands[w].phase) {
      assert PhaseOk(x, m, x.hands[w].ev, x.hands[w].phase);
    }
  }

  lemma FulfillPast(x: Session, m: Marks, x': Session, m': Marks, ev: Event, t: TurnState)
    requires PastInv(x, m, t) && Fulfills(x, m, x', m', ev, t)
    ensures PastInv(x', m', t)
  {
    forall k | k in x'.deferrals ensures DeferralOk(m', t, k, x'.deferrals[k]) {
      assert DeferralOk(m, t, k, x.deferrals[k]);
    }
    assert Entered(x', t) <==> Entered(x, t);
  }

  lemma FulfillKeeps(x: Session, m: Marks, ev: Event) returns (m': Marks)
    requires SessionInv(x, m) && ev.kind == DeferredCompletion && ev.sequence in x.deferrals
    ensures SessionInv(CompleteObjectNext(x, ev), m')
    ensures LinesSame(m, m')
  {
    var x', d := CompleteObjectNext(x, ev), x.deferrals[ev.sequence];
    if d.completed {
      m' := m;
    } else {
      m' := MarkComp(m, ev.sequence, if d.returned then AtPusher else AtObject);
      assert DeferralOk(m, x.slots[0], ev.sequence, d);
      assert Fulfills(x, m, x', m', ev, x.slots[0]);
      FulfillKnown(x, m, x', m', ev, x.slots[0]);
      FulfillHand(x, m, x', m', ev, x.slots[0]);
      FulfillPush(x, m, x', m', ev, x.slots[0]);
      FulfillBack(x, m, x', m', ev, x.slots[0]);
      FulfillSlot(x, m, x', m', ev, x.slots[0]);
      FulfillPast(x, m, x', m', ev, x.slots[0]);
    }
  }

  // ---- A completion enters the inbox, or finds it closed ----

  ghost predicate Pushes(x: Session, m: Marks, x': Session, m': Marks, k: nat, l: Loc, t: TurnState) {
    && x.slots == [t] && k in x.pushing && k in m.comp && m.comp[k] == AtPusher && (l.AtLine? || l == Lost)
    && x' == x.(pushing := x.pushing - {k}) && m' == MarkComp(m, k, l)
  }

  lemma PushKnown(x: Session, m: Marks, x': Session, m': Marks, k: nat, l: Loc, t: TurnState)
    requires KnownInv(x, m) && FifoInv(m) && TableInv(x, m) && PushInv(x, m) && Pushes(x, m, x', m', k, l, t)
    ensures KnownInv(x', m') && FifoInv(m') && TableInv(x', m') && PushInv(x', m')
  {
    assert m'.comp.Keys == m.comp.Keys;
    assert forall j: nat :: j in m'.comp <==> j in m.comp.Keys;
  }

  lemma PushHand(x: Session, m: Marks, x': Session, m': Marks, k: nat, l: Loc, t: TurnState)
    requires HandInv(x, m) && Pushes(x, m, x', m', k, l, t)
    ensures HandInv(x', m')
  {
    forall w | w in x'.hands ensures HandOk(x', m', w, x'.hands[w]) {
      assert HandOk(x, m, w, x.hands[w]);
    }
  }

  lemma PushBack(x: Session, m: Marks, x': Session, m': Marks, k: nat, l: Loc, t: TurnState)
    requires BackInv(x, m) && Pushes(x, m, x', m', k, l, t)
    ensures BackInv(x', m')
  {
    forall j | j in m'.io ensures IoAt(x', j, m'.io[j]) {
      assert IoAt(x, j, m.io[j]);
    }
    forall j | j in m'.comp ensures CompAt(x', j, m'.comp[j]) {
      assert CompAt(x, j, m.comp[j]);
    }
  }

  lemma PushPlace(x: Session, m: Marks, x': Session, m': Marks, k: nat, l: Loc, t: TurnState)
    requires PlaceInv(x, m) && Pushes(x, m, x', m', k, l, t)
    ensures PlaceInv(x', m')
  {
    PushKnown(x, m, x', m', k, l, t);
    PushHand(x, m, x', m', k, l, t);
    PushBack(x, m, x', m', k, l, t);
  }

  lemma PushSlot(x: Session, m: Marks, x': Session, m': Marks, k: nat, l: Loc, t: TurnState)
    requires SlotInv(x, m, t) && Pushes(x, m, x', m', k, l, t)
    ensures SlotInv(x', m', t)
  {
    forall w | w in x'.hands && x'.hands[w].Turn? ensures PhaseOk(x', m', x'.hands[w].ev, x'.hands[w].phase) {
      assert PhaseOk(x, m, x.hands[w].ev, x.hands[w].phase);
    }
  }

  lemma PushPast(x: Session, m: Marks, x': Session, m': Marks, k: nat, l: Loc, t: TurnState)
    requires PastInv(x, m, t) && Pushes(x, m, x', m', k, l, t)
    ensures PastInv(x', m', t)
  {
    forall j | j in x'.deferrals ensures DeferralOk(m', t, j, x'.deferrals[j]) {
      assert DeferralOk(m, t, j, x.deferrals[j]);
    }
    assert Entered(x', t) <==> Entered(x, t);
  }

  lemma PushKeeps(x: Session, m: Marks, k: nat, l: Loc)
    requires SessionInv(x, m) && k in x.pushing && (l.AtLine? || l == Lost)
    ensures SessionInv(x.(pushing := x.pushing - {k}), MarkComp(m, k, l))
    ensures x.pushing[k].kind == DeferredCompletion && x.pushing[k].sequence == k && k in m.comp && m.comp[k] == AtPusher
  {
    var x', m' := x.(pushing := x.pushing - {k}), MarkComp(m, k, l);
    assert HasSlot(x);
    assert Pushes(x, m, x', m', k, l, x.slots[0]);
    PushPlace(x, m, x', m', k, l, x.slots[0]);
    PushSlot(x, m, x', m', k, l, x.slots[0]);
    PushPast(x, m, x', m', k, l, x.slots[0]);
  }
}

/** What one session of the worker pool satisfies in every reachable state. Marks, kept beside the
    session, say for each of its events where it is: one mark per event makes every event be in
    exactly one place. */
module SessionInvariant {
  import opened Wrappers
  import opened SessionEvents
  import opened Turns
  import opened PoolModel

  datatype Loc =
    | AtLine(ticket: nat)    // in the inbox or just popped, in the order of arrival
    | AtWorker(w: nat)       // in a worker's hand
    | AtParked
    | AtEarly
    | AtPending
    | AtObject               // stored inline in its completion object
    | AtPusher               // about to enter the inbox
    | Lost                   // refused by a closed inbox
    | Suspended              // its turn waits for a completion
    | Retired

  /** `io` marks the events of the I/O thread, `comp` the completions, both by number. */
  datatype Marks = Marks(io: map<nat, Loc>, comp: map<nat, Loc>)

  /** An I/O event is a `Disconnected` exactly when it is the last one of an ended session. */
  predicate KindOk(x: Session, ev: Event) {
    ev.kind != DeferredCompletion ==> (ev.kind == Disconnected <==> x.ended && ev.sequence + 1 == x.produced)
  }

  predicate MarkedAs(m: Marks, ev: Event, l: Loc) {
    if ev.kind == DeferredCompletion then ev.sequence in m.comp && m.comp[ev.sequence] == l
    else ev.sequence in m.io && m.io[ev.sequence] == l
  }

  /** The same events stand in the line, under the same tickets. */
  ghost predicate LinesSame(m: Marks, m': Marks) {
    && (forall k | k in m.io && m.io[k].AtLine? :: k in m'.io && m'.io[k] == m.io[k])
    && (forall k | k in m'.io && m'.io[k].AtLine? :: k in m.io && m.io[k] == m'.io[k])
    && (forall k | k in m.comp && m.comp[k].AtLine? :: k in m'.comp && m'.comp[k] == m.comp[k])
    && (forall k | k in m'.comp && m'.comp[k].AtLine? :: k in m.comp && m.comp[k] == m'.comp[k])
  }

  predicate HasSlot(x: Session) {
    |x.slots| == 1
  }

  // ---- Where events are ----

  /** Which events exist. */
  ghost predicate KnownInv(x: Session, m: Marks) {
    && (forall k: nat :: k in m.io <==> k < x.produced)
    && (forall k: nat :: k in m.comp <==> k in x.deferrals && x.deferrals[k].completed)
    && (x.ended ==> x.produced > 0)
  }

  /** Events leave the line in the order of their numbers. */
  ghost predicate FifoInv(m: Marks) {
    forall j, k | j in m.io && k in m.io && j < k && m.io[j].AtLine? ::
      m.io[k].AtLine? && m.io[j].ticket < m.io[k].ticket
  }

  /** One state object for the session, in the table until it is closed. */
  ghost predicate TableInv(x: Session, m: Marks) {
    && |x.slots| <= 1
    && (x.current.Some? <==> HasSlot(x) && !x.slots[0].closed)
    && (x.current.Some? ==> x.current.value == 0)
    && (x.slots == [] ==>
          && (forall k | k in m.io :: m.io[k].AtLine?)
          && x.deferrals == map[] && x.hands == map[] && x.handled == [] && x.published == [])
  }

  predicate HandOk(x: Session, m: Marks, w: nat, h: Hand) {
    && h.gen == 0
    && MarkedAs(m, h.ev, AtWorker(w)) && KindOk(x, h.ev)
    && (h.Rejecting? ==> h.ev.kind != DeferredCompletion)
    && (h.Rejecting? && h.stage != Marking ==> HasSlot(x) && x.slots[0].failed)
  }

  ghost predicate HandInv(x: Session, m: Marks) {
    forall w | w in x.hands :: HasSlot(x) && HandOk(x, m, w, x.hands[w])
  }

  predicate InHand(x: Session, w: nat, k: nat, completion: bool) {
    w in x.hands && x.hands[w].ev.sequence == k && (x.hands[w].ev.kind == DeferredCompletion <==> completion)
  }

  /** The place really holds I/O event `k`. */
  predicate IoAt(x: Session, k: nat, l: Loc) {
    match l
    case AtLine(_) => true
    case AtWorker(w) => InHand(x, w, k, false)
    case AtParked => HasSlot(x) && k in x.slots[0].parked
    case AtPending => HasSlot(x) && x.slots[0].pending.Some? && x.slots[0].pending.value.sequence == k
    case Suspended => HasSlot(x) && x.slots[0].awaiting && x.slots[0].next == k
    case Retired => true
    case _ => false
  }

  predicate CompAt(x: Session, k: nat, l: Loc) {
    match l
    case AtWorker(w) => InHand(x, w, k, true)
    case AtEarly => HasSlot(x) && x.slots[0].early.Some? && x.slots[0].early.value.sequence == k
    case AtParked => false
    case AtPending => false
    case Suspended => false
    case _ => true
  }

  /** The marks name no place that does not hold the event. */
  ghost predicate BackInv(x: Session, m: Marks) {
    && (forall k | k in m.io :: IoAt(x, k, m.io[k]))
    && (forall k | k in m.comp :: CompAt(x, k, m.comp[k]))
  }

  ghost predicate PushInv(x: Session, m: Marks) {
    forall k | k in x.pushing ::
      x.pushing[k].kind == DeferredCompletion && x.pushing[k].sequence == k && MarkedAs(m, x.pushing[k], AtPusher)
  }

  ghost predicate PlaceInv(x: Session, m: Marks) {
    // The body has a name so that the verifier proves and uses the predicate whole, not split into its parts.
    var sound := KnownInv(x, m) && FifoInv(m) && TableInv(x, m) && HandInv(x, m) && BackInv(x, m) && PushInv(x, m);
    sound
  }

  // ---- The state object ----

  predicate FlagsInv(t: TurnState) {
    && (t.awaiting ==> t.active)
    && (t.closed ==> !t.active && t.activeDisconnect)
    && (t.activeDisconnect ==> t.active || t.closed)
    && (t.activeDisconnect ==> t.early == None && !t.awaiting && t.parked == map[] && t.pending == None)
    && (t.failed ==> t.parked == map[])
    && (t.early.Some? ==> t.active && !t.awaiting)
    && (t.pending.Some? ==> t.failed)
  }

  /** What the state object stores. */
  ghost predicate StoreInv(x: Session, m: Marks, t: TurnState) {
    && FlagsInv(t)
    && (forall k | k in t.parked ::
          && t.parked[k].sequence == k && t.parked[k].kind != DeferredCompletion && KindOk(x, t.parked[k])
          && k > t.next && k in m.io && m.io[k] == AtParked)
    && (t.early.Some? ==>
          && t.early.value.kind == DeferredCompletion && t.early.value.sequence == t.next
          && MarkedAs(m, t.early.value, AtEarly))
    && (t.pending.Some? ==>
          t.pending.value.kind == Disconnected && KindOk(x, t.pending.value) && MarkedAs(m, t.pending.value, AtPending))
  }

  /** Numbers below the current one are done, those above are not. */
  ghost predicate OrderInv(x: Session, m: Marks, t: TurnState) {
    && (!t.failed ==> forall k: nat | k in m.io :: m.io[k] == Retired <==> k < t.next)
    && (!t.closed ==> t.next <= x.produced && (x.ended ==> t.next < x.produced))
    && (t.active ==> t.next < x.produced && (t.activeDisconnect <==> x.ended && t.next + 1 == x.produced))
    && (t.closed ==> x.ended)
    && (x.ended && x.produced > 0 ==>
          x.produced - 1 in m.io && (m.io[x.produced - 1] == Retired <==> t.closed))
  }

  predicate TurnOf(t: TurnState, ev: Event) {
    && t.active && ev.sequence == t.next
    && (ev.kind == DeferredCompletion <==> t.awaiting)
    && (ev.kind == Disconnected <==> t.activeDisconnect)
  }

  /** The handler has returned after deferring; `inlined` is the completion it already has, if any. */
  ghost predicate DefersWith(x: Session, m: Marks, ev: Event, inlined: Option<Event>) {
    var k := ev.sequence;
    && ev.kind == PacketEvent
    && k in x.deferrals && x.deferrals[k].returned
    && (inlined.Some? ==>
          inlined.value.kind == DeferredCompletion && inlined.value.sequence == k && x.deferrals[k].completed)
    && (x.deferrals[k].completed ==>
          k in m.comp && m.comp[k] != Retired && (inlined.Some? <==> m.comp[k] == AtObject))
  }

  ghost predicate PhaseOk(x: Session, m: Marks, ev: Event, phase: Phase) {
    var k := ev.sequence;
    match phase
    case Admitted => ev.kind != DeferredCompletion && k !in x.deferrals
    case Running(deferred, _) =>
      && ev.kind != DeferredCompletion
      && (deferred <==> k in x.deferrals)
      && (deferred ==> !x.deferrals[k].returned && !x.deferrals[k].abandoned && ev.kind == PacketEvent)
    case Publishing(_, ThenDefer(inlined)) => DefersWith(x, m, ev, inlined)
    case Deferring(inlined) => DefersWith(x, m, ev, inlined)
    case _ => ev.kind == DeferredCompletion || (k in x.deferrals ==> x.deferrals[k].abandoned)
  }

  /** The active turn belongs to one worker, or waits for one completion. */
  ghost predicate TurnInv(x: Session, m: Marks, t: TurnState) {
    && (forall w | w in x.hands && x.hands[w].Turn? ::
          TurnOf(t, x.hands[w].ev) && PhaseOk(x, m, x.hands[w].ev, x.hands[w].phase))
    && (t.active ==>
          && t.next in m.io
          && if t.awaiting then m.io[t.next] == Suspended
             else m.io[t.next].AtWorker? && m.io[t.next].w in x.hands && x.hands[m.io[t.next].w].Turn?)
  }

  /** A worker that will fetch the kept disconnect. */
  predicate Rescues(h: Hand) {
    h.Rejecting? && h.ev.kind == PacketEvent && h.stage != Marking
  }

  /** A kept disconnect is never left without someone who will take it up. */
  ghost predicate RescueInv(x: Session, t: TurnState) {
    t.pending.Some? && !t.active ==> exists w :: w in x.hands && Rescues(x.hands[w])
  }

  ghost predicate SlotInv(x: Session, m: Marks, t: TurnState) {
    var sound := StoreInv(x, m, t) && OrderInv(x, m, t) && TurnInv(x, m, t) && RescueInv(x, t);
    sound
  }

  // ---- Completion objects and histories ----

  ghost predicate DeferralOk(m: Marks, t: TurnState, k: nat, d: Deferral) {
    && (k < t.next || (k == t.next && t.active))
    && (d.returned ==> !d.abandoned && d.inlined == None)
    && (!d.completed ==> d.inlined == None)
    && (d.completed ==> k in m.comp)
    && (d.completed && !d.returned ==>
          && m.comp[k] == AtObject && d.inlined.Some?
          && d.inlined.value.kind == DeferredCompletion && d.inlined.value.sequence == k)
    && (!d.abandoned && (!d.completed || m.comp[k] != Retired) ==> t.active && t.next == k && !t.activeDisconnect)
  }

  /** An open completion object belongs to the active turn. */
  ghost predicate DeferInv(x: Session, m: Marks, t: TurnState) {
    && (forall k | k in x.deferrals :: DeferralOk(m, t, k, x.deferrals[k]))
    && (t.awaiting ==>
          && t.next in x.deferrals && x.deferrals[t.next].returned
          && (x.deferrals[t.next].completed ==>
                && t.next in m.comp && m.comp[t.next] != AtObject
                && m.comp[t.next] != Retired && m.comp[t.next] != AtEarly))
  }

  /** The handler has been entered for the active turn. */
  ghost predicate Entered(x: Session, t: TurnState) {
    t.active && (t.awaiting || forall w | w in x.hands && x.hands[w].Turn? :: x.hands[w].phase != Admitted)
  }

  /** Packets 0, 1, 2, ... in order, then at most the disconnect. */
  ghost predicate InOrder(events: seq<Event>) {
    forall i | 0 <= i < |events| ::
      || (events[i].kind == PacketEvent && events[i].sequence == i)
      || (events[i].kind == Disconnected && i == |events| - 1)
  }

  ghost predicate HistoryInv(x: Session, t: TurnState) {
    && InOrder(x.handled)
    && (!t.failed ==> |x.handled| == t.next + if Entered(x, t) then 1 else 0)
    && (x.handled != [] && x.handled[|x.handled| - 1].kind == Disconnected <==>
          t.activeDisconnect && (t.closed || Entered(x, t)))
  }

  /** Handler output is published turn by turn. */
  ghost predicate OutputInv(x: Session, t: TurnState) {
    && (forall i | 0 <= i < |x.published| ::
          x.published[i] <= t.next && (x.published[i] == t.next ==> t.active))
    && (forall i, j | 0 <= i < j < |x.published| :: x.published[i] <= x.published[j])
  }

  ghost predicate PastInv(x: Session, m: Marks, t: TurnState) {
    var sound := DeferInv(x, m, t) && HistoryInv(x, t) && OutputInv(x, t);
    sound
  }

  ghost predicate SessionInv(x: Session, m: Marks) {
    var sound := PlaceInv(x, m) && (HasSlot(x) ==> SlotInv(x, m, x.slots[0]) && PastInv(x, m, x.slots[0]));
    sound
  }
}

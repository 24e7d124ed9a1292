/** What every run of the worker pool guarantees, for any number of workers and sessions. */
module PoolTheorems {
  import opened Wrappers
  import opened SessionEvents
  import opened Turns
  import opened PoolModel
  import opened SessionInvariant
  import opened SessionSteps
  import opened PoolInvariant
  import opened PoolSteps

  /** A run of a pool with some configuration ends in `st`. */
  ghost predicate Reachable(st: Pool) {
    exists limit: nat, capacity: nat, n: nat, actions :: Reaches(Init(limit, capacity, n), actions, st)
  }

  lemma InvOf(st: Pool, s: nat) returns (lg: Ledger)
    requires Reachable(st)
    ensures Inv(st, lg) && Seated(st.workers, lg.log, lg.base, s, Of(st, s), MarksOf(lg, s))
  {
    var limit: nat, capacity: nat, n: nat, actions :| Reaches(Init(limit, capacity, n), actions, st);
    lg := ReachableInv(limit, capacity, n, actions, st);
    SessionOf(st, lg, s);
  }

  // ---- Serial, ordered turns ----

  /** At most one turn of a session is under way: in one worker's hand or suspended, never both. */
  lemma SerialTurns(st: Pool, s: nat, v: nat, w: nat)
    requires Reachable(st)
    requires v in Of(st, s).hands && Of(st, s).hands[v].Turn? && w in Of(st, s).hands && Of(st, s).hands[w].Turn?
    ensures v == w && HasSlot(Of(st, s)) && Of(st, s).slots[0].active
    ensures Of(st, s).slots[0].awaiting <==> Of(st, s).hands[w].ev.kind == DeferredCompletion
  {
    var lg := InvOf(st, s);
    var x, m := Of(st, s), MarksOf(lg, s);
    var t := x.slots[0];
    assert TurnOf(t, x.hands[v].ev) && TurnOf(t, x.hands[w].ev);
    assert HandOk(x, m, v, x.hands[v]) && HandOk(x, m, w, x.hands[w]);
  }

  /** Handler calls are packets 0, 1, 2, ... and then at most the disconnect; output leaves turn by turn. */
  lemma HandledInOrder(st: Pool, s: nat)
    requires Reachable(st)
    ensures InOrder(Of(st, s).handled)
    ensures forall i, j | 0 <= i < j < |Of(st, s).published| :: Of(st, s).published[i] <= Of(st, s).published[j]
  {
    var lg := InvOf(st, s);
  }

  lemma OneStateObject(st: Pool, s: nat)
    requires Reachable(st)
    ensures |Of(st, s).slots| <= 1
    ensures |Of(st, s).slots| == 1 ==> (Of(st, s).current == None <==> Of(st, s).slots[0].closed)
  {
    var lg := InvOf(st, s);
  }

  /** No event, and no completion, is ever out of sequence; no turn fails to suspend. */
  lemma NeverInvalid(st: Pool, w: nat, limit: nat)
    requires Reachable(st) && IsBusy(st, w) && MoveEnabled(Of(st, st.workers[w].session), w, Try(0))
    ensures var x := Of(st, st.workers[w].session);
            TryStart(SlotOf(x, w), x.hands[w].ev, limit).1 != InvalidSequence
  {
    var s := st.workers[w].session;
    var lg := InvOf(st, s);
    var x, m := Of(st, s), MarksOf(lg, s);
    TryFacts(x, m, w);
    TryShapes(x, m, w, x.slots[0], x.hands[w].ev, 0, limit);
  }

  lemma NeverCrashes(st: Pool, w: nat)
    requires Reachable(st)
    ensures !st.crashed && !Enabled(st, Crash(w))
  {
    var lg := InvOf(st, 0);
    if IsBusy(st, w) {
      NoCrash(st, lg, w);
    }
  }

  // ---- Disconnects are neither lost nor duplicated ----

  datatype Place = InLine(i: nat) | Held(w: nat) | Parking(k: nat) | Kept | Done

  /** The place holds the `Disconnected` of session `s`; `Held` includes its active turn. */
  ghost predicate Holds(st: Pool, s: nat, p: Place) {
    var x := Of(st, s);
    match p
    case InLine(i) => i < |Line(st)| && Line(st)[i].session == s && Line(st)[i].kind == Disconnected
    case Held(w) => w in x.hands && x.hands[w].ev.kind == Disconnected
    case Parking(k) => HasSlot(x) && k in x.slots[0].parked && x.slots[0].parked[k].kind == Disconnected
    case Kept => HasSlot(x) && x.slots[0].pending.Some?
    case Done => HasSlot(x) && x.slots[0].closed
  }

  function PlaceAt(base: nat, k: nat, l: Loc): Place {
    match l
    case AtLine(ticket) => if ticket >= base then InLine(ticket - base) else Done
    case AtWorker(w) => Held(w)
    case AtParked => Parking(k)
    case AtPending => Kept
    case _ => Done
  }

  /** The last event of an ended session is marked `l`. */
  ghost predicate LastIs(x: Session, m: Marks, l: Loc) {
    x.produced > 0 && x.produced - 1 in m.io && m.io[x.produced - 1] == l
  }

  lemma LineHolds(log: seq<Event>, base: nat, s: nat, x: Session, m: Marks, i: nat)
    requires LineOf(log, base, s, x, m) && base <= i < |log| && log[i].session == s && log[i].kind == Disconnected
    ensures LastIs(x, m, AtLine(i))
  {
    assert MarkedAs(m, log[i], AtLine(i)) && KindOk(x, log[i]);
  }

  lemma HandHolds(x: Session, m: Marks, w: nat)
    requires HandInv(x, m) && w in x.hands && x.hands[w].ev.kind == Disconnected
    ensures LastIs(x, m, AtWorker(w))
  {
    assert HandOk(x, m, w, x.hands[w]);
  }

  lemma StoreHolds(x: Session, m: Marks, t: TurnState)
    requires StoreInv(x, m, t)
    ensures forall k | k in t.parked && t.parked[k].kind == Disconnected :: k + 1 == x.produced && LastIs(x, m, AtParked)
    ensures t.pending.Some? ==> LastIs(x, m, AtPending)
  {
  }

  lemma ClosedHolds(x: Session, m: Marks, t: TurnState)
    requires OrderInv(x, m, t) && KnownInv(x, m) && t.closed
    ensures LastIs(x, m, Retired)
  {
  }

  /** Only the place its mark names can hold the disconnect. */
  lemma HoldsOnlyThere(st: Pool, lg: Ledger, s: nat, p: Place)
    requires Seated(st.workers, lg.log, lg.base, s, Of(st, s), MarksOf(lg, s))
    requires lg.base <= |lg.log| && Line(st) == lg.log[lg.base..] && Holds(st, s, p)
    ensures var k := Of(st, s).produced - 1;
            k in MarksOf(lg, s).io && p == PlaceAt(lg.base, k, MarksOf(lg, s).io[k])
  {
    var x, m := Of(st, s), MarksOf(lg, s);
    match p {
      case InLine(i) =>
        assert lg.log[lg.base + i] == Line(st)[i];
        LineHolds(lg.log, lg.base, s, x, m, lg.base + i);
      case Held(w) => HandHolds(x, m, w);
      case Parking(k) => StoreHolds(x, m, x.slots[0]);
      case Kept => StoreHolds(x, m, x.slots[0]);
      case Done => ClosedHolds(x, m, x.slots[0]);
    }
  }

  lemma InLineThere(st: Pool, lg: Ledger, s: nat, k: nat, ticket: nat)
    requires Standing(lg.log, lg.base, ticket, s, k, false) && lg.base <= |lg.log| && Line(st) == lg.log[lg.base..]
    requires LineOf(lg.log, lg.base, s, Of(st, s), MarksOf(lg, s)) && Of(st, s).ended && k + 1 == Of(st, s).produced
    ensures Holds(st, s, InLine(ticket - lg.base))
  {
    assert Line(st)[ticket - lg.base] == lg.log[ticket];
    assert KindOk(Of(st, s), lg.log[ticket]);
  }

  lemma InSessionThere(st: Pool, s: nat, m: Marks, k: nat, l: Loc)
    requires SessionInv(Of(st, s), m) && Of(st, s).ended && k + 1 == Of(st, s).produced
    requires k in m.io && m.io[k] == l && !l.AtLine?
    ensures Holds(st, s, PlaceAt(0, k, l))
  {
    var x := Of(st, s);
    assert IoAt(x, k, l);
    if l.AtWorker? {
      assert HandOk(x, m, l.w, x.hands[l.w]);
    }
  }

  lemma HoldsThere(st: Pool, lg: Ledger, s: nat)
    requires Inv(st, lg) && Of(st, s).ended
    ensures var k := Of(st, s).produced - 1;
            k in MarksOf(lg, s).io && Holds(st, s, PlaceAt(lg.base, k, MarksOf(lg, s).io[k]))
  {
    SessionOf(st, lg, s);
    var x, m := Of(st, s), MarksOf(lg, s);
    var k := x.produced - 1;
    assert k in m.io;
    if m.io[k].AtLine? {
      assert Standing(lg.log, lg.base, m.io[k].ticket, s, k, false);
      InLineThere(st, lg, s, k, m.io[k].ticket);
    } else {
      InSessionThere(st, s, m, k, m.io[k]);
    }
  }

  lemma DisconnectConserved(st: Pool, s: nat) returns (p: Place)
    requires Reachable(st) && Of(st, s).ended
    ensures Holds(st, s, p) && forall q | Holds(st, s, q) :: q == p
  {
    var lg := InvOf(st, s);
    var k := Of(st, s).produced - 1;
    HoldsThere(st, lg, s);
    p := PlaceAt(lg.base, k, MarksOf(lg, s).io[k]);
    forall q | Holds(st, s, q) ensures q == p {
      HoldsOnlyThere(st, lg, s, q);
    }
  }

  /** Done means that the handler has been given the disconnect, last and once. */
  lemma DoneIsHandledOnce(st: Pool, s: nat, i: nat)
    requires Reachable(st) && HasSlot(Of(st, s)) && i < |Of(st, s).handled|
    ensures Of(st, s).handled[i].kind == Disconnected ==> i == |Of(st, s).handled| - 1
    ensures Of(st, s).slots[0].closed ==> Of(st, s).handled[|Of(st, s).handled| - 1].kind == Disconnected
  {
    var lg := InvOf(st, s);
  }

  /** A kept disconnect always has someone who will take it up: the active turn or a rejecting worker. */
  lemma KeptIsRescued(st: Pool, s: nat)
    requires Reachable(st) && HasSlot(Of(st, s)) && Of(st, s).slots[0].pending.Some?
    ensures Of(st, s).slots[0].failed
    ensures Of(st, s).slots[0].active || exists w :: w in Of(st, s).hands && Rescues(Of(st, s).hands[w])
  {
    var lg := InvOf(st, s);
  }

  // ---- Deferred completions ----

  /** The counter that holds back the drain is the number of suspended turns. */
  lemma OutstandingIsAwaiting(st: Pool)
    requires Reachable(st)
    ensures st.outstanding == |Awaiting(st.sessions)|
  {
    var lg := InvOf(st, 0);
  }

  datatype CompletionPlace = Stored | Pushing | Queued(i: nat) | InHands(w: nat) | Early

  /** The place holds the completion of turn `k` of session `s`. */
  ghost predicate HoldsCompletion(st: Pool, s: nat, k: nat, p: CompletionPlace) {
    var x := Of(st, s);
    match p
    case Stored => k in x.deferrals && !x.deferrals[k].returned && x.deferrals[k].inlined.Some?
    case Pushing => k in x.pushing
    case Queued(i) => i < |Line(st)| && Line(st)[i].session == s && Line(st)[i].sequence == k
                      && Line(st)[i].kind == DeferredCompletion
    case InHands(w) => InHand(x, w, k, true)
    case Early => HasSlot(x) && x.slots[0].early.Some? && x.slots[0].early.value.sequence == k
  }

  function CompletionAt(base: nat, l: Loc): CompletionPlace {
    match l
    case AtLine(ticket) => if ticket >= base then Queued(ticket - base) else Stored
    case AtWorker(w) => InHands(w)
    case AtPusher => Pushing
    case AtEarly => Early
    case _ => Stored
  }

  lemma CompletionOnlyThere(st: Pool, lg: Ledger, s: nat, k: nat, p: CompletionPlace)
    requires Inv(st, lg) && HoldsCompletion(st, s, k, p)
    ensures k in Of(st, s).deferrals && Of(st, s).deferrals[k].completed
    ensures k in MarksOf(lg, s).comp && p == CompletionAt(lg.base, MarksOf(lg, s).comp[k])
    ensures MarksOf(lg, s).comp[k] != Retired
  {
    SessionOf(st, lg, s);
    var x, m := Of(st, s), MarksOf(lg, s);
    match p {
      case Stored => assert DeferralOk(m, x.slots[0], k, x.deferrals[k]);
      case Queued(i) => assert lg.log[lg.base + i] == Line(st)[i];
      case InHands(w) => assert HandOk(x, m, w, x.hands[w]);
      case _ =>
    }
  }

  /** A deferral is completed at most once: its completion is never in two places, and while it is
      somewhere its turn is the active one of the session. */
  lemma CompletedOnce(st: Pool, s: nat, k: nat, p: CompletionPlace, q: CompletionPlace)
    requires Reachable(st) && HoldsCompletion(st, s, k, p) && HoldsCompletion(st, s, k, q)
    ensures p == q && k in Of(st, s).deferrals && Of(st, s).deferrals[k].completed
    ensures !Of(st, s).deferrals[k].abandoned ==>
              HasSlot(Of(st, s)) && Of(st, s).slots[0].active && Of(st, s).slots[0].next == k
  {
    var lg := InvOf(st, s);
    CompletionOnlyThere(st, lg, s, k, p);
    CompletionOnlyThere(st, lg, s, k, q);
    var x, m := Of(st, s), MarksOf(lg, s);
    assert HasSlot(x);
    assert DeferralOk(m, x.slots[0], k, x.deferrals[k]);
  }
}

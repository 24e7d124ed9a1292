/** The invariant of the whole pool: every session's own, its share of the line of events that
    connects the sessions, and the shared counters. Every step of every run keeps it. */
module PoolInvariant {
  import opened Wrappers
  import opened SessionEvents
  import opened Turns
  import opened PoolModel
  import opened SessionInvariant
  import opened Counting

  /** The marks of every session and every event that ever entered the inbox; the first `base` of them
      have been taken in. */
  datatype Ledger = Ledger(of: map<nat, Marks>, log: seq<Event>, base: nat)

  const UNMARKED := Marks(map[], map[])

  function MarksOf(lg: Ledger, s: nat): Marks {
    if s in lg.of then lg.of[s] else UNMARKED
  }

  /** Events between the I/O thread and the workers: the one being taken in, then the inbox. */
  function Line(st: Pool): seq<Event> {
    if st.intake.Some? then [st.intake.value] + st.inbox else st.inbox
  }

  /** The events of session `s` in the line are marked as being there. */
  ghost predicate LineOf(log: seq<Event>, base: nat, s: nat, x: Session, m: Marks) {
    forall i {:trigger log[i]} | base <= i < |log| && log[i].session == s ::
      MarkedAs(m, log[i], AtLine(i)) && KindOk(x, log[i])
  }

  predicate Standing(log: seq<Event>, base: nat, i: nat, s: nat, k: nat, completion: bool) {
    base <= i < |log| && log[i].session == s && log[i].sequence == k
    && (log[i].kind == DeferredCompletion <==> completion)
  }

  /** Every event marked as being in the line is there, under its ticket. */
  ghost predicate TicketsOf(log: seq<Event>, base: nat, s: nat, m: Marks) {
    && (forall k | k in m.io && m.io[k].AtLine? :: Standing(log, base, m.io[k].ticket, s, k, false))
    && (forall k | k in m.comp && m.comp[k].AtLine? :: Standing(log, base, m.comp[k].ticket, s, k, true))
  }

  /** A worker busy with a session is busy with that one only. */
  ghost predicate DesksOf(workers: seq<Desk>, s: nat, x: Session) {
    forall w | w in x.hands :: w < |workers| && workers[w] == Busy(s)
  }

  ghost predicate PushesOf(s: nat, x: Session) {
    forall k | k in x.pushing :: x.pushing[k].session == s
  }

  ghost predicate Apart(workers: seq<Desk>, log: seq<Event>, base: nat, s: nat, x: Session, m: Marks) {
    // The body has a name so that the verifier proves and uses the predicate whole, not split into its parts.
    var sound := LineOf(log, base, s, x, m) && TicketsOf(log, base, s, m) && DesksOf(workers, s, x) && PushesOf(s, x);
    sound
  }

  ghost predicate Seated(workers: seq<Desk>, log: seq<Event>, base: nat, s: nat, x: Session, m: Marks) {
    var sound := SessionInv(x, m) && Apart(workers, log, base, s, x, m);
    sound
  }

  predicate Awaits(x: Session) {
    HasSlot(x) && x.slots[0].awaiting
  }

  ghost function Awaiting(sessions: map<nat, Session>): set<nat> {
    set s | s in sessions && Awaits(sessions[s])
  }

  ghost predicate Inv(st: Pool, lg: Ledger) {
    && (forall s: nat :: Seated(st.workers, lg.log, lg.base, s, Of(st, s), MarksOf(lg, s)))
    && lg.base <= |lg.log| && Line(st) == lg.log[lg.base..]
    && st.outstanding == |Awaiting(st.sessions)|
    && !st.crashed
  }

  lemma InitInv(limit: nat, capacity: nat, n: nat)
    ensures Inv(Init(limit, capacity, n), Ledger(map[], [], 0))
  {
  }

  // ---- Changing one session ----

  function Remark(lg: Ledger, s: nat, m: Marks): Ledger {
    lg.(of := lg.of[s := m])
  }

  lemma AwaitingChanges(sessions: map<nat, Session>, s: nat, x: Session)
    ensures |Awaiting(sessions[s := x])|
         == |Awaiting(sessions)| + (if Awaits(x) then 1 else 0)
            - (if s in sessions && Awaits(sessions[s]) then 1 else 0)
  {
    OneApart(Awaiting(sessions), Awaiting(sessions[s := x]), s);
  }

  lemma OneSessionKeeps(st: Pool, lg: Ledger, st': Pool, log: seq<Event>, base: nat, s: nat, x: Session, m: Marks)
    requires Inv(st, lg) && st'.sessions == st.sessions[s := x] && !st'.crashed
    requires base <= |log| && Line(st') == log[base..]
    requires forall q: nat | q != s :: Apart(st'.workers, log, base, q, Of(st, q), MarksOf(lg, q))
    requires Seated(st'.workers, log, base, s, x, m)
    requires st'.outstanding == st.outstanding + (if Awaits(x) then 1 else 0) - (if Awaits(Of(st, s)) then 1 else 0)
    ensures Inv(st', Ledger(lg.of[s := m], log, base))
  {
    var lg' := Ledger(lg.of[s := m], log, base);
    forall q: nat ensures Seated(st'.workers, log, base, q, Of(st', q), MarksOf(lg', q)) {
      if q != s {
        assert Of(st', q) == Of(st, q) && MarksOf(lg', q) == MarksOf(lg, q);
        assert Seated(st.workers, lg.log, lg.base, q, Of(st, q), MarksOf(lg, q));
      }
    }
    AwaitingChanges(st.sessions, s, x);
  }

  // ---- Steps that leave the line as it is ----

  /** Worker `w` alone moves, at session `s`. */
  ghost predicate DesksStep(workers: seq<Desk>, workers': seq<Desk>, s: nat, w: nat, x: Session, x': Session) {
    && |workers'| == |workers|
    && (forall v: nat | v < |workers| && v != w :: workers'[v] == workers[v])
    && (w < |workers| ==> workers'[w] == workers[w] || workers[w] == Busy(s))
    && (forall v | v in x'.hands :: if v == w then w < |workers| && workers'[w] == Busy(s) else v in x.hands)
  }

  lemma DesksKept(workers: seq<Desk>, workers': seq<Desk>, s: nat, w: nat, x: Session, x': Session, q: nat, y: Session)
    requires DesksStep(workers, workers', s, w, x, x')
    requires q != s && DesksOf(workers, q, y)
    ensures DesksOf(workers', q, y)
  {
  }

  lemma LinesKept(log: seq<Event>, base: nat, s: nat, x: Session, m: Marks, x': Session, m': Marks)
    requires LineOf(log, base, s, x, m) && TicketsOf(log, base, s, m)
    requires LinesSame(m, m') && x'.produced == x.produced && x'.ended == x.ended
    ensures LineOf(log, base, s, x', m') && TicketsOf(log, base, s, m')
  {
  }

  lemma LocalKeeps(st: Pool, lg: Ledger, st': Pool, s: nat, w: nat, m: Marks)
    requires Inv(st, lg) && !st'.crashed
    requires st'.sessions == st.sessions[s := Of(st', s)] && st'.inbox == st.inbox && st'.intake == st.intake
    requires DesksStep(st.workers, st'.workers, s, w, Of(st, s), Of(st', s))
    requires SessionInv(Of(st', s), m) && LinesSame(MarksOf(lg, s), m)
    requires Of(st', s).produced == Of(st, s).produced && Of(st', s).ended == Of(st, s).ended && PushesOf(s, Of(st', s))
    requires st'.outstanding
          == st.outstanding + (if Awaits(Of(st', s)) then 1 else 0) - (if Awaits(Of(st, s)) then 1 else 0)
    ensures Inv(st', Remark(lg, s, m))
  {
    var x, x' := Of(st, s), Of(st', s);
    assert Seated(st.workers, lg.log, lg.base, s, x, MarksOf(lg, s));
    LinesKept(lg.log, lg.base, s, x, MarksOf(lg, s), x', m);
    forall q: nat | q != s ensures Apart(st'.workers, lg.log, lg.base, q, Of(st, q), MarksOf(lg, q)) {
      assert Seated(st.workers, lg.log, lg.base, q, Of(st, q), MarksOf(lg, q));
      DesksKept(st.workers, st'.workers, s, w, x, x', q, Of(st, q));
    }
    OneSessionKeeps(st, lg, st', lg.log, lg.base, s, x', m);
  }
}

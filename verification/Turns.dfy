/** The per-session turn state of the worker pool and its critical sections, as functions on values. */
module Turns {
  import opened Wrappers
  import opened SessionEvents

  datatype TurnState = TurnState(
    next: nat,
    active: bool,
    activeDisconnect: bool,
    awaiting: bool,
    failed: bool,
    closed: bool,
    parked: map<nat, Event>,
    early: Option<Event>,
    pending: Option<Event>)

  const FRESH := TurnState(0, false, false, false, false, false, map[], None, None)

  datatype Disposition = Process | Parked | Discarded | InvalidSequence | ParkedLimit

  /** Decides what a worker does with the event in its hand. */
  function TryStart(t: TurnState, ev: Event, limit: nat): (TurnState, Disposition) {
    if t.closed then (t, Discarded)
    else if ev.kind == DeferredCompletion then
      if t.active && t.awaiting && t.next == ev.sequence then (t, Process)
      else if t.active && !t.awaiting && t.next == ev.sequence && t.early == None then
        (t.(early := Some(ev)), Parked)
      else (t, InvalidSequence)
    else if t.failed then
      if ev.kind != Disconnected then (t, Discarded)
      else if t.active then (t.(pending := Some(ev)), Parked)
      else (t.(next := ev.sequence, active := true, activeDisconnect := true), Process)
    else if !t.active && t.next == ev.sequence then
      (t.(active := true, activeDisconnect := ev.kind == Disconnected), Process)
    else if ev.sequence < t.next || ev.sequence in t.parked then (t, InvalidSequence)
    else if |t.parked| >= limit then (t, ParkedLimit)
    else (t.(parked := t.parked[ev.sequence := ev]), Parked)
  }

  /** The parked `Disconnected` with the least number: the one an ordered traversal meets first. */
  ghost predicate IsFirstDisconnected(parked: map<nat, Event>, k: nat) {
    && k in parked && parked[k].kind == Disconnected
    && forall j | j in parked && parked[j].kind == Disconnected :: k <= j
  }

  ghost function Rescued(t: TurnState): Option<Event> {
    if exists k :: IsFirstDisconnected(t.parked, k) then
      var k :| IsFirstDisconnected(t.parked, k); Some(t.parked[k])
    else t.pending
  }

  ghost function MarkFailed(t: TurnState): (TurnState, bool) {
    if t.failed || t.closed then (t, false)
    else (t.(failed := true, pending := Rescued(t), parked := map[]), true)
  }

  /** `Err` stands for the `std::logic_error` that would end the worker. */
  function MarkDeferred(t: TurnState, ev: Event): Result<(TurnState, Option<Event>), ()> {
    if !t.active || t.next != ev.sequence then Err(())
    else Ok((t.(awaiting := true, early := None), t.early))
  }

  function CompleteTurn(t: TurnState): (TurnState, Option<Event>) {
    var u := t.(active := false, awaiting := false, next := t.next + 1);
    if u.activeDisconnect then (u.(closed := true), None)
    else if u.failed then (u.(pending := None), u.pending)
    else if u.next in u.parked then (u.(parked := u.parked - {u.next}), Some(u.parked[u.next]))
    else (u, None)
  }

  function TakePending(t: TurnState): (TurnState, Option<Event>) {
    if t.active || t.closed then (t, None) else (t.(pending := None), t.pending)
  }

  predicate Quiet(t: TurnState) {
    !t.active && t.parked == map[] && t.early == None && t.pending == None
  }

  /** The test under which a draining pool closes its inbox. */
  ghost predicate DrainReady(drain: bool, deferred: nat, inbox: seq<Event>, table: map<nat, TurnState>) {
    drain && deferred == 0 && inbox == [] && forall s | s in table :: Quiet(table[s])
  }
}

/** The worker pool's shared objects. Each method is one section guarded by `sequence_mutex_`, and is
    proved equal to the function on values that the run model steps through. */
module WorkerPool {
  import opened Wrappers
  import opened SessionEvents
  import opened Turns

  class SessionSequenceState {
    var nextSequence: nat
    var active: bool
    var activeDisconnect: bool
    var awaitingCompletion: bool
    var failed: bool
    var closed: bool
    var parked: map<nat, Event>
    var earlyCompletion: Option<Event>
    var pendingDisconnected: Option<Event>

    ghost function Value(): TurnState
      reads this
    {
      TurnState(nextSequence, active, activeDisconnect, awaitingCompletion, failed, closed,
                parked, earlyCompletion, pendingDisconnected)
    }

    constructor ()
      ensures Value() == FRESH
    {
      nextSequence := 0;
      active, activeDisconnect, awaitingCompletion, failed, closed := false, false, false, false, false;
      parked, earlyCompletion, pendingDisconnected := map[], None, None;
    }
  }

  ghost predicate IsLeast(keys: set<nat>, k: nat) {
    k in keys && forall j | j in keys :: k <= j
  }

  method Least(keys: set<nat>) returns (k: nat)
    requires keys != {}
    ensures IsLeast(keys, k)
  {
    k :| k in keys;
    var rest := keys - {k};
    while rest != {}
      invariant k in keys && rest <= keys
      invariant forall j | j in keys && j !in rest :: k <= j
      decreases rest
    {
      var j :| j in rest;
      rest := rest - {j};
      if j < k {
        k := j;
      }
    }
  }

  class Pool {
    const maxParkedEventsPerSession: nat
    var inbox: seq<Event>
    var inboxClosed: bool
    var sequenceBySession: map<nat, SessionSequenceState>
    var outstandingDeferred: nat
    var drainRequested: bool

    ghost function Table(): map<nat, TurnState>
      reads this, sequenceBySession.Values
    {
      map s | s in sequenceBySession :: sequenceBySession[s].Value()
    }

    ghost predicate Ready()
      reads this, sequenceBySession.Values
    {
      DrainReady(drainRequested, outstandingDeferred, inbox, Table())
    }

    constructor (limit: nat)
      ensures maxParkedEventsPerSession == limit
      ensures inbox == [] && !inboxClosed && sequenceBySession == map[]
      ensures outstandingDeferred == 0 && !drainRequested
    {
      maxParkedEventsPerSession := limit;
      inbox, inboxClosed, sequenceBySession := [], false, map[];
      outstandingDeferred, drainRequested := 0, false;
    }

    /** The second half of intake: find or create the state of the popped event's session. */
    method AcquireState(event: Event) returns (state: SessionSequenceState)
      modifies this`sequenceBySession
      ensures event.session in sequenceBySession && state == sequenceBySession[event.session]
      ensures event.session in old(sequenceBySession) ==> sequenceBySession == old(sequenceBySession)
      ensures event.session !in old(sequenceBySession) ==>
                && fresh(state) && state.Value() == FRESH
                && sequenceBySession == old(sequenceBySession)[event.session := state]
    {
      if event.session !in sequenceBySession {
        var created := new SessionSequenceState();
        sequenceBySession := sequenceBySession[event.session := created];
      }
      state := sequenceBySession[event.session];
    }

    method TryStartSessionTurn(event: Event, state: SessionSequenceState) returns (d: Disposition)
      modifies state
      ensures (state.Value(), d) == TryStart(old(state.Value()), event, maxParkedEventsPerSession)
    {
      if state.closed {
        return Discarded;
      }
      if event.kind == DeferredCompletion {
        if state.active && state.awaitingCompletion && state.nextSequence == event.sequence {
          return Process;
        }
        if state.active && !state.awaitingCompletion && state.nextSequence == event.sequence &&
           state.earlyCompletion == None {
          state.earlyCompletion := Some(event);
          return Parked;
        }
        return InvalidSequence;
      }
      if state.failed {
        if event.kind != Disconnected {
          return Discarded;
        }
        if state.active {
          state.pendingDisconnected := Some(event);
          return Parked;
        }
        state.nextSequence := event.sequence;
        state.active := true;
        state.activeDisconnect := true;
        return Process;
      }
      if !state.active && state.nextSequence == event.sequence {
        state.active := true;
        state.activeDisconnect := event.kind == Disconnected;
        return Process;
      }
      if event.sequence < state.nextSequence || event.sequence in state.parked {
        return InvalidSequence;
      }
      if |state.parked| >= maxParkedEventsPerSession {
        return ParkedLimit;
      }
      state.parked := state.parked[event.sequence := event];
      return Parked;
    }

    method MarkSessionFailed(state: SessionSequenceState) returns (marked: bool)
      modifies state
      ensures (state.Value(), marked) == MarkFailed(old(state.Value()))
    {
      if state.failed || state.closed {
        return false;
      }
      state.failed := true;
      var remaining, found := state.parked.Keys, false;
      while remaining != {} && !found
        invariant state.parked == old(state.parked) && remaining <= state.parked.Keys
        invariant forall i, j | i in state.parked.Keys - remaining && j in remaining :: i < j
        invariant !found ==> forall i | i in state.parked.Keys - remaining ::
                               state.parked[i].kind != Disconnected
        invariant found ==> exists k :: IsFirstDisconnected(state.parked, k)
                                        && state.pendingDisconnected == Some(state.parked[k])
        invariant state.Value() == old(state.Value()).(failed := true, pending := state.pendingDisconnected)
        invariant !found ==> state.pendingDisconnected == old(state.pendingDisconnected)
        decreases remaining
      {
        var k := Least(remaining);
        if state.parked[k].kind == Disconnected {
          state.pendingDisconnected := Some(state.parked[k]);
          assert IsFirstDisconnected(state.parked, k);
          found := true;
        }
        assert forall j | j in remaining - {k} :: k < j;
        assert state.parked.Keys - (remaining - {k}) == (state.parked.Keys - remaining) + {k};
        remaining := remaining - {k};
      }
      assert found <==> exists k :: IsFirstDisconnected(state.parked, k);
      state.parked := map[];
      return true;
    }

    method MarkSessionDeferred(event: Event, state: SessionSequenceState)
      returns (r: Result<Option<Event>, ()>)
      modifies this`outstandingDeferred, state
      ensures match MarkDeferred(old(state.Value()), event)
              case Ok((t, early)) =>
                && r == Ok(early) && state.Value() == t
                && outstandingDeferred == old(outstandingDeferred) + 1
              case Err(_) =>
                && r.Err? && state.Value() == old(state.Value())
                && outstandingDeferred == old(outstandingDeferred)
    {
      if !state.active || state.nextSequence != event.sequence {
        return Err(());
      }
      state.awaitingCompletion := true;
      outstandingDeferred := outstandingDeferred + 1;
      if state.earlyCompletion == None {
        return Ok(None);
      }
      var completion := state.earlyCompletion;
      state.earlyCompletion := None;
      return Ok(completion);
    }

    method CompleteSessionTurn(event: Event, state: SessionSequenceState) returns (r: Option<Event>)
      modifies this, state
      ensures (state.Value(), r) == CompleteTurn(old(state.Value()))
      ensures outstandingDeferred == if event.kind == DeferredCompletion && old(outstandingDeferred) > 0
                                     then old(outstandingDeferred) - 1 else old(outstandingDeferred)
      ensures sequenceBySession == if old(state.activeDisconnect)
                                   then old(sequenceBySession) - {event.session} else old(sequenceBySession)
      ensures inboxClosed == (old(inboxClosed) || (r == None && Ready()))
      ensures inbox == old(inbox) && drainRequested == old(drainRequested)
    {
      state.active := false;
      state.awaitingCompletion := false;
      if event.kind == DeferredCompletion && outstandingDeferred > 0 {
        outstandingDeferred := outstandingDeferred - 1;
      }
      state.nextSequence := state.nextSequence + 1;
      if state.activeDisconnect {
        state.closed := true;
        sequenceBySession := sequenceBySession - {event.session};
        MaybeCloseInboxForDrainLocked();
        return None;
      }
      if state.failed {
        var disconnected := state.pendingDisconnected;
        state.pendingDisconnected := None;
        if disconnected == None {
          MaybeCloseInboxForDrainLocked();
        }
        return disconnected;
      }
      if state.nextSequence !in state.parked {
        MaybeCloseInboxForDrainLocked();
        return None;
      }
      r := Some(state.parked[state.nextSequence]);
      state.parked := state.parked - {state.nextSequence};
    }

    method TakePendingDisconnected(state: SessionSequenceState) returns (r: Option<Event>)
      modifies state
      ensures (state.Value(), r) == TakePending(old(state.Value()))
    {
      if state.active || state.closed {
        return None;
      }
      r := state.pendingDisconnected;
      state.pendingDisconnected := None;
    }

    method BeginStop()
      modifies this`drainRequested, this`inboxClosed
      ensures drainRequested
      ensures inboxClosed == (old(inboxClosed) || Ready())
    {
      drainRequested := true;
      MaybeCloseInboxForDrainLocked();
    }

    method MaybeCloseInboxForDrainLocked()
      modifies this`inboxClosed
      ensures inboxClosed == (old(inboxClosed) || Ready())
    {
      if !drainRequested || outstandingDeferred != 0 || |inbox| != 0 {
        return;
      }
      var remaining := sequenceBySession.Keys;
      while remaining != {}
        invariant remaining <= sequenceBySession.Keys
        invariant forall s | s in sequenceBySession.Keys - remaining :: Quiet(sequenceBySession[s].Value())
        decreases remaining
      {
        var s :| s in remaining;
        var state := sequenceBySession[s];
        if state.active || state.parked != map[] || state.earlyCompletion != None ||
           state.pendingDisconnected != None {
          assert !Quiet(Table()[s]);
          return;
        }
        remaining := remaining - {s};
      }
      inboxClosed := true;
    }
  }
}

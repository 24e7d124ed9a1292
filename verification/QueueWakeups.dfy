/** Threads blocking on the queue, as a step system: any number of producers, consumers and closers,
    spurious wake-ups included. Nobody sleeps while there is something to do and nobody to be told. */
module QueueWakeups {
  import opened Wrappers
  import opened BlockingQueue
  import opened Counting

  /** Where a thread stands. `woken` threads have slept and will look at the queue again. */
  datatype Thread<T> =
    | Free
    | Pushing(value: T, woken: bool)
    | PushAsleep(value: T)
    | Popping(woken: bool)
    | PopAsleep
    | TellNotEmpty
    | TellNotFull
    | TellAllNotEmpty
    | TellAllNotFull

  /** `pushed` and `popped` record everything that went in and out; the flags tell that some `close`
      has made its notification. */
  datatype System<T> = System(
    queue: Queue<T>, threads: map<nat, Thread<T>>, pushed: seq<T>, popped: seq<T>, toldEmpty: bool, toldFull: bool)

  datatype Action<T> =
    | CallPush(t: nat, v: T)
    | CallTryPush(t: nat, v: T)
    | CallPop(t: nat)
    | CallTryPop(t: nat)
    | CallClose(t: nat)
    | Section(t: nat)                       // a blocked call gets the mutex
    | NotifyOne(t: nat, wakes: Option<nat>)
    | NotifyAll(t: nat)
    | Spurious(t: nat)

  function Init<T>(capacity: nat, threads: set<nat>): System<T> {
    System(Queue(capacity, [], false), map t | t in threads :: Free, [], [], false, false)
  }

  predicate Sleeps<T>(thread: Thread<T>, popper: bool) {
    if popper then thread.PopAsleep? else thread.PushAsleep?
  }

  ghost predicate Enabled<T>(sys: System<T>, a: Action<T>) {
    a.t in sys.threads &&
    var me := sys.threads[a.t];
    match a
    case Section(t) => me.Pushing? || me.Popping?
    case NotifyOne(t, wakes) =>
      && (me.TellNotEmpty? || me.TellNotFull?)
      && if wakes.Some? then wakes.value in sys.threads && Sleeps(sys.threads[wakes.value], me.TellNotEmpty?)
         else forall u | u in sys.threads :: !Sleeps(sys.threads[u], me.TellNotEmpty?)
    case NotifyAll(t) => me.TellAllNotEmpty? || me.TellAllNotFull?
    case Spurious(t) => me.PushAsleep? || me.PopAsleep?
    case _ => me.Free?
  }

  function Set<T>(sys: System<T>, t: nat, thread: Thread<T>): System<T> {
    sys.(threads := sys.threads[t := thread])
  }

  function Woken<T>(thread: Thread<T>): Thread<T> {
    match thread
    case PushAsleep(v) => Pushing(v, true)
    case PopAsleep => Popping(true)
    case _ => thread
  }

  function WakeAll<T>(threads: map<nat, Thread<T>>, poppers: bool): map<nat, Thread<T>> {
    map t | t in threads :: if Sleeps(threads[t], poppers) then Woken(threads[t]) else threads[t]
  }

  function PushSection<T>(sys: System<T>, t: nat, v: T): System<T> {
    var r := PushAttempt(sys.queue, v);
    var next := match r.1
                case Waits => PushAsleep(v)
                case Pushed => TellNotEmpty
                case _ => Free;
    Set(sys, t, next).(queue := r.0, pushed := if r.1.Pushed? then sys.pushed + [v] else sys.pushed)
  }

  function PopSection<T>(sys: System<T>, t: nat): System<T> {
    var r := PopAttempt(sys.queue);
    var next := match r.1
                case Waits => PopAsleep
                case Taken(_) => TellNotFull
                case _ => Free;
    Set(sys, t, next).(queue := r.0, popped := if r.1.Taken? then sys.popped + [r.1.value] else sys.popped)
  }

  ghost function Next<T>(sys: System<T>, a: Action<T>): System<T>
    requires Enabled(sys, a)
  {
    var me := sys.threads[a.t];
    match a
    case CallPush(t, v) => Set(sys, t, Pushing(v, false))
    case CallPop(t) => Set(sys, t, Popping(false))
    case CallTryPush(t, v) =>
      var r := TryPush(sys.queue, v);
      Set(sys, t, if r.1 then TellNotEmpty else Free)
      .(queue := r.0, pushed := if r.1 then sys.pushed + [v] else sys.pushed)
    case CallTryPop(t) =>
      var r := TryPop(sys.queue);
      Set(sys, t, if r.1.Some? then TellNotFull else Free)
      .(queue := r.0, popped := if r.1.Some? then sys.popped + [r.1.value] else sys.popped)
    case CallClose(t) => Set(sys, t, TellAllNotEmpty).(queue := Close(sys.queue))
    case Section(t) => if me.Pushing? then PushSection(sys, t, me.value) else PopSection(sys, t)
    case NotifyOne(t, wakes) =>
      var told := Set(sys, t, Free);
      if wakes.Some? then Set(told, wakes.value, Woken(sys.threads[wakes.value])) else told
    case NotifyAll(t) =>
      if me.TellAllNotEmpty?
      then Set(sys.(threads := WakeAll(sys.threads, true), toldEmpty := true), t, TellAllNotFull)
      else Set(sys.(threads := WakeAll(sys.threads, false), toldFull := true), t, Free)
    case Spurious(t) => Set(sys, t, Woken(me))
  }

  ghost predicate Reaches<T(!new)>(from: System<T>, actions: seq<Action<T>>, sys: System<T>)
    decreases |actions|
  {
    if actions == [] then sys == from
    else
      var n := |actions| - 1;
      exists mid :: Reaches(from, actions[..n], mid) && Enabled(mid, actions[n]) && sys == Next(mid, actions[n])
  }

  // ---- Counting threads ----

  datatype Role = SleepingPop | SleepingPush | WokenPop | WokenPush | ToTellNotEmpty | ToTellNotFull

  predicate Plays<T>(thread: Thread<T>, role: Role) {
    match role
    case SleepingPop => thread.PopAsleep?
    case SleepingPush => thread.PushAsleep?
    case WokenPop => thread.Popping? && thread.woken
    case WokenPush => thread.Pushing? && thread.woken
    case ToTellNotEmpty => thread.TellNotEmpty?
    case ToTellNotFull => thread.TellNotFull?
  }

  ghost function Cast<T>(threads: map<nat, Thread<T>>, role: Role): set<nat> {
    set t | t in threads && Plays(threads[t], role)
  }

  ghost function Count<T>(threads: map<nat, Thread<T>>, role: Role): nat {
    |Cast(threads, role)|
  }

  function Weight<T>(thread: Thread<T>, role: Role): nat {
    if Plays(thread, role) then 1 else 0
  }

  lemma CountSet<T>(threads: map<nat, Thread<T>>, t: nat, thread: Thread<T>, role: Role)
    requires t in threads
    ensures Count(threads[t := thread], role)
         == Count(threads, role) + Weight(thread, role) - Weight(threads[t], role)
  {
    OneApart(Cast(threads, role), Cast(threads[t := thread], role), t);
  }

  // ---- The invariant ----

  /** Whoever sleeps has nothing to do, except for what somebody is about to announce or has been woken for. */
  ghost predicate Justified<T>(q: Queue<T>, threads: map<nat, Thread<T>>) {
    && (Count(threads, SleepingPop) > 0 ==>
          |q.items| <= Count(threads, ToTellNotEmpty) + Count(threads, WokenPop))
    && (Count(threads, SleepingPush) > 0 && !q.closed ==>
          q.capacity - |q.items| <= Count(threads, ToTellNotFull) + Count(threads, WokenPush))
  }

  /** A thread in `close` that still has to notify. */
  predicate Closing<T>(thread: Thread<T>, poppers: bool) {
    thread.TellAllNotEmpty? || (!poppers && thread.TellAllNotFull?)
  }

  /** A closed queue has told everybody or is about to. */
  ghost predicate Announced<T>(sys: System<T>) {
    && (sys.queue.closed && !sys.toldEmpty ==> exists t :: t in sys.threads && Closing(sys.threads[t], true))
    && (sys.queue.closed && !sys.toldFull ==> exists t :: t in sys.threads && Closing(sys.threads[t], false))
  }

  /** Once it has told everybody, nobody sleeps. */
  ghost predicate Told<T>(sys: System<T>) {
    && (forall t | t in sys.threads && Closing(sys.threads[t], false) :: sys.queue.closed)
    && (sys.toldEmpty ==> sys.queue.closed && Count(sys.threads, SleepingPop) == 0)
    && (sys.toldFull ==> sys.queue.closed && Count(sys.threads, SleepingPush) == 0)
  }

  /** What went in comes out in the same order. */
  ghost predicate Fifo<T>(sys: System<T>) {
    |sys.queue.items| <= sys.queue.capacity && sys.pushed == sys.popped + sys.queue.items
  }

  ghost predicate Inv<T>(sys: System<T>) {
    // The body has a name so that the verifier proves and uses the predicate whole, not split into its parts.
    var sound := Fifo(sys) && Justified(sys.queue, sys.threads) && Told(sys) && Announced(sys);
    sound
  }

  // ---- One thread moves on ----

  /** The thread does not fall asleep over work, and announces what it changes. */
  ghost predicate Moves<T>(sys: System<T>, t: nat, thread: Thread<T>, sys': System<T>) {
    && t in sys.threads && sys'.threads == sys.threads[t := thread] && sys'.queue.capacity == sys.queue.capacity
    && sys'.toldEmpty == sys.toldEmpty && sys'.toldFull == sys.toldFull
    && !Closing(sys.threads[t], false) && !thread.TellAllNotFull?
    && (sys.queue.closed ==> sys'.queue.closed) && (thread.TellAllNotEmpty? ==> sys'.queue.closed)
    && (sys'.queue.closed && !sys.queue.closed ==> thread.TellAllNotEmpty?)
    && (thread.PopAsleep? ==> sys'.queue.items == [] && !sys'.queue.closed)
    && (thread.PushAsleep? ==> |sys'.queue.items| == sys'.queue.capacity && !sys'.queue.closed)
    && (sys'.queue.items != [] ==>
          |sys'.queue.items| - |sys.queue.items|
          <= Weight(thread, ToTellNotEmpty) - Weight(sys.threads[t], ToTellNotEmpty)
             + Weight(thread, WokenPop) - Weight(sys.threads[t], WokenPop))
    && (|sys'.queue.items| < sys'.queue.capacity && !sys'.queue.closed ==>
          |sys.queue.items| - |sys'.queue.items|
          <= Weight(thread, ToTellNotFull) - Weight(sys.threads[t], ToTellNotFull)
             + Weight(thread, WokenPush) - Weight(sys.threads[t], WokenPush))
  }

  lemma MoveCounts<T>(sys: System<T>, t: nat, thread: Thread<T>, sys': System<T>)
    requires Justified(sys.queue, sys.threads) && Told(sys) && Moves(sys, t, thread, sys')
    ensures Justified(sys'.queue, sys'.threads) && Told(sys')
  {
    forall role: Role ensures Count(sys'.threads, role)
        == Count(sys.threads, role) + Weight(thread, role) - Weight(sys.threads[t], role)
    {
      CountSet(sys.threads, t, thread, role);
    }
  }

  lemma MoveAnnounced<T>(sys: System<T>, t: nat, thread: Thread<T>, sys': System<T>)
    requires Announced(sys) && Moves(sys, t, thread, sys')
    ensures Announced(sys')
  {
    if sys'.queue.closed && !sys.queue.closed {
      assert Closing(sys'.threads[t], true) && Closing(sys'.threads[t], false);
    } else if sys.queue.closed {
      if !sys.toldEmpty {
        var u :| u in sys.threads && Closing(sys.threads[u], true);
        assert u in sys'.threads && Closing(sys'.threads[u], true);
      }
      if !sys.toldFull {
        var u :| u in sys.threads && Closing(sys.threads[u], false);
        assert u in sys'.threads && Closing(sys'.threads[u], false);
      }
    }
  }

  lemma CallMoves<T>(sys: System<T>, a: Action<T>)
    requires Inv(sys) && Enabled(sys, a) && !a.NotifyOne? && !a.NotifyAll? && !a.Section?
    ensures Moves(sys, a.t, Next(sys, a).threads[a.t], Next(sys, a)) && Fifo(Next(sys, a))
  {
  }

  lemma SectionMoves<T>(sys: System<T>, t: nat)
    requires Inv(sys) && Enabled(sys, Section(t))
    ensures Moves(sys, t, Next(sys, Section(t)).threads[t], Next(sys, Section(t))) && Fifo(Next(sys, Section(t)))
  {
  }

  lemma InitInv<T>(capacity: nat, threads: set<nat>)
    ensures Inv<T>(Init(capacity, threads))
  {
    var sys := Init<T>(capacity, threads);
    assert Cast(sys.threads, SleepingPop) == {} && Cast(sys.threads, SleepingPush) == {};
  }

  lemma NobodySleeps<T>(threads: map<nat, Thread<T>>, popper: bool)
    requires forall u | u in threads :: !Sleeps(threads[u], popper)
    ensures Count(threads, if popper then SleepingPop else SleepingPush) == 0
  {
    assert Cast(threads, if popper then SleepingPop else SleepingPush) == {};
  }

  /** A notification wakes a sleeper of its kind, or there is none to wake. */
  lemma WakesOneCounts<T>(sys: System<T>, t: nat, u: nat)
    requires Inv(sys) && Enabled(sys, NotifyOne(t, Some(u)))
    ensures var sys' := Next(sys, NotifyOne(t, Some(u)));
            Justified(sys'.queue, sys'.threads) && Told(sys')
  {
    var told := sys.threads[t := Free];
    forall role: Role
      ensures Count(told[u := Woken(sys.threads[u])], role)
           == Count(sys.threads, role) - Weight(sys.threads[t], role)
              + Weight(Woken(sys.threads[u]), role) - Weight(sys.threads[u], role)
    {
      CountSet(sys.threads, t, Free, role);
      CountSet(told, u, Woken(sys.threads[u]), role);
    }
  }

  lemma WakesNoneCounts<T>(sys: System<T>, t: nat)
    requires Inv(sys) && Enabled(sys, NotifyOne(t, None))
    ensures var sys' := Next(sys, NotifyOne(t, None));
            Justified(sys'.queue, sys'.threads) && Told(sys')
  {
    NobodySleeps(sys.threads, sys.threads[t].TellNotEmpty?);
    forall role: Role
      ensures Count(sys.threads[t := Free], role) == Count(sys.threads, role) - Weight(sys.threads[t], role)
    {
      CountSet(sys.threads, t, Free, role);
    }
  }

  lemma NotifyOneCounts<T>(sys: System<T>, t: nat, wakes: Option<nat>)
    requires Inv(sys) && Enabled(sys, NotifyOne(t, wakes))
    ensures var sys' := Next(sys, NotifyOne(t, wakes));
            Justified(sys'.queue, sys'.threads) && Told(sys')
  {
    match wakes {
      case Some(u) => WakesOneCounts(sys, t, u);
      case None => WakesNoneCounts(sys, t);
    }
  }

  /** Closers other than those that notify stay where they are. */
  lemma AnnouncedStays<T>(sys: System<T>, sys': System<T>)
    requires Announced(sys) && sys'.queue.closed == sys.queue.closed
    requires sys'.toldEmpty == sys.toldEmpty && sys'.toldFull == sys.toldFull
    requires forall u | u in sys.threads && Closing(sys.threads[u], false) ::
               u in sys'.threads && sys'.threads[u] == sys.threads[u]
    ensures Announced(sys')
  {
    if sys.queue.closed && !sys.toldEmpty {
      var u :| u in sys.threads && Closing(sys.threads[u], true);
      assert Closing(sys.threads[u], false);
      assert u in sys'.threads && Closing(sys'.threads[u], true);
    }
    if sys.queue.closed && !sys.toldFull {
      var u :| u in sys.threads && Closing(sys.threads[u], false);
      assert u in sys'.threads && Closing(sys'.threads[u], false);
    }
  }

  lemma NotifyOneKeeps<T>(sys: System<T>, t: nat, wakes: Option<nat>)
    requires Inv(sys) && Enabled(sys, NotifyOne(t, wakes))
    ensures Inv(Next(sys, NotifyOne(t, wakes)))
  {
    NotifyOneCounts(sys, t, wakes);
    AnnouncedStays(sys, Next(sys, NotifyOne(t, wakes)));
  }

  /** The roles a notification to all sleepers of one kind changes. */
  predicate Affected(role: Role, poppers: bool) {
    if poppers then role == SleepingPop || role == WokenPop else role == SleepingPush || role == WokenPush
  }

  lemma WakeAllCounts<T>(threads: map<nat, Thread<T>>, poppers: bool)
    ensures var woken := WakeAll(threads, poppers);
            && Count(woken, if poppers then SleepingPop else SleepingPush) == 0
            && forall role: Role | !Affected(role, poppers) :: Count(woken, role) == Count(threads, role)
  {
    var woken := WakeAll(threads, poppers);
    NobodySleeps(woken, poppers);
    forall role: Role | !Affected(role, poppers) ensures Count(woken, role) == Count(threads, role) {
      assert Cast(woken, role) == Cast(threads, role);
    }
  }

  lemma NotifyAllCounts<T>(sys: System<T>, t: nat)
    requires Inv(sys) && Enabled(sys, NotifyAll(t))
    ensures var sys' := Next(sys, NotifyAll(t));
            Justified(sys'.queue, sys'.threads) && Told(sys')
  {
    var poppers := sys.threads[t].TellAllNotEmpty?;
    var woken := WakeAll(sys.threads, poppers);
    WakeAllCounts(sys.threads, poppers);
    forall role: Role
      ensures Count(woken[t := if poppers then TellAllNotFull else Free], role) == Count(woken, role)
    {
      CountSet(woken, t, if poppers then TellAllNotFull else Free, role);
    }
  }

  lemma NotifyAllAnnounced<T>(sys: System<T>, t: nat)
    requires Inv(sys) && Enabled(sys, NotifyAll(t))
    ensures Announced(Next(sys, NotifyAll(t)))
  {
    var sys' := Next(sys, NotifyAll(t));
    if sys.threads[t].TellAllNotEmpty? {
      assert Closing(sys'.threads[t], false);
    } else if sys.queue.closed && !sys.toldEmpty {
      var u :| u in sys.threads && Closing(sys.threads[u], true);
      assert u in sys'.threads && Closing(sys'.threads[u], true);
    }
  }

  lemma NextKeeps<T>(sys: System<T>, a: Action<T>)
    requires Inv(sys) && Enabled(sys, a)
    ensures Inv(Next(sys, a))
  {
    var sys' := Next(sys, a);
    match a {
      case NotifyOne(t, wakes) => NotifyOneKeeps(sys, t, wakes);
      case NotifyAll(t) =>
        NotifyAllCounts(sys, t);
        NotifyAllAnnounced(sys, t);
      case Section(t) =>
        SectionMoves(sys, t);
        MoveCounts(sys, t, sys'.threads[t], sys');
        MoveAnnounced(sys, t, sys'.threads[t], sys');
      case _ =>
        CallMoves(sys, a);
        MoveCounts(sys, a.t, sys'.threads[a.t], sys');
        MoveAnnounced(sys, a.t, sys'.threads[a.t], sys');
    }
  }

  // ---- Runs ----

  lemma {:induction false} RunInv<T(!new)>(capacity: nat, threads: set<nat>, actions: seq<Action<T>>, sys: System<T>)
    requires Reaches(Init(capacity, threads), actions, sys)
    ensures Inv(sys) && sys.queue.capacity == capacity
    decreases |actions|
  {
    if actions == [] {
      InitInv<T>(capacity, threads);
    } else {
      var n := |actions| - 1;
      var mid :| Reaches(Init(capacity, threads), actions[..n], mid) && Enabled(mid, actions[n])
                 && sys == Next(mid, actions[n]);
      RunInv(capacity, threads, actions[..n], mid);
      NextKeeps(mid, actions[n]);
    }
  }

  /** In every run: never more than the capacity, first in first out, and no lost wake-up on either
      side; once a close has told everybody, nobody sleeps. */
  lemma NoLostWakeup<T(!new)>(capacity: nat, threads: set<nat>, actions: seq<Action<T>>, sys: System<T>)
    requires Reaches(Init(capacity, threads), actions, sys)
    ensures |sys.queue.items| <= capacity && sys.pushed == sys.popped + sys.queue.items
    ensures Count(sys.threads, SleepingPop) > 0 ==>
              |sys.queue.items| <= Count(sys.threads, ToTellNotEmpty) + Count(sys.threads, WokenPop)
    ensures Count(sys.threads, SleepingPush) > 0 && !sys.queue.closed ==>
              capacity - |sys.queue.items| <= Count(sys.threads, ToTellNotFull) + Count(sys.threads, WokenPush)
    ensures sys.queue.closed && !(sys.toldEmpty && sys.toldFull) ==>
              exists t :: t in sys.threads && Closing(sys.threads[t], false)
    ensures sys.toldEmpty && sys.toldFull ==>
              sys.queue.closed && forall t | t in sys.threads :: !sys.threads[t].PopAsleep? && !sys.threads[t].PushAsleep?
  {
    RunInv(capacity, threads, actions, sys);
    forall t | t in sys.threads && sys.threads[t].PopAsleep? ensures Count(sys.threads, SleepingPop) > 0 {
      assert t in Cast(sys.threads, SleepingPop);
    }
    forall t | t in sys.threads && sys.threads[t].PushAsleep? ensures Count(sys.threads, SleepingPush) > 0 {
      assert t in Cast(sys.threads, SleepingPush);
    }
  }

  /** A closed queue still gives up what it holds, takes nothing more, and then refuses. */
  lemma ClosedDrains<T>(sys: System<T>, t: nat)
    requires sys.queue.closed && Enabled(sys, Section(t))
    ensures var sys' := Next(sys, Section(t));
            && !sys'.threads[t].PopAsleep? && !sys'.threads[t].PushAsleep? && sys'.pushed == sys.pushed
            && (sys.threads[t].Popping? ==>
                  if sys.queue.items == [] then sys' == Set(sys, t, Free)
                  else sys'.popped == sys.popped + [sys.queue.items[0]] && sys'.queue.items == sys.queue.items[1..])
  {
  }
}

/** The worker pool as a step system. A step is one critical section, one queue operation or one
    publication of one thread; any number of workers interleave in any order. */
module PoolModel {
  import opened Wrappers
  import opened Bytes
  import opened SessionEvents
  import opened Turns
  import Rooms = RoomModel

  // ---- One session ----

  /** A completion object; `abandoned` when the handler threw after deferring. */
  datatype Deferral = Deferral(completed: bool, returned: bool, abandoned: bool, inlined: Option<Event>)

  datatype After = ThenComplete | ThenDefer(inlined: Option<Event>)

  /** Where a worker stands inside the turn it was given. */
  datatype Phase =
    | Admitted
    | Running(deferred: bool, cleaned: nat)
    | Failing
    | Asking
    | Publishing(out: seq<Outbound>, after: After)
    | Deferring(inlined: Option<Event>)
    | Completing

  datatype RejectStage = Marking | Telling | Resolving

  /** What a worker does with the event in its hand; `gen` names the state object it holds. */
  datatype Hand =
    | Trying(gen: nat, ev: Event)
    | Rejecting(gen: nat, ev: Event, stage: RejectStage)
    | Turn(gen: nat, ev: Event, phase: Phase)

  /** Everything about one session: the state objects ever made for it, the one in the table, the
      workers busy with it, its completion objects, and the histories of what was accepted from the
      I/O thread, given to the handler and published by its turns. */
  datatype Session = Session(
    slots: seq<TurnState>,
    current: Option<nat>,
    hands: map<nat, Hand>,
    deferrals: map<nat, Deferral>,
    pushing: map<nat, Event>,
    produced: nat,
    ended: bool,
    handled: seq<Event>,
    published: seq<nat>)

  const NEW := Session([], None, map[], map[], map[], 0, false, [], [])

  datatype MoveStep = Try(kept: nat) | Mark | Tell | Resolve

  datatype TurnStep =
    | Admit
    | Act(op: RouterOp)
    | Clean
    | Defer
    | Return(out: seq<Outbound>)
    | Throw
    | Fail
    | Ask
    | Publish
    | Published
    | Suspend
    | Complete

  /** What the message router does to its own state while it handles a packet. */
  datatype RouterOp = SetVersion(version: nat) | Call(call: Rooms.Op)

  predicate OnSlot(x: Session, w: nat) {
    w in x.hands && x.hands[w].gen < |x.slots|
  }

  function SlotOf(x: Session, w: nat): TurnState
    requires OnSlot(x, w)
  {
    x.slots[x.hands[w].gen]
  }

  /** The worker's hand and the state object it holds change together. */
  function Set(x: Session, w: nat, t: TurnState, hand: Option<Hand>): Session
    requires OnSlot(x, w)
  {
    x.(slots := x.slots[x.hands[w].gen := t],
       hands := if hand.Some? then x.hands[w := hand.value] else x.hands - {w})
  }

  function SetPhase(x: Session, w: nat, phase: Phase): Session
    requires w in x.hands
  {
    x.(hands := x.hands[w := Turn(x.hands[w].gen, x.hands[w].ev, phase)])
  }

  // ---- A worker outside a turn ----

  predicate MoveEnabled(x: Session, w: nat, move: MoveStep) {
    OnSlot(x, w) &&
    match move
    case Try(_) => x.hands[w].Trying?
    case Mark => x.hands[w].Rejecting? && x.hands[w].stage == Marking
    case Tell => x.hands[w].Rejecting? && x.hands[w].stage == Telling
    case Resolve => x.hands[w].Rejecting? && x.hands[w].stage == Resolving
  }

  function Started(ev: Event, kept: nat): Phase {
    if ev.kind != DeferredCompletion then Admitted
    else if ev.completion == None || ev.completion.value.failed then Failing
    else
      var messages := ev.completion.value.messages;
      Publishing(if kept < |messages| then messages[..kept] else messages, ThenComplete)
  }

  function AfterTry(gen: nat, ev: Event, d: Disposition, kept: nat): Option<Hand> {
    match d
    case Parked => None
    case Discarded => None
    case InvalidSequence => Some(Rejecting(gen, ev, Marking))
    case ParkedLimit => Some(Rejecting(gen, ev, Marking))
    case Process => Some(Turn(gen, ev, Started(ev, kept)))
  }

  function TryNext(x: Session, w: nat, kept: nat, limit: nat): Session
    requires OnSlot(x, w)
  {
    var r := TryStart(SlotOf(x, w), x.hands[w].ev, limit);
    Set(x, w, r.0, AfterTry(x.hands[w].gen, x.hands[w].ev, r.1, kept))
  }

  ghost function MarkNext(x: Session, w: nat): Session
    requires OnSlot(x, w)
  {
    var r := MarkFailed(SlotOf(x, w));
    Set(x, w, r.0, Some(Rejecting(x.hands[w].gen, x.hands[w].ev, if r.1 then Telling else Resolving)))
  }

  function TellNext(x: Session, w: nat): Session
    requires OnSlot(x, w)
  {
    x.(hands := x.hands[w := Rejecting(x.hands[w].gen, x.hands[w].ev, Resolving)])
  }

  function ResolveNext(x: Session, w: nat): Session
    requires OnSlot(x, w)
  {
    var gen, ev := x.hands[w].gen, x.hands[w].ev;
    if ev.kind == Disconnected then x.(hands := x.hands[w := Trying(gen, ev)])
    else
      var r := TakePending(SlotOf(x, w));
      Set(x, w, r.0, if r.1.Some? then Some(Trying(gen, r.1.value)) else None)
  }

  ghost function MoveNext(x: Session, w: nat, move: MoveStep, limit: nat): Session
    requires MoveEnabled(x, w, move)
  {
    match move
    case Try(kept) => TryNext(x, w, kept, limit)
    case Mark => MarkNext(x, w)
    case Tell => TellNext(x, w)
    case Resolve => ResolveNext(x, w)
  }

  // ---- A worker inside a turn ----

  predicate InTurn(x: Session, w: nat) {
    OnSlot(x, w) && x.hands[w].Turn?
  }

  predicate Handling(x: Session, w: nat) {
    InTurn(x, w) && x.hands[w].phase.Running?
  }

  /** A disconnect handler leaves only after it has erased the version and then the user. */
  predicate MayLeaveHandler(x: Session, w: nat) {
    && Handling(x, w)
    && (x.hands[w].ev.kind == Disconnected ==> x.hands[w].phase.cleaned == 2)
    && (x.hands[w].phase.deferred ==> x.hands[w].ev.sequence in x.deferrals)
  }

  predicate TurnEnabled(x: Session, w: nat, turn: TurnStep) {
    InTurn(x, w) &&
    var ev, phase := x.hands[w].ev, x.hands[w].phase;
    match turn
    case Admit => phase.Admitted?
    case Act(op) =>
      Handling(x, w) && ev.kind == PacketEvent && (op.Call? ==> !op.call.Attach? && !op.call.Disconnect?)
    case Clean => Handling(x, w) && ev.kind == Disconnected && phase.cleaned < 2
    case Defer => Handling(x, w) && ev.kind == PacketEvent && !phase.deferred
    case Return(_) => MayLeaveHandler(x, w)
    case Throw => MayLeaveHandler(x, w)
    case Fail => phase.Failing?
    case Ask => phase.Asking?
    case Publish => phase.Publishing? && phase.out != []
    case Published => phase.Publishing? && phase.out == []
    case Suspend => phase.Deferring? && MarkDeferred(SlotOf(x, w), ev).Ok?
    case Complete => phase.Completing?
  }

  /** The turn cannot be suspended: the source ends the process with `std::logic_error`. */
  predicate Crashes(x: Session, w: nat) {
    InTurn(x, w) && x.hands[w].phase.Deferring? && MarkDeferred(SlotOf(x, w), x.hands[w].ev).Err?
  }

  function AdmitNext(x: Session, w: nat): Session
    requires InTurn(x, w)
  {
    var ev, t := x.hands[w].ev, SlotOf(x, w);
    if ev.kind != Disconnected && (t.failed || t.closed) then SetPhase(x, w, Completing)
    else SetPhase(x, w, Running(false, 0)).(handled := x.handled + [ev])
  }

  function DeferNext(x: Session, w: nat): Session
    requires Handling(x, w)
  {
    SetPhase(x, w, Running(true, x.hands[w].phase.cleaned))
    .(deferrals := x.deferrals[x.hands[w].ev.sequence := Deferral(false, false, false, None)])
  }

  function ReturnNext(x: Session, w: nat, out: seq<Outbound>): Session
    requires MayLeaveHandler(x, w)
  {
    if !x.hands[w].phase.deferred then SetPhase(x, w, Publishing(out, ThenComplete))
    else
      var k := x.hands[w].ev.sequence;
      SetPhase(x, w, Publishing(out, ThenDefer(x.deferrals[k].inlined)))
      .(deferrals := x.deferrals[k := x.deferrals[k].(returned := true, inlined := None)])
  }

  function ThrowNext(x: Session, w: nat): Session
    requires MayLeaveHandler(x, w)
  {
    if !x.hands[w].phase.deferred then SetPhase(x, w, Failing)
    else
      var k := x.hands[w].ev.sequence;
      SetPhase(x, w, Failing).(deferrals := x.deferrals[k := x.deferrals[k].(abandoned := true)])
  }

  ghost function FailNext(x: Session, w: nat): Session
    requires InTurn(x, w)
  {
    var r := MarkFailed(SlotOf(x, w));
    Set(x, w, r.0, Some(Turn(x.hands[w].gen, x.hands[w].ev, if r.1 then Asking else Completing)))
  }

  function PublishNext(x: Session, w: nat): Session
    requires InTurn(x, w) && x.hands[w].phase.Publishing? && x.hands[w].phase.out != []
  {
    SetPhase(x, w, Publishing(x.hands[w].phase.out[1..], x.hands[w].phase.after))
    .(published := x.published + [x.hands[w].ev.sequence])
  }

  function PublishedNext(x: Session, w: nat): Session
    requires InTurn(x, w) && x.hands[w].phase.Publishing?
  {
    match x.hands[w].phase.after
    case ThenComplete => SetPhase(x, w, Completing)
    case ThenDefer(inlined) => SetPhase(x, w, Deferring(inlined))
  }

  function Resume(gen: nat, next: Option<Event>): Option<Hand> {
    if next.Some? then Some(Trying(gen, next.value)) else None
  }

  function SuspendNext(x: Session, w: nat): Session
    requires TurnEnabled(x, w, Suspend)
  {
    var r := MarkDeferred(SlotOf(x, w), x.hands[w].ev).value;
    var inlined := x.hands[w].phase.inlined;
    Set(x, w, r.0, Resume(x.hands[w].gen, if inlined.Some? then inlined else r.1))
  }

  function CompleteNext(x: Session, w: nat): Session
    requires InTurn(x, w)
  {
    var r := CompleteTurn(SlotOf(x, w));
    Set(x, w, r.0, Resume(x.hands[w].gen, r.1))
    .(current := if SlotOf(x, w).activeDisconnect then None else x.current)
  }

  ghost function TurnNext(x: Session, w: nat, turn: TurnStep): Session
    requires TurnEnabled(x, w, turn)
  {
    match turn
    case Admit => AdmitNext(x, w)
    case Act(_) => x
    case Clean => SetPhase(x, w, Running(x.hands[w].phase.deferred, x.hands[w].phase.cleaned + 1))
    case Defer => DeferNext(x, w)
    case Return(out) => ReturnNext(x, w, out)
    case Throw => ThrowNext(x, w)
    case Fail => FailNext(x, w)
    case Ask => SetPhase(x, w, Completing)
    case Publish => PublishNext(x, w)
    case Published => PublishedNext(x, w)
    case Suspend => SuspendNext(x, w)
    case Complete => CompleteNext(x, w)
  }

  // ---- Everyone else who touches a session ----

  function ProduceNext(x: Session, ev: Event): Session {
    x.(produced := x.produced + 1, ended := ev.kind == Disconnected)
  }

  /** The state object an event gets at intake: the one in the table, or a new one. */
  function AcquireNext(x: Session, w: nat, ev: Event): Session {
    if x.current.Some? then x.(hands := x.hands[w := Trying(x.current.value, ev)])
    else x.(slots := x.slots + [FRESH], current := Some(|x.slots|), hands := x.hands[w := Trying(|x.slots|, ev)])
  }

  /** `complete` of a completion object: the first call wins; it stores the payload while the handler
      still runs, and sends it to the inbox afterwards. */
  function CompleteObjectNext(x: Session, ev: Event): Session
    requires ev.sequence in x.deferrals
  {
    var k := ev.sequence;
    var d := x.deferrals[k];
    if d.completed then x
    else if !d.returned then x.(deferrals := x.deferrals[k := d.(completed := true, inlined := Some(ev))])
    else x.(deferrals := x.deferrals[k := d.(completed := true)], pushing := x.pushing[k := ev])
  }

  // ---- The pool ----

  datatype Desk = Idle | Intaking | Busy(session: nat) | Checking | Exited

  datatype Pool = Pool(
    limit: nat,
    capacity: nat,
    inbox: seq<Event>,
    closed: bool,
    intake: Option<Event>,
    sessions: map<nat, Session>,
    outstanding: nat,
    drain: bool,
    workers: seq<Desk>,
    overflowed: bool,
    crashed: bool)

  function Of(st: Pool, s: nat): Session {
    if s in st.sessions then st.sessions[s] else NEW
  }

  function Init(limit: nat, capacity: nat, n: nat): Pool {
    Pool(limit, capacity, [], false, None, map[], 0, false, seq(n, _ => Idle), false, false)
  }

  datatype Action =
    | Enqueue(event: Event)                          // the I/O thread
    | BeginStop                                      // the owner of the pool
    | Pop(w: nat)                                    // a worker without an event
    | Acquire(w: nat)
    | Check(w: nat)
    | Exit(w: nat)
    | Move(w: nat, move: MoveStep)                   // a worker with an event
    | Proceed(w: nat, turn: TurnStep)
    | Crash(w: nat)
    | Attach(s: nat, k: nat, id: seq<Byte>, name: seq<Byte>)   // whoever holds a completion object
    | CompleteObject(s: nat, k: nat, payload: CompletionPayload)
    | Push(s: nat, k: nat)

  /** Per session, numbers are 0, 1, 2, ..., each used once, and nothing follows a `Disconnected`. */
  predicate Produces(x: Session, ev: Event) {
    ev.kind != DeferredCompletion && ev.completion == None && ev.sequence == x.produced && !x.ended
  }

  predicate At(st: Pool, w: nat, desk: Desk) {
    w < |st.workers| && st.workers[w] == desk
  }

  predicate IsBusy(st: Pool, w: nat) {
    w < |st.workers| && st.workers[w].Busy?
  }

  predicate Enabled(st: Pool, a: Action) {
    match a
    case Enqueue(ev) => !st.closed && |st.inbox| < st.capacity && Produces(Of(st, ev.session), ev)
    case BeginStop => true
    case Pop(w) => At(st, w, Idle) && st.intake == None && st.inbox != []
    case Acquire(w) => At(st, w, Intaking) && st.intake.Some?
    case Check(w) => At(st, w, Checking)
    case Exit(w) => At(st, w, Idle) && st.intake == None && st.inbox == [] && st.closed
    case Move(w, move) => IsBusy(st, w) && MoveEnabled(Of(st, st.workers[w].session), w, move)
    case Proceed(w, turn) => IsBusy(st, w) && TurnEnabled(Of(st, st.workers[w].session), w, turn)
    case Crash(w) => IsBusy(st, w) && Crashes(Of(st, st.workers[w].session), w)
    case Attach(s, k, _, _) => k in Of(st, s).deferrals && !Of(st, s).deferrals[k].completed
    case CompleteObject(s, k, _) => k in Of(st, s).deferrals
    case Push(s, k) => k in Of(st, s).pushing && (st.closed || |st.inbox| < st.capacity)
  }

  function Put(st: Pool, s: nat, x: Session): Pool {
    st.(sessions := st.sessions[s := x])
  }

  function Seat(st: Pool, w: nat, desk: Desk): Pool
    requires w < |st.workers|
  {
    st.(workers := st.workers[w := desk])
  }

  ghost function Table(st: Pool): map<nat, TurnState> {
    map s | s in st.sessions && st.sessions[s].current.Some? && st.sessions[s].current.value < |st.sessions[s].slots|
      :: st.sessions[s].slots[st.sessions[s].current.value]
  }

  ghost function MaybeClose(st: Pool): Pool {
    if DrainReady(st.drain, st.outstanding, st.inbox, Table(st)) then st.(closed := true) else st
  }

  /** A discarded event sends its worker to the drain test; otherwise it goes on with what it holds. */
  ghost function MovePool(st: Pool, w: nat, move: MoveStep): Pool
    requires Enabled(st, Move(w, move))
  {
    var s := st.workers[w].session;
    var x, x' := Of(st, s), MoveNext(Of(st, s), w, move, st.limit);
    var d := if move.Try? then TryStart(SlotOf(x, w), x.hands[w].ev, st.limit).1 else Process;
    var desk := if w in x'.hands then Busy(s) else if d == Discarded then Checking else Idle;
    Seat(Put(st, s, x'), w, desk).(overflowed := st.overflowed || d == ParkedLimit)
  }

  /** The pool after worker `w`'s session has become `x`. */
  ghost function AfterTurn(st: Pool, w: nat, turn: TurnStep, ev: Event, x: Session): Pool
    requires IsBusy(st, w)
  {
    var s := st.workers[w].session;
    var st1 := Seat(Put(st, s, x), w, if w in x.hands then Busy(s) else Idle);
    match turn
    case Suspend => st1.(outstanding := st.outstanding + 1)
    case Complete =>
      var drop := ev.kind == DeferredCompletion && st.outstanding > 0;
      var st2 := st1.(outstanding := if drop then st.outstanding - 1 else st.outstanding);
      if w in x.hands then st2 else MaybeClose(st2)
    case _ => st1
  }

  ghost function TurnPool(st: Pool, w: nat, turn: TurnStep): Pool
    requires Enabled(st, Proceed(w, turn))
  {
    var x := Of(st, st.workers[w].session);
    AfterTurn(st, w, turn, x.hands[w].ev, TurnNext(x, w, turn))
  }

  function EnqueuePool(st: Pool, ev: Event): Pool {
    Put(st, ev.session, ProduceNext(Of(st, ev.session), ev)).(inbox := st.inbox + [ev])
  }

  function AcquirePool(st: Pool, w: nat): Pool
    requires w < |st.workers| && st.intake.Some?
  {
    var ev := st.intake.value;
    Seat(Put(st, ev.session, AcquireNext(Of(st, ev.session), w, ev)), w, Busy(ev.session)).(intake := None)
  }

  function FulfillPool(st: Pool, s: nat, k: nat, payload: CompletionPayload): Pool
    requires k in Of(st, s).deferrals
  {
    Put(st, s, CompleteObjectNext(Of(st, s), CompletionOf(s, k, payload)))
  }

  function PushPool(st: Pool, s: nat, k: nat): Pool
    requires k in Of(st, s).pushing
  {
    var x := Of(st, s);
    var st1 := Put(st, s, x.(pushing := x.pushing - {k}));
    if st.closed then st1 else st1.(inbox := st.inbox + [x.pushing[k]])
  }

  ghost function Next(st: Pool, a: Action): Pool
    requires Enabled(st, a)
  {
    match a
    case Enqueue(ev) => EnqueuePool(st, ev)
    case BeginStop => MaybeClose(st.(drain := true))
    case Pop(w) => Seat(st, w, Intaking).(intake := Some(st.inbox[0]), inbox := st.inbox[1..])
    case Acquire(w) => AcquirePool(st, w)
    case Check(w) => MaybeClose(Seat(st, w, Idle))
    case Exit(w) => Seat(st, w, Exited)
    case Move(w, move) => MovePool(st, w, move)
    case Proceed(w, turn) => TurnPool(st, w, turn)
    case Crash(w) => st.(crashed := true)
    case Attach(_, _, _, _) => st
    case CompleteObject(s, k, payload) => FulfillPool(st, s, k, payload)
    case Push(s, k) => PushPool(st, s, k)
  }

  // ---- Runs ----

  /** `st` is what the actions lead to, each enabled when it is taken. */
  ghost predicate Reaches(from: Pool, actions: seq<Action>, st: Pool)
    decreases |actions|
  {
    if actions == [] then st == from
    else
      var n := |actions| - 1;
      exists mid :: Reaches(from, actions[..n], mid) && Enabled(mid, actions[n]) && st == Next(mid, actions[n])
  }
}

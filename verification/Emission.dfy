/** The output context of one event: what a handler emits is kept up to a budget of messages and bytes, and
    handlers stop at the first message that is refused. */
module Emission {
  import opened Wrappers
  import opened Bytes
  import opened Framing
  import opened Messages
  import Router

  datatype Message =
    | Send(session: nat, packet: Packet)
    | SendLast(session: nat, packet: Packet)     // and disconnect afterwards
    | Disconnect(session: nat)

  /** `own` is the session of the event. */
  datatype Budget = Budget(own: nat, maxMessages: nat, maxBytes: nat)

  datatype Kept = Kept(messages: seq<Message>, count: nat, bytes: nat, disconnecting: bool)

  const NOTHING := Kept([], 0, 0, false)

  function Weight(m: Message): nat {
    if m.Disconnect? then 0 else |m.packet.payload| + HEADER_SIZE
  }

  /** One message, and whether it is kept. */
  function Offer(b: Budget, k: Kept, m: Message): (Kept, bool) {
    if k.disconnecting then (k, false)
    else if m.Disconnect? then
      if m.session != b.own then (k, false)
      else (k.(messages := k.messages + [m], disconnecting := true), true)
    else if k.count >= b.maxMessages || Weight(m) > b.maxBytes - k.bytes then (k, false)
    else (k.(messages := k.messages + [m], count := k.count + 1, bytes := k.bytes + Weight(m)), true)
  }

  /** Messages in turn, up to the first that is refused. */
  function EmitAll(b: Budget, k: Kept, ms: seq<Message>): (Kept, bool)
    decreases |ms|
  {
    if ms == [] then (k, true)
    else
      var first := Offer(b, k, ms[0]);
      if first.1 then EmitAll(b, first.0, ms[1..]) else first
  }

  // ---- What is kept ----

  function Load(ms: seq<Message>): nat {
    if ms == [] then 0 else Weight(ms[0]) + Load(ms[1..])
  }

  predicate Within(b: Budget, k: Kept) {
    k.count <= b.maxMessages && k.bytes <= b.maxBytes
  }

  predicate OnlyPackets(ms: seq<Message>) {
    forall i | 0 <= i < |ms| :: !ms[i].Disconnect?
  }

  /** The first `n` messages are within what is left of the budget. */
  predicate Affordable(b: Budget, k: Kept, ms: seq<Message>, n: nat)
    requires n <= |ms|
  {
    k.count + n <= b.maxMessages && k.bytes + Load(ms[..n]) <= b.maxBytes
  }

  lemma LoadFirst(ms: seq<Message>, n: nat)
    requires 0 < n <= |ms|
    ensures Load(ms[..n]) == Weight(ms[0]) + Load(ms[1..][..n - 1])
  {
    assert ms[..n][1..] == ms[1..][..n - 1];
  }

  lemma EmitStays(b: Budget, k: Kept, m: Message)
    requires Within(b, k)
    ensures Within(b, Offer(b, k, m).0)
    ensures !m.Disconnect? && !k.disconnecting ==>
              (Offer(b, k, m).1 <==> k.count < b.maxMessages && k.bytes + Weight(m) <= b.maxBytes)
  {
  }

  /** What is kept of packets emitted in turn is the longest beginning within the budget, nothing is kept in
      part, and the budget is never exceeded. */
  lemma {:induction false} KeepsLongest(b: Budget, k: Kept, ms: seq<Message>) returns (n: nat)
    requires Within(b, k) && !k.disconnecting && OnlyPackets(ms)
    ensures n <= |ms| && Within(b, EmitAll(b, k, ms).0)
    ensures EmitAll(b, k, ms).0
         == Kept(k.messages + ms[..n], k.count + n, k.bytes + Load(ms[..n]), false)
    ensures EmitAll(b, k, ms).1 <==> n == |ms|
    ensures Affordable(b, k, ms, n) && (n < |ms| ==> !Affordable(b, k, ms, n + 1))
    decreases |ms|
  {
    n := 0;
    assert ms[..0] == [] && k.messages + [] == k.messages;
    if ms != [] {
      var first := Offer(b, k, ms[0]);
      EmitStays(b, k, ms[0]);
      if first.1 {
        var rest := KeepsLongest(b, first.0, ms[1..]);
        n := rest + 1;
        LoadFirst(ms, n);
        assert ms[..n] == [ms[0]] + ms[1..][..rest];
        if n < |ms| {
          LoadFirst(ms, n + 1);
        }
      } else {
        LoadFirst(ms, 1);
        assert ms[1..][..0] == [];
      }
    }
  }

  lemma {:induction false} EmitAppend(b: Budget, k: Kept, a: seq<Message>, c: seq<Message>)
    ensures EmitAll(b, k, a + c)
         == if EmitAll(b, k, a).1 then EmitAll(b, EmitAll(b, k, a).0, c) else EmitAll(b, k, a)
    decreases |a|
  {
    if a == [] {
      assert a + c == c;
    } else {
      assert (a + c)[1..] == a[1..] + c && (a + c)[0] == a[0];
      var first := Offer(b, k, a[0]);
      if first.1 {
        EmitAppend(b, first.0, a[1..], c);
      }
    }
  }

  // ---- The router's output as messages ----

  /** The messages to `recipients`, in some order. */
  ghost predicate IsOrder(ms: seq<Message>, recipients: set<nat>, p: Packet) {
    && |ms| == |recipients|
    && (forall i | 0 <= i < |ms| :: ms[i] == Send(ms[i].session, p) && ms[i].session in recipients)
    && (forall i, j | 0 <= i < j < |ms| :: ms[i].session != ms[j].session)
  }

  ghost predicate SpellsOne(o: Router.Out, ms: seq<Message>) {
    match o
    case To(s, p) => ms == [Send(s, p)]
    case Last(s, p) => ms == [SendLast(s, p)]
    case ToAll(recipients, p) => IsOrder(ms, recipients, p)
  }

  /** `ms` are the messages of `out`, in the order of emission. */
  ghost predicate Spells(out: seq<Router.Out>, ms: seq<Message>) {
    if out == [] then ms == []
    else
      var last := |out| - 1;
      exists n: nat :: n <= |ms| && Spells(out[..last], ms[..n]) && SpellsOne(out[last], ms[n..])
  }

  /** The output is emitted in turn, up to the first message that is refused. */
  ghost predicate Emitted(b: Budget, k: Kept, out: seq<Router.Out>, k': Kept) {
    // The body has a name so that the verifier proves and uses the predicate whole, not split into its parts.
    var emitted := exists ms :: Spells(out, ms) && EmitAll(b, k, ms).0 == k';
    emitted
  }

  lemma {:induction false} SomeOrder(recipients: set<nat>, p: Packet) returns (ms: seq<Message>)
    ensures IsOrder(ms, recipients, p)
    decreases |recipients|
  {
    if recipients == {} {
      ms := [];
    } else {
      var q :| q in recipients;
      ms := SomeOrder(recipients - {q}, p);
      ms := [Send(q, p)] + ms;
    }
  }

  lemma SomeSpelling(o: Router.Out) returns (ms: seq<Message>)
    ensures SpellsOne(o, ms)
  {
    match o
    case To(s, p) => ms := [Send(s, p)];
    case Last(s, p) => ms := [SendLast(s, p)];
    case ToAll(recipients, p) => ms := SomeOrder(recipients, p);
  }

  lemma SpellsMore(out: seq<Router.Out>, ms: seq<Message>, o: Router.Out, more: seq<Message>)
    requires Spells(out, ms) && SpellsOne(o, more)
    ensures Spells(out + [o], ms + more)
  {
    assert (out + [o])[..|out|] == out && (ms + more)[..|ms|] == ms && (ms + more)[|ms|..] == more;
  }

  // ---- What one session hears of it ----

  /** The packets among `ms` for session `t`. */
  function PacketsFor(ms: seq<Message>, t: nat): seq<Packet> {
    if ms == [] then []
    else
      var m := ms[|ms| - 1];
      PacketsFor(ms[..|ms| - 1], t) + (if !m.Disconnect? && m.session == t then [m.packet] else [])
  }

  lemma {:induction false} PacketsAppend(a: seq<Message>, c: seq<Message>, t: nat)
    ensures PacketsFor(a + c, t) == PacketsFor(a, t) + PacketsFor(c, t)
    decreases |c|
  {
    if c == [] {
      assert a + c == a;
    } else {
      PacketsAppend(a, c[..|c| - 1], t);
      assert (a + c)[..|a + c| - 1] == a + c[..|c| - 1];
    }
  }

  /** Whatever the order, each recipient is told once and nobody else is. */
  lemma {:induction false} OrderTellsOnce(ms: seq<Message>, recipients: set<nat>, p: Packet, t: nat)
    requires IsOrder(ms, recipients, p)
    ensures PacketsFor(ms, t) == if t in recipients then [p] else []
    decreases |ms|
  {
    if ms != [] {
      var last := |ms| - 1;
      var q := ms[last].session;
      assert forall i | 0 <= i < last :: ms[..last][i] == ms[i];
      OrderTellsOnce(ms[..last], recipients - {q}, p, t);
    }
  }

  lemma {:induction false} HeardMore(out: seq<Router.Out>, o: Router.Out, t: nat)
    ensures Router.Heard(out + [o], t) == Router.Heard(out, t) + Router.Hears(o, t)
    decreases |out|
  {
    if out == [] {
      assert out + [o] == [o] && [o][1..] == [];
    } else {
      assert (out + [o])[1..] == out[1..] + [o] && (out + [o])[0] == out[0];
      HeardMore(out[1..], o, t);
    }
  }

  lemma OneIsHeard(o: Router.Out, ms: seq<Message>, t: nat)
    requires SpellsOne(o, ms)
    ensures PacketsFor(ms, t) == Router.Hears(o, t) && OnlyPackets(ms)
  {
    if o.ToAll? {
      OrderTellsOnce(ms, o.recipients, o.packet, t);
    } else {
      assert ms[..0] == [];
    }
  }

  lemma SpelledInTwo(out: seq<Router.Out>, ms: seq<Message>)
    returns (first: seq<Router.Out>, last: Router.Out, a: seq<Message>, c: seq<Message>)
    requires out != [] && Spells(out, ms)
    ensures out == first + [last] && ms == a + c && Spells(first, a) && SpellsOne(last, c)
  {
    first, last := out[..|out| - 1], out[|out| - 1];
    var n: nat :| n <= |ms| && Spells(first, ms[..n]) && SpellsOne(last, ms[n..]);
    a, c := ms[..n], ms[n..];
  }

  /** In whatever order the router's output is spelled, session `t` is meant to hear the same. */
  lemma {:induction false} SpelledIsHeard(out: seq<Router.Out>, ms: seq<Message>, t: nat)
    requires Spells(out, ms)
    ensures PacketsFor(ms, t) == Router.Heard(out, t) && OnlyPackets(ms)
    decreases |out|
  {
    if out != [] {
      var first, last, a, c := SpelledInTwo(out, ms);
      SpelledIsHeard(first, a, t);
      OneIsHeard(last, c, t);
      HeardMore(first, last, t);
      PacketsAppend(a, c, t);
    }
  }

  /** How many messages an output is. */
  function Width(o: Router.Out): nat {
    if o.ToAll? then |o.recipients| else 1
  }

  function MessageCount(out: seq<Router.Out>): nat {
    if out == [] then 0 else MessageCount(out[..|out| - 1]) + Width(out[|out| - 1])
  }

  function TotalBytes(out: seq<Router.Out>): nat {
    if out == [] then 0
    else
      var o := out[|out| - 1];
      TotalBytes(out[..|out| - 1]) + (|o.packet.payload| + HEADER_SIZE) * Width(o)
  }

  lemma {:induction false} LoadAppend(a: seq<Message>, c: seq<Message>)
    ensures Load(a + c) == Load(a) + Load(c)
    decreases |a|
  {
    if a == [] {
      assert a + c == c;
    } else {
      assert (a + c)[1..] == a[1..] + c;
      LoadAppend(a[1..], c);
    }
  }

  lemma {:induction false} EvenLoad(ms: seq<Message>, p: Packet)
    requires forall i | 0 <= i < |ms| :: !ms[i].Disconnect? && ms[i].packet == p
    ensures Load(ms) == (|p.payload| + HEADER_SIZE) * |ms|
    decreases |ms|
  {
    if ms != [] {
      EvenLoad(ms[1..], p);
      var w := |p.payload| + HEADER_SIZE;
      assert w * |ms| == w + w * (|ms| - 1);
    }
  }

  lemma OneSize(o: Router.Out, ms: seq<Message>)
    requires SpellsOne(o, ms)
    ensures |ms| == Width(o) && Load(ms) == (|o.packet.payload| + HEADER_SIZE) * Width(o)
  {
    EvenLoad(ms, o.packet);
  }

  lemma SizeMore(out: seq<Router.Out>, o: Router.Out)
    ensures MessageCount(out + [o]) == MessageCount(out) + Width(o)
    ensures TotalBytes(out + [o]) == TotalBytes(out) + (|o.packet.payload| + HEADER_SIZE) * Width(o)
  {
    assert (out + [o])[..|out|] == out;
  }

  lemma {:induction false} SpelledSize(out: seq<Router.Out>, ms: seq<Message>)
    requires Spells(out, ms)
    ensures |ms| == MessageCount(out) && Load(ms) == TotalBytes(out)
    decreases |out|
  {
    if out != [] {
      var first, last, a, c := SpelledInTwo(out, ms);
      SpelledSize(first, a);
      OneSize(last, c);
      SizeMore(first, last);
      LoadAppend(a, c);
    }
  }

  predicate AllAffordable(b: Budget, k: Kept, out: seq<Router.Out>) {
    k.count + MessageCount(out) <= b.maxMessages && k.bytes + TotalBytes(out) <= b.maxBytes
  }

  /** The messages that are kept, the rest, and why the first of the rest is not kept. */
  lemma KeptInTwo(b: Budget, k: Kept, ms: seq<Message>) returns (a: seq<Message>, c: seq<Message>)
    requires Within(b, k) && !k.disconnecting && OnlyPackets(ms)
    ensures ms == a + c
    ensures EmitAll(b, k, ms).0 == Kept(k.messages + a, k.count + |a|, k.bytes + Load(a), false)
    ensures Within(b, EmitAll(b, k, ms).0)
    ensures c != [] ==> k.count + |a| >= b.maxMessages || k.bytes + Load(a) + Load(c) > b.maxBytes
  {
    var n := KeepsLongest(b, k, ms);
    a, c := ms[..n], ms[n..];
    if c != [] {
      LoadAppend(a, [ms[n]]);
      assert ms[..n + 1] == a + [ms[n]];
      assert [ms[n]][1..] == [] && Load([ms[n]]) <= Load(c);
    }
  }

  /** Under the budget a session loses at most the end of what it was meant to hear, never something in
      between; and everything is kept if and only if the whole output is affordable. */
  lemma HeardUpToTheBudget(b: Budget, k: Kept, out: seq<Router.Out>, k': Kept, t: nat)
    requires Within(b, k) && !k.disconnecting && Emitted(b, k, out, k')
    ensures Within(b, k')
    ensures PacketsFor(k.messages, t) <= PacketsFor(k'.messages, t)
    ensures PacketsFor(k'.messages, t) <= PacketsFor(k.messages, t) + Router.Heard(out, t)
    ensures AllAffordable(b, k, out)
        ==> PacketsFor(k'.messages, t) == PacketsFor(k.messages, t) + Router.Heard(out, t)
    ensures AllAffordable(b, k, out) <==> |k'.messages| == |k.messages| + MessageCount(out)
  {
    var ms :| Spells(out, ms) && EmitAll(b, k, ms).0 == k';
    SpelledIsHeard(out, ms, t);
    SpelledSize(out, ms);
    var a, c := KeptInTwo(b, k, ms);
    PacketsAppend(k.messages, a, t);
    PacketsAppend(a, c, t);
    LoadAppend(a, c);
  }

  // ---- The context ----

  class Context {
    const budget: Budget
    var messages: seq<Message>
    var emittedMessages: nat
    var emittedBytes: nat
    var disconnectRequested: bool

    ghost function Value(): Kept
      reads this
    {
      Kept(messages, emittedMessages, emittedBytes, disconnectRequested)
    }

    constructor (budget: Budget)
      ensures this.budget == budget && Value() == NOTHING
    {
      this.budget, messages, emittedMessages, emittedBytes, disconnectRequested := budget, [], 0, 0, false;
    }

    method Emit(m: Message) returns (ok: bool)
      modifies this
      ensures (Value(), ok) == Offer(budget, old(Value()), m)
    {
      if disconnectRequested {
        return false;
      }
      if m.Disconnect? {
        if m.session != budget.own {
          return false;
        }
        messages, disconnectRequested := messages + [m], true;
        return true;
      }
      var size := |m.packet.payload| + HEADER_SIZE;
      if emittedMessages >= budget.maxMessages || size > budget.maxBytes - emittedBytes {
        return false;
      }
      messages := messages + [m];
      emittedMessages, emittedBytes := emittedMessages + 1, emittedBytes + size;
      ok := true;
    }

    /** The same packet for several sessions, in whatever order they come, up to the first refusal. */
    method Broadcast(recipients: set<nat>, p: Packet) returns (ok: bool, ghost ms: seq<Message>)
      modifies this
      ensures IsOrder(ms, recipients, p) && (Value(), ok) == EmitAll(budget, old(Value()), ms)
    {
      var remaining := recipients;
      ok := true;
      ghost var done: seq<Message> := [];
      while remaining != {} && ok
        invariant remaining <= recipients && |done| == |recipients| - |remaining|
        invariant forall i | 0 <= i < |done| ::
                    done[i] == Send(done[i].session, p) && done[i].session in recipients - remaining
        invariant forall i, j | 0 <= i < j < |done| :: done[i].session != done[j].session
        invariant (Value(), ok) == EmitAll(budget, old(Value()), done)
        decreases remaining
      {
        var q :| q in remaining;
        ghost var before := Value();
        ok := Emit(Send(q, p));
        EmitAppend(budget, old(Value()), done, [Send(q, p)]);
        OneMore(budget, before, Send(q, p));
        done := done + [Send(q, p)];
        remaining := remaining - {q};
      }
      ghost var rest := SomeOrder(remaining, p);
      EmitAppend(budget, old(Value()), done, rest);
      ms := done + rest;
    }

    /** The router's output in turn, up to the first refusal. */
    method EmitInTurn(out: seq<Router.Out>)
      modifies this
      ensures Emitted(budget, old(Value()), out, Value())
    {
      var ok := true;
      ghost var done: seq<Message> := [];
      for i := 0 to |out|
        invariant Spells(out[..i], done) && (Value(), ok) == EmitAll(budget, old(Value()), done)
      {
        ghost var before := Value();
        ghost var ms := SomeSpelling(out[i]);
        if ok {
          match out[i]
          case To(s, p) =>
            ok := Emit(Send(s, p));
            OneMore(budget, before, Send(s, p));
          case Last(s, p) =>
            ok := Emit(SendLast(s, p));
            OneMore(budget, before, SendLast(s, p));
          case ToAll(recipients, p) =>
            ok, ms := Broadcast(recipients, p);
        }
        EmitAppend(budget, old(Value()), done, ms);
        SpellsMore(out[..i], done, out[i], ms);
        assert out[..i + 1] == out[..i] + [out[i]];
        done := done + ms;
      }
      assert out[..|out|] == out;
    }
  }

  lemma OneMore(b: Budget, k: Kept, m: Message)
    ensures EmitAll(b, k, [m]) == Offer(b, k, m)
  {
    assert [m][1..] == [];
  }
}

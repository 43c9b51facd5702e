/**
  The IBKR ingress buffer: network threads append to a bounded buffer under a
  lock, and a drain on the event loop moves events on to the queue, at most 64 at
  a time, rescheduling itself while anything is left.
 */
module Ingress {
  import opened Results

  /** A venue event; market data carries the request it answers. */
  datatype Event = Event(name: string, marketData: bool, request: Option<int>)

  predicate IsCurrent(e: Event, requests: set<int>) {
    !e.marketData || e.request.None? || e.request.value in requests
  }

  const BATCH := 64

  /** What the lock protects, and the queue of the loop thread. */
  datatype Buffer = Buffer(
    pending: seq<Event>, drainScheduled: bool, overflowed: bool, received: nat, lost: nat, enqueued: nat, retired: nat,
    queue: seq<Event>)

  /** Limits of one connection. */
  datatype Limits = Limits(capacity: nat, queueSize: nat) {
    predicate Full(b: Buffer) { |b.queue| >= queueSize }
  }

  /** The locked part of an emit; the result says whether this thread must wake the loop. */
  function Admit(l: Limits, b: Buffer, e: Event): (Buffer, bool) {
    var seen := b.(received := b.received + 1);
    if |b.pending| >= l.capacity then (seen.(overflowed := true, lost := b.lost + 1), false)
    else (seen.(pending := b.pending + [e], drainScheduled := true), !b.drainScheduled)
  }

  /** One turn of the drain loop: the event in front goes on the queue if it is still current. */
  function Turn(b: Buffer, requests: set<int>): (r: Buffer)
    requires |b.pending| > 0
    ensures |r.pending| == |b.pending| - 1
  {
    var e, rest := b.pending[0], b.(pending := b.pending[1..]);
    if IsCurrent(e, requests) then rest.(queue := b.queue + [e], enqueued := b.enqueued + 1)
    else rest.(retired := b.retired + 1)
  }

  /** At most `n` turns. */
  function DrainSome(l: Limits, b: Buffer, requests: set<int>, n: nat): (r: Buffer)
    ensures |r.pending| <= |b.pending|
    decreases n
  {
    if n == 0 || |b.pending| == 0 || l.Full(b) then b else DrainSome(l, Turn(b, requests), requests, n - 1)
  }

  /** One drain; the result says whether it scheduled itself again. */
  function Drain(l: Limits, b: Buffer, requests: set<int>): (Buffer, bool) {
    var d := DrainSome(l, b, requests, BATCH);
    if |d.pending| == 0 then (d.(drainScheduled := false), false) else (d, true)
  }

  // --- the object ---------------------------------------------------------

  class IngressBuffer {
    const limits: Limits
    var pending: seq<Event>
    var drainScheduled: bool
    var overflowed: bool
    var received: nat
    var lost: nat
    var enqueued: nat
    var retired: nat
    var queue: seq<Event>

    ghost function View(): Buffer
      reads this
    {
      Buffer(pending, drainScheduled, overflowed, received, lost, enqueued, retired, queue)
    }

    constructor (limits: Limits)
      ensures View() == Buffer([], false, false, 0, 0, 0, 0, []) && this.limits == limits
    {
      this.limits := limits;
      pending, drainScheduled, overflowed := [], false, false;
      received, lost, enqueued, retired, queue := 0, 0, 0, 0, [];
    }

    method AdmitLocked(e: Event) returns (wake: bool)
      modifies this
      ensures (View(), wake) == Admit(limits, old(View()), e)
    {
      received := received + 1;
      if |pending| >= limits.capacity {
        overflowed := true;
        lost := lost + 1;
        return false;
      }
      pending := pending + [e];
      if drainScheduled {
        return false;
      }
      drainScheduled := true;
      wake := true;
    }

    method DrainIngress(requests: set<int>) returns (again: bool)
      modifies this
      ensures (View(), again) == Drain(limits, old(View()), requests)
    {
      var turn := 0;
      ghost var goal := DrainSome(limits, View(), requests, BATCH);
      while turn < BATCH && |pending| > 0 && |queue| < limits.queueSize
        invariant 0 <= turn <= BATCH
        invariant DrainSome(limits, View(), requests, BATCH - turn) == goal
        decreases BATCH - turn
      {
        TakeOne(requests);
        turn := turn + 1;
      }
      assert View() == goal;
      if |pending| == 0 {
        drainScheduled := false;
        return false;
      }
      again := true;
    }

    method TakeOne(requests: set<int>)
      requires |pending| > 0 && |queue| < limits.queueSize
      modifies this`pending, this`queue, this`enqueued, this`retired
      ensures View() == Turn(old(View()), requests)
    {
      var e := pending[0];
      pending := pending[1..];
      if IsCurrent(e, requests) {
        queue := queue + [e];
        enqueued := enqueued + 1;
      } else {
        retired := retired + 1;
      }
    }
  }

  // --- a drain ------------------------------------------------------------

  /** Those of the events that are current, in order. */
  function Current(events: seq<Event>, requests: set<int>): seq<Event> {
    if |events| == 0 then []
    else (if IsCurrent(events[0], requests) then [events[0]] else []) + Current(events[1..], requests)
  }

  /** How many events `n` turns of the drain loop take. */
  function TakenBy(l: Limits, b: Buffer, requests: set<int>, n: nat): nat {
    |b.pending| - |DrainSome(l, b, requests, n).pending|
  }

  /** `d` is `b` after its first `k` pending events went, in order, to the queue or into retirement. */
  ghost predicate TookFront(b: Buffer, d: Buffer, k: nat, requests: set<int>) {
    && k <= |b.pending| && d.pending == b.pending[k..]
    && var current := Current(b.pending[..k], requests);
    && d.queue == b.queue + current
    && d.enqueued == b.enqueued + |current|
    && d.retired + |current| == b.retired + k
    && d.received == b.received && d.lost == b.lost && d.overflowed == b.overflowed
      && d.drainScheduled == b.drainScheduled
  }

  lemma TurnTookFront(b: Buffer, d: Buffer, k: nat, requests: set<int>)
    requires |b.pending| > 0 && TookFront(Turn(b, requests), d, k, requests)
    ensures TookFront(b, d, k + 1, requests)
  {
    var front := b.pending[..k + 1];
    assert front[1..] == b.pending[1..][..k] && front[0] == b.pending[0];
    assert b.pending[1..][k..] == b.pending[k + 1..];
  }

  /**
    A drain takes events from the front only, puts the current ones on the queue in
    order and retires the rest; it stops after 64, at an empty buffer, or at a full queue.
   */
  lemma {:induction false} DrainIsFifo(l: Limits, b: Buffer, requests: set<int>, n: nat)
    ensures var d, k := DrainSome(l, b, requests, n), TakenBy(l, b, requests, n);
      TookFront(b, d, k, requests) && k <= n && (k == n || |d.pending| == 0 || l.Full(d))
    decreases n
  {
    if n == 0 || |b.pending| == 0 || l.Full(b) {
      assert b.pending[..0] == [] && b.pending[0..] == b.pending;
    } else {
      DrainIsFifo(l, Turn(b, requests), requests, n - 1);
      TurnTookFront(b, DrainSome(l, b, requests, n), TakenBy(l, b, requests, n) - 1, requests);
    }
  }

  // --- interleavings ------------------------------------------------------

  /**
    The buffer among threads: `wakes` threads have set the flag and not yet called the
    loop, `scheduled` drains wait on the loop. `accepted` and `delivered` record what was
    admitted and what was put on the queue; `kept` the verdict on each event that left the buffer.
   */
  datatype System = System(
    buffer: Buffer, wakes: nat, scheduled: nat, accepted: seq<Event>, delivered: seq<Event>, kept: seq<bool>)

  datatype Step =
    | Emits(e: Event)
    | Wakes
    | Drains(requests: set<int>)
    | Consumes
    | OtherProducer(e: Event)

  predicate Enabled(l: Limits, s: System, step: Step) {
    match step
    case Emits(_) => true
    case Wakes => s.wakes > 0
    case Drains(_) => s.scheduled > 0
    case Consumes => |s.buffer.queue| > 0
    case OtherProducer(_) => !l.Full(s.buffer)
  }

  function Verdicts(events: seq<Event>, requests: set<int>): (r: seq<bool>)
    ensures |r| == |events|
  {
    if |events| == 0 then [] else [IsCurrent(events[0], requests)] + Verdicts(events[1..], requests)
  }

  function Next(l: Limits, s: System, step: Step): System
    requires Enabled(l, s, step)
  {
    match step
    case Emits(e) =>
      var (b, wake) := Admit(l, s.buffer, e);
      s.(buffer := b, wakes := if wake then s.wakes + 1 else s.wakes,
         accepted := if |s.buffer.pending| < l.capacity then s.accepted + [e] else s.accepted)
    case Wakes => s.(wakes := s.wakes - 1, scheduled := s.scheduled + 1)
    case Drains(requests) =>
      var (b, again) := Drain(l, s.buffer, requests);
      var taken := s.buffer.pending[..TakenBy(l, s.buffer, requests, BATCH)];
      s.(buffer := b, scheduled := if again then s.scheduled else s.scheduled - 1,
         delivered := s.delivered + Current(taken, requests), kept := s.kept + Verdicts(taken, requests))
    case Consumes => s.(buffer := s.buffer.(queue := s.buffer.queue[1..]))
    case OtherProducer(e) => s.(buffer := s.buffer.(queue := s.buffer.queue + [e]))
  }

  /** The events whose verdict was to keep them, in order. */
  function KeptOf(events: seq<Event>, kept: seq<bool>): seq<Event>
    requires |events| == |kept|
  {
    if |events| == 0 then []
    else (if kept[0] then [events[0]] else []) + KeptOf(events[1..], kept[1..])
  }

  /**
    Accepted events left the buffer in order, one verdict each; the rest still wait in it, and
    the kept ones were delivered.
   */
  ghost predicate Fifo(accepted: seq<Event>, kept: seq<bool>, pending: seq<Event>, delivered: seq<Event>) {
    && |kept| <= |accepted|
    && pending == accepted[|kept|..]
    && delivered == KeptOf(accepted[..|kept|], kept)
  }

  predicate Counted(s: System) {
    && s.buffer.received == |s.accepted| + s.buffer.lost
    && s.buffer.enqueued == |s.delivered|
    && s.buffer.enqueued + s.buffer.retired == |s.kept|
  }

  /** Exactly one drain is on its way while the flag is set, none otherwise, and a non-empty buffer has the flag set. */
  predicate Awake(s: System) {
    && s.wakes + s.scheduled == (if s.buffer.drainScheduled then 1 else 0)
    && (|s.buffer.pending| > 0 ==> s.buffer.drainScheduled)
  }

  predicate LossIsFlagged(s: System) {
    s.buffer.lost > 0 <==> s.buffer.overflowed
  }

  ghost predicate IngressInv(s: System) {
    Fifo(s.accepted, s.kept, s.buffer.pending, s.delivered) && Counted(s) && Awake(s) && LossIsFlagged(s)
  }

  lemma {:induction false} KeptOfBoth(a: seq<Event>, ka: seq<bool>, b: seq<Event>, kb: seq<bool>)
    requires |a| == |ka| && |b| == |kb|
    ensures KeptOf(a + b, ka + kb) == KeptOf(a, ka) + KeptOf(b, kb)
  {
    if |a| == 0 {
      assert a + b == b && ka + kb == kb;
    } else {
      var first := if ka[0] then [a[0]] else [];
      assert (a + b)[1..] == a[1..] + b && (ka + kb)[1..] == ka[1..] + kb;
      assert KeptOf(a + b, ka + kb) == first + KeptOf(a[1..] + b, ka[1..] + kb);
      KeptOfBoth(a[1..], ka[1..], b, kb);
      assert KeptOf(a, ka) == first + KeptOf(a[1..], ka[1..]);
    }
  }

  lemma {:induction false} VerdictsKeepTheCurrent(events: seq<Event>, requests: set<int>)
    ensures KeptOf(events, Verdicts(events, requests)) == Current(events, requests)
  {
    if |events| > 0 {
      VerdictsKeepTheCurrent(events[1..], requests);
    }
  }

  /** An event is kept unless it is market data for a request that is no longer current. */
  lemma {:induction false} VerdictIsTheRequest(events: seq<Event>, requests: set<int>, i: nat)
    requires i < |events|
    ensures Verdicts(events, requests)[i]
      <==> !(events[i].marketData && events[i].request.Some? && events[i].request.value !in requests)
  {
    if i > 0 {
      VerdictIsTheRequest(events[1..], requests, i - 1);
    }
  }

  lemma FrontLeaves(accepted: seq<Event>, kept: seq<bool>, pending: seq<Event>, delivered: seq<Event>, k: nat,
      requests: set<int>)
    requires Fifo(accepted, kept, pending, delivered) && k <= |pending|
    ensures Fifo(accepted, kept + Verdicts(pending[..k], requests), pending[k..],
        delivered + Current(pending[..k], requests))
  {
    var n, taken := |kept|, pending[..k];
    KeptOfBoth(accepted[..n], kept, taken, Verdicts(taken, requests));
    VerdictsKeepTheCurrent(taken, requests);
    assert accepted[..n] + taken == accepted[..n + k];
    assert accepted[n..][k..] == accepted[n + k..];
  }

  lemma DrainKeepsFifo(l: Limits, s: System, requests: set<int>)
    requires IngressInv(s) && s.scheduled > 0
    ensures var next := Next(l, s, Drains(requests));
      Fifo(next.accepted, next.kept, next.buffer.pending, next.delivered) && Counted(next)
  {
    DrainIsFifo(l, s.buffer, requests, BATCH);
    FrontLeaves(s.accepted, s.kept, s.buffer.pending, s.delivered, TakenBy(l, s.buffer, requests, BATCH), requests);
  }

  lemma StepKeepsIngress(l: Limits, s: System, step: Step)
    requires IngressInv(s) && Enabled(l, s, step)
    ensures IngressInv(Next(l, s, step))
    ensures s.buffer.overflowed ==> Next(l, s, step).buffer.overflowed
  {
    match step
    case Emits(e) =>
      assert (s.accepted + [e])[|s.kept|..] == s.accepted[|s.kept|..] + [e];
      assert (s.accepted + [e])[..|s.kept|] == s.accepted[..|s.kept|];
    case Drains(requests) =>
      DrainKeepsFifo(l, s, requests);
      DrainIsFifo(l, s.buffer, requests, BATCH);
    case _ =>
  }

  lemma StepKeepsOverflow(l: Limits, s: System, step: Step)
    requires IngressInv(s) && Enabled(l, s, step) && s.buffer.overflowed
    ensures Next(l, s, step).buffer.overflowed
  {
    StepKeepsIngress(l, s, step);
  }

  const EMPTY := Buffer([], false, false, 0, 0, 0, 0, [])

  ghost predicate IngressRun(l: Limits, states: seq<System>, steps: seq<Step>) {
    && |states| == |steps| + 1
    && states[0] == System(EMPTY, 0, 0, [], [], [])
    && forall i :: 0 <= i < |steps| ==> Enabled(l, states[i], steps[i]) && states[i + 1] == Next(l, states[i], steps[i])
  }

  lemma {:induction false} RunKeepsIngress(l: Limits, states: seq<System>, steps: seq<Step>, i: nat)
    requires IngressRun(l, states, steps) && i < |states|
    ensures IngressInv(states[i])
  {
    if i > 0 {
      RunKeepsIngress(l, states, steps, i - 1);
      StepKeepsIngress(l, states[i - 1], steps[i - 1]);
    }
  }

  /**
    Over every interleaving of threads and loop within a connection: what was put on the
    queue is the accepted events in order, less those retired at a drain; every received
    event is queued, lost, pending or retired; and exactly a loss is flagged.
   */
  lemma IngressIsLosslessFifo(l: Limits, states: seq<System>, steps: seq<Step>, i: nat)
    requires IngressRun(l, states, steps) && i < |states|
    ensures var s := states[i];
      && |s.kept| + |s.buffer.pending| == |s.accepted|
      && s.delivered == KeptOf(s.accepted[..|s.kept|], s.kept)
      && s.buffer.pending == s.accepted[|s.kept|..]
      && s.buffer.received == s.buffer.enqueued + s.buffer.lost + |s.buffer.pending| + s.buffer.retired
      && (s.buffer.lost > 0 <==> s.buffer.overflowed)
  {
    RunKeepsIngress(l, states, steps, i);
  }

  /**
    No lost wake-up: a non-empty buffer always has exactly one drain on its way, and a thread or
    the loop can run it.
   */
  lemma NonEmptyHasADrain(l: Limits, states: seq<System>, steps: seq<Step>, i: nat)
    requires IngressRun(l, states, steps) && i < |states| && |states[i].buffer.pending| > 0
    ensures states[i].wakes + states[i].scheduled == 1
    ensures Enabled(l, states[i], Wakes) || Enabled(l, states[i], Drains({}))
  {
    RunKeepsIngress(l, states, steps, i);
  }

  /** The overflow flag never clears. */
  lemma {:induction false} OverflowIsSticky(l: Limits, states: seq<System>, steps: seq<Step>, i: nat, j: nat)
    requires IngressRun(l, states, steps) && i <= j < |states| && states[i].buffer.overflowed
    ensures states[j].buffer.overflowed
  {
    if i < j {
      RunKeepsIngress(l, states, steps, j - 1);
      OverflowIsSticky(l, states, steps, i, j - 1);
      StepKeepsOverflow(l, states[j - 1], steps[j - 1]);
    }
  }

  /** With room on the queue a drain always gets on: it empties the buffer, takes a full batch, or fills the queue. */
  lemma DrainGetsOn(l: Limits, b: Buffer, requests: set<int>)
    requires |b.pending| > 0 && !l.Full(b)
    ensures var d := Drain(l, b, requests).0;
      && |d.pending| < |b.pending| <= |d.pending| + 64
      && (|d.pending| == 0 || |d.pending| + 64 == |b.pending| || l.Full(d))
  {
    DrainIsFifo(l, b, requests, BATCH);
  }
}

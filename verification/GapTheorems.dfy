/**
  What the callback gap guarantees: over every run its deadline stands and its
  expiry latches; what it tolerates is bounded by the anchor and by the known
  orders; and for a venue that tells the truth late and in any order, nothing
  the callbacks disagree about is taken for a fault.
 */
module GapTheorems {
  import opened Results
  import opened LedgerModel
  import opened CallbackGap

  // --- every run ----------------------------------------------------------

  datatype Event =
    | Reconciled(orders: seq<Progress>, expected: real, now: real, elsewhere: bool)
    | WatchdogFired
    | PositionSeen(contract: string, quantity: real)
    | StatusSeen(orderId: int, status: ZqStatus, effective: Option<ZqStatus>)
    | RefreshBegun
    | MarkerSeen(marker: Marker)
    | Disconnected
    | Paused
    | Disarmed
    | Armed

  /** One reconciliation: classify, latch a pause on anything unsafe, and take a new anchor from a clean full read. */
  function Reconcile(w: Watch, orders: seq<Progress>, expected: real, now: real, settle: real, elsewhere: bool): Watch {
    var v := Classify(w, orders, expected, now, settle);
    var latched := if Unsafe(v) != {} then v.watch.(paused := true, armed := false) else v.watch;
    if AllComplete(latched) && v.differences == {} && elsewhere then OnClean(latched, expected) else latched
  }

  function After(w: Watch, e: Event, settle: real): Watch {
    match e
    case Reconciled(orders, expected, now, elsewhere) => Reconcile(w, orders, expected, now, settle, elsewhere)
    case WatchdogFired => Expire(w)
    case PositionSeen(contract, quantity) => OnPosition(w, contract, quantity)
    case StatusSeen(orderId, status, effective) => OnStatus(w, orderId, status, effective)
    case RefreshBegun => BeginRefresh(w)
    case MarkerSeen(marker) => OnMarker(w, marker)
    case Disconnected => OnDisconnect(w)
    case Paused => w.(paused := true, armed := false)
    case Disarmed => w.(armed := false)
    case Armed => w.(paused := false, armed := true)
  }

  function Run(w: Watch, events: seq<Event>, settle: real): Watch {
    if |events| == 0 then w else After(Run(w, events[..|events| - 1], settle), events[|events| - 1], settle)
  }

  /** The gap is never closed along the run. */
  predicate StaysOpen(w: Watch, events: seq<Event>, settle: real) {
    w.gap.Some? && (|events| == 0 || (StaysOpen(w, events[..|events| - 1], settle) && Run(w, events, settle).gap.Some?))
  }

  /** A deadline belongs to an open gap, and only an open gap can have expired. */
  predicate Shaped(w: Watch) {
    (w.gap.Some? <==> w.deadline.Some?) && (w.expired ==> w.gap.Some?)
  }

  /** The gap, if it is still open, is the same gap with the same deadline and no expiry undone. */
  predicate SameGap(w: Watch, next: Watch) {
    w.gap.Some? && next.gap.Some? ==> next.gap == w.gap && next.deadline == w.deadline && (w.expired ==> next.expired)
  }

  lemma ClassifyKeepsShape(w: Watch, orders: seq<Progress>, expected: real, now: real, settle: real)
    requires Shaped(w)
    ensures Shaped(Classify(w, orders, expected, now, settle).watch)
    ensures SameGap(w, Classify(w, orders, expected, now, settle).watch)
  {
  }

  lemma StepKeepsShape(w: Watch, e: Event, settle: real)
    requires Shaped(w)
    ensures Shaped(After(w, e, settle))
    ensures SameGap(w, After(w, e, settle))
  {
    if e.Reconciled? {
      var next := Classify(w, e.orders, e.expected, e.now, settle).watch;
      ClassifyKeepsShape(w, e.orders, e.expected, e.now, settle);
      var after := After(w, e, settle);
      assert after.gap == next.gap && after.deadline == next.deadline && after.expired == next.expired;
    }
  }

  lemma {:induction false} RunKeepsShape(w: Watch, events: seq<Event>, settle: real)
    requires Shaped(w)
    ensures Shaped(Run(w, events, settle))
  {
    if |events| > 0 {
      RunKeepsShape(w, events[..|events| - 1], settle);
      StepKeepsShape(Run(w, events[..|events| - 1], settle), events[|events| - 1], settle);
    }
  }

  /** However long a gap stays open, its deadline is the one it opened with, and an expiry is not undone. */
  lemma {:induction false} DeadlineNeverMoves(w: Watch, events: seq<Event>, settle: real)
    requires Shaped(w) && StaysOpen(w, events, settle)
    ensures Run(w, events, settle).gap == w.gap
    ensures Run(w, events, settle).deadline == w.deadline
    ensures w.expired ==> Run(w, events, settle).expired
  {
    if |events| > 0 {
      var before := events[..|events| - 1];
      RunKeepsShape(w, before, settle);
      DeadlineNeverMoves(w, before, settle);
      StepKeepsShape(Run(w, before, settle), events[|events| - 1], settle);
      StaysOpenAtEnd(w, before, settle);
    }
  }

  lemma {:induction false} StaysOpenAtEnd(w: Watch, events: seq<Event>, settle: real)
    requires StaysOpen(w, events, settle)
    ensures Run(w, events, settle).gap.Some?
  {
  }

  lemma OverdueToleratesNothing(w: Watch, orders: seq<Progress>, expected: real, now: real, settle: real)
    requires Shaped(w) && w.gap.Some? && (w.expired || now >= w.deadline.value)
    ensures Classify(w, orders, expected, now, settle).tolerated == {}
  {
  }

  /** No classification at or after the deadline a gap opened with tolerates anything for that gap. */
  lemma NothingToleratedAfterTheDeadline(w: Watch, events: seq<Event>, orders: seq<Progress>, expected: real, now: real,
      settle: real)
    requires Shaped(w) && StaysOpen(w, events, settle)
    requires w.expired || now >= w.deadline.value
    ensures Classify(Run(w, events, settle), orders, expected, now, settle).tolerated == {}
  {
    RunKeepsShape(w, events, settle);
    DeadlineNeverMoves(w, events, settle);
    OverdueToleratesNothing(Run(w, events, settle), orders, expected, now, settle);
  }

  predicate Latched(w: Watch) {
    w.paused && !w.armed
  }

  lemma ClassifyKeepsLatch(w: Watch, orders: seq<Progress>, expected: real, now: real, settle: real)
    requires Latched(w)
    ensures Latched(Classify(w, orders, expected, now, settle).watch)
  {
  }

  lemma StepKeepsLatch(w: Watch, e: Event, settle: real)
    requires Latched(w) && e != Armed
    ensures Latched(After(w, e, settle))
  {
    if e.Reconciled? {
      ClassifyKeepsLatch(w, e.orders, e.expected, e.now, settle);
    }
  }

  /**
    The first classification at or after the deadline, or the watchdog, pauses and
    disarms; whatever evidence arrives later, only an operator arms again.
   */
  lemma {:induction false} ExpiryLatches(w: Watch, first: Event, events: seq<Event>, settle: real)
    requires Shaped(w) && w.gap.Some? && !w.expired
    requires first == WatchdogFired || (first.Reconciled? && first.now >= w.deadline.value)
    requires Armed !in events
    ensures Latched(Run(After(w, first, settle), events, settle))
  {
    var latched := After(w, first, settle);
    assert Latched(latched);
    if |events| > 0 {
      ExpiryLatches(w, first, events[..|events| - 1], settle);
      StepKeepsLatch(Run(latched, events[..|events| - 1], settle), events[|events| - 1], settle);
    }
  }

  // --- what is tolerated --------------------------------------------------

  /** A gap may still be used: none is open yet, or the open one is in time and no fresh read completed since. */
  predicate InGrace(w: Watch, now: real) {
    w.gap.None? || (!w.expired && (w.deadline.Some? ==> now < w.deadline.value)
      && w.completedSerial <= w.gap.value.refreshSerial)
  }

  /**
    A position that differs from the ledger is tolerated exactly when a gap may be used
    and the position lies between the anchor and the ledger, or above the ledger by no
    more than the known orders can still add.
   */
  lemma ToleratedMismatchIsBounded(w: Watch, orders: seq<Progress>, expected: real, now: real, settle: real)
    requires Shaped(w)
    ensures PositionMismatch in Classify(w, orders, expected, now, settle).tolerated
      <==> Observed(w).Some? && w.matched.Some? && InGrace(w, now)
           && (w.matched.value <= Observed(w).value < expected
               || (w.matched.value <= expected < Observed(w).value <= expected + Capacity(orders)))
  {
    assert Observed(ExpireIfDue(w, now)) == Observed(w);
  }

  /** Evidence that disagrees leaves a gap open or latches a pause: either way no entry is authorised. */
  lemma DisagreementBlocksEntry(w: Watch, orders: seq<Progress>, expected: real, now: real, settle: real,
      elsewhere: bool)
    requires Classify(w, orders, expected, now, settle).differences != {}
    ensures var next := Reconcile(w, orders, expected, now, settle, elsewhere); next.gap.Some? || Latched(next)
  {
    var v := Classify(w, orders, expected, now, settle);
    if v.watch.gap.None? {
      assert v.tolerated == {};
      assert Unsafe(v) == v.differences;
    }
  }
}

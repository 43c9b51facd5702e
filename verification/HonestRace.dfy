/**
  The race the gap exists for: position, execution and status callbacks about known
  BUY orders arrive late, repeated and in any order, from a venue that never runs
  ahead of the true fills.
 */
module HonestRace {
  import opened Results
  import opened Amounts
  import opened LedgerModel
  import opened LedgerSteps
  import opened CallbackGap
  import opened GapTheorems

  /** What stays fixed: the contract traded, what was held of it before, and all ZQ inventory before. */
  datatype Setting = Setting(contract: string, held: real, opening: real, settle: real)

  /** What truly happened to one order: shares filled, whether it can fill further, and whether it was sent. */
  datatype Truth = Truth(filled: real, ended: bool, sent: bool)

  /**
    The watch and the ledger's orders beside the truth, and the fills the last position
    callback showed. From a send on, `marking` is the order whose marking as submitted
    waits for the ledger transaction; `lagging` says that the IBKR handler has run since,
    so that the check it asks for waits behind the marking.
   */
  datatype Race = Race(
    watch: Watch, orders: seq<Progress>, truths: seq<Truth>, shown: real, marking: Option<nat>, lagging: bool)

  const NO_EVIDENCE := Watch([], None, {}, false, 0, 0, {}, {}, None, None, None, false, true, false)

  const START := Race(NO_EVIDENCE, [], [], 0.0, None, false)

  datatype Happening =
    | VenueFills(index: nat, shares: real)
    | VenueEnds(index: nat)
    | PositionCallback(contract: string, quantity: real)
    | ExecutionCallback(index: nat, shares: real)
    | StatusCallback(index: nat, status: ZqStatus, fill: Option<real>)
    | RefreshBegins
    | EndMarker(marker: Marker)
    | Disconnects
    | Check(now: real, elsewhere: bool)
    | WatchdogFires                           // the deadline passed without a check
    | Intends(orderId: int, quantity: real)   // the ledger records a new order before it is sent
    | Sends(index: nat)                       // it goes out, and its marking asks for the ledger
    | Submits(index: nat)                     // the ledger marks it submitted
    | MarkingFails                            // or the marking is cancelled or raises
    | Abandons(index: nat)                    // the ledger gives it up unsent

  /** The ledger's ZQ quantity: opening inventory and every recorded fill. */
  function Expected(s: Setting, orders: seq<Progress>): real {
    s.opening + SumExecuted(orders)
  }

  function QuantityOf(positions: seq<Position>, contract: string): real {
    if |positions| == 0 then 0.0
    else if positions[0].contract == contract then positions[0].quantity
    else QuantityOf(positions[1..], contract)
  }

  function SumFilled(truths: seq<Truth>): real {
    if |truths| == 0 then 0.0 else SumFilled(truths[..|truths| - 1]) + truths[|truths| - 1].filled
  }

  /** The fill a status carries; FILLED without a figure means the whole order. */
  function StatusFill(p: Progress, status: ZqStatus, fill: Option<real>): Option<real> {
    if status.ZqFilled? && fill.None? then Some(p.quantity) else fill
  }

  /** How an order's progress takes over a status; a finished order ignores an unfinished one. */
  function ReportedProgress(p: Progress, status: ZqStatus, fill: Option<real>): Progress {
    if FinishedZq(p.state) && !FinishedZq(status) then p
    else
      var figure := StatusFill(p, status, fill);
      p.(state := status, reported := if figure.Some? then Max(p.reported, figure.value) else p.reported)
  }

  function EffectiveState(p: Progress, status: ZqStatus): ZqStatus {
    if FinishedZq(p.state) && !FinishedZq(status) then p.state else status
  }

  predicate Indexed(h: Happening) {
    || h.VenueFills? || h.VenueEnds? || h.ExecutionCallback? || h.StatusCallback?
    || h.Sends? || h.Submits? || h.Abandons?
  }

  predicate UnsentIntent(r: Race, index: nat) {
    index < |r.orders| && index < |r.truths| && r.orders[index].state.ZqIntent? && !r.truths[index].sent
  }

  /**
    What can happen at all, honest or not. Ledger transactions run in the order they are
    asked for: whatever the handler does about a sent order, and the check after any
    callback, comes behind the marking that the send asked for.
   */
  predicate Possible(r: Race, h: Happening) {
    && |r.truths| == |r.orders|
    && (Indexed(h) ==> h.index < |r.orders|)
    && match h
       case Intends(_, quantity) => quantity > 0.0
       case Sends(index) => UnsentIntent(r, index) && r.marking.None?
       case Submits(index) => r.marking == Some(index)
       case MarkingFails => r.marking.Some?
       case Abandons(index) => UnsentIntent(r, index)
       case ExecutionCallback(index, _) => r.marking != Some(index)
       case StatusCallback(index, _, _) => r.marking != Some(index)
       case Check(_, _) => !r.lagging
       case _ => true
  }

  /** The positions add up to what was held before and the fills shown. */
  predicate Tells(s: Setting, positions: seq<Position>, shown: real) {
    SumPositions(positions) == s.opening + shown && QuantityOf(positions, s.contract) == s.held + shown
  }

  /**
    The venue tells the truth, late or again: only what was sent fills, a position lies
    between the last one shown and the true fills, a report never exceeds the true fill,
    and a finished status gives the final one.
   */
  predicate Honest(s: Setting, r: Race, h: Happening)
    requires Possible(r, h)
  {
    match h
    case VenueFills(index, shares) =>
      var p, t := r.orders[index], r.truths[index];
      t.sent && shares >= 0.0 && !t.ended && t.filled + shares <= p.quantity
    case PositionCallback(contract, quantity) =>
      if contract == s.contract then r.shown <= quantity - s.held <= SumFilled(r.truths)
      else
        && (r.watch.callbackPositions.Some? ==> quantity == QuantityOf(r.watch.callbackPositions.value, contract))
        && (PositionEnd in r.watch.complete ==> quantity == QuantityOf(r.watch.positions, contract))
    case ExecutionCallback(index, shares) => 0.0 < shares && r.orders[index].executed + shares <= r.truths[index].filled
    case StatusCallback(index, status, fill) =>
      var figure, t := StatusFill(r.orders[index], status, fill), r.truths[index];
      && t.sent && !status.ZqIntent?
      && (figure.Some? ==> figure.value <= t.filled)
      && (FinishedZq(status) ==> t.ended && figure == Some(t.filled))
    case EndMarker(marker) => marker.PositionEnd? ==> Tells(s, r.watch.positions, r.shown)
    case _ => true
  }

  predicate Enabled(s: Setting, r: Race, h: Happening) {
    Possible(r, h) && Honest(s, r, h)
  }

  /** Only an order still at its intent moves on. */
  function Marked(p: Progress): Progress {
    if p.state.ZqIntent? then p.(state := ZqSubmitted) else p
  }

  function Next(s: Setting, r: Race, h: Happening): Race
    requires Possible(r, h)
  {
    match h
    case VenueFills(index, shares) =>
      r.(truths := r.truths[index := r.truths[index].(filled := r.truths[index].filled + shares)])
    case VenueEnds(index) => r.(truths := r.truths[index := r.truths[index].(ended := true)])
    case PositionCallback(contract, quantity) =>
      r.(watch := OnPosition(r.watch, contract, quantity),
         shown := if contract == s.contract then quantity - s.held else r.shown, lagging := r.marking.Some?)
    case ExecutionCallback(index, shares) =>
      r.(orders := r.orders[index := r.orders[index].(executed := r.orders[index].executed + shares)])
    case StatusCallback(index, status, fill) =>
      var p := r.orders[index];
      r.(orders := r.orders[index := ReportedProgress(p, status, fill)],
         watch := OnStatus(r.watch, p.orderId, status, Some(EffectiveState(p, status))))
    case RefreshBegins => r.(watch := BeginRefresh(r.watch), lagging := r.marking.Some?)
    case EndMarker(marker) => r.(watch := OnMarker(r.watch, marker), lagging := r.marking.Some?)
    case Disconnects => r.(watch := OnDisconnect(r.watch), lagging := r.marking.Some?)
    case Check(now, elsewhere) =>
      r.(watch := Reconcile(r.watch, r.orders, Expected(s, r.orders), now, s.settle, elsewhere))
    case WatchdogFires => r.(watch := Expire(r.watch))
    case Intends(orderId, quantity) =>
      r.(orders := r.orders + [Progress(orderId, ZqIntent, quantity, 0.0, 0.0)],
         truths := r.truths + [Truth(0.0, false, false)])
    case Sends(index) =>
      r.(truths := r.truths[index := r.truths[index].(sent := true)], marking := Some(index), lagging := false)
    case Submits(index) => r.(orders := r.orders[index := Marked(r.orders[index])], marking := None, lagging := false)
    case MarkingFails => r.(marking := None, lagging := false)
    case Abandons(index) =>
      r.(orders := r.orders[index := r.orders[index].(state := ZqAborted)],
         truths := r.truths[index := r.truths[index].(ended := true)])
  }

  // --- invariant ----------------------------------------------------------

  predicate OrderHonest(p: Progress, t: Truth) {
    && p.executed <= t.filled <= p.quantity
    && p.reported <= t.filled
    && (FinishedZq(p.state) ==> t.ended && t.filled <= Max(p.reported, p.executed))
    && (p.state.ZqIntent? && !t.sent ==> t.filled <= p.executed)
  }

  /** Sent, and still an intent in the ledger. */
  predicate Unmarked(p: Progress, t: Truth) {
    p.state.ZqIntent? && t.sent
  }

  predicate OrdersHonest(r: Race) {
    |r.truths| == |r.orders| && forall i :: 0 <= i < |r.orders| ==> OrderHonest(r.orders[i], r.truths[i])
  }

  predicate EvidenceHonest(s: Setting, r: Race) {
    var w := r.watch;
    && r.shown <= SumFilled(r.truths)
    && (w.callbackPositions.Some? ==> Tells(s, w.callbackPositions.value, r.shown))
    && (PositionEnd in w.complete ==> Tells(s, w.positions, r.shown))
    && (w.matched.Some? ==>
          w.callbackPositions.Some? && w.matched.value <= Expected(s, r.orders)
            && w.matched.value <= s.opening + r.shown)
  }

  ghost predicate RaceInv(s: Setting, r: Race) {
    OrdersHonest(r) && EvidenceHonest(s, r) && Shaped(r.watch)
  }

  /** What a position may show that the known orders explain: all fills but those of an unmarked order. */
  function SumMarked(orders: seq<Progress>, truths: seq<Truth>): real
    requires |truths| == |orders|
  {
    if |orders| == 0 then 0.0
    else
      var n := |orders| - 1;
      SumMarked(orders[..n], truths[..n])
        + (if Unmarked(orders[n], truths[n]) then orders[n].executed else truths[n].filled)
  }

  /** Only the order whose marking waits is unmarked, and until the handler runs nothing of it is shown. */
  ghost predicate MarkingInv(r: Race) {
    && |r.truths| == |r.orders|
    && (forall i :: 0 <= i < |r.orders| && Unmarked(r.orders[i], r.truths[i]) ==> r.marking == Some(i))
    && (!r.lagging ==> r.shown <= SumMarked(r.orders, r.truths))
  }

  /**
    An engine that starts over any ledger and any truth: it has seen nothing, and whatever
    the orders filled is within their sizes, reports and ends.
   */
  lemma RestartIsHonest(s: Setting, orders: seq<Progress>, truths: seq<Truth>, shown: real)
    requires |truths| == |orders| && forall i :: 0 <= i < |orders| ==> OrderHonest(orders[i], truths[i])
    requires shown <= SumFilled(truths)
    ensures var r := Race(NO_EVIDENCE, orders, truths, shown, None, false);
      && RaceInv(s, r)
      && ((forall i :: 0 <= i < |orders| ==> !Unmarked(orders[i], truths[i])) ==> MarkingInv(r))
  {
    if forall i :: 0 <= i < |orders| ==> !Unmarked(orders[i], truths[i]) {
      AllMarked(orders, truths);
    }
  }

  lemma {:induction false} AllMarked(orders: seq<Progress>, truths: seq<Truth>)
    requires |truths| == |orders| && forall i :: 0 <= i < |orders| ==> !Unmarked(orders[i], truths[i])
    ensures SumMarked(orders, truths) == SumFilled(truths)
    decreases |orders|
  {
    if |orders| > 0 {
      var n := |orders| - 1;
      AllMarked(orders[..n], truths[..n]);
    }
  }

  // --- sums ---------------------------------------------------------------

  lemma {:induction false} SumPositionsHead(positions: seq<Position>)
    requires |positions| > 0
    ensures SumPositions(positions) == positions[0].quantity + SumPositions(positions[1..])
  {
    if |positions| > 1 {
      SumPositionsHead(positions[..|positions| - 1]);
      assert positions[1..][..|positions| - 2] == positions[..|positions| - 1][1..];
    }
  }

  /** A position callback moves the total by the change of its contract, and no other contract. */
  lemma {:induction false} UpsertMovesTheTotal(positions: seq<Position>, contract: string, quantity: real)
    ensures var updated := Upsert(positions, contract, quantity);
      && SumPositions(updated) == SumPositions(positions) - QuantityOf(positions, contract) + quantity
      && QuantityOf(updated, contract) == quantity
      && forall c :: c != contract ==> QuantityOf(updated, c) == QuantityOf(positions, c)
  {
    if |positions| > 0 {
      var updated := Upsert(positions, contract, quantity);
      SumPositionsHead(positions);
      SumPositionsHead(updated);
      if positions[0].contract == contract {
        assert updated[1..] == positions[1..];
      } else {
        assert updated[1..] == Upsert(positions[1..], contract, quantity);
        UpsertMovesTheTotal(positions[1..], contract, quantity);
      }
    } else {
      assert Upsert(positions, contract, quantity)[1..] == [];
    }
  }

  lemma {:induction false} SumExecutedUpdate(orders: seq<Progress>, k: nat, p: Progress)
    requires k < |orders|
    ensures SumExecuted(orders[k := p]) == SumExecuted(orders) - orders[k].executed + p.executed
  {
    var updated := orders[k := p];
    var n := |orders| - 1;
    if k == n {
      assert updated[..n] == orders[..n];
    } else {
      assert updated[..n] == orders[..n][k := p];
      SumExecutedUpdate(orders[..n], k, p);
    }
  }

  lemma {:induction false} SumFilledUpdate(truths: seq<Truth>, k: nat, t: Truth)
    requires k < |truths|
    ensures SumFilled(truths[k := t]) == SumFilled(truths) - truths[k].filled + t.filled
  {
    var updated := truths[k := t];
    var n := |truths| - 1;
    if k == n {
      assert updated[..n] == truths[..n];
    } else {
      assert updated[..n] == truths[..n][k := t];
      SumFilledUpdate(truths[..n], k, t);
    }
  }

  lemma {:induction false} SumMarkedUpdate(orders: seq<Progress>, truths: seq<Truth>, k: nat, p: Progress, t: Truth)
    requires |truths| == |orders| && k < |orders|
    ensures SumMarked(orders[k := p], truths[k := t]) == SumMarked(orders, truths)
      - (if Unmarked(orders[k], truths[k]) then orders[k].executed else truths[k].filled)
      + (if Unmarked(p, t) then p.executed else t.filled)
    decreases |orders|
  {
    var n := |orders| - 1;
    var orders', truths' := orders[k := p], truths[k := t];
    if k == n {
      assert orders'[..n] == orders[..n] && truths'[..n] == truths[..n];
    } else {
      assert orders'[..n] == orders[..n][k := p] && truths'[..n] == truths[..n][k := t];
      SumMarkedUpdate(orders[..n], truths[..n], k, p, t);
    }
  }

  lemma OrderRoom(p: Progress, t: Truth)
    requires OrderHonest(p, t)
    ensures (if Unmarked(p, t) then p.executed else t.filled) - p.executed <= CapacityOf(p)
  {}

  /** What is filled and not yet executed in the ledger, unmarked orders aside, the known orders have room for. */
  lemma {:induction false} CapacityCoversTheFills(orders: seq<Progress>, truths: seq<Truth>)
    requires |truths| == |orders| && forall i :: 0 <= i < |orders| ==> OrderHonest(orders[i], truths[i])
    ensures SumMarked(orders, truths) - SumExecuted(orders) <= Capacity(orders)
    decreases |orders|
  {
    if |orders| > 0 {
      var n := |orders| - 1;
      CapacityCoversTheFills(orders[..n], truths[..n]);
      OrderRoom(orders[n], truths[n]);
    }
  }

  // --- every step keeps the invariant -------------------------------------

  lemma TellsOn(s: Setting, positions: seq<Position>, shown: real, contract: string, quantity: real)
    requires Tells(s, positions, shown)
    requires contract != s.contract ==> quantity == QuantityOf(positions, contract)
    ensures Tells(s, Upsert(positions, contract, quantity), if contract == s.contract then quantity - s.held else shown)
  {
    UpsertMovesTheTotal(positions, contract, quantity);
  }

  lemma PositionKeepsRace(s: Setting, r: Race, contract: string, quantity: real)
    requires RaceInv(s, r) && Enabled(s, r, PositionCallback(contract, quantity))
    ensures RaceInv(s, Next(s, r, PositionCallback(contract, quantity)))
  {
    if r.watch.callbackPositions.Some? {
      TellsOn(s, r.watch.callbackPositions.value, r.shown, contract, quantity);
    }
    if PositionEnd in r.watch.complete {
      TellsOn(s, r.watch.positions, r.shown, contract, quantity);
    }
  }

  lemma FillKeepsRace(s: Setting, r: Race, index: nat, shares: real)
    requires RaceInv(s, r) && Enabled(s, r, VenueFills(index, shares))
    ensures RaceInv(s, Next(s, r, VenueFills(index, shares)))
  {
    SumFilledUpdate(r.truths, index, r.truths[index].(filled := r.truths[index].filled + shares));
  }

  lemma EndKeepsRace(s: Setting, r: Race, index: nat)
    requires RaceInv(s, r) && Enabled(s, r, VenueEnds(index))
    ensures RaceInv(s, Next(s, r, VenueEnds(index)))
  {
    SumFilledUpdate(r.truths, index, r.truths[index].(ended := true));
  }

  lemma ExecutionKeepsRace(s: Setting, r: Race, index: nat, shares: real)
    requires RaceInv(s, r) && Enabled(s, r, ExecutionCallback(index, shares))
    ensures RaceInv(s, Next(s, r, ExecutionCallback(index, shares)))
  {
    SumExecutedUpdate(r.orders, index, r.orders[index].(executed := r.orders[index].executed + shares));
  }

  lemma ReportIsHonest(s: Setting, r: Race, index: nat, status: ZqStatus, fill: Option<real>)
    requires OrdersHonest(r) && Enabled(s, r, StatusCallback(index, status, fill))
    ensures OrderHonest(ReportedProgress(r.orders[index], status, fill), r.truths[index])
  {
    assert OrderHonest(r.orders[index], r.truths[index]);
  }

  lemma StatusKeepsRace(s: Setting, r: Race, index: nat, status: ZqStatus, fill: Option<real>)
    requires RaceInv(s, r) && Enabled(s, r, StatusCallback(index, status, fill))
    ensures RaceInv(s, Next(s, r, StatusCallback(index, status, fill)))
  {
    ReportIsHonest(s, r, index, status, fill);
    SumExecutedUpdate(r.orders, index, ReportedProgress(r.orders[index], status, fill));
  }

  /** A new order has executed and filled nothing. */
  lemma IntentKeepsRace(s: Setting, r: Race, orderId: int, quantity: real)
    requires RaceInv(s, r) && Enabled(s, r, Intends(orderId, quantity))
    ensures RaceInv(s, Next(s, r, Intends(orderId, quantity)))
  {
    var next := Next(s, r, Intends(orderId, quantity));
    assert next.orders[..|r.orders|] == r.orders && next.truths[..|r.truths|] == r.truths;
    assert SumExecuted(next.orders) == SumExecuted(r.orders) && SumFilled(next.truths) == SumFilled(r.truths);
  }

  lemma SubmissionKeepsRace(s: Setting, r: Race, index: nat)
    requires RaceInv(s, r) && Enabled(s, r, Submits(index))
    ensures RaceInv(s, Next(s, r, Submits(index)))
  {
    assert OrderHonest(r.orders[index], r.truths[index]);
    SumExecutedUpdate(r.orders, index, Marked(r.orders[index]));
  }

  lemma SendKeepsRace(s: Setting, r: Race, index: nat)
    requires RaceInv(s, r) && Enabled(s, r, Sends(index))
    ensures RaceInv(s, Next(s, r, Sends(index)))
  {
    assert OrderHonest(r.orders[index], r.truths[index]);
    SumFilledUpdate(r.truths, index, r.truths[index].(sent := true));
  }

  lemma AbandonmentKeepsRace(s: Setting, r: Race, index: nat)
    requires RaceInv(s, r) && Enabled(s, r, Abandons(index))
    ensures RaceInv(s, Next(s, r, Abandons(index)))
  {
    assert OrderHonest(r.orders[index], r.truths[index]);
    SumExecutedUpdate(r.orders, index, r.orders[index].(state := ZqAborted));
    SumFilledUpdate(r.truths, index, r.truths[index].(ended := true));
  }

  /** What one reconciliation may do to the evidence: only a position equal to the ledger becomes the anchor. */
  predicate Rechecked(w: Watch, next: Watch, expected: real) {
    && next.positions == w.positions && next.complete == w.complete
    && (next.callbackPositions == w.callbackPositions
      || (AllComplete(w) && next.callbackPositions == Some(w.positions)))
    && (next.matched == w.matched
        || (next.matched == Some(expected) && Observed(w) == Some(expected)
          && (w.matched.Some? || next.callbackPositions.Some?)))
  }

  /** The parts of the watch a classification leaves as they are. */
  predicate SameEvidence(w: Watch, next: Watch) {
    next.positions == w.positions && next.complete == w.complete && next.callbackPositions == w.callbackPositions
  }

  lemma ClassifyKeepsPositions(w: Watch, orders: seq<Progress>, expected: real, now: real, settle: real)
    ensures SameEvidence(w, Classify(w, orders, expected, now, settle).watch)
  {
    var due := ExpireIfDue(w, now);
    assert SameEvidence(w, due);
    if Observed(due).Some? {
      var anchored := Anchor(due, orders, expected, Observed(due).value);
      assert SameEvidence(w, anchored) && SameEvidence(w, Finish(anchored));
      assert SameEvidence(w, Open(anchored, Candidates(anchored, orders, expected, Observed(due).value), now, settle));
    }
  }

  lemma ClassifyMovesAnchor(w: Watch, orders: seq<Progress>, expected: real, now: real, settle: real)
    ensures var next := Classify(w, orders, expected, now, settle).watch;
      next.matched == w.matched || (w.matched.Some? && next.matched == Some(expected) && Observed(w) == Some(expected))
  {
    assert Observed(ExpireIfDue(w, now)) == Observed(w);
  }

  lemma ClassifyKeepsEvidence(w: Watch, orders: seq<Progress>, expected: real, now: real, settle: real)
    ensures var next := Classify(w, orders, expected, now, settle).watch;
      Rechecked(w, next, expected) && next.callbackPositions == w.callbackPositions
  {
    ClassifyKeepsPositions(w, orders, expected, now, settle);
    ClassifyMovesAnchor(w, orders, expected, now, settle);
  }

  /** A full read without differences: the position equals the ledger and no order reports more than it executed. */
  lemma CleanMeansEqual(w: Watch, orders: seq<Progress>, expected: real, now: real, settle: real)
    requires AllComplete(w) && Classify(w, orders, expected, now, settle).differences == {}
    ensures Observed(w) == Some(expected) && !AnyOutstanding(orders)
  {
    assert Observed(ExpireIfDue(w, now)) == Observed(w);
  }

  lemma ReconcileRechecks(w: Watch, orders: seq<Progress>, expected: real, now: real, settle: real, elsewhere: bool)
    requires Shaped(w)
    ensures Rechecked(w, Reconcile(w, orders, expected, now, settle, elsewhere), expected)
    ensures Shaped(Reconcile(w, orders, expected, now, settle, elsewhere))
  {
    ClassifyKeepsEvidence(w, orders, expected, now, settle);
    if AllComplete(w) && Classify(w, orders, expected, now, settle).differences == {} {
      CleanMeansEqual(w, orders, expected, now, settle);
    }
    StepKeepsShape(w, Reconciled(orders, expected, now, elsewhere), settle);
  }

  /** The observed position is what was held before and the fills shown. */
  lemma ObservedIsShown(s: Setting, r: Race)
    requires EvidenceHonest(s, r)
    ensures Observed(r.watch).Some? ==> Observed(r.watch).value == s.opening + r.shown
    ensures r.watch.matched.Some? ==> Observed(r.watch).Some?
  {}

  lemma RecheckedKeepsEvidence(s: Setting, r: Race, next: Watch)
    requires EvidenceHonest(s, r) && Rechecked(r.watch, next, Expected(s, r.orders))
    ensures EvidenceHonest(s, r.(watch := next))
  {
    ObservedIsShown(s, r);
  }

  lemma CheckKeepsRace(s: Setting, r: Race, now: real, elsewhere: bool)
    requires RaceInv(s, r) && !r.lagging
    ensures RaceInv(s, Next(s, r, Check(now, elsewhere)))
  {
    var next := Reconcile(r.watch, r.orders, Expected(s, r.orders), now, s.settle, elsewhere);
    ReconcileRechecks(r.watch, r.orders, Expected(s, r.orders), now, s.settle, elsewhere);
    RecheckedKeepsEvidence(s, r, next);
  }

  /** A clean full reconciliation adopts the complete read. */
  lemma AdoptionKeepsRace(s: Setting, r: Race)
    requires RaceInv(s, r) && AllComplete(r.watch) && Observed(r.watch) == Some(Expected(s, r.orders))
    ensures RaceInv(s, r.(watch := OnClean(r.watch, Expected(s, r.orders))))
  {
    RecheckedKeepsEvidence(s, r, OnClean(r.watch, Expected(s, r.orders)));
  }

  lemma StepKeepsRace(s: Setting, r: Race, h: Happening)
    requires RaceInv(s, r) && Enabled(s, r, h)
    ensures RaceInv(s, Next(s, r, h))
  {
    match h
    case VenueFills(index, shares) => FillKeepsRace(s, r, index, shares);
    case VenueEnds(index) => EndKeepsRace(s, r, index);
    case PositionCallback(contract, quantity) => PositionKeepsRace(s, r, contract, quantity);
    case ExecutionCallback(index, shares) => ExecutionKeepsRace(s, r, index, shares);
    case StatusCallback(index, status, fill) => StatusKeepsRace(s, r, index, status, fill);
    case RefreshBegins =>
    case EndMarker(_) =>
    case Disconnects =>
    case Check(now, elsewhere) => CheckKeepsRace(s, r, now, elsewhere);
    case Intends(orderId, quantity) => IntentKeepsRace(s, r, orderId, quantity);
    case WatchdogFires =>
    case Sends(index) => SendKeepsRace(s, r, index);
    case Submits(index) => SubmissionKeepsRace(s, r, index);
    case MarkingFails =>
    case Abandons(index) => AbandonmentKeepsRace(s, r, index);
  }

  // --- runs ---------------------------------------------------------------

  /** From any honest baseline, a restart over any ledger among them. */
  ghost predicate RaceRun(s: Setting, states: seq<Race>, events: seq<Happening>) {
    && |states| == |events| + 1
    && RaceInv(s, states[0])
    && (forall i :: 0 <= i < |events| ==>
      Enabled(s, states[i], events[i]) && states[i + 1] == Next(s, states[i], events[i]))
  }

  lemma {:induction false} RunKeepsRace(s: Setting, states: seq<Race>, events: seq<Happening>, i: nat)
    requires RaceRun(s, states, events) && i < |states|
    ensures RaceInv(s, states[i])
  {
    if i > 0 {
      RunKeepsRace(s, states, events, i - 1);
      StepKeepsRace(s, states[i - 1], events[i - 1]);
    }
  }

  /** What one order, alone changed, does to the fills that may be shown. */
  lemma OneOrderMarked(r: Race, next: Race, k: nat)
    requires MarkingInv(r) && OrdersHonest(r) && k < |r.orders| && |next.orders| == |next.truths| == |r.orders|
    requires next.orders == r.orders[k := next.orders[k]] && next.truths == r.truths[k := next.truths[k]]
    requires next.shown == r.shown && next.lagging == r.lagging && next.marking == r.marking
    requires Unmarked(next.orders[k], next.truths[k]) == Unmarked(r.orders[k], r.truths[k])
    requires r.orders[k].executed <= next.orders[k].executed && r.truths[k].filled <= next.truths[k].filled
    ensures MarkingInv(next)
  {
    SumMarkedUpdate(r.orders, r.truths, k, next.orders[k], next.truths[k]);
  }

  lemma SendKeepsMarking(s: Setting, r: Race, k: nat)
    requires MarkingInv(r) && RaceInv(s, r) && Possible(r, Sends(k))
    ensures MarkingInv(Next(s, r, Sends(k)))
  {
    var next := Next(s, r, Sends(k));
    assert OrderHonest(r.orders[k], r.truths[k]) && next.orders == r.orders[k := r.orders[k]];
    SumMarkedUpdate(r.orders, r.truths, k, r.orders[k], next.truths[k]);
    AllMarked(r.orders, r.truths);
  }

  lemma SubmissionKeepsMarking(s: Setting, r: Race, k: nat)
    requires MarkingInv(r) && RaceInv(s, r) && Possible(r, Submits(k))
    ensures MarkingInv(Next(s, r, Submits(k)))
  {
    AllMarked(Next(s, r, Submits(k)).orders, r.truths);
  }

  lemma IntentKeepsMarking(s: Setting, r: Race, orderId: int, quantity: real)
    requires MarkingInv(r) && Possible(r, Intends(orderId, quantity))
    ensures MarkingInv(Next(s, r, Intends(orderId, quantity)))
  {
    var next := Next(s, r, Intends(orderId, quantity));
    assert next.orders[..|r.orders|] == r.orders && next.truths[..|r.truths|] == r.truths;
  }

  lemma PositionKeepsMarking(s: Setting, r: Race, contract: string, quantity: real)
    requires MarkingInv(r) && RaceInv(s, r) && Enabled(s, r, PositionCallback(contract, quantity))
    ensures MarkingInv(Next(s, r, PositionCallback(contract, quantity)))
  {
    if r.marking.None? {
      AllMarked(r.orders, r.truths);
    }
  }

  /** What the handler does beside a position leaves what is shown; without a marking that waits nothing is unmarked. */
  lemma HandlerKeepsMarking(r: Race, next: Race)
    requires MarkingInv(r) && OrdersHonest(r) && r.shown <= SumFilled(r.truths)
    requires next == r.(watch := next.watch, lagging := r.marking.Some?)
    ensures MarkingInv(next)
  {
    if r.marking.None? {
      AllMarked(r.orders, r.truths);
    }
  }

  lemma StepKeepsMarking(s: Setting, r: Race, h: Happening)
    requires MarkingInv(r) && RaceInv(s, r) && Enabled(s, r, h) && !h.MarkingFails?
    ensures MarkingInv(Next(s, r, h))
  {
    var next := Next(s, r, h);
    match h
    case VenueFills(index, _) =>
      assert next.orders == r.orders[index := r.orders[index]];
      OneOrderMarked(r, next, index);
    case VenueEnds(index) =>
      assert next.orders == r.orders[index := r.orders[index]];
      OneOrderMarked(r, next, index);
    case ExecutionCallback(index, _) =>
      assert next.truths == r.truths[index := r.truths[index]];
      OneOrderMarked(r, next, index);
    case StatusCallback(index, _, _) =>
      assert next.truths == r.truths[index := r.truths[index]];
      OneOrderMarked(r, next, index);
    case Abandons(index) => OneOrderMarked(r, next, index);
    case PositionCallback(contract, quantity) => PositionKeepsMarking(s, r, contract, quantity);
    case RefreshBegins => HandlerKeepsMarking(r, next);
    case EndMarker(_) => HandlerKeepsMarking(r, next);
    case Disconnects => HandlerKeepsMarking(r, next);
    case Intends(orderId, quantity) => IntentKeepsMarking(s, r, orderId, quantity);
    case Sends(index) => SendKeepsMarking(s, r, index);
    case Submits(index) => SubmissionKeepsMarking(s, r, index);
    case Check(_, _) =>
    case WatchdogFires =>
  }

  /** No marking fails before state `i`. */
  predicate NoMarkingFails(events: seq<Happening>, i: nat)
    requires i <= |events|
  {
    MarkingFails !in events[..i]
  }

  lemma {:induction false} RunKeepsMarking(s: Setting, states: seq<Race>, events: seq<Happening>, i: nat)
    requires RaceRun(s, states, events) && MarkingInv(states[0]) && i < |states| && NoMarkingFails(events, i)
    ensures MarkingInv(states[i])
  {
    if i > 0 {
      assert events[..i][..i - 1] == events[..i - 1] && events[i - 1] == events[..i][i - 1];
      RunKeepsMarking(s, states, events, i - 1);
      RunKeepsRace(s, states, events, i - 1);
      StepKeepsMarking(s, states[i - 1], events[i - 1]);
    }
  }

  function VerdictAt(s: Setting, r: Race, now: real): Verdict {
    Classify(r.watch, r.orders, Expected(s, r.orders), now, s.settle)
  }

  lemma ApartIsExplainable(s: Setting, r: Race)
    requires RaceInv(s, r) && MarkingInv(r) && !r.lagging && r.watch.matched.Some? && r.shown != SumExecuted(r.orders)
    ensures Explainable(r.watch.matched.value, r.orders, Expected(s, r.orders), s.opening + r.shown)
  {
    CapacityCoversTheFills(r.orders, r.truths);
  }

  /** While a gap may be used, exactly the differences that are no candidates are unsafe. */
  lemma GraceToleratesCandidates(w: Watch, orders: seq<Progress>, expected: real, now: real, settle: real)
    requires Shaped(w) && w.matched.Some? && Observed(w).Some? && InGrace(w, now)
    ensures var observed := Observed(w).value; var anchored := Anchor(w, orders, expected, observed);
      Unsafe(Classify(w, orders, expected, now, settle))
        <= Differences(anchored, orders, expected, observed) - Candidates(anchored, orders, expected, observed)
  {
    assert ExpireIfDue(w, now) == w;
  }

  lemma HonestDifferencesAreExplained(s: Setting, r: Race, now: real)
    requires RaceInv(s, r) && MarkingInv(r) && !r.lagging && r.watch.matched.Some? && InGrace(r.watch, now)
    ensures Unsafe(VerdictAt(s, r, now)) <= {TerminalConflicts}
    ensures r.watch.refreshConflicts == {} || r.watch.refreshing ==> Unsafe(VerdictAt(s, r, now)) == {}
  {
    ObservedIsShown(s, r);
    GraceToleratesCandidates(r.watch, r.orders, Expected(s, r.orders), now, s.settle);
    if r.shown != SumExecuted(r.orders) {
      ApartIsExplainable(s, r);
    }
  }

  /**
    From any baseline, over every interleaving of fills, orders recorded, sent and marked,
    disconnects and refreshes with late, repeated and reordered position, execution,
    status and snapshot callbacks, fills between a send and its marking included: at any
    check, once a clean read has given an anchor, while the gap is in time and no fresh
    read has completed since it opened, no fill, position or completion difference is
    unsafe, unless the marking of a sent order failed.
   */
  lemma HonestRaceIsNeverUnsafe(s: Setting, states: seq<Race>, events: seq<Happening>, i: nat, now: real)
    requires RaceRun(s, states, events) && MarkingInv(states[0]) && i < |states| && NoMarkingFails(events, i)
    requires !states[i].lagging && states[i].watch.matched.Some? && InGrace(states[i].watch, now)
    ensures Unsafe(VerdictAt(s, states[i], now)) <= {TerminalConflicts}
    ensures states[i].watch.refreshConflicts == {} || states[i].watch.refreshing ==>
      Unsafe(VerdictAt(s, states[i], now)) == {}
  {
    RunKeepsRace(s, states, events, i);
    RunKeepsMarking(s, states, events, i);
    HonestDifferencesAreExplained(s, states[i], now);
  }

  /** Position and executions disagree, or a status reports more than was executed. */
  predicate Apart(r: Race) {
    r.shown != SumExecuted(r.orders) || AnyOutstanding(r.orders)
  }

  /** While they are apart, every check leaves the gap open. */
  lemma ApartKeepsTheGapOpen(s: Setting, states: seq<Race>, events: seq<Happening>, i: nat, now: real, elsewhere: bool)
    requires RaceRun(s, states, events) && MarkingInv(states[0]) && i < |states| && NoMarkingFails(events, i)
    requires !states[i].lagging && states[i].watch.matched.Some? && Apart(states[i])
    ensures var r := states[i]; Reconcile(r.watch, r.orders, Expected(s, r.orders), now, s.settle, elsewhere).gap.Some?
  {
    RunKeepsRace(s, states, events, i);
    RunKeepsMarking(s, states, events, i);
    ApartIsACandidate(s, states[i], now);
    CandidatesOpen(states[i].watch, states[i].orders, Expected(s, states[i].orders), now, s.settle, elsewhere);
  }

  lemma ApartIsACandidate(s: Setting, r: Race, now: real)
    requires RaceInv(s, r) && MarkingInv(r) && !r.lagging && r.watch.matched.Some? && Apart(r)
    ensures Observed(r.watch).Some?
    ensures var candidates := Candidates(r.watch, r.orders, Expected(s, r.orders), Observed(r.watch).value);
      PositionMismatch in candidates || UnrecordedFills in candidates
  {
    ObservedIsShown(s, r);
    if r.shown != SumExecuted(r.orders) {
      ApartIsExplainable(s, r);
    }
  }

  /** A reconciliation with a candidate that the anchor cannot remove leaves a gap open. */
  lemma CandidatesOpen(w: Watch, orders: seq<Progress>, expected: real, now: real, settle: real, elsewhere: bool)
    requires w.matched.Some? && Observed(w).Some?
    requires var candidates := Candidates(w, orders, expected, Observed(w).value);
      PositionMismatch in candidates || UnrecordedFills in candidates
    ensures Reconcile(w, orders, expected, now, settle, elsewhere).gap.Some?
  {
    assert Observed(ExpireIfDue(w, now)) == Observed(w);
  }

  // --- an order still recorded as an intent -------------------------------

  predicate Settled(p: Progress) {
    FinishedZq(p.state) && p.reported <= p.executed
  }

  lemma {:induction false} CapacityIsTheWorkingOrders(orders: seq<Progress>, k: nat)
    requires forall i :: 0 <= i < |orders| && i != k ==> Settled(orders[i])
    ensures Capacity(orders) == if k < |orders| then CapacityOf(orders[k]) else 0.0
  {
    if |orders| > 0 {
      CapacityIsTheWorkingOrders(orders[..|orders| - 1], k);
    }
  }

  /**
    The ledger records a new order as an intent until it is marked submitted. A position
    callback that runs ahead of the executions is tolerated exactly when the one unsettled
    order has left that state or a status already reported the fill.
   */
  lemma AheadIsToleratedExactlyWhen(s: Setting, r: Race, k: nat, now: real)
    requires EvidenceHonest(s, r) && Shaped(r.watch) && r.watch.matched.Some? && InGrace(r.watch, now)
    requires k < |r.orders| && forall i :: 0 <= i < |r.orders| && i != k ==> Settled(r.orders[i])
    requires SumExecuted(r.orders) < r.shown <= SumExecuted(r.orders) - r.orders[k].executed + r.orders[k].quantity
    ensures PositionMismatch in VerdictAt(s, r, now).tolerated
      <==> var p := r.orders[k]; p.reported > p.executed || !(FinishedZq(p.state) || p.state.ZqIntent?)
  {
    CapacityIsTheWorkingOrders(r.orders, k);
    ToleratedMismatchIsBounded(r.watch, r.orders, Expected(s, r.orders), now, s.settle);
    ObservedIsShown(s, r);
  }

  const PLAIN := Setting("ZQ", 0.0, 0.0, 10.0)

  lemma Extend(s: Setting, states: seq<Race>, events: seq<Happening>, h: Happening)
    returns (states': seq<Race>, events': seq<Happening>)
    requires RaceRun(s, states, events) && Enabled(s, states[|events|], h)
    ensures RaceRun(s, states', events') && |events'| == |events| + 1 && states'[0] == states[0]
    ensures states'[|events'|] == Next(s, states[|events|], h)
  {
    states', events' := states + [Next(s, states[|events|], h)], events + [h];
  }

  const READ := NO_EVIDENCE.(complete := EVERY_PART, refreshSerial := 1, completedSerial := 1)

  const ANCHORED := READ.(callbackPositions := Some([]), matched := Some(0.0))

  lemma MarkedRead(w: Watch, marker: Marker)
    requires w.refreshing && w.callbackPositions.None?
    ensures w.complete + {marker} != EVERY_PART ==> OnMarker(w, marker) == w.(complete := w.complete + {marker})
    ensures w.complete + {marker} == EVERY_PART ==>
      OnMarker(w, marker)
        == w.(complete := EVERY_PART, refreshing := false, completedSerial := w.refreshSerial,
            terminalConflicts := w.refreshConflicts)
  {}

  /** A complete read that equals the ledger, with nothing else open, has no difference. */
  lemma CleanClassifies(w: Watch, orders: seq<Progress>, expected: real, now: real, settle: real)
    requires AllComplete(w) && w.gap.None? && w.deadline.None? && w.terminalConflicts == {} && w.matched.None?
    requires SumPositions(w.positions) == expected && !AnyOutstanding(orders) && !AnyIncomplete(orders)
    ensures Classify(w, orders, expected, now, settle) == Verdict(w, {}, {})
  {
    assert Differences(w, orders, expected, expected) == {};
  }

  /** It becomes the anchor. */
  lemma CleanReadAnchors(w: Watch, orders: seq<Progress>, expected: real, now: real, settle: real)
    requires AllComplete(w) && w.gap.None? && w.deadline.None? && w.terminalConflicts == {} && w.matched.None?
    requires SumPositions(w.positions) == expected && !AnyOutstanding(orders) && !AnyIncomplete(orders)
    ensures Reconcile(w, orders, expected, now, settle, true) == OnClean(w, expected)
  {
    CleanClassifies(w, orders, expected, now, settle);
  }

  /** The read of an empty account so far. */
  function ReadSoFar(complete: set<Marker>): Race {
    START.(watch := NO_EVIDENCE.(refreshing := true, refreshSerial := 1, complete := complete))
  }

  lemma Reads(states: seq<Race>, events: seq<Happening>, complete: set<Marker>, marker: Marker)
    returns (states': seq<Race>, events': seq<Happening>)
    requires RaceRun(PLAIN, states, events) && states[0] == START && states[|events|] == ReadSoFar(complete)
    requires PositionEnd !in complete && marker != PositionEnd
    ensures RaceRun(PLAIN, states', events') && states'[0] == START
      && states'[|events'|] == ReadSoFar(complete + {marker})
  {
    assert PositionEnd !in complete + {marker} && PositionEnd in EVERY_PART;
    MarkedRead(states[|events|].watch, marker);
    states', events' := Extend(PLAIN, states, events, EndMarker(marker));
  }

  lemma ReadBegins() returns (states: seq<Race>, events: seq<Happening>)
    ensures RaceRun(PLAIN, states, events) && states[0] == START && states[|events|] == ReadSoFar({})
  {
    states, events := [START], [];
    states, events := Extend(PLAIN, states, events, RefreshBegins);
  }

  lemma ReadEnds(states: seq<Race>, events: seq<Happening>, complete: set<Marker>)
    returns (states': seq<Race>, events': seq<Happening>)
    requires RaceRun(PLAIN, states, events) && states[0] == START && states[|events|] == ReadSoFar(complete)
    requires complete + {PositionEnd} == EVERY_PART
    ensures RaceRun(PLAIN, states', events') && states'[0] == START && states'[|events'|] == START.(watch := READ)
  {
    MarkedRead(states[|events|].watch, PositionEnd);
    states', events' := Extend(PLAIN, states, events, EndMarker(PositionEnd));
  }

  lemma EmptyAccountIsRead() returns (states: seq<Race>, events: seq<Happening>)
    ensures RaceRun(PLAIN, states, events) && states[0] == START && states[|events|] == START.(watch := READ)
  {
    var a, b, c := {OpenOrderEnd}, {CompletedOrderEnd}, {ExecutionEnd};
    states, events := ReadBegins();
    states, events := Reads(states, events, {}, OpenOrderEnd);
    states, events := Reads(states, events, {} + a, CompletedOrderEnd);
    states, events := Reads(states, events, {} + a + b, ExecutionEnd);
    assert {} + a + b + c + {PositionEnd} == EVERY_PART;
    states, events := ReadEnds(states, events, {} + a + b + c);
  }

  lemma EmptyAccountAnchors() returns (states: seq<Race>, events: seq<Happening>)
    ensures RaceRun(PLAIN, states, events) && states[0] == START && states[|events|] == START.(watch := ANCHORED)
  {
    states, events := EmptyAccountIsRead();
    CleanReadAnchors(READ, [], Expected(PLAIN, []), 0.0, PLAIN.settle);
    states, events := Extend(PLAIN, states, events, Check(0.0, true));
  }

  /** A position above the ledger with no order that could still add to it is tolerated by no gap. */
  lemma NoRoomNoTolerance(w: Watch, orders: seq<Progress>, expected: real, now: real, settle: real)
    requires Observed(w).Some? && w.matched.Some? && InGrace(w, now)
    requires Observed(w).value > expected && Capacity(orders) <= 0.0
    ensures PositionMismatch in Unsafe(Classify(w, orders, expected, now, settle))
  {
    assert ExpireIfDue(w, now) == w;
  }

  const INTENDED := Progress(1, ZqIntent, 5.0, 0.0, 0.0)

  const FILLED := Truth(5.0, false, true)

  lemma AnIntentIsSent() returns (states: seq<Race>, events: seq<Happening>)
    ensures RaceRun(PLAIN, states, events) && states[0] == START
    ensures states[|events|] == Race(ANCHORED, [INTENDED], [Truth(0.0, false, true)], 0.0, Some(0), false)
  {
    states, events := EmptyAccountAnchors();
    states, events := Extend(PLAIN, states, events, Intends(1, 5.0));
    assert states[|events|].orders == [INTENDED] && states[|events|].truths == [Truth(0.0, false, false)];
    states, events := Extend(PLAIN, states, events, Sends(0));
    assert states[|events|].truths == [Truth(0.0, false, true)];
  }

  lemma ItsMarkingFails() returns (states: seq<Race>, events: seq<Happening>)
    ensures RaceRun(PLAIN, states, events) && states[0] == START
    ensures states[|events|] == Race(ANCHORED, [INTENDED], [FILLED], 0.0, None, false)
  {
    states, events := AnIntentIsSent();
    states, events := Extend(PLAIN, states, events, VenueFills(0, 5.0));
    assert states[|events|].truths == [FILLED];
    states, events := Extend(PLAIN, states, events, MarkingFails);
  }

  lemma OneIntent()
    ensures SumExecuted([INTENDED]) == 0.0 && Capacity([INTENDED]) == 0.0 && SumFilled([FILLED]) == 5.0
  {
    assert [INTENDED][..0] == [] && [FILLED][..0] == [];
  }

  lemma OnePosition(contract: string, quantity: real)
    ensures Upsert([], contract, quantity) == [Position(contract, quantity)]
    ensures SumPositions([Position(contract, quantity)]) == quantity
  {
    assert [Position(contract, quantity)][..0] == [];
  }

  /**
    A marking that fails leaves a sent order an intent: no room is known for its fill, and
    the position that shows it is unsafe. Every event of the run is honest.
   */
  lemma FillOfAnIntentIsUnsafe() returns (states: seq<Race>, events: seq<Happening>)
    ensures RaceRun(PLAIN, states, events) && states[0] == START
    ensures var r := states[|events|];
      && !r.lagging && r.watch.matched.Some? && InGrace(r.watch, 1.0)
      && PositionMismatch in Unsafe(VerdictAt(PLAIN, r, 1.0))
  {
    states, events := ItsMarkingFails();
    OneIntent();
    OnePosition("ZQ", 5.0);
    states, events := Extend(PLAIN, states, events, PositionCallback("ZQ", 5.0));
    var r := states[|events|];
    assert r.watch == OnPosition(ANCHORED, "ZQ", 5.0) && r.orders == [INTENDED];
    assert Observed(r.watch) == Some(5.0) && Expected(PLAIN, r.orders) == 0.0;
    NoRoomNoTolerance(r.watch, r.orders, Expected(PLAIN, r.orders), 1.0, PLAIN.settle);
  }
}

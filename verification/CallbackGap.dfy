/**
  How the coordinator explains disagreement between IBKR callbacks that arrive in
  any order: a bounded gap, opened once, that tolerates only what a known working
  order can account for.
 */
module CallbackGap {
  import opened Results
  import opened LedgerModel
  import opened LedgerSteps

  /** What the ledger knows of one ZQ order. */
  datatype Progress = Progress(orderId: int, state: ZqStatus, quantity: real, executed: real, reported: real)

  datatype Position = Position(contract: string, quantity: real)

  /** The end marker that closes each of the four parts of an account snapshot. */
  datatype Marker = OpenOrderEnd | CompletedOrderEnd | ExecutionEnd | PositionEnd

  const EVERY_PART := {OpenOrderEnd, CompletedOrderEnd, ExecutionEnd, PositionEnd}

  datatype Gap = Gap(refreshSerial: nat)

  datatype Key = PositionMismatch | UnrecordedFills | UnconfirmedCompletion | TerminalConflicts

  /** Venue evidence, the gap and the operating state it can latch. */
  datatype Watch = Watch(
    positions: seq<Position>, callbackPositions: Option<seq<Position>>,
    complete: set<Marker>, refreshing: bool, refreshSerial: nat, completedSerial: nat,
    terminalConflicts: set<int>, refreshConflicts: set<int>,
    matched: Option<real>, gap: Option<Gap>, deadline: Option<real>, expired: bool,
    paused: bool, armed: bool)

  // --- evidence -----------------------------------------------------------

  function SumPositions(positions: seq<Position>): real {
    if |positions| == 0 then 0.0 else SumPositions(positions[..|positions| - 1]) + positions[|positions| - 1].quantity
  }

  /** Insertion-ordered upsert by contract. */
  function Upsert(positions: seq<Position>, contract: string, quantity: real): seq<Position> {
    if |positions| == 0 then [Position(contract, quantity)]
    else if positions[0].contract == contract then [Position(contract, quantity)] + positions[1..]
    else [positions[0]] + Upsert(positions[1..], contract, quantity)
  }

  predicate AllComplete(w: Watch) {
    w.complete == EVERY_PART
  }

  function Observed(w: Watch): Option<real> {
    if AllComplete(w) then Some(SumPositions(w.positions))
    else if w.matched.Some? && w.callbackPositions.Some? then Some(SumPositions(w.callbackPositions.value))
    else None
  }

  function SumExecuted(orders: seq<Progress>): real {
    if |orders| == 0 then 0.0 else SumExecuted(orders[..|orders| - 1]) + orders[|orders| - 1].executed
  }

  predicate Outstanding(p: Progress) {
    p.reported > p.executed
  }

  predicate Incomplete(p: Progress) {
    p.executed == p.quantity && !FinishedZq(p.state)
  }

  /** What an order may still add to the position. */
  function CapacityOf(p: Progress): real {
    if !(FinishedZq(p.state) || p.state.ZqIntent?) || Outstanding(p) then p.quantity - p.executed else 0.0
  }

  function Capacity(orders: seq<Progress>): real {
    if |orders| == 0 then 0.0 else Capacity(orders[..|orders| - 1]) + CapacityOf(orders[|orders| - 1])
  }

  predicate AnyOutstanding(orders: seq<Progress>) {
    exists i :: 0 <= i < |orders| && Outstanding(orders[i])
  }

  predicate AnyIncomplete(orders: seq<Progress>) {
    exists i :: 0 <= i < |orders| && Incomplete(orders[i])
  }

  function Differences(w: Watch, orders: seq<Progress>, expected: real, observed: real): set<Key> {
    (if AnyOutstanding(orders) then {UnrecordedFills} else {})
    + (if AnyIncomplete(orders) then {UnconfirmedCompletion} else {})
    + (if w.terminalConflicts != {} then {TerminalConflicts} else {})
    + (if observed != expected then {PositionMismatch} else {})
  }

  /** A position the known orders can explain, given the last position that matched the ledger. */
  predicate Explainable(anchor: real, orders: seq<Progress>, expected: real, observed: real) {
    || (0.0 < observed - expected <= Capacity(orders) && expected >= anchor)
    || (anchor <= observed < expected)
  }

  // --- the gap ------------------------------------------------------------

  /** The deadline passed: pause and disarm, once. */
  function Expire(w: Watch): Watch {
    if w.gap.None? || w.expired then w else w.(expired := true, paused := true, armed := false)
  }

  function Finish(w: Watch): Watch {
    if w.gap.None? then w else w.(gap := None, deadline := None, expired := false)
  }

  function Anchor(w: Watch, orders: seq<Progress>, expected: real, observed: real): Watch {
    if w.matched.Some? && observed == expected && !AnyOutstanding(orders) then w.(matched := Some(expected)) else w
  }

  function Candidates(w: Watch, orders: seq<Progress>, expected: real, observed: real): set<Key> {
    var differences := Differences(w, orders, expected, observed);
    (differences - {PositionMismatch}
     - (if w.refreshConflicts != {} && !w.refreshing then {TerminalConflicts} else {}))
    + (if w.matched.Some? && Explainable(w.matched.value, orders, expected, observed) then {PositionMismatch} else {})
  }

  datatype Verdict = Verdict(watch: Watch, differences: set<Key>, tolerated: set<Key>)

  function ExpireIfDue(w: Watch, now: real): Watch {
    if w.deadline.Some? && now >= w.deadline.value then Expire(w) else w
  }

  /** Start-up has no reconciled anchor, so it cannot open a gap; an open gap keeps its deadline. */
  function Open(w: Watch, candidates: set<Key>, now: real, settle: real): Watch {
    if candidates != {} && w.matched.Some? && w.gap.None?
    then w.(gap := Some(Gap(w.completedSerial)), deadline := Some(now + settle)) else w
  }

  /** A completed fresh read that still conflicts gets no second grace period. */
  function Tolerated(w: Watch, candidates: set<Key>): set<Key> {
    if w.gap.None? || w.expired || w.completedSerial > w.gap.value.refreshSerial then {} else candidates
  }

  /** Explains only bounded gaps in a known BUY order that reconciled before. */
  function Classify(w: Watch, orders: seq<Progress>, expected: real, now: real, settle: real): Verdict {
    var due := ExpireIfDue(w, now);
    match Observed(due)
    case None => Verdict(due, {}, {})
    case Some(observed) =>
      var anchored := Anchor(due, orders, expected, observed);
      var differences := Differences(anchored, orders, expected, observed);
      if differences == {} then Verdict(Finish(anchored), {}, {})
      else
        var candidates := Candidates(anchored, orders, expected, observed);
        var held := Open(anchored, candidates, now, settle);
        Verdict(held, differences, Tolerated(held, candidates))
  }

  function Unsafe(v: Verdict): set<Key> {
    v.differences - v.tolerated
  }

  // --- callbacks ----------------------------------------------------------

  function OnPosition(w: Watch, contract: string, quantity: real): Watch {
    w.(positions := Upsert(w.positions, contract, quantity),
       callbackPositions := if w.callbackPositions.Some?
         then Some(Upsert(w.callbackPositions.value, contract, quantity)) else None)
  }

  /** An order status after the ledger took it: `effective` is the state the ledger kept. */
  function OnStatus(w: Watch, orderId: int, status: ZqStatus, effective: Option<ZqStatus>): Watch {
    if effective.Some? && FinishedZq(effective.value) && !FinishedZq(status) then
      w.(terminalConflicts := w.terminalConflicts + {orderId},
         refreshConflicts := if w.refreshing then w.refreshConflicts + {orderId} else w.refreshConflicts)
    else if FinishedZq(status) then w.(terminalConflicts := w.terminalConflicts - {orderId})
    else w
  }

  function BeginRefresh(w: Watch): Watch {
    if w.refreshing then w
    else
      w.(refreshing := true, refreshSerial := w.refreshSerial + 1, refreshConflicts := {}, positions := [],
          complete := {})
  }

  /** A completed position read also accounts for positions absent from the new snapshot. */
  function Marked(w: Watch, marker: Marker): Watch {
    w.(complete := w.complete + {marker},
       callbackPositions := if marker.PositionEnd? && w.callbackPositions.Some? then Some(w.positions)
         else w.callbackPositions)
  }

  function CompleteRefresh(w: Watch): Watch {
    if w.refreshing && AllComplete(w)
      then w.(refreshing := false, completedSerial := w.refreshSerial, terminalConflicts := w.refreshConflicts)
    else w
  }

  function OnMarker(w: Watch, marker: Marker): Watch {
    CompleteRefresh(Marked(w, marker))
  }

  function OnDisconnect(w: Watch): Watch {
    w.(complete := {}, refreshing := false, matched := None, callbackPositions := None)
  }

  /** A clean full reconciliation gives a new anchor. */
  function OnClean(w: Watch, expected: real): Watch {
    w.(matched := Some(expected), callbackPositions := Some(w.positions))
  }

  // --- the object ---------------------------------------------------------

  /** The part of the coordinator that watches callbacks; its methods are single handler steps. */
  class CallbackWatch {
    const settleSeconds: real
    var requestId: Option<int>
    var positions: seq<Position>
    var callbackPositions: Option<seq<Position>>
    var complete: set<Marker>
    var refreshing: bool
    var refreshSerial: nat
    var completedSerial: nat
    var terminalConflicts: set<int>
    var refreshConflicts: set<int>
    var matched: Option<real>
    var gap: Option<Gap>
    var deadline: Option<real>
    var expired: bool
    var paused: bool
    var armed: bool

    ghost function View(): Watch
      reads this
    {
      Watch(positions, callbackPositions, complete, refreshing, refreshSerial, completedSerial,
            terminalConflicts, refreshConflicts, matched, gap, deadline, expired, paused, armed)
    }

    constructor (settleSeconds: real)
      ensures View() == Watch([], None, {}, false, 0, 0, {}, {}, None, None, None, false, true, false)
      ensures this.settleSeconds == settleSeconds
    {
      this.settleSeconds, requestId := settleSeconds, None;
      positions, callbackPositions := [], None;
      complete, refreshing, refreshSerial, completedSerial := {}, false, 0, 0;
      terminalConflicts, refreshConflicts := {}, {};
      matched, gap, deadline, expired := None, None, None, false;
      paused, armed := true, false;
    }

    method ExpireGap()
      modifies this
      ensures View() == Expire(old(View()))
    {
      if gap.None? || expired {
        return;
      }
      expired := true;
      paused, armed := true, false;
    }

    method FinishGap()
      modifies this
      ensures View() == Finish(old(View()))
    {
      if gap.Some? {
        gap, deadline, expired := None, None, false;
      }
    }

    method SumOf(values: seq<Position>) returns (sum: real)
      ensures sum == SumPositions(values)
    {
      sum := 0.0;
      for i := 0 to |values|
        invariant sum == SumPositions(values[..i])
      {
        assert values[..i + 1][..i] == values[..i];
        sum := sum + values[i].quantity;
      }
      assert values[..|values|] == values;
    }

    method CapacityLeft(orders: seq<Progress>) returns (capacity: real)
      ensures capacity == Capacity(orders)
    {
      capacity := 0.0;
      for i := 0 to |orders|
        invariant capacity == Capacity(orders[..i])
      {
        assert orders[..i + 1][..i] == orders[..i];
        var p := orders[i];
        if !(FinishedZq(p.state) || p.state.ZqIntent?) || p.reported > p.executed {
          capacity := capacity + (p.quantity - p.executed);
        }
      }
      assert orders[..|orders|] == orders;
    }

    method Observe() returns (observed: Option<real>)
      ensures observed == Observed(View())
    {
      if complete == EVERY_PART {
        var sum := SumOf(positions);
        observed := Some(sum);
      } else if matched.Some? && callbackPositions.Some? {
        var sum := SumOf(callbackPositions.value);
        observed := Some(sum);
      } else {
        observed := None;
      }
    }

    method CollectDifferences(orders: seq<Progress>, expected: real, observed: real) returns (differences: set<Key>)
      ensures differences == Differences(View(), orders, expected, observed)
    {
      differences := {};
      if AnyOutstanding(orders) {
        differences := differences + {UnrecordedFills};
      }
      if AnyIncomplete(orders) {
        differences := differences + {UnconfirmedCompletion};
      }
      if terminalConflicts != {} {
        differences := differences + {TerminalConflicts};
      }
      if observed != expected {
        differences := differences + {PositionMismatch};
      }
    }

    method CollectCandidates(orders: seq<Progress>, expected: real, observed: real, differences: set<Key>)
      returns (candidates: set<Key>)
      requires differences == Differences(View(), orders, expected, observed)
      ensures candidates == Candidates(View(), orders, expected, observed)
    {
      candidates := differences - {PositionMismatch};
      if refreshConflicts != {} && !refreshing {
        candidates := candidates - {TerminalConflicts};
      }
      var capacity := CapacityLeft(orders);
      if matched.Some?
         && ((0.0 < observed - expected <= capacity && expected >= matched.value)
           || matched.value <= observed < expected)
         {
        candidates := candidates + {PositionMismatch};
      }
    }

    method OpenGap(candidates: set<Key>, now: real)
      modifies this`gap, this`deadline
      ensures View() == Open(old(View()), candidates, now, settleSeconds)
    {
      if candidates != {} && matched.Some? && gap.None? {
        gap, deadline := Some(Gap(completedSerial)), Some(now + settleSeconds);
      }
    }

    method MoveAnchor(orders: seq<Progress>, expected: real, observed: real)
      modifies this`matched
      ensures View() == Anchor(old(View()), orders, expected, observed)
    {
      if matched.Some? && observed == expected && !AnyOutstanding(orders) {
        matched := Some(expected);
      }
    }

    method ClassifyCallbacks(orders: seq<Progress>, expected: real, now: real)
      returns (differences: set<Key>, tolerated: set<Key>)
      modifies this
      ensures Classify(old(View()), orders, expected, now, settleSeconds) == Verdict(View(), differences, tolerated)
    {
      differences, tolerated := {}, {};
      if deadline.Some? && now >= deadline.value {
        ExpireGap();
      }
      assert View() == ExpireIfDue(old(View()), now);
      var observed := Observe();
      if observed.None? {
        return;
      }
      MoveAnchor(orders, expected, observed.value);
      differences := CollectDifferences(orders, expected, observed.value);
      if differences == {} {
        FinishGap();
        return;
      }
      var candidates := CollectCandidates(orders, expected, observed.value, differences);
      OpenGap(candidates, now);
      if gap.None? || expired || completedSerial > gap.value.refreshSerial {
        return;
      }
      tolerated := candidates;
    }

    method HandlePosition(contract: string, quantity: real)
      modifies this
      ensures View() == OnPosition(old(View()), contract, quantity)
    {
      positions := Upsert(positions, contract, quantity);
      if callbackPositions.Some? {
        callbackPositions := Some(Upsert(callbackPositions.value, contract, quantity));
      }
    }

    method ObserveOrder(orderId: int, status: ZqStatus, effective: Option<ZqStatus>)
      modifies this
      ensures View() == OnStatus(old(View()), orderId, status, effective)
    {
      if effective.Some? && FinishedZq(effective.value) && !FinishedZq(status) {
        terminalConflicts := terminalConflicts + {orderId};
        if refreshing {
          refreshConflicts := refreshConflicts + {orderId};
        }
      } else if FinishedZq(status) {
        terminalConflicts := terminalConflicts - {orderId};
      }
    }

    /** Raises after a refresh that timed out, until the connection is made anew. */
    method BeginReconciliation(request: Option<int>, ambiguous: bool) returns (r: Result<bool>)
      modifies this
      ensures ambiguous ==> r.Err? && View() == old(View()) && requestId == old(requestId)
      ensures !ambiguous ==> r == Ok(!old(refreshing)) && View() == BeginRefresh(old(View()))
      ensures requestId == if r == Ok(true) then request else old(requestId)
    {
      if ambiguous {
        return Err("IBKR snapshot timed out; reconnect before another unscoped read");
      }
      if refreshing {
        return Ok(false);
      }
      requestId := request;
      refreshSerial := refreshSerial + 1;
      refreshConflicts := {};
      complete := {};
      refreshing := true;
      positions := [];
      r := Ok(true);
    }

    method FinishRefresh()
      modifies this`refreshing, this`completedSerial, this`terminalConflicts
      ensures View() == CompleteRefresh(old(View()))
    {
      if refreshing && complete == EVERY_PART {
        refreshing := false;
        completedSerial := refreshSerial;
        terminalConflicts := refreshConflicts;
      }
    }

    /** An execution end that answers another request completes nothing. */
    method HandleMarker(marker: Marker, answered: Option<int>)
      modifies this
      ensures requestId == old(requestId)
      ensures var mine := !marker.ExecutionEnd? || old(requestId).None? || answered == old(requestId);
        View() == if mine then OnMarker(old(View()), marker) else CompleteRefresh(old(View()))
    {
      if marker.ExecutionEnd? && requestId.Some? && answered != requestId {
        FinishRefresh();
        return;
      }
      complete := complete + {marker};
      if marker.PositionEnd? && callbackPositions.Some? {
        callbackPositions := Some(positions);
      }
      FinishRefresh();
    }

    method HandleDisconnect()
      modifies this
      ensures View() == OnDisconnect(old(View()))
    {
      complete, refreshing, matched, callbackPositions := {}, false, None, None;
    }
  }
}

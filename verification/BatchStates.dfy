/**
  Which state a batch is in once a transaction has refreshed it, read off the
  executions and order rows of the ledger itself.
 */
module BatchStates {
  import opened Results
  import opened TradeLifecycle
  import opened LedgerModel
  import opened LedgerSteps
  import opened LedgerInvariants
  import opened LedgerRuns
  import opened LedgerTheorems

  // --- the facts of a batch -----------------------------------------------

  ghost predicate HasObligation(db: Db, batch: string) {
    exists o :: o in db.obligations && o.id.batch == batch
  }

  /** Every obligation is confirmed to the share, and nothing waits for settlement. */
  ghost predicate AllConfirmed(db: Db, batch: string) {
    forall o :: o in db.obligations && o.id.batch == batch ==>
      ConfirmedShares(db, o) == o.due && PendingShares(db, o) == 0.0
  }

  /** Some obligation with shares due has a confirmed fill. */
  ghost predicate SomeConfirmed(db: Db, batch: string) {
    exists o :: o in db.obligations && o.id.batch == batch && o.due > 0.0 && ConfirmedShares(db, o) > 0.0
  }

  /** The venue filled, matched, cancelled, rejected or expired the order. */
  predicate OrderEnded(s: OrderState) {
    || s == OrderFilled
    || s == OrderMatched
    || s == OrderCancelled
    || s == OrderRejected
    || s == OrderExpired
  }

  ghost predicate OrdersResolved(db: Db, batch: string) {
    forall order :: order in db.orders && order.obligation.batch == batch ==>
      OrderEnded(order.state) && order.verified
  }

  ghost predicate EndedAtTheVenue(b: Batch) {
    || b.zqStatus == ZqFilled
    || b.zqStatus == ZqCancelled
    || b.zqStatus == ZqCanceled
    || b.zqStatus == ZqApiCancelled
    || b.zqStatus == ZqInactive
  }

  /** Ended at IBKR with nothing filled, recorded or reported, and no hedge order left open. */
  ghost predicate EndedUnfilled(db: Db, b: Batch) {
    EndedAtTheVenue(b) && b.filled == 0.0 && b.reported == Some(0.0) && OrdersResolved(db, b.id)
  }

  /** Ended at IBKR, every reported fill recorded, and every obligation hedged by resolved orders. */
  ghost predicate EndedHedged(db: Db, b: Batch) {
    && EndedAtTheVenue(b) && b.reported.Some? && b.filled >= b.reported.value
    && HasObligation(db, b.id) && AllConfirmed(db, b.id) && OrdersResolved(db, b.id)
  }

  /** The state a refresh leaves a batch in that was in state `before`. */
  ghost predicate InItsState(db: Db, b: Batch, before: BatchState) {
    && (EndedUnfilled(db, b) || EndedHedged(db, b) ==> b.state == Complete && b.remaining == 0.0)
    && (!EndedUnfilled(db, b) && !EndedHedged(db, b) ==>
        if b.cancelReason != "" then b.state == CancelPendingState
        else if HasObligation(db, b.id) && AllConfirmed(db, b.id) then b.state == HedgedState
        else if SomeConfirmed(db, b.id) then b.state == PartiallyHedged
        else if HasObligation(db, b.id) then b.state == PolyHedgePending
        else b.state == before)
  }

  // --- the refresh finds them ---------------------------------------------

  lemma ObligationIn(db: Db, batch: string)
    ensures HasObligation(db, batch) <==> HasObligations(db.obligations, batch)
  {
    if HasObligations(db.obligations, batch) {
      var i :| 0 <= i < |db.obligations| && db.obligations[i].id.batch == batch;
      assert db.obligations[i] in db.obligations;
    }
  }

  lemma CoveredIsConfirmed(db: Db, o: Obligation)
    requires JudgedObligation(db, o)
    ensures Covered(o) <==> ConfirmedShares(db, o) == o.due && PendingShares(db, o) == 0.0
    ensures o.due >= 0.0 ==> (o.confirmed > 0.0 <==> o.due > 0.0 && ConfirmedShares(db, o) > 0.0)
  {}

  lemma HedgedIsConfirmed(db: Db, batch: string)
    requires Judged(db, None)
    ensures BatchHedged(db.obligations, batch) <==> HasObligation(db, batch) && AllConfirmed(db, batch)
  {
    ObligationIn(db, batch);
    forall i | 0 <= i < |db.obligations|
      ensures db.obligations[i] in db.obligations
      ensures var o := db.obligations[i];
        Covered(o) <==> ConfirmedShares(db, o) == o.due && PendingShares(db, o) == 0.0
    {
      assert JudgedObligation(db, db.obligations[i]);
      CoveredIsConfirmed(db, db.obligations[i]);
    }
  }

  lemma AnyIsSomeConfirmed(db: Db, batch: string)
    requires Judged(db, None) && forall i :: 0 <= i < |db.obligations| ==> db.obligations[i].due >= 0.0
    ensures AnyConfirmed(db.obligations, batch) <==> SomeConfirmed(db, batch)
  {
    forall i | 0 <= i < |db.obligations|
      ensures db.obligations[i] in db.obligations
      ensures var o := db.obligations[i];
        o.confirmed > 0.0 <==> o.due > 0.0 && ConfirmedShares(db, o) > 0.0
    {
      assert JudgedObligation(db, db.obligations[i]);
      CoveredIsConfirmed(db, db.obligations[i]);
    }
  }

  lemma ResolvedIn(db: Db, batch: string)
    ensures AllResolved(db.orders, batch) <==> OrdersResolved(db, batch)
  {
    forall i | 0 <= i < |db.orders| ensures db.orders[i] in db.orders {}
  }

  lemma RefreshFindsTheState(db: Db, b: Batch)
    requires Judged(db, None) && forall i :: 0 <= i < |db.obligations| ==> db.obligations[i].due >= 0.0
    ensures InItsState(db, RefreshBatch(b, db.obligations, db.orders), b.state)
  {
    ObligationIn(db, b.id);
    HedgedIsConfirmed(db, b.id);
    AnyIsSomeConfirmed(db, b.id);
    ResolvedIn(db, b.id);
  }

  /** The state of a batch depends on the obligations, the orders and the executions only. */
  lemma SameFactsSameState(db: Db, r: Db, b: Batch, before: BatchState)
    requires InItsState(db, b, before)
    requires r.obligations == db.obligations && r.orders == db.orders && r.execs == db.execs
    ensures InItsState(r, b, before)
  {}

  // --- every refreshing transaction ---------------------------------------

  /** The batch is in the state its facts call for, and the other batches are as they were. */
  ghost predicate Settles(db: Db, r: Db, batch: string) {
    && |r.batches| == |db.batches|
    && forall i :: 0 <= i < |db.batches| ==>
      if db.batches[i].id == batch then r.batches[i].id == batch && InItsState(r, r.batches[i], db.batches[i].state)
      else r.batches[i] == db.batches[i]
  }

  lemma SoundFacts(db: Db)
    requires Sound(db)
    ensures Judged(db, None) && forall i :: 0 <= i < |db.obligations| ==> db.obligations[i].due >= 0.0
    ensures forall i, j :: 0 <= i < j < |db.batches| ==> db.batches[i].id != db.batches[j].id
  {
    var lost := SoundGives(db);
  }

  /** The batch that a refresh looks up, given the rows it is then judged by. */
  lemma RefreshSettles(db: Db, r: Db, batch: string)
    requires Sound(r) && forall i, j :: 0 <= i < j < |db.batches| ==> db.batches[i].id != db.batches[j].id
    requires r.batches == RefreshBatchOf(r.(batches := db.batches), batch).batches
    ensures Settles(db, r, batch)
  {
    SoundFacts(r);
    match FindBatch(db.batches, batch)
    case None =>
    case Some(i) =>
      RefreshFindsTheState(r, db.batches[i]);
  }

  /** An operation about one hedge order that refreshes its obligation. */
  predicate AboutOrder(op: Op, o: Order) {
    match op
    case OpAccept(key, _, _) => o.key == key
    case OpStatus(orderId, _) => o.orderId == orderId
    case OpVerify(orderId, _, _, _) => o.orderId == orderId
    case OpExecution(_, orderId, _, _, _, _) => o.orderId == orderId
    case _ => false
  }

  lemma OrderIsFound(orders: seq<Order>, i: nat)
    requires i < |orders|
    requires forall j, k :: 0 <= j < k < |orders| ==>
      orders[j].orderId != orders[k].orderId && orders[j].key != orders[k].key
    ensures FindOrder(orders, orders[i].orderId) == Some(i) && FindOrderByKey(orders, orders[i].key) == Some(i)
  {}

  /** The rows such an operation writes before it refreshes the obligation of order `i`. */
  function RowsWritten(db: Db, op: Op, i: nat): Db
    requires i < |db.orders|
  {
    var o := db.orders[i];
    match op
    case OpAccept(_, _, state) => db.(orders := db.orders[i := if Resolved(o) then o else o.(state := state)])
    case OpStatus(_, state) => db.(orders := db.orders[i := o.(state := state, verified := false)])
    case OpVerify(_, state, Some(matched), associated) =>
      db.(orders := db.orders[i := o.(state := state, venueMatched := matched,
          verified := Verifies(db, o, state, matched, associated))])
    case OpExecution(execId, orderId, shares, price, tradeId, status) =>
      (match FindExecution(db.execs, execId)
       case None => db.(execs := db.execs + [Execution(execId, orderId, shares, price, tradeId, status, 0.0)])
       case Some(j) =>
         var e := db.execs[j];
         var next := NextStatus(e.status, status);
         db.(execs := db.execs[j := if Contradicts(e.status, status) then e.(status := next)
           else e.(status := next, tradeId := tradeId)]))
    case _ => db
  }

  lemma RowsWrittenKeep(db: Db, op: Op, i: nat)
    requires i < |db.orders|
    ensures var rows := RowsWritten(db, op, i);
      rows.batches == db.batches && rows.obligations == db.obligations && SameOrderRows(db.orders, rows.orders)
  {}

  lemma ReportRefreshes(db: Db, op: Op, i: nat)
    requires i < |db.orders| && op.OpExecution? && op.orderId == db.orders[i].orderId
    requires FindOrder(db.orders, db.orders[i].orderId) == Some(i)
    requires FindObligation(db.obligations, db.orders[i].obligation).Some?
    ensures FindObligation(RowsWritten(db, op, i).obligations, db.orders[i].obligation).Some?
    ensures Apply(db, op) == db || Apply(db, op) == RefreshHedge(RowsWritten(db, op, i), db.orders[i].obligation)
  {}

  /** Such an operation changes nothing, or it writes its rows and refreshes the obligation. */
  lemma OrderOpRefreshes(db: Db, op: Op, i: nat)
    requires i < |db.orders| && AboutOrder(op, db.orders[i])
    requires FindOrder(db.orders, db.orders[i].orderId) == Some(i)
      && FindOrderByKey(db.orders, db.orders[i].key) == Some(i)
    requires FindObligation(db.obligations, db.orders[i].obligation).Some?
    ensures FindObligation(RowsWritten(db, op, i).obligations, db.orders[i].obligation).Some?
    ensures Apply(db, op) == db || Apply(db, op) == RefreshHedge(RowsWritten(db, op, i), db.orders[i].obligation)
  {
    if op.OpExecution? {
      ReportRefreshes(db, op, i);
    }
  }

  /**
    A venue report, acceptance or verification about a hedge order changes nothing, or it
    leaves the batch of the order in the state its obligations, fills and orders call for.
   */
  lemma OrderOpSettlesTheBatch(db: Db, op: Op, o: Order)
    requires Sound(db) && o in db.orders && AboutOrder(op, o)
    ensures Apply(db, op) == db || Settles(db, Apply(db, op), o.obligation.batch)
  {
    var i :| 0 <= i < |db.orders| && db.orders[i] == o;
    var lost := SoundGives(db);
    OrderIsFound(db.orders, i);
    OrderOpRefreshes(db, op, i);
    if Apply(db, op) != db {
      ApplyKeepsSound(db, op);
      RowsWrittenKeep(db, op, i);
      RefreshSettles(db, Apply(db, op), o.obligation.batch);
    }
  }

  /** A status report touches the row of one batch, which is refreshed in its own state. */
  lemma ReportedRow(db: Db, order: ZqOrder, status: ZqStatus, filled: Option<real>, left: Option<real>, j: nat)
    returns (reported: Batch)
    requires FindBatch(db.batches, order.batch) == Some(j)
    ensures reported.id == order.batch && reported.state == db.batches[j].state
    ensures reported == ReportedBatch(db.batches[j], status,
        if status.ZqFilled? && filled.None? then Some(order.quantity as real) else filled, left)
    ensures ReportToBatch(db, order, status, filled, left)
      == db.(batches := db.batches[j := RefreshBatch(reported, db.obligations, db.orders)])
  {
    var fill := if status.ZqFilled? && filled.None? then Some(order.quantity as real) else filled;
    reported := ReportedBatch(db.batches[j], status, fill, left);
    SameKeysFindBatch(db.batches, db.batches[j := reported], order.batch);
    assert db.batches[j := reported][j := RefreshBatch(reported, db.obligations, db.orders)]
      == db.batches[j := RefreshBatch(reported, db.obligations, db.orders)];
  }

  lemma ReportSettles(db: Db, order: ZqOrder, status: ZqStatus, filled: Option<real>, left: Option<real>)
    requires Judged(db, None) && forall i :: 0 <= i < |db.obligations| ==> db.obligations[i].due >= 0.0
    requires forall i, j :: 0 <= i < j < |db.batches| ==> db.batches[i].id != db.batches[j].id
    ensures Settles(db, ReportToBatch(db, order, status, filled, left), order.batch)
  {
    match FindBatch(db.batches, order.batch)
    case None =>
    case Some(j) =>
      var reported := ReportedRow(db, order, status, filled, left, j);
      RefreshFindsTheState(db, reported);
      SameFactsSameState(db, ReportToBatch(db, order, status, filled, left),
          RefreshBatch(reported, db.obligations, db.orders), reported.state);
  }

  /** A status report on a futures order is ignored, or it leaves the batch of the order in its state. */
  lemma ZqStatusSettlesTheBatch(db: Db, op: Op)
    requires Sound(db) && op.OpZqStatus? && FindZqOrder(db.zqOrders, op.zqOrderId).Some?
    ensures Apply(db, op) == db
      || Settles(db, Apply(db, op), db.zqOrders[FindZqOrder(db.zqOrders, op.zqOrderId).value].batch)
  {
    var i := FindZqOrder(db.zqOrders, op.zqOrderId).value;
    var order := db.zqOrders[i];
    if !FinishedZq(order.state) || FinishedZq(op.zqStatus) {
      var moved := db.(zqOrders := db.zqOrders[i := order.(state := op.zqStatus)]);
      SoundFacts(db);
      SameRowsJudged(db, moved, None);
      ReportSettles(moved, order, op.zqStatus, op.filled, op.left);
    }
  }

  /** Normalising leaves every batch in its state. */
  lemma NormalizeSettlesEveryBatch(db: Db, i: nat)
    requires Sound(db) && i < |db.batches|
    ensures var r := Apply(db, OpNormalize);
      && i < |r.batches|
      && r.batches[i] == db.batches[i].(state := r.batches[i].state, remaining := r.batches[i].remaining)
      && InItsState(r, r.batches[i], db.batches[i].state)
  {
    SoundFacts(db);
    RefreshFindsTheState(db, db.batches[i]);
    SameFactsSameState(db, Apply(db, OpNormalize), RefreshBatch(db.batches[i], db.obligations, db.orders),
        db.batches[i].state);
  }

  // --- the state of an obligation -----------------------------------------

  ghost predicate HasOpenOrder(db: Db, id: ObligationId) {
    exists order :: order in db.orders && order.obligation == id && !(OrderEnded(order.state) && order.verified)
  }

  /** The state its fills and orders call for. */
  ghost predicate ObligationInItsState(db: Db, o: Obligation) {
    var confirmed, pending := ConfirmedShares(db, o), PendingShares(db, o);
    if confirmed + pending > o.due then o.state == Excess
    else if HasOpenOrder(db, o.id) then o.state == OrderUnresolved
    else if confirmed == o.due then o.state == Hedged
    else if pending != 0.0 then o.state == SettlementPending
    else o.state == Unhedged
  }

  lemma OpenOrderIsUnresolved(db: Db, id: ObligationId)
    ensures AnyUnresolved(db.orders, id) <==> HasOpenOrder(db, id)
  {
    forall i | 0 <= i < |db.orders| ensures db.orders[i] in db.orders {}
  }

  lemma JudgedState(o: Obligation, confirmed: real, pending: real, unresolved: bool)
    requires pending >= 0.0
    ensures JudgeObligation(o, confirmed, pending, unresolved).state ==
      if confirmed + pending > o.due then Excess
      else if unresolved then OrderUnresolved
      else if confirmed == o.due then Hedged
      else if pending != 0.0 then SettlementPending
      else Unhedged
  {}

  lemma RefreshJudgesTheState(db: Db, id: ObligationId)
    requires FindObligation(db.obligations, id).Some?
    requires Total(db.execs, HedgeOrderIds(db.orders, id), PendingShare) >= 0.0
    ensures var r, at := RefreshHedge(db, id), FindObligation(db.obligations, id).value;
      at < |r.obligations| && r.obligations[at].id == id && ObligationInItsState(r, r.obligations[at])
  {
    var r, rows, at := RefreshHedge(db, id), RefreshRows(db, id), FindObligation(db.obligations, id).value;
    RefreshKeepsTotals(db, id, id, ConfirmedShare);
    RefreshKeepsTotals(db, id, id, PendingShare);
    assert r.orders == rows.orders && r.execs == rows.execs && r.obligations == rows.obligations;
    OpenOrderIsUnresolved(r, id);
    JudgedState(db.obligations[at], Total(db.execs, HedgeOrderIds(db.orders, id), ConfirmedShare),
        Total(db.execs, HedgeOrderIds(db.orders, id), PendingShare), AnyUnresolved(rows.orders, id));
  }

  lemma WrittenQuantities(db: Db, op: Op, i: nat, id: ObligationId)
    requires i < |db.orders| && forall k :: 0 <= k < |db.execs| ==> db.execs[k].quantity > 0.0
    requires op.OpExecution? ==> op.shares > 0.0
    ensures var rows := RowsWritten(db, op, i);
      Total(rows.execs, HedgeOrderIds(rows.orders, id), PendingShare) >= 0.0
  {
    var rows := RowsWritten(db, op, i);
    TotalPositive(rows.execs, HedgeOrderIds(rows.orders, id), PendingShare);
  }

  lemma SoundRows(db: Db, id: ObligationId)
    requires Sound(db)
    ensures forall k :: 0 <= k < |db.execs| ==> db.execs[k].quantity > 0.0
    ensures forall j, k :: 0 <= j < k < |db.orders| ==>
      db.orders[j].orderId != db.orders[k].orderId && db.orders[j].key != db.orders[k].key
    ensures forall k :: 0 <= k < |db.orders| ==> FindObligation(db.obligations, db.orders[k].obligation).Some?
  {
    var lost := SoundGives(db);
  }

  lemma ObligationIsUnique(db: Db, id: ObligationId)
    requires Sound(db)
    ensures forall j, k :: 0 <= j < k < |db.obligations| ==> db.obligations[j].id != db.obligations[k].id
  {
    var lost := SoundGives(db);
  }

  lemma OnlyAFillIsWritten(db: Db, op: Op)
    requires op.OpExecution? && Apply(db, op) != db
    ensures op.shares > 0.0
  {}

  lemma RefreshedIsInItsState(rows: Db, id: ObligationId, r: Db)
    requires FindObligation(rows.obligations, id).Some? && r == RefreshHedge(rows, id)
    requires Total(rows.execs, HedgeOrderIds(rows.orders, id), PendingShare) >= 0.0
    requires forall j, k :: 0 <= j < k < |r.obligations| ==> r.obligations[j].id != r.obligations[k].id
    ensures forall ob :: ob in r.obligations && ob.id == id ==> ObligationInItsState(r, ob)
  {
    RefreshJudgesTheState(rows, id);
  }

  /**
    The same operations leave the obligation of the order in its own state: EXCESS when more
    is bought than due, unresolved while an order is open, hedged when confirmed to the
    share, waiting for settlement or unhedged otherwise.
   */
  lemma OrderOpSettlesTheObligation(db: Db, op: Op, o: Order)
    requires Sound(db) && o in db.orders && AboutOrder(op, o)
    ensures var r := Apply(db, op);
      r == db || forall ob :: ob in r.obligations && ob.id == o.obligation ==> ObligationInItsState(r, ob)
  {
    if Apply(db, op) != db {
      var i :| 0 <= i < |db.orders| && db.orders[i] == o;
      SoundRows(db, o.obligation);
      OrderIsFound(db.orders, i);
      if op.OpExecution? {
        OnlyAFillIsWritten(db, op);
      }
      WrittenQuantities(db, op, i, o.obligation);
      RefreshIsSettled(db, op, i);
    }
  }

  lemma RefreshIsSettled(db: Db, op: Op, i: nat)
    requires Sound(db) && i < |db.orders| && AboutOrder(op, db.orders[i]) && Apply(db, op) != db
    requires FindOrder(db.orders, db.orders[i].orderId) == Some(i)
      && FindOrderByKey(db.orders, db.orders[i].key) == Some(i)
    requires FindObligation(db.obligations, db.orders[i].obligation).Some?
    requires var rows := RowsWritten(db, op, i);
      Total(rows.execs, HedgeOrderIds(rows.orders, db.orders[i].obligation), PendingShare) >= 0.0
    ensures var r := Apply(db, op);
      forall ob :: ob in r.obligations && ob.id == db.orders[i].obligation ==> ObligationInItsState(r, ob)
  {
    OrderOpRefreshes(db, op, i);
    ApplyKeepsSound(db, op);
    ObligationIsUnique(Apply(db, op), db.orders[i].obligation);
    RefreshedIsInItsState(RowsWritten(db, op, i), db.orders[i].obligation, Apply(db, op));
  }

  // --- COMPLETE, both ways ------------------------------------------------

  lemma EndedHedgedIsFullyHedged(db: Db, b: Batch)
    ensures HasObligation(db, b.id) ==> (EndedHedged(db, b) <==> FullyHedged(db, b))
  {}

  lemma BatchOfAnOrder(db: Db, b: Batch, o: Order)
    requires Sound(db) && b in db.batches && o in db.orders && b.id == o.obligation.batch
    ensures HasObligation(db, b.id) && b.filled > 0.0
  {
    var lost := SoundGives(db);
    var i :| 0 <= i < |db.orders| && db.orders[i] == o;
    var at := FindObligation(db.obligations, db.orders[i].obligation).value;
    assert db.obligations[at] in db.obligations;
    SizedIn(db, b);
  }

  /**
    Along every run, a report about a hedge order that changes the ledger leaves the batch of
    the order COMPLETE exactly when it is fully hedged.
   */
  lemma CompleteExactlyWhenHedged(ops: seq<Op>, op: Op, o: Order, b: Batch)
    requires LegalRun(ops) && o in Run(EMPTY, ops).orders && AboutOrder(op, o)
    requires var db := Run(EMPTY, ops);
      Apply(db, op) != db && b in Apply(db, op).batches && b.id == o.obligation.batch
    ensures b.state.Complete? <==> FullyHedged(Apply(Run(EMPTY, ops), op), b)
  {
    var db, r := Run(EMPTY, ops), Apply(Run(EMPTY, ops), op);
    RunKeeps(ops);
    ApplyKeepsSound(db, op);
    OrderOpSettlesTheBatch(db, op, o);
    var o' := OrderStays(db, op, o);
    BatchOfAnOrder(r, b, o');
    EndedHedgedIsFullyHedged(r, b);
    var i :| 0 <= i < |r.batches| && r.batches[i] == b;
    assert db.batches[i].id == b.id;
  }

  lemma OrderStays(db: Db, op: Op, o: Order) returns (o': Order)
    requires Sound(db) && o in db.orders && AboutOrder(op, o)
    ensures o' in Apply(db, op).orders && o'.obligation == o.obligation
  {
    var i :| 0 <= i < |db.orders| && db.orders[i] == o;
    var lost := SoundGives(db);
    OrderIsFound(db.orders, i);
    OrderOpRefreshes(db, op, i);
    o' := o;
    if Apply(db, op) != db {
      var rows := RowsWritten(db, op, i);
      RowsWrittenKeep(db, op, i);
      RowsRefreshed(rows, o.obligation);
      o' := Apply(db, op).orders[i];
      assert SameOrderRow(rows.orders[i], o');
    }
  }
}

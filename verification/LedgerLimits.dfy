/**
  Where the ledger's guarantees end: a venue that confirms what it failed, and a
  COMPLETE batch without obligations that hears of a larger fill.
 */
module LedgerLimits {
  import opened Results
  import opened TradeLifecycle
  import opened LedgerModel
  import opened LedgerSteps
  import opened LedgerInvariants
  import opened LedgerTheorems

  lemma {:induction false} TotalOfRevised(execs: seq<Execution>, j: nat, e: Execution, ids: set<string>, k: Share)
    requires j < |execs|
    ensures Total(execs[j := e], ids, k)
      == Total(execs, ids, k) - Contribution(execs[j], ids, k) + Contribution(e, ids, k)
  {
    var n, revised := |execs| - 1, execs[j := e];
    if j == n {
      assert revised[..n] == execs[..n];
    } else {
      assert revised[..n] == execs[..n][j := e];
      TotalOfRevised(execs[..n], j, e, ids, k);
    }
  }

  lemma {:induction false} FindExecutionAt(execs: seq<Execution>, j: nat)
    requires j < |execs| && forall a, b :: 0 <= a < b < |execs| ==> execs[a].execId != execs[b].execId
    ensures FindExecution(execs, execs[j].execId) == Some(j)
  {
    if j < |execs| - 1 {
      FindExecutionAt(execs[..|execs| - 1], j);
    }
  }

  /**
    Once an obligation is fully confirmed by other fills, a CONFIRMED report for a fill the
    venue had FAILED puts the whole of that fill in excess: the ledger cannot undo the
    replacement it already bought, which is why no over-hedge needs an honest venue.
   */
  lemma LateConfirmationIsExcess(db: Db, j: nat, tradeId: string)
    requires Sound(db) && j < |db.execs| && db.execs[j].status.Failed? && db.execs[j].price >= 0.0
    requires FindOrder(db.orders, db.execs[j].orderId).Some?
    requires var id := db.orders[FindOrder(db.orders, db.execs[j].orderId).value].obligation;
      && FindObligation(db.obligations, id).Some?
      && var o := db.obligations[FindObligation(db.obligations, id).value];
      ConfirmedShares(db, o) == o.due && PendingShares(db, o) == 0.0
    ensures var e := db.execs[j];
      var outcome := RecordExecution(db, e.execId, e.orderId, e.quantity, e.price, tradeId, TradeStatus.Confirmed);
      && outcome.Done?
      && var at := FindObligation(db.obligations, db.orders[FindOrder(db.orders, e.orderId).value].obligation).value;
      && at < |outcome.db.obligations|
      && outcome.db.obligations[at].excess == e.quantity > 0.0 && outcome.db.obligations[at].state == Excess
  {
    var e := db.execs[j];
    var id := db.orders[FindOrder(db.orders, e.orderId).value].obligation;
    LateReportConflicts(db, j, tradeId);
    assert db.execs[j].quantity > 0.0 by { QuantitiesArePositive(db, id); }
    ConflictIsExcess(db, j, id);
  }

  lemma LateReportConflicts(db: Db, j: nat, tradeId: string)
    requires Sound(db) && j < |db.execs| && db.execs[j].status.Failed? && db.execs[j].price >= 0.0
    requires FindOrder(db.orders, db.execs[j].orderId).Some?
    requires FindObligation(db.obligations, db.orders[FindOrder(db.orders, db.execs[j].orderId).value].obligation).Some?
    ensures var e := db.execs[j];
      RecordExecution(db, e.execId, e.orderId, e.quantity, e.price, tradeId, TradeStatus.Confirmed)
        == Done(RefreshHedge(db.(execs := db.execs[j := e.(status := Conflict)]),
            db.orders[FindOrder(db.orders, e.orderId).value].obligation), true)
  {
    var e := db.execs[j];
    var id := db.orders[FindOrder(db.orders, e.orderId).value].obligation;
    assert FindExecution(db.execs, e.execId) == Some(j) && e.quantity > 0.0 by { FoundByKey(db, j); }
    assert RecordExecution(db, e.execId, e.orderId, e.quantity, e.price, tradeId, TradeStatus.Confirmed)
      == RevisedExecution(db, id, j, tradeId, TradeStatus.Confirmed);
  }

  lemma FoundByKey(db: Db, j: nat)
    requires Sound(db) && j < |db.execs|
    ensures FindExecution(db.execs, db.execs[j].execId) == Some(j) && db.execs[j].quantity > 0.0
  {
    var lost := SoundGives(db);
    FindExecutionAt(db.execs, j);
  }

  lemma ConflictIsExcess(db: Db, j: nat, id: ObligationId)
    requires j < |db.execs| && db.execs[j].status.Failed? && db.execs[j].orderId in HedgeOrderIds(db.orders, id)
      && db.execs[j].quantity > 0.0
    requires FindObligation(db.obligations, id).Some?
    requires var o := db.obligations[FindObligation(db.obligations, id).value];
      ConfirmedShares(db, o) == o.due && PendingShares(db, o) == 0.0
    ensures var after := RefreshHedge(db.(execs := db.execs[j := db.execs[j].(status := Conflict)]), id);
      var o := after.obligations[FindObligation(db.obligations, id).value];
      o.excess == db.execs[j].quantity && o.state == Excess
  {
    var revised := db.execs[j].(status := Conflict);
    var ids := HedgeOrderIds(db.orders, id);
    TotalOfRevised(db.execs, j, revised, ids, ConfirmedShare);
    TotalOfRevised(db.execs, j, revised, ids, PendingShare);
    RefreshedObligation(db.(execs := db.execs[j := revised]), id);
  }

  lemma OrderBesideBatch(db: Db, i: nat)
    requires Sound(db) && i < |db.zqOrders|
    ensures i < |db.batches| && db.zqOrders[i].batch == db.batches[i].id
    ensures FindBatch(db.batches, db.batches[i].id) == Some(i)
  {
    var lost := SoundGives(db);
    FindBatchAt(db.batches, i);
  }

  lemma ReportRefreshesBatch(db: Db, orderId: int, status: ZqStatus, fill: real, left: Option<real>)
    requires FindZqOrder(db.zqOrders, orderId).Some?
    requires var i := FindZqOrder(db.zqOrders, orderId).value;
      && (FinishedZq(db.zqOrders[i].state) ==> FinishedZq(status))
      && FindBatch(db.batches, db.zqOrders[i].batch) == Some(i)
    ensures var i := FindZqOrder(db.zqOrders, orderId).value;
      var b := ReportedBatch(db.batches[i], status, Some(fill), left);
      UpdateZqStatus(db, orderId, status, Some(fill), left).db.batches
        == db.batches[i := RefreshBatch(b, db.obligations, db.orders)]
  {
    var i := FindZqOrder(db.zqOrders, orderId).value;
    var reported := ReportedBatch(db.batches[i], status, Some(fill), left);
    var batches := db.batches[i := reported];
    SameKeysFindBatch(db.batches, batches, db.zqOrders[i].batch);
    assert batches[i := RefreshBatch(reported, db.obligations, db.orders)]
      == db.batches[i := RefreshBatch(reported, db.obligations, db.orders)];
  }

  lemma LargerFillReopens(b: Batch, status: ZqStatus, fill: real, left: Option<real>, obligations: seq<Obligation>,
      orders: seq<Order>)
    requires b.state.Complete? && fill > b.filled
    ensures var after := RefreshBatch(ReportedBatch(b, status, Some(fill), left), obligations, orders);
      && after.id == b.id && !CaughtUp(after)
      && (!after.state.Complete? <==> HasObligations(obligations, b.id) || b.cancelReason != "")
  {}

  /**
    A COMPLETE batch of any reachable ledger that hears of a larger fill than it recorded
    leaves COMPLETE exactly when it has an obligation or a reason to cancel; without
    either no branch of the refresh applies, and it stays COMPLETE though its fills are
    not caught up.
   */
  lemma LargerReportReopensExactlyWhen(db: Db, orderId: int, status: ZqStatus, fill: real, left: Option<real>)
    requires Sound(db) && FindZqOrder(db.zqOrders, orderId).Some?
    requires var i := FindZqOrder(db.zqOrders, orderId).value;
      && (FinishedZq(db.zqOrders[i].state) ==> FinishedZq(status))
      && i < |db.batches| && db.batches[i].state.Complete? && fill > db.batches[i].filled
    ensures var i := FindZqOrder(db.zqOrders, orderId).value; var b := db.batches[i];
      var after := UpdateZqStatus(db, orderId, status, Some(fill), left).db.batches;
      && i < |after| && after[i].id == b.id && !CaughtUp(after[i])
      && (!after[i].state.Complete? <==> HasObligations(db.obligations, b.id) || b.cancelReason != "")
  {
    var i := FindZqOrder(db.zqOrders, orderId).value;
    OrderBesideBatch(db, i);
    ReportRefreshesBatch(db, orderId, status, fill, left);
    LargerFillReopens(db.batches[i], status, fill, left, db.obligations, db.orders);
  }

  // --- the two inputs -----------------------------------------------------

  const NEW_BATCH := Batch("B", 5, 0.0, Qualified, ZqIntent, None, "", None, 5.0)
  const NEW_ORDER := ZqOrder(1, "B", ZqIntent, 5)
  const CREATE := OpCreateBatch("B", 1, 5, None)
  const CREATED := EMPTY.(batches := [NEW_BATCH], zqOrders := [NEW_ORDER])

  lemma Creates()
    ensures Apply(EMPTY, CREATE) == CREATED
  {}

  /** A status report about the one order of a ledger without obligations. */
  lemma OneOrderReports(batch: Batch, order: ZqOrder, status: ZqStatus, fill: real)
    requires batch.id == order.batch && order.orderId == 1 && FinishedZq(status)
    ensures Apply(EMPTY.(batches := [batch], zqOrders := [order]), OpZqStatus(1, status, Some(fill), None))
      == EMPTY.(batches := [RefreshBatch(ReportedBatch(batch, status, Some(fill), None), [], [])],
                zqOrders := [order.(state := status)])
  {
    assert FindZqOrder([order], 1) == Some(0) && FindBatch([batch], order.batch) == Some(0);
    var reported := ReportedBatch(batch, status, Some(fill), None);
    assert FindBatch([reported], order.batch) == Some(0);
    assert [batch][0 := reported] == [reported] && [order][0 := order.(state := status)] == [order.(state := status)];
  }

  lemma RunOfThree(a: Op, b: Op, c: Op)
    ensures Run(EMPTY, [a, b, c]) == Apply(Apply(Apply(EMPTY, a), b), c)
  {
    assert [a, b, c][..2] == [a, b] && [a, b][..1] == [a] && [a][..0] == [];
    assert Run(EMPTY, [a]) == Apply(EMPTY, a);
    assert Run(EMPTY, [a, b]) == Apply(Apply(EMPTY, a), b);
  }

  /** Cancelled without a fill, then cancelled with one: the batch stays COMPLETE and the fill is not caught up. */
  lemma LateFillOfACompleteBatch() returns (ops: seq<Op>)
    ensures LegalRun(ops) && |Run(EMPTY, ops).batches| == 1
    ensures var b := Run(EMPTY, ops).batches[0];
      b.state.Complete? && b.filled == 0.0 && b.reported == Some(1.0) && !CaughtUp(b)
  {
    var unfilled, filled := OpZqStatus(1, ZqCancelled, Some(0.0), None), OpZqStatus(1, ZqCancelled, Some(1.0), None);
    ops := [CREATE, unfilled, filled];
    RunOfThree(CREATE, unfilled, filled);
    Creates();
    OneOrderReports(NEW_BATCH, NEW_ORDER, ZqCancelled, 0.0);
    var cancelled := NEW_BATCH.(zqStatus := ZqCancelled, reported := Some(0.0), state := Complete, remaining := 0.0);
    assert RefreshBatch(ReportedBatch(NEW_BATCH, ZqCancelled, Some(0.0), None), [], []) == cancelled;
    OneOrderReports(cancelled, NEW_ORDER.(state := ZqCancelled), ZqCancelled, 1.0);
    var late := cancelled.(reported := Some(1.0));
    assert RefreshBatch(ReportedBatch(cancelled, ZqCancelled, Some(1.0), None), [], []) == late;
  }

  const FILL := OpZqFill(1, "E", 1.0, TokenShares("X", 1.0, "Y", 1.0))
  const ABANDON := OpAbandon("B")
  const DUE_X := NewObligation("B", "E", "X", 1.0)
  const DUE_Y := NewObligation("B", "E", "Y", 1.0)
  const FILLED := CREATED.(
    zqExecs := [ZqExecution("E", 1, "B", 1.0)], batches := [FilledBatch(NEW_BATCH, 1.0)], obligations := [DUE_X, DUE_Y])
  const ABANDONED := FILLED.(
    zqOrders := [NEW_ORDER.(state := ZqAborted)],
    batches := [FilledBatch(NEW_BATCH, 1.0).(state := Complete, zqStatus := ZqAborted, remaining := 0.0)])

  lemma Fills()
    ensures Apply(CREATED, FILL) == FILLED
  {
    assert FindZqOrder(CREATED.zqOrders, 1) == Some(0) && FindBatch(CREATED.batches, "B") == Some(0);
    assert [NEW_BATCH][0 := FilledBatch(NEW_BATCH, 1.0)] == [FilledBatch(NEW_BATCH, 1.0)];
  }

  lemma Abandons()
    ensures Apply(FILLED, ABANDON) == ABANDONED
  {
    assert FindBatch(FILLED.batches, "B") == Some(0) && FindZqOrderOfBatch(FILLED.zqOrders, "B") == Some(0);
  }

  lemma AbandonedIsNotHedged()
    ensures HasObligations(ABANDONED.obligations, "B") && !FullyHedged(ABANDONED, ABANDONED.batches[0])
  {
    assert ABANDONED.obligations[0].id.batch == "B";
    assert DUE_X in ABANDONED.obligations && ConfirmedShares(ABANDONED, DUE_X) == 0.0;
  }

  /** An intent that is filled and then abandoned: COMPLETE with an obligation nobody hedged. */
  lemma AbandonedAfterAFill() returns (ops: seq<Op>)
    ensures LegalRun(ops) && |Run(EMPTY, ops).batches| == 1
    ensures var db := Run(EMPTY, ops); var b := db.batches[0];
      b.state.Complete? && HasObligations(db.obligations, b.id) && !FullyHedged(db, b)
  {
    ops := [CREATE, FILL, ABANDON];
    RunOfThree(CREATE, FILL, ABANDON);
    Creates();
    Fills();
    Abandons();
    AbandonedIsNotHedged();
  }
}

/**
  Every transaction keeps the ledger invariant, so every run does; and what a
  COMPLETE batch then is worth.
 */
module LedgerRuns {
  import opened Results
  import opened TradeLifecycle
  import opened LedgerModel
  import opened LedgerSteps
  import opened LedgerInvariants

  // --- hedge transactions -------------------------------------------------

  lemma EditKeepsRows(orders: seq<Order>, i: nat, o: Order)
    requires i < |orders| && SameOrderRow(orders[i], o)
    ensures SameOrderRows(orders, orders[i := o])
  {}

  lemma OrderEditKeepsJudged(db: Db, i: nat, o: Order, exempt: Option<ObligationId>)
    requires Judged(db, exempt) && i < |db.orders| && SameOrderRow(db.orders[i], o)
    ensures Judged(db.(orders := db.orders[i := o]), exempt)
  {
    var r := db.(orders := db.orders[i := o]);
    EditKeepsRows(db.orders, i, o);
    forall k | 0 <= k < |r.obligations| && Some(r.obligations[k].id) != exempt
      ensures JudgedObligation(r, r.obligations[k])
    {
      SameRowsSameIds(db.orders, r.orders, r.obligations[k].id);
      assert JudgedObligation(db, db.obligations[k]);
    }
  }

  lemma OrderEdited(db: Db, i: nat, o: Order, lost: set<string>)
    requires Inv(db, lost) && i < |db.orders| && SameOrderRow(db.orders[i], o)
    ensures InvExcept(db.(orders := db.orders[i := o]), o.obligation, lost)
  {
    InvGives(db, lost);
    var r := db.(orders := db.orders[i := o]);
    EditKeepsRows(db.orders, i, o);
    OrderKeysFrame(db.orders, r.orders, db.obligations, db.obligations);
    ExecutionKeysFrame(db.execs, r.execs, db.orders, r.orders);
    OrderEditKeepsJudged(db, i, o, None);
    SameDuesSized(db, r);
    forall k | 0 <= k < |r.batches| && r.batches[k].id !in lost + {o.obligation.batch}
      ensures CompleteBatch(r.batches[k], r.obligations, r.orders)
    {
      CompleteBatchFrame(db.batches[k], db.obligations, db.orders, r.obligations, r.orders);
    }
  }

  lemma OrderEditRefreshed(db: Db, i: nat, o: Order, lost: set<string>)
    requires Inv(db, lost) && i < |db.orders| && SameOrderRow(db.orders[i], o)
    ensures FindObligation(db.obligations, o.obligation).Some?
    ensures Inv(RefreshHedge(db.(orders := db.orders[i := o]), o.obligation), lost)
  {
    InvGives(db, lost);
    OrderEdited(db, i, o, lost);
    RefreshHedgeRestores(db.(orders := db.orders[i := o]), o.obligation, lost);
  }

  /** An order id belongs to the obligation of its order and to no other. */
  lemma OrderIdHasOneObligation(orders: seq<Order>, obligations: seq<Obligation>, i: nat, id: ObligationId)
    requires OrderKeys(orders, obligations) && i < |orders| && orders[i].obligation != id
    ensures orders[i].orderId !in HedgeOrderIds(orders, id)
  {}

  lemma ExecutionsChangeKeepsJudged(db: Db, execs: seq<Execution>, i: nat)
    requires OrderKeys(db.orders, db.obligations) && Judged(db, None) && i < |db.orders| && |db.execs| <= |execs|
    requires forall k :: 0 <= k < |db.execs| ==>
      execs[k] == db.execs[k] || execs[k].orderId == db.execs[k].orderId == db.orders[i].orderId
    requires forall k :: |db.execs| <= k < |execs| ==> execs[k].orderId == db.orders[i].orderId
    ensures Judged(db.(execs := execs), Some(db.orders[i].obligation))
  {
    var r, id := db.(execs := execs), db.orders[i].obligation;
    forall k | 0 <= k < |r.obligations| && Some(r.obligations[k].id) != Some(id)
      ensures JudgedObligation(r, r.obligations[k])
    {
      assert JudgedObligation(db, db.obligations[k]);
      var ids := HedgeOrderIds(db.orders, r.obligations[k].id);
      OrderIdHasOneObligation(db.orders, db.obligations, i, r.obligations[k].id);
      TotalUnaffected(db.execs, execs, ids, ConfirmedShare);
      TotalUnaffected(db.execs, execs, ids, PendingShare);
    }
  }

  lemma ExecutionsChanged(db: Db, execs: seq<Execution>, i: nat, lost: set<string>)
    requires Inv(db, lost) && i < |db.orders| && ExecutionKeys(execs, db.orders) && |db.execs| <= |execs|
    requires forall k :: 0 <= k < |db.execs| ==>
      execs[k] == db.execs[k] || execs[k].orderId == db.execs[k].orderId == db.orders[i].orderId
    requires forall k :: |db.execs| <= k < |execs| ==> execs[k].orderId == db.orders[i].orderId
    ensures FindObligation(db.obligations, db.orders[i].obligation).Some?
    ensures Inv(RefreshHedge(db.(execs := execs), db.orders[i].obligation), lost)
  {
    InvGives(db, lost);
    ExecutionsChangeKeepsJudged(db, execs, i);
    RefreshHedgeRestores(db.(execs := execs), db.orders[i].obligation, lost);
  }

  lemma {:induction false} TotalUnaffected(a: seq<Execution>, b: seq<Execution>, ids: set<string>, k: Share)
    requires |a| <= |b|
    requires forall i :: 0 <= i < |a| ==> b[i] == a[i] || (a[i].orderId !in ids && b[i].orderId !in ids)
    requires forall i :: |a| <= i < |b| ==> b[i].orderId !in ids
    ensures Total(b, ids, k) == Total(a, ids, k)
  {
    if |a| == |b| {
      TotalSameContributions(a, b, ids, k);
    } else {
      TotalUnaffected(a, b[..|b| - 1], ids, k);
    }
  }

  lemma ExecutionKeysAppend(execs: seq<Execution>, e: Execution, orders: seq<Order>)
    requires ExecutionKeys(execs, orders) && e.quantity > 0.0 && FindOrder(orders, e.orderId).Some?
    requires FindExecution(execs, e.execId).None?
    ensures ExecutionKeys(execs + [e], orders)
  {}

  lemma ExecutionAdded(db: Db, i: nat, e: Execution, lost: set<string>)
    requires Inv(db, lost) && e.quantity > 0.0 && FindOrder(db.orders, e.orderId) == Some(i)
    requires FindExecution(db.execs, e.execId).None?
    ensures FindObligation(db.obligations, db.orders[i].obligation).Some?
    ensures Inv(RefreshHedge(db.(execs := db.execs + [e]), db.orders[i].obligation), lost)
  {
    assert ExecutionKeys(db.execs + [e], db.orders) by {
      InvGives(db, lost);
      ExecutionKeysAppend(db.execs, e, db.orders);
    }
    ExecutionsChanged(db, db.execs + [e], i, lost);
  }

  lemma ExecutionRevised(db: Db, i: nat, j: nat, e: Execution, lost: set<string>)
    requires Inv(db, lost) && i < |db.orders| && j < |db.execs| && db.execs[j].orderId == db.orders[i].orderId
    requires e == db.execs[j].(status := e.status, tradeId := e.tradeId)
    ensures FindObligation(db.obligations, db.orders[i].obligation).Some?
    ensures Inv(RefreshHedge(db.(execs := db.execs[j := e]), db.orders[i].obligation), lost)
  {
    assert ExecutionKeys(db.execs[j := e], db.orders) by {
      InvGives(db, lost);
      RevisedKeys(db.execs, j, e, db.orders);
    }
    ExecutionsChanged(db, db.execs[j := e], i, lost);
  }

  lemma RevisedKeys(execs: seq<Execution>, j: nat, e: Execution, orders: seq<Order>)
    requires ExecutionKeys(execs, orders) && j < |execs| && e == execs[j].(status := e.status, tradeId := e.tradeId)
    ensures ExecutionKeys(execs[j := e], orders)
  {
    assert SameOrderRows(orders, orders);
    ExecutionKeysFrame(execs, execs[j := e], orders, orders);
  }

  lemma RecordExecutionKeeps(db: Db, execId: string, orderId: string, quantity: real, price: real, tradeId: string,
      status: TradeStatus, lost: set<string>)
    requires Inv(db, lost)
    ensures Inv(Kept(db, RecordExecution(db, execId, orderId, quantity, price, tradeId, status)), lost)
  {
    var outcome := RecordExecution(db, execId, orderId, quantity, price, tradeId, status);
    if outcome.Done? && outcome.db != db {
      var i := FindOrder(db.orders, orderId).value;
      match FindExecution(db.execs, execId)
      case None =>
        ExecutionAdded(db, i, Execution(execId, orderId, quantity, price, tradeId, status, 0.0), lost);
      case Some(j) =>
        var e := db.execs[j];
        var next := NextStatus(e.status, status);
        ExecutionRevised(db, i, j, if Contradicts(e.status, status) then e.(status := next)
          else e.(status := next, tradeId := tradeId), lost);
    }
  }

  lemma AwaitingOrderNotInComplete(db: Db, i: nat, k: nat, lost: set<string>)
    requires Completed(db, lost) && i < |db.orders| && k < |db.batches| && AwaitingOutcome(db.orders[i].state)
    requires db.orders[i].obligation.batch == db.batches[k].id && HasObligations(db.obligations, db.batches[k].id)
    requires db.batches[k].id !in lost
    ensures !db.batches[k].state.Complete?
  {
    assert CompleteBatch(db.batches[k], db.obligations, db.orders);
    assert !Resolved(db.orders[i]);
  }

  lemma SubmissionCompletes(db: Db, i: nat, o: Order, lost: set<string>)
    requires Completed(db, lost) && i < |db.orders| && AwaitingOutcome(db.orders[i].state)
      && SameOrderRow(db.orders[i], o)
    ensures Completed(db.(orders := db.orders[i := o]), lost)
  {
    var r := db.(orders := db.orders[i := o]);
    forall k | 0 <= k < |r.batches| && r.batches[k].id !in lost
      ensures CompleteBatch(r.batches[k], r.obligations, r.orders)
    {
      assert CompleteBatch(db.batches[k], db.obligations, db.orders);
      if db.batches[k].id != o.obligation.batch {
        CompleteBatchFrame(db.batches[k], db.obligations, db.orders, r.obligations, r.orders);
      } else if HasObligations(db.obligations, db.batches[k].id) {
        AwaitingOrderNotInComplete(db, i, k, lost);
      }
    }
  }

  lemma SubmissionKeeps(db: Db, key: string, state: OrderState, lost: set<string>)
    requires Inv(db, lost)
    ensures Inv(Kept(db, SetSubmission(db, key, state)), lost)
  {
    InvGives(db, lost);
    var found := FindOrderByKey(db.orders, key);
    if found.Some? && AwaitingOutcome(db.orders[found.value].state) {
      var i, o := found.value, db.orders[found.value].(state := state);
      assert Keys(db.(orders := db.orders[i := o])) && Sized(db.(orders := db.orders[i := o])) by {
        OrderEdited(db, i, o, lost);
      }
      OrderEditKeepsJudged(db, i, o, None);
      SubmissionCompletes(db, i, o, lost);
      InvFrom(db.(orders := db.orders[i := o]), lost);
    }
  }

  /** An obligation of a complete batch leaves nothing to order. */
  lemma CompleteLeavesNothing(db: Db, k: nat, at: nat)
    requires Sized(db) && k < |db.batches| && at < |db.obligations| && db.obligations[at].id.batch == db.batches[k].id
    requires db.batches[k].state.Complete? && CompleteBatch(db.batches[k], db.obligations, db.orders)
    ensures Available(db.obligations[at]) == 0.0
  {
    assert SizedBatch(db.batches[k], db.obligations, db.zqExecs);
    assert Covered(db.obligations[at]);
  }

  ghost predicate IntentAdded(db: Db, r: Db, o: Order, at: nat) {
    && r.orders == db.orders + [o] && o.quantity > 0.0
    && FindOrder(db.orders, o.orderId).None?
    && FindOrderByKey(db.orders, o.key).None?
    && FindObligation(db.obligations, o.obligation) == Some(at)
    && r == db.(orders := r.orders, obligations := db.obligations[at := db.obligations[at].(state := IntentRecorded)])
  }

  lemma {:induction false} FindOrderAppend(orders: seq<Order>, o: Order, orderId: string)
    requires FindOrder(orders, orderId).Some?
    ensures FindOrder(orders + [o], orderId).Some?
  {
    assert (orders + [o])[..|orders|] == orders;
  }

  lemma IntentKeepsKeys(db: Db, r: Db, o: Order, at: nat)
    requires Keys(db) && IntentAdded(db, r, o, at)
    ensures Keys(r)
  {
    IntentKeepsOrderKeys(db.orders, o, db.obligations, r.obligations);
    forall k | 0 <= k < |r.execs| ensures FindOrder(r.orders, r.execs[k].orderId).Some? {
      FindOrderAppend(db.orders, o, r.execs[k].orderId);
    }
  }

  lemma IntentKeepsOrderKeys(orders: seq<Order>, o: Order, obligations: seq<Obligation>, obligations': seq<Obligation>)
    requires OrderKeys(orders, obligations)
    requires |obligations| == |obligations'| && forall i :: 0 <= i < |obligations| ==>
      obligations[i].id == obligations'[i].id
    requires o.quantity > 0.0 && FindObligation(obligations, o.obligation).Some?
    requires FindOrder(orders, o.orderId).None? && FindOrderByKey(orders, o.key).None?
    ensures OrderKeys(orders + [o], obligations')
  {
    forall k | 0 <= k < |orders + [o]| ensures FindObligation(obligations', (orders + [o])[k].obligation).Some? {
      SameKeysFindObligation(obligations, obligations', (orders + [o])[k].obligation);
    }
  }

  lemma NewOrderHasNoExecution(orders: seq<Order>, o: Order, orderId: string, id: ObligationId)
    requires orderId != o.orderId
    ensures orderId in HedgeOrderIds(orders, id) <==> orderId in HedgeOrderIds(orders + [o], id)
  {
    if orderId in HedgeOrderIds(orders, id) {
      var i :| 0 <= i < |orders| && orders[i].obligation == id && orders[i].orderId == orderId;
      assert (orders + [o])[i] == orders[i];
    }
  }

  lemma IntentKeepsJudged(db: Db, r: Db, o: Order, at: nat)
    requires ExecutionKeys(db.execs, db.orders) && Judged(db, None) && IntentAdded(db, r, o, at)
    ensures Judged(r, None)
  {
    forall k | 0 <= k < |r.obligations| ensures JudgedObligation(r, r.obligations[k]) {
      assert JudgedObligation(db, db.obligations[k]);
      var id := r.obligations[k].id;
      forall e | 0 <= e < |db.execs|
        ensures db.execs[e].orderId in HedgeOrderIds(db.orders, id)
          <==> db.execs[e].orderId in HedgeOrderIds(r.orders, id)
      {
        NewOrderHasNoExecution(db.orders, o, db.execs[e].orderId, id);
      }
      TotalOtherIds(db.execs, HedgeOrderIds(db.orders, id), HedgeOrderIds(r.orders, id), ConfirmedShare);
      TotalOtherIds(db.execs, HedgeOrderIds(db.orders, id), HedgeOrderIds(r.orders, id), PendingShare);
    }
  }

  lemma IntentCompletes(db: Db, r: Db, o: Order, at: nat, lost: set<string>)
    requires Sized(db) && Completed(db, lost) && IntentAdded(db, r, o, at) && Available(db.obligations[at]) > 0.0
    ensures Completed(r, lost)
  {
    forall k | 0 <= k < |r.batches| && r.batches[k].id !in lost
      ensures CompleteBatch(r.batches[k], r.obligations, r.orders)
    {
      var b := db.batches[k];
      assert CompleteBatch(b, db.obligations, db.orders);
      if b.id != o.obligation.batch {
        CompleteBatchFrame(b, db.obligations, db.orders, r.obligations, r.orders);
      } else if b.state.Complete? {
        CompleteLeavesNothing(db, k, at);
      }
    }
  }

  lemma IntentKeepsInv(db: Db, r: Db, o: Order, at: nat, lost: set<string>)
    requires Keys(db) && Judged(db, None) && Completed(db, lost) && Sized(db)
    requires IntentAdded(db, r, o, at) && Available(db.obligations[at]) > 0.0
    ensures Inv(r, lost)
  {
    assert Keys(r) by { IntentKeepsKeys(db, r, o, at); }
    assert Judged(r, None) by { IntentKeepsJudged(db, r, o, at); }
    assert Completed(r, lost) by { IntentCompletes(db, r, o, at, lost); }
    assert Sized(r) by { IntentKeepsSized(db, r, o, at); }
    InvFrom(r, lost);
  }

  lemma IntentKeepsSized(db: Db, r: Db, o: Order, at: nat)
    requires Sized(db) && IntentAdded(db, r, o, at)
    ensures Sized(r)
  {
    SameDuesSized(db, r);
  }

  lemma CreateIntentKeeps(db: Db, id: ObligationId, key: string, shares: real, price: real, signed: bool,
      orderId: string, lost: set<string>)
    requires Inv(db, lost)
    ensures Inv(Kept(db, CreateIntent(db, id, key, shares, price, signed, orderId)), lost)
  {
    InvGives(db, lost);
    var outcome := CreateIntent(db, id, key, shares, price, signed, orderId);
    if outcome.Done? && outcome.value {
      var at, r := FindObligation(db.obligations, id).value, outcome.db;
      var o := Order(orderId, key, id, shares, price, Intent, false, 0.0);
      assert IntentAdded(db, r, o, at);
      IntentKeepsInv(db, r, o, at, lost);
    }
  }

  lemma {:induction false} TotalOtherIds(execs: seq<Execution>, ids: set<string>, ids': set<string>, k: Share)
    requires forall i :: 0 <= i < |execs| ==> (execs[i].orderId in ids <==> execs[i].orderId in ids')
    ensures Total(execs, ids, k) == Total(execs, ids', k)
  {
    if |execs| > 0 {
      TotalOtherIds(execs[..|execs| - 1], ids, ids', k);
    }
  }

  lemma AcceptKeeps(db: Db, key: string, orderId: string, state: OrderState, lost: set<string>)
    requires Inv(db, lost)
    ensures Inv(Kept(db, Accept(db, key, orderId, state)), lost)
  {
    var found := FindOrderByKey(db.orders, key);
    if found.Some? {
      var o := db.orders[found.value];
      OrderEditRefreshed(db, found.value, if Resolved(o) then o else o.(state := state), lost);
    }
  }

  lemma UpdateStatusKeeps(db: Db, orderId: string, state: OrderState, lost: set<string>)
    requires Inv(db, lost)
    ensures Inv(Kept(db, UpdateStatus(db, orderId, state)), lost)
  {
    var found := FindOrder(db.orders, orderId);
    if found.Some? && !Resolved(db.orders[found.value]) {
      OrderEditRefreshed(db, found.value, db.orders[found.value].(state := state, verified := false), lost);
    }
  }

  lemma VerifyKeeps(db: Db, orderId: string, state: OrderState, matched: Option<real>, associated: set<string>,
      lost: set<string>)
    requires Inv(db, lost)
    ensures Inv(Kept(db, Verify(db, orderId, state, matched, associated)), lost)
  {
    var outcome := Verify(db, orderId, state, matched, associated);
    if outcome.Done? && outcome.db != db {
      var i := FindOrder(db.orders, orderId).value;
      var o := db.orders[i];
      var verified := Verifies(db, o, state, matched.value, associated);
      OrderEditRefreshed(db, i, o.(state := state, venueMatched := matched.value, verified := verified), lost);
    }
  }
}

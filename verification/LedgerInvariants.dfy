/**
  What every reachable ledger state satisfies, whatever the venues report.
 */
module LedgerInvariants {
  import opened Results
  import opened Amounts
  import opened Rounding
  import opened LedgerModel
  import opened LedgerSteps

  // --- keys and references ------------------------------------------------

  /** Unique keys and foreign references, with each batch beside its one ZQ order. */
  ghost predicate Keys(db: Db) {
    && BatchKeys(db.batches, db.zqOrders)
    && ObligationKeys(db.obligations, db.batches, db.zqExecs)
    && OrderKeys(db.orders, db.obligations)
    && ExecutionKeys(db.execs, db.orders)
  }

  ghost predicate BatchKeys(batches: seq<Batch>, zqOrders: seq<ZqOrder>) {
    && (forall i, j :: 0 <= i < j < |batches| ==> batches[i].id != batches[j].id)
    && |zqOrders| == |batches|
    && (forall i :: 0 <= i < |batches| ==>
      zqOrders[i].batch == batches[i].id && zqOrders[i].state == batches[i].zqStatus)
  }

  ghost predicate ObligationKeys(obligations: seq<Obligation>, batches: seq<Batch>, zqExecs: seq<ZqExecution>) {
    && (forall i, j :: 0 <= i < j < |obligations| ==> obligations[i].id != obligations[j].id)
    && (forall i :: 0 <= i < |obligations| ==>
        && obligations[i].due >= 0.0
        && FindBatch(batches, obligations[i].id.batch).Some?
        && HasZqExecution(zqExecs, obligations[i].id.execId))
  }

  ghost predicate OrderKeys(orders: seq<Order>, obligations: seq<Obligation>) {
    && (forall i, j :: 0 <= i < j < |orders| ==>
      orders[i].orderId != orders[j].orderId && orders[i].key != orders[j].key)
    && (forall i :: 0 <= i < |orders| ==>
      FindObligation(obligations, orders[i].obligation).Some? && orders[i].quantity > 0.0)
  }

  ghost predicate ExecutionKeys(execs: seq<Execution>, orders: seq<Order>) {
    && (forall i, j :: 0 <= i < j < |execs| ==> execs[i].execId != execs[j].execId)
    && (forall i :: 0 <= i < |execs| ==> FindOrder(orders, execs[i].orderId).Some? && execs[i].quantity > 0.0)
  }

  lemma FindBatchAt(batches: seq<Batch>, i: nat)
    requires i < |batches|
    ensures FindBatch(batches, batches[i].id).Some?
  {}

  // --- an obligation is judged by its own executions ----------------------

  ghost predicate JudgedBy(o: Obligation, confirmed: real, pending: real) {
    && o.actual == confirmed
    && o.pending == pending
    && o.confirmed == Min(confirmed, o.due)
    && o.excess == Max(0.0, confirmed + pending - o.due)
    && (o.state.Excess? ==> o.excess != 0.0)
  }

  ghost predicate JudgedObligation(db: Db, o: Obligation) {
    var ids := HedgeOrderIds(db.orders, o.id);
    JudgedBy(o, Total(db.execs, ids, ConfirmedShare), Total(db.execs, ids, PendingShare))
  }

  ghost predicate Judged(db: Db, exempt: Option<ObligationId>) {
    forall i :: 0 <= i < |db.obligations| && Some(db.obligations[i].id) != exempt ==>
      JudgedObligation(db, db.obligations[i])
  }

  // --- a complete batch is complete ---------------------------------------

  ghost predicate CompleteBatch(b: Batch, obligations: seq<Obligation>, orders: seq<Order>) {
    b.state.Complete? && HasObligations(obligations, b.id) ==> MayComplete(b, obligations, orders)
  }

  /** Every batch but the `lost` ones. */
  ghost predicate Completed(db: Db, lost: set<string>) {
    forall i :: 0 <= i < |db.batches| && db.batches[i].id !in lost ==>
      CompleteBatch(db.batches[i], db.obligations, db.orders)
  }

  // --- sizing telescopes --------------------------------------------------

  function DueOf(o: Obligation, batch: string, token: string): real {
    if o.id.batch == batch && o.id.token == token then o.due else 0.0
  }

  /** Due shares of one token over all obligations of one batch. */
  function SumDue(obligations: seq<Obligation>, batch: string, token: string): real {
    if |obligations| == 0 then 0.0
    else SumDue(obligations[..|obligations| - 1], batch, token) + DueOf(obligations[|obligations| - 1], batch, token)
  }

  function SumFills(zqExecs: seq<ZqExecution>, batch: string): real {
    if |zqExecs| == 0 then 0.0
    else
      SumFills(zqExecs[..|zqExecs| - 1], batch)
        + (if zqExecs[|zqExecs| - 1].batch == batch then zqExecs[|zqExecs| - 1].quantity else 0.0)
  }

  ghost predicate SizedBatch(b: Batch, obligations: seq<Obligation>, zqExecs: seq<ZqExecution>) {
    && b.filled == SumFills(zqExecs, b.id)
    && 0.0 <= b.filled
    && (b.filled > 0.0 ==> b.filled <= b.quantity as real)
    && (HasObligations(obligations, b.id) ==> b.filled > 0.0)
    && (b.ratios.Some? ==>
        && b.ratios.value.Valid()
        && SumDue(obligations, b.id, b.ratios.value.first) == SharesFor(b.ratios.value.firstRatio, b.filled)
        && SumDue(obligations, b.id, b.ratios.value.second) == SharesFor(b.ratios.value.secondRatio, b.filled))
  }

  ghost predicate Sized(db: Db) {
    && (forall i :: 0 <= i < |db.batches| ==> SizedBatch(db.batches[i], db.obligations, db.zqExecs))
    && (forall i :: 0 <= i < |db.zqExecs| ==> FindBatch(db.batches, db.zqExecs[i].batch).Some?)
  }

  lemma {:induction false} SumDueSame(a: seq<Obligation>, b: seq<Obligation>, batch: string, token: string)
    requires |a| == |b|
    requires forall i :: 0 <= i < |a| ==> DueOf(a[i], batch, token) == DueOf(b[i], batch, token)
    ensures SumDue(a, batch, token) == SumDue(b, batch, token)
  {
    if |a| > 0 {
      SumDueSame(a[..|a| - 1], b[..|b| - 1], batch, token);
    }
  }

  lemma SumDueAppendTwo(a: seq<Obligation>, x: Obligation, y: Obligation, batch: string, token: string)
    ensures SumDue(a + [x, y], batch, token)
      == SumDue(a, batch, token) + DueOf(x, batch, token) + DueOf(y, batch, token)
  {
    assert (a + [x, y])[..|a| + 1] == a + [x];
    assert (a + [x])[..|a|] == a;
  }

  lemma {:induction false} SumDueNone(a: seq<Obligation>, batch: string, token: string)
    requires !HasObligations(a, batch)
    ensures SumDue(a, batch, token) == 0.0
  {
    if |a| > 0 {
      assert !HasObligations(a[..|a| - 1], batch);
      SumDueNone(a[..|a| - 1], batch, token);
    }
  }

  lemma {:induction false} SumFillsNone(zqExecs: seq<ZqExecution>, batch: string)
    requires forall i :: 0 <= i < |zqExecs| ==> zqExecs[i].batch != batch
    ensures SumFills(zqExecs, batch) == 0.0
  {
    if |zqExecs| > 0 {
      SumFillsNone(zqExecs[..|zqExecs| - 1], batch);
    }
  }

  // --- the invariant ------------------------------------------------------

  datatype Aspect = KeysAspect | JudgedAspect | CompletedAspect | SizedAspect

  ghost predicate Holds(aspect: Aspect, db: Db, lost: set<string>) {
    match aspect
    case KeysAspect => Keys(db)
    case JudgedAspect => Judged(db, None)
    case CompletedAspect => Completed(db, lost)
    case SizedAspect => Sized(db)
  }

  /** The ledger invariant, one aspect at a time; COMPLETE is not vouched for in a `lost` batch. */
  ghost predicate Inv(db: Db, lost: set<string>) {
    forall aspect: Aspect :: Holds(aspect, db, lost)
  }

  lemma InvGives(db: Db, lost: set<string>)
    requires Inv(db, lost)
    ensures Keys(db) && Judged(db, None) && Completed(db, lost) && Sized(db)
  {
    assert Holds(KeysAspect, db, lost) && Holds(JudgedAspect, db, lost);
    assert Holds(CompletedAspect, db, lost) && Holds(SizedAspect, db, lost);
  }

  lemma InvFrom(db: Db, lost: set<string>)
    requires Keys(db) && Judged(db, None) && Completed(db, lost) && Sized(db)
    ensures Inv(db, lost)
  {}

  /** The invariant, whichever batches are lost: keys, judged obligations and exact sizing. */
  ghost predicate Sound(db: Db) {
    exists lost :: Inv(db, lost)
  }

  lemma SoundGives(db: Db) returns (lost: set<string>)
    requires Sound(db)
    ensures Inv(db, lost) && Keys(db) && Judged(db, None) && Sized(db)
  {
    lost :| Inv(db, lost);
    InvGives(db, lost);
  }

  /** Holds midway through a hedge transaction, before obligation `id` and its batch are refreshed. */
  ghost predicate InvExcept(db: Db, id: ObligationId, lost: set<string>) {
    Keys(db) && Judged(db, Some(id)) && Completed(db, lost + {id.batch}) && Sized(db)
  }

  // --- refreshing restores the invariant ----------------------------------

  ghost predicate SameOrderRow(a: Order, b: Order) {
    a.orderId == b.orderId && a.key == b.key && a.obligation == b.obligation && a.quantity == b.quantity
  }

  ghost predicate SameOrderRows(a: seq<Order>, b: seq<Order>) {
    |a| == |b| && forall i :: 0 <= i < |a| ==> SameOrderRow(a[i], b[i])
  }

  lemma SameRowsSameIds(a: seq<Order>, b: seq<Order>, id: ObligationId)
    requires SameOrderRows(a, b)
    ensures HedgeOrderIds(a, id) == HedgeOrderIds(b, id)
  {
    forall x | x in HedgeOrderIds(a, id) ensures x in HedgeOrderIds(b, id) {
      var i :| 0 <= i < |a| && a[i].obligation == id && a[i].orderId == x;
      assert SameOrderRow(a[i], b[i]);
    }
    forall x | x in HedgeOrderIds(b, id) ensures x in HedgeOrderIds(a, id) {
      var i :| 0 <= i < |b| && b[i].obligation == id && b[i].orderId == x;
      assert SameOrderRow(a[i], b[i]);
    }
  }

  lemma {:induction false} SameRowsFindOrder(a: seq<Order>, b: seq<Order>, orderId: string)
    requires SameOrderRows(a, b)
    ensures FindOrder(a, orderId) == FindOrder(b, orderId)
  {
    if |a| > 0 {
      assert SameOrderRow(a[|a| - 1], b[|b| - 1]);
      assert SameOrderRows(a[..|a| - 1], b[..|b| - 1]);
      SameRowsFindOrder(a[..|a| - 1], b[..|b| - 1], orderId);
    }
  }

  lemma {:induction false} SameKeysFindObligation(a: seq<Obligation>, b: seq<Obligation>, id: ObligationId)
    requires |a| == |b| && forall i :: 0 <= i < |a| ==> a[i].id == b[i].id
    ensures FindObligation(a, id) == FindObligation(b, id)
  {
    if |a| > 0 {
      SameKeysFindObligation(a[..|a| - 1], b[..|b| - 1], id);
    }
  }

  lemma {:induction false} SameKeysFindBatch(a: seq<Batch>, b: seq<Batch>, id: string)
    requires |a| == |b| && forall i :: 0 <= i < |a| ==> a[i].id == b[i].id
    ensures FindBatch(a, id) == FindBatch(b, id)
  {
    if |a| > 0 {
      SameKeysFindBatch(a[..|a| - 1], b[..|b| - 1], id);
    }
  }

  lemma AllotmentKeepsTotals(execs: seq<Execution>, ids: set<string>, due: real, other: set<string>, k: Share)
    ensures Total(AllocateExecs(execs, ids, due), other, k) == Total(execs, other, k)
  {
    TotalSameContributions(AllocateExecs(execs, ids, due), execs, other, k);
  }

  /** `r` differs from `db` in what refreshing obligation `id` may touch, and in nothing else. */
  ghost predicate OnlyRefreshed(db: Db, r: Db, id: ObligationId) {
    && r.batches == db.batches && r.zqOrders == db.zqOrders && r.zqExecs == db.zqExecs
    && SameOrderRows(db.orders, r.orders)
    && |r.execs| == |db.execs|
    && (forall i :: 0 <= i < |db.execs| ==> r.execs[i] == db.execs[i].(allotted := r.execs[i].allotted))
    && |r.obligations| == |db.obligations|
    && (forall i :: 0 <= i < |db.obligations| ==>
      r.obligations[i].id == db.obligations[i].id && r.obligations[i].due == db.obligations[i].due)
    && (forall i :: 0 <= i < |db.obligations| && db.obligations[i].id != id ==> r.obligations[i] == db.obligations[i])
    && (forall i :: 0 <= i < |db.orders| && db.orders[i].obligation != id ==> r.orders[i] == db.orders[i])
  }

  lemma RowsRefreshed(db: Db, id: ObligationId)
    requires FindObligation(db.obligations, id).Some?
    ensures OnlyRefreshed(db, RefreshRows(db, id), id)
  {}

  lemma OrderKeysFrame(orders: seq<Order>, orders': seq<Order>, obligations: seq<Obligation>,
      obligations': seq<Obligation>)
    requires OrderKeys(orders, obligations) && SameOrderRows(orders, orders')
    requires |obligations| == |obligations'| && forall i :: 0 <= i < |obligations| ==>
      obligations[i].id == obligations'[i].id
    ensures OrderKeys(orders', obligations')
  {
    forall i | 0 <= i < |orders'|
      ensures FindObligation(obligations', orders'[i].obligation).Some? && orders'[i].quantity > 0.0
    {
      assert SameOrderRow(orders[i], orders'[i]);
      SameKeysFindObligation(obligations, obligations', orders[i].obligation);
    }
    forall i, j | 0 <= i < j < |orders'|
      ensures orders'[i].orderId != orders'[j].orderId && orders'[i].key != orders'[j].key
    {
      assert SameOrderRow(orders[i], orders'[i]) && SameOrderRow(orders[j], orders'[j]);
    }
  }

  lemma ExecutionKeysFrame(execs: seq<Execution>, execs': seq<Execution>, orders: seq<Order>, orders': seq<Order>)
    requires ExecutionKeys(execs, orders) && SameOrderRows(orders, orders')
    requires |execs| == |execs'|
    requires forall i :: 0 <= i < |execs| ==>
      execs[i] == execs'[i].(status := execs[i].status, tradeId := execs[i].tradeId, allotted := execs[i].allotted)
    ensures ExecutionKeys(execs', orders')
  {
    forall i | 0 <= i < |execs'| ensures FindOrder(orders', execs'[i].orderId).Some? {
      SameRowsFindOrder(orders, orders', execs[i].orderId);
    }
  }

  lemma OnlyRefreshedKeepsKeys(db: Db, r: Db, id: ObligationId)
    requires Keys(db) && OnlyRefreshed(db, r, id)
    ensures Keys(r)
  {
    OrderKeysFrame(db.orders, r.orders, db.obligations, r.obligations);
    ExecutionKeysFrame(db.execs, r.execs, db.orders, r.orders);
  }

  lemma RefreshKeepsTotals(db: Db, id: ObligationId, other: ObligationId, k: Share)
    requires FindObligation(db.obligations, id).Some?
    ensures var r := RefreshRows(db, id);
      Total(r.execs, HedgeOrderIds(r.orders, other), k) == Total(db.execs, HedgeOrderIds(db.orders, other), k)
  {
    var r := RefreshRows(db, id);
    var at := FindObligation(db.obligations, id).value;
    RowsRefreshed(db, id);
    SameRowsSameIds(db.orders, r.orders, other);
    AllotmentKeepsTotals(db.execs, HedgeOrderIds(db.orders, id), db.obligations[at].due,
        HedgeOrderIds(db.orders, other), k);
  }

  lemma RefreshRowsJudges(db: Db, id: ObligationId)
    requires ObligationKeys(db.obligations, db.batches, db.zqExecs) && Judged(db, Some(id))
      && FindObligation(db.obligations, id).Some?
    ensures Judged(RefreshRows(db, id), None)
  {
    var r := RefreshRows(db, id);
    forall i | 0 <= i < |r.obligations| ensures JudgedObligation(r, r.obligations[i]) {
      RefreshKeepsTotals(db, id, db.obligations[i].id, ConfirmedShare);
      RefreshKeepsTotals(db, id, db.obligations[i].id, PendingShare);
      if db.obligations[i].id != id {
        assert JudgedObligation(db, db.obligations[i]);
      }
    }
  }

  lemma SameDuesSized(db: Db, r: Db)
    requires Sized(db)
    requires r.batches == db.batches && r.zqExecs == db.zqExecs && |r.obligations| == |db.obligations|
    requires forall i :: 0 <= i < |db.obligations| ==>
      r.obligations[i].id == db.obligations[i].id && r.obligations[i].due == db.obligations[i].due
    ensures Sized(r)
  {
    forall i | 0 <= i < |r.batches| ensures SizedBatch(r.batches[i], r.obligations, r.zqExecs) {
      var b := db.batches[i];
      assert SizedBatch(b, db.obligations, db.zqExecs);
      assert HasObligations(r.obligations, b.id) ==> HasObligations(db.obligations, b.id) by {
        if HasObligations(r.obligations, b.id) {
          var k :| 0 <= k < |r.obligations| && r.obligations[k].id.batch == b.id;
          assert db.obligations[k].id.batch == b.id;
        }
      }
      if b.ratios.Some? {
        SumDueSame(db.obligations, r.obligations, b.id, b.ratios.value.first);
        SumDueSame(db.obligations, r.obligations, b.id, b.ratios.value.second);
      }
    }
  }

  /** Whether a batch may complete depends on its own obligations and orders only. */
  lemma CompleteBatchFrame(b: Batch, obligations: seq<Obligation>, orders: seq<Order>, obligations': seq<Obligation>,
      orders': seq<Order>)
    requires |obligations| == |obligations'| && |orders| <= |orders'|
    requires forall i :: 0 <= i < |obligations| ==> obligations[i].id == obligations'[i].id
    requires forall i :: 0 <= i < |obligations| && obligations[i].id.batch == b.id ==> obligations'[i] == obligations[i]
    requires forall i :: 0 <= i < |orders| && orders'[i].obligation.batch == b.id ==> orders'[i] == orders[i]
    requires forall i :: |orders| <= i < |orders'| ==> orders'[i].obligation.batch != b.id
    requires CompleteBatch(b, obligations, orders)
    ensures CompleteBatch(b, obligations', orders')
  {
    if b.state.Complete? && HasObligations(obligations', b.id) {
      var k :| 0 <= k < |obligations'| && obligations'[k].id.batch == b.id;
      assert obligations[k].id.batch == b.id;
      assert MayComplete(b, obligations, orders);
      if BatchHedged(obligations, b.id) {
        forall i | 0 <= i < |obligations'| && obligations'[i].id.batch == b.id ensures Covered(obligations'[i]) {
          assert obligations[i].id.batch == b.id;
        }
      }
    }
  }

  lemma OnlyRefreshedCompletes(db: Db, r: Db, id: ObligationId, lost: set<string>)
    requires OnlyRefreshed(db, r, id) && Completed(db, lost + {id.batch})
    ensures Completed(r, lost + {id.batch})
  {
    forall i | 0 <= i < |r.batches| && r.batches[i].id !in lost + {id.batch}
      ensures CompleteBatch(r.batches[i], r.obligations, r.orders)
    {
      assert forall k :: 0 <= k < |r.orders| ==> SameOrderRow(db.orders[k], r.orders[k]);
      CompleteBatchFrame(db.batches[i], db.obligations, db.orders, r.obligations, r.orders);
    }
  }

  /** The batch refresh makes COMPLETE mean complete for every batch with an obligation. */
  lemma RefreshedBatchIsComplete(b: Batch, obligations: seq<Obligation>, orders: seq<Order>)
    ensures CompleteBatch(RefreshBatch(b, obligations, orders), obligations, orders)
    ensures var r := RefreshBatch(b, obligations, orders);
      r == b.(state := r.state, remaining := r.remaining)
  {
    var r := RefreshBatch(b, obligations, orders);
    assert MayComplete(b, obligations, orders) <==> MayComplete(r, obligations, orders);
  }

  lemma ReplaceBatchKeys(db: Db, i: nat, b: Batch)
    requires Keys(db) && i < |db.batches| && b.id == db.batches[i].id && b.zqStatus == db.batches[i].zqStatus
    ensures Keys(db.(batches := db.batches[i := b]))
  {
    forall k | 0 <= k < |db.obligations| ensures FindBatch(db.batches[i := b], db.obligations[k].id.batch).Some? {
      SameKeysFindBatch(db.batches, db.batches[i := b], db.obligations[k].id.batch);
    }
  }

  lemma SameRowsJudged(db: Db, r: Db, exempt: Option<ObligationId>)
    requires Judged(db, exempt) && r.obligations == db.obligations && r.orders == db.orders && r.execs == db.execs
    ensures Judged(r, exempt)
  {
    forall k | 0 <= k < |r.obligations| && Some(r.obligations[k].id) != exempt
      ensures JudgedObligation(r, r.obligations[k])
    {
      assert JudgedObligation(db, db.obligations[k]);
    }
  }

  lemma ReplaceBatchKeeps(db: Db, i: nat, b: Batch, lost: set<string>)
    requires Keys(db) && Judged(db, None) && Sized(db) && i < |db.batches|
    requires b == db.batches[i].(state := b.state, remaining := b.remaining, reported := b.reported,
        cancelReason := b.cancelReason)
    requires Completed(db, lost + {b.id}) && CompleteBatch(b, db.obligations, db.orders)
    ensures Inv(db.(batches := db.batches[i := b]), lost)
  {
    var r := db.(batches := db.batches[i := b]);
    ReplaceBatchKeys(db, i, b);
    SameRowsJudged(db, r, None);
    ReplaceBatchCompletes(db, i, b, lost);
    ReplaceBatchSizes(db, i, b);
    InvFrom(r, lost);
  }

  lemma ReplaceBatchCompletes(db: Db, i: nat, b: Batch, lost: set<string>)
    requires i < |db.batches| && b.id == db.batches[i].id
    requires Completed(db, lost + {b.id}) && CompleteBatch(b, db.obligations, db.orders)
    requires forall j, k :: 0 <= j < k < |db.batches| ==> db.batches[j].id != db.batches[k].id
    ensures Completed(db.(batches := db.batches[i := b]), lost)
  {
    var r := db.(batches := db.batches[i := b]);
    forall k | 0 <= k < |r.batches| && r.batches[k].id !in lost
      ensures CompleteBatch(r.batches[k], r.obligations, r.orders)
    {
      if k != i {
        assert db.batches[k].id != b.id;
        assert CompleteBatch(db.batches[k], db.obligations, db.orders);
      }
    }
  }

  lemma ReplaceBatchSizes(db: Db, i: nat, b: Batch)
    requires i < |db.batches| && Sized(db)
    requires b.id == db.batches[i].id && b.filled == db.batches[i].filled && b.quantity == db.batches[i].quantity
      && b.ratios == db.batches[i].ratios
    ensures Sized(db.(batches := db.batches[i := b]))
  {
    var r := db.(batches := db.batches[i := b]);
    forall k | 0 <= k < |r.batches| ensures SizedBatch(r.batches[k], r.obligations, r.zqExecs) {
      assert SizedBatch(db.batches[k], db.obligations, db.zqExecs);
      assert r.batches[k].filled == db.batches[k].filled && r.batches[k].ratios == db.batches[k].ratios;
    }
    forall k | 0 <= k < |r.zqExecs| ensures FindBatch(r.batches, r.zqExecs[k].batch).Some? {
      SameKeysFindBatch(db.batches, r.batches, r.zqExecs[k].batch);
    }
  }

  lemma RefreshBatchOfKeeps(db: Db, batch: string, lost: set<string>)
    requires Keys(db) && Judged(db, None) && Sized(db) && Completed(db, lost + {batch})
    ensures Inv(RefreshBatchOf(db, batch), lost)
  {
    match FindBatch(db.batches, batch)
    case None =>
    case Some(i) =>
      RefreshedBatchIsComplete(db.batches[i], db.obligations, db.orders);
      ReplaceBatchKeeps(db, i, RefreshBatch(db.batches[i], db.obligations, db.orders), lost);
  }

  /** Refreshing an obligation and its batch restores everything a hedge transaction disturbed. */
  lemma RefreshHedgeRestores(db: Db, id: ObligationId, lost: set<string>)
    requires InvExcept(db, id, lost) && FindObligation(db.obligations, id).Some?
    ensures Inv(RefreshHedge(db, id), lost)
  {
    var r := RefreshRows(db, id);
    RowsRefreshed(db, id);
    OnlyRefreshedKeepsKeys(db, r, id);
    RefreshRowsJudges(db, id);
    SameDuesSized(db, r);
    OnlyRefreshedCompletes(db, r, id, lost);
    RefreshBatchOfKeeps(r, id.batch, lost);
  }
}

/**
  The ZQ side of the ledger: batches, their futures fills and what a COMPLETE
  batch is worth over every run.
 */
module BatchRuns {
  import opened Results
  import opened Rounding
  import opened LedgerModel
  import opened LedgerSteps
  import opened LedgerInvariants

  // --- adding a batch -----------------------------------------------------

  lemma FindBatchAppend(batches: seq<Batch>, b: Batch, id: string)
    requires FindBatch(batches, id).Some?
    ensures FindBatch(batches + [b], id).Some?
  {
    assert (batches + [b])[..|batches|] == batches;
  }

  lemma NothingForNewBatch(db: Db, id: string)
    requires Keys(db) && Sized(db) && FindBatch(db.batches, id).None?
    ensures !HasObligations(db.obligations, id)
    ensures forall i :: 0 <= i < |db.zqExecs| ==> db.zqExecs[i].batch != id
  {}

  lemma NewBatchSized(db: Db, b: Batch)
    requires Keys(db) && Sized(db) && FindBatch(db.batches, b.id).None? && b.filled == 0.0
    requires b.ratios.Some? ==> b.ratios.value.Valid()
    ensures SizedBatch(b, db.obligations, db.zqExecs)
  {
    NothingForNewBatch(db, b.id);
    SumFillsNone(db.zqExecs, b.id);
    if b.ratios.Some? {
      SumDueNone(db.obligations, b.id, b.ratios.value.first);
      SumDueNone(db.obligations, b.id, b.ratios.value.second);
      SharesForNothing(b.ratios.value.firstRatio);
      SharesForNothing(b.ratios.value.secondRatio);
    }
  }

  lemma BatchAddedKeys(db: Db, b: Batch, order: ZqOrder)
    requires Keys(db) && FindBatch(db.batches, b.id).None? && order.batch == b.id && order.state == b.zqStatus
    ensures Keys(db.(batches := db.batches + [b], zqOrders := db.zqOrders + [order]))
  {
    forall k | 0 <= k < |db.obligations| ensures FindBatch(db.batches + [b], db.obligations[k].id.batch).Some? {
      FindBatchAppend(db.batches, b, db.obligations[k].id.batch);
    }
  }

  lemma BatchAddedSized(db: Db, r: Db, b: Batch)
    requires Keys(db) && Sized(db) && FindBatch(db.batches, b.id).None? && b.filled == 0.0
    requires b.ratios.Some? ==> b.ratios.value.Valid()
    requires r.batches == db.batches + [b] && r.zqExecs == db.zqExecs && r.obligations == db.obligations
    ensures Sized(r)
  {
    NewBatchSized(db, b);
    forall k | 0 <= k < |r.zqExecs| ensures FindBatch(r.batches, r.zqExecs[k].batch).Some? {
      FindBatchAppend(db.batches, b, r.zqExecs[k].batch);
    }
    forall k | 0 <= k < |r.batches| ensures SizedBatch(r.batches[k], r.obligations, r.zqExecs) {
      assert k < |db.batches| ==> SizedBatch(db.batches[k], db.obligations, db.zqExecs);
    }
  }

  lemma CreateBatchKeeps(db: Db, batch: string, orderId: int, quantity: int, ratios: Option<Ratios>, lost: set<string>)
    requires Inv(db, lost)
    ensures Inv(Kept(db, CreateBatch(db, batch, orderId, quantity, ratios)), lost)
  {
    InvGives(db, lost);
    var outcome := CreateBatch(db, batch, orderId, quantity, ratios);
    if outcome.Done? && outcome.db != db {
      var b := Batch(batch, quantity, 0.0, Qualified, ZqIntent, ratios, "", None, quantity as real);
      BatchAddedKeys(db, b, ZqOrder(orderId, batch, ZqIntent, quantity));
      BatchAddedSized(db, outcome.db, b);
      SameRowsJudged(db, outcome.db, None);
      assert Completed(outcome.db, lost) by {
        forall k | 0 <= k < |outcome.db.batches| && outcome.db.batches[k].id !in lost
          ensures CompleteBatch(outcome.db.batches[k], db.obligations, db.orders) {
          assert k < |db.batches| ==> CompleteBatch(db.batches[k], db.obligations, db.orders);
        }
      }
      InvFrom(outcome.db, lost);
    }
  }

  // --- status of the ZQ order ---------------------------------------------

  /** Batch `i` and the order beside it are replaced together, keeping identity and sizing. */
  ghost predicate PairReplaced(db: Db, r: Db, i: nat, b: Batch, order: ZqOrder) {
    && i < |db.batches| == |db.zqOrders|
    && b.id == db.batches[i].id && b.filled == db.batches[i].filled && b.quantity == db.batches[i].quantity
      && b.ratios == db.batches[i].ratios
    && order.batch == b.id && order.state == b.zqStatus
    && r == db.(batches := db.batches[i := b], zqOrders := db.zqOrders[i := order])
  }

  lemma PairReplacedKeys(db: Db, r: Db, i: nat, b: Batch, order: ZqOrder)
    requires Keys(db) && PairReplaced(db, r, i, b, order)
    ensures Keys(r)
  {
    forall k | 0 <= k < |r.obligations| ensures FindBatch(r.batches, r.obligations[k].id.batch).Some? {
      SameKeysFindBatch(db.batches, r.batches, r.obligations[k].id.batch);
    }
  }

  lemma PairReplacedSized(db: Db, r: Db, i: nat, b: Batch, order: ZqOrder)
    requires Sized(db) && PairReplaced(db, r, i, b, order)
    ensures Sized(r)
  {
    ReplaceBatchSizes(db, i, b);
    assert Sized(db.(batches := db.batches[i := b]));
  }

  lemma PairReplacedCompletes(db: Db, r: Db, i: nat, b: Batch, order: ZqOrder, lost: set<string>)
    requires Keys(db) && Completed(db, lost) && PairReplaced(db, r, i, b, order)
    ensures Completed(r, lost + {b.id})
    ensures (b.id !in lost ==> CompleteBatch(b, db.obligations, db.orders)) ==> Completed(r, lost)
  {
    forall k | 0 <= k < |r.batches| && k != i && r.batches[k].id !in lost
      ensures CompleteBatch(r.batches[k], r.obligations, r.orders)
    {
      assert CompleteBatch(db.batches[k], db.obligations, db.orders);
    }
  }

  /** A batch and its ZQ order sit at the same position. */
  lemma SamePosition(db: Db, i: nat, j: nat)
    requires Keys(db) && i < |db.zqOrders| && j < |db.batches| && db.zqOrders[i].batch == db.batches[j].id
    ensures i == j
  {
    assert db.zqOrders[i].batch == db.batches[i].id;
  }

  lemma UpdateZqStatusKeeps(db: Db, orderId: int, status: ZqStatus, filled: Option<real>, left: Option<real>,
      lost: set<string>)
    requires Inv(db, lost)
    ensures Inv(Kept(db, UpdateZqStatus(db, orderId, status, filled, left)), lost)
  {
    InvGives(db, lost);
    var found := FindZqOrder(db.zqOrders, orderId);
    if found.Some? && !(FinishedZq(db.zqOrders[found.value].state) && !FinishedZq(status)) {
      var i := found.value;
      var order := db.zqOrders[i];
      FindBatchAt(db.batches, i);
      var j := FindBatch(db.batches, order.batch).value;
      SamePosition(db, i, j);
      var fill := if status.ZqFilled? && filled.None? then Some(order.quantity as real) else filled;
      var updated := ReportedBatch(db.batches[j], status, fill, left);
      var order' := order.(state := status);
      var r := db.(batches := db.batches[j := updated], zqOrders := db.zqOrders[i := order']);
      PairReplacedKeys(db, r, i, updated, order');
      PairReplacedSized(db, r, i, updated, order');
      PairReplacedCompletes(db, r, i, updated, order', lost);
      SameRowsJudged(db, r, None);
      RefreshBatchOfKeeps(r, order.batch, lost);
    }
  }

  lemma SetBatchCancelPendingKeeps(db: Db, batch: string, reason: string, lost: set<string>)
    requires Inv(db, lost)
    ensures Inv(Kept(db, SetBatchCancelPending(db, batch, reason)), lost)
  {
    InvGives(db, lost);
    match FindBatch(db.batches, batch)
    case None =>
    case Some(j) =>
      ReplaceBatchKeeps(db, j, db.batches[j].(state := CancelPendingState, cancelReason := reason), lost);
  }

  lemma MarkSubmittedKeeps(db: Db, batch: string, lost: set<string>)
    requires Inv(db, lost)
    ensures Inv(Kept(db, MarkSubmitted(db, batch)), lost)
  {
    InvGives(db, lost);
    var outcome := MarkSubmitted(db, batch);
    if outcome.Done? {
      var j, i := FindBatch(db.batches, batch).value, FindZqOrderOfBatch(db.zqOrders, batch).value;
      SamePosition(db, i, j);
      var b, order := outcome.db.batches[j], outcome.db.zqOrders[i];
      assert PairReplaced(db, outcome.db, i, b, order);
      PairReplacedKeys(db, outcome.db, i, b, order);
      PairReplacedSized(db, outcome.db, i, b, order);
      assert b.id !in lost ==> CompleteBatch(b, db.obligations, db.orders) by {
        assert b.id !in lost ==> CompleteBatch(db.batches[j], db.obligations, db.orders);
      }
      PairReplacedCompletes(db, outcome.db, i, b, order, lost);
      SameRowsJudged(db, outcome.db, None);
      InvFrom(outcome.db, lost);
    }
  }

  /** The batch that abandoning costs its COMPLETE meaning: one that already has an obligation. */
  ghost function LostByAbandoning(db: Db, batch: string): set<string> {
    if HasObligations(db.obligations, batch) then {batch} else {}
  }

  lemma AbandonKeeps(db: Db, batch: string, lost: set<string>)
    requires Inv(db, lost)
    ensures Inv(Kept(db, AbandonIntent(db, batch)), lost + LostByAbandoning(db, batch))
  {
    InvGives(db, lost);
    var outcome := AbandonIntent(db, batch);
    var lost' := lost + LostByAbandoning(db, batch);
    if outcome.Done? {
      var j, i := FindBatch(db.batches, batch).value, FindZqOrderOfBatch(db.zqOrders, batch).value;
      SamePosition(db, i, j);
      var b, order := outcome.db.batches[j], outcome.db.zqOrders[i];
      assert PairReplaced(db, outcome.db, i, b, order);
      PairReplacedKeys(db, outcome.db, i, b, order);
      PairReplacedSized(db, outcome.db, i, b, order);
      PairReplacedCompletes(db, outcome.db, i, b, order, lost');
      SameRowsJudged(db, outcome.db, None);
      InvFrom(outcome.db, lost');
    } else {
      InvFrom(db, lost');
    }
  }

  /**
    Abandoning keeps COMPLETE meaningful exactly when nothing has been filled: an
    intent that already has an obligation becomes a COMPLETE batch that is not hedged.
   */
  lemma AbandonIsSafeExactlyWhenUnfilled(db: Db, batch: string, lost: set<string>)
    requires Inv(db, lost) && batch !in lost && AbandonIntent(db, batch).Done?
    ensures Inv(AbandonIntent(db, batch).db, lost) <==> !HasObligations(db.obligations, batch)
  {
    var r := AbandonIntent(db, batch).db;
    if HasObligations(db.obligations, batch) {
      var j := FindBatch(db.batches, batch).value;
      assert !CompleteBatch(r.batches[j], r.obligations, r.orders);
      assert !Holds(CompletedAspect, r, lost);
    } else {
      AbandonKeeps(db, batch, lost);
      assert lost + LostByAbandoning(db, batch) == lost;
    }
  }

  lemma NormalizeKeeps(db: Db, lost: set<string>)
    requires Inv(db, lost)
    ensures Inv(Normalize(db), lost)
  {
    InvGives(db, lost);
    var r := Normalize(db);
    forall k | 0 <= k < |r.batches|
      ensures r.batches[k] == db.batches[k].(state := r.batches[k].state, remaining := r.batches[k].remaining)
      ensures CompleteBatch(r.batches[k], r.obligations, r.orders)
    {
      RefreshedBatchIsComplete(db.batches[k], db.obligations, db.orders);
    }
    assert Keys(r) by {
      forall k | 0 <= k < |r.obligations| ensures FindBatch(r.batches, r.obligations[k].id.batch).Some? {
        SameKeysFindBatch(db.batches, r.batches, r.obligations[k].id.batch);
      }
    }
    SameRowsJudged(db, r, None);
    assert Sized(r) by {
      forall k | 0 <= k < |r.zqExecs| ensures FindBatch(r.batches, r.zqExecs[k].batch).Some? {
        SameKeysFindBatch(db.batches, r.batches, r.zqExecs[k].batch);
      }
      forall k | 0 <= k < |r.batches| ensures SizedBatch(r.batches[k], r.obligations, r.zqExecs) {
        assert SizedBatch(db.batches[k], db.obligations, db.zqExecs);
      }
    }
    InvFrom(r, lost);
  }

  // --- a futures fill -----------------------------------------------------

  ghost predicate FillAdded(db: Db, r: Db, j: nat, b: Batch, x: Obligation, y: Obligation, exec: ZqExecution) {
    && j < |db.batches| && db.batches[j].id == b.id == exec.batch
    && x.id.batch == b.id && y.id.batch == b.id && x.id.execId == exec.execId == y.id.execId && x.id.token != y.id.token
    && !HasZqExecution(db.zqExecs, exec.execId)
    && x.due >= 0.0 && y.due >= 0.0
    && Untouched(x) && Untouched(y)
    && b.zqStatus == db.batches[j].zqStatus && !b.state.Complete?
    && r == db.(zqExecs := db.zqExecs + [exec], batches := db.batches[j := b], obligations := db.obligations + [x, y])
  }

  ghost predicate Untouched(o: Obligation) {
    JudgedBy(o, 0.0, 0.0)
  }

  lemma FindObligationAppend(obligations: seq<Obligation>, x: Obligation, y: Obligation, id: ObligationId)
    requires FindObligation(obligations, id).Some?
    ensures FindObligation(obligations + [x, y], id).Some?
  {
    assert (obligations + [x, y])[..|obligations| + 1] == obligations + [x];
    assert (obligations + [x])[..|obligations|] == obligations;
  }

  lemma FillObligationKeys(db: Db, r: Db, j: nat, b: Batch, x: Obligation, y: Obligation, exec: ZqExecution)
    requires Keys(db) && FillAdded(db, r, j, b, x, y, exec)
    ensures ObligationKeys(r.obligations, r.batches, r.zqExecs)
  {
    var n := |db.obligations|;
    forall k | 0 <= k < |r.obligations|
      ensures r.obligations[k].due >= 0.0 && FindBatch(r.batches, r.obligations[k].id.batch).Some?
        && HasZqExecution(r.zqExecs, r.obligations[k].id.execId)
    {
      if k < n {
        assert r.obligations[k] == db.obligations[k];
        SameKeysFindBatch(db.batches, r.batches, r.obligations[k].id.batch);
        HasZqExecutionAppend(db.zqExecs, exec, r.obligations[k].id.execId);
      } else {
        assert r.obligations[k] == x || r.obligations[k] == y;
        FindBatchAt(r.batches, j);
        assert r.zqExecs[|db.zqExecs|].execId == exec.execId;
      }
    }
    assert forall k :: 0 <= k < n ==> db.obligations[k].id.execId != exec.execId;
  }

  lemma HasZqExecutionAppend(zqExecs: seq<ZqExecution>, exec: ZqExecution, execId: string)
    requires HasZqExecution(zqExecs, execId)
    ensures HasZqExecution(zqExecs + [exec], execId)
  {
    var i :| 0 <= i < |zqExecs| && zqExecs[i].execId == execId;
    assert (zqExecs + [exec])[i].execId == execId;
  }

  lemma FillKeys(db: Db, r: Db, j: nat, b: Batch, x: Obligation, y: Obligation, exec: ZqExecution)
    requires Keys(db) && FillAdded(db, r, j, b, x, y, exec)
    ensures Keys(r)
  {
    FillObligationKeys(db, r, j, b, x, y, exec);
    forall k | 0 <= k < |r.orders| ensures FindObligation(r.obligations, r.orders[k].obligation).Some? {
      FindObligationAppend(db.obligations, x, y, r.orders[k].obligation);
    }
  }

  lemma {:induction false} TotalOfNothing(execs: seq<Execution>, k: Share)
    ensures Total(execs, {}, k) == 0.0
  {
    if |execs| > 0 {
      TotalOfNothing(execs[..|execs| - 1], k);
    }
  }

  lemma NewObligationHasNoOrders(db: Db, execId: string, id: ObligationId)
    requires Keys(db) && !HasZqExecution(db.zqExecs, execId) && id.execId == execId
    ensures HedgeOrderIds(db.orders, id) == {}
  {
    forall i | 0 <= i < |db.orders| ensures db.orders[i].obligation != id {
      var at := FindObligation(db.obligations, db.orders[i].obligation).value;
      assert HasZqExecution(db.zqExecs, db.obligations[at].id.execId);
    }
  }

  lemma FillJudged(db: Db, r: Db, j: nat, b: Batch, x: Obligation, y: Obligation, exec: ZqExecution)
    requires Keys(db) && Judged(db, None) && FillAdded(db, r, j, b, x, y, exec)
    ensures Judged(r, None)
  {
    forall k | 0 <= k < |r.obligations| ensures JudgedObligation(r, r.obligations[k]) {
      if k < |db.obligations| {
        assert JudgedObligation(db, db.obligations[k]);
      } else {
        NewObligationHasNoOrders(db, exec.execId, r.obligations[k].id);
        TotalOfNothing(db.execs, ConfirmedShare);
        TotalOfNothing(db.execs, PendingShare);
      }
    }
  }

  lemma OtherBatchUnaffectedByFill(c: Batch, obligations: seq<Obligation>, x: Obligation, y: Obligation,
      orders: seq<Order>)
    requires x.id.batch != c.id && y.id.batch != c.id && CompleteBatch(c, obligations, orders)
    ensures HasObligations(obligations + [x, y], c.id) ==> HasObligations(obligations, c.id)
    ensures CompleteBatch(c, obligations + [x, y], orders)
  {
    var more := obligations + [x, y];
    if HasObligations(more, c.id) {
      var k :| 0 <= k < |more| && more[k].id.batch == c.id;
      assert obligations[k].id.batch == c.id;
    }
    if BatchHedged(obligations, c.id) && HasObligations(more, c.id) {
      assert BatchHedged(more, c.id);
    }
  }

  lemma FillCompletes(db: Db, r: Db, j: nat, b: Batch, x: Obligation, y: Obligation, exec: ZqExecution,
      lost: set<string>)
    requires Keys(db) && Completed(db, lost) && FillAdded(db, r, j, b, x, y, exec)
    ensures Completed(r, lost)
  {
    forall k | 0 <= k < |r.batches| && r.batches[k].id !in lost
      ensures CompleteBatch(r.batches[k], r.obligations, r.orders)
    {
      if k != j {
        assert CompleteBatch(db.batches[k], db.obligations, db.orders);
        OtherBatchUnaffectedByFill(db.batches[k], db.obligations, x, y, db.orders);
      }
    }
  }

  lemma SumFillsAppend(zqExecs: seq<ZqExecution>, exec: ZqExecution, batch: string)
    ensures SumFills(zqExecs + [exec], batch)
      == SumFills(zqExecs, batch) + (if exec.batch == batch then exec.quantity else 0.0)
  {
    assert (zqExecs + [exec])[..|zqExecs|] == zqExecs;
  }

  lemma OtherBatchStaysSized(c: Batch, obligations: seq<Obligation>, zqExecs: seq<ZqExecution>, x: Obligation,
      y: Obligation, exec: ZqExecution)
    requires SizedBatch(c, obligations, zqExecs) && x.id.batch != c.id && y.id.batch != c.id && exec.batch != c.id
    ensures SizedBatch(c, obligations + [x, y], zqExecs + [exec])
  {
    SumFillsAppend(zqExecs, exec, c.id);
    if HasObligations(obligations + [x, y], c.id) {
      var k :| 0 <= k < |obligations + [x, y]| && (obligations + [x, y])[k].id.batch == c.id;
      assert obligations[k].id.batch == c.id;
    }
    if c.ratios.Some? {
      SumDueAppendTwo(obligations, x, y, c.id, c.ratios.value.first);
      SumDueAppendTwo(obligations, x, y, c.id, c.ratios.value.second);
    }
  }

  /** Cumulative rounding telescopes: the dues after the fill are the rounding of the new total. */
  lemma FilledBatchStaysSized(c: Batch, obligations: seq<Obligation>, zqExecs: seq<ZqExecution>, exec: ZqExecution,
      legacy: TokenShares)
    requires SizedBatch(c, obligations, zqExecs) && exec.batch == c.id && exec.quantity > 0.0
    requires c.filled + exec.quantity <= c.quantity as real
    ensures var due := DueShares(c, exec.quantity, legacy);
      SizedBatch(FilledBatch(c, exec.quantity),
                 obligations + [NewObligation(c.id, exec.execId, due.first, due.firstShares),
                     NewObligation(c.id, exec.execId, due.second, due.secondShares)],
                 zqExecs + [exec])
  {
    var due := DueShares(c, exec.quantity, legacy);
    var x := NewObligation(c.id, exec.execId, due.first, due.firstShares);
    var y := NewObligation(c.id, exec.execId, due.second, due.secondShares);
    SumFillsAppend(zqExecs, exec, c.id);
    if c.ratios.Some? {
      SumDueAppendTwo(obligations, x, y, c.id, c.ratios.value.first);
      SumDueAppendTwo(obligations, x, y, c.id, c.ratios.value.second);
    }
  }

  lemma FillSized(db: Db, r: Db, j: nat, b: Batch, x: Obligation, y: Obligation, exec: ZqExecution)
    requires Keys(db) && Sized(db) && FillAdded(db, r, j, b, x, y, exec)
    requires SizedBatch(b, r.obligations, r.zqExecs)
    ensures Sized(r)
  {
    forall k | 0 <= k < |r.batches| ensures SizedBatch(r.batches[k], r.obligations, r.zqExecs) {
      if k != j {
        assert SizedBatch(db.batches[k], db.obligations, db.zqExecs);
        OtherBatchStaysSized(db.batches[k], db.obligations, db.zqExecs, x, y, exec);
      }
    }
    forall k | 0 <= k < |r.zqExecs| ensures FindBatch(r.batches, r.zqExecs[k].batch).Some? {
      if k < |db.zqExecs| {
        SameKeysFindBatch(db.batches, r.batches, r.zqExecs[k].batch);
      } else {
        FindBatchAt(r.batches, j);
      }
    }
  }

  lemma DueSharesNonNegative(b: Batch, quantity: real, legacy: TokenShares)
    requires quantity >= 0.0 && legacy.Valid() && (b.ratios.Some? ==> b.ratios.value.Valid())
    ensures DueShares(b, quantity, legacy).Valid()
  {
    if b.ratios.Some? {
      IncrementalIsNonNegative(b.ratios.value.firstRatio, b.filled, quantity);
      IncrementalIsNonNegative(b.ratios.value.secondRatio, b.filled, quantity);
    }
  }

  lemma RecordZqFillKeeps(db: Db, orderId: int, execId: string, quantity: real, legacy: TokenShares, lost: set<string>)
    requires Inv(db, lost) && legacy.Valid()
    ensures Inv(Kept(db, RecordZqFill(db, orderId, execId, quantity, legacy)), lost)
  {
    InvGives(db, lost);
    var outcome := RecordZqFill(db, orderId, execId, quantity, legacy);
    if outcome.Done? && |outcome.value| != 0 {
      var i := FindZqOrder(db.zqOrders, orderId).value;
      var j := FindBatch(db.batches, db.zqOrders[i].batch).value;
      var c := db.batches[j];
      assert SizedBatch(c, db.obligations, db.zqExecs);
      DueSharesNonNegative(c, quantity, legacy);
      var x, y := outcome.value[0], outcome.value[1];
      var exec := ZqExecution(execId, orderId, c.id, quantity);
      var b := FilledBatch(c, quantity);
      FilledBatchStaysSized(c, db.obligations, db.zqExecs, exec, legacy);
      assert FillAdded(db, outcome.db, j, b, x, y, exec);
      FillKeys(db, outcome.db, j, b, x, y, exec);
      FillJudged(db, outcome.db, j, b, x, y, exec);
      FillCompletes(db, outcome.db, j, b, x, y, exec, lost);
      FillSized(db, outcome.db, j, b, x, y, exec);
      InvFrom(outcome.db, lost);
    }
  }
}

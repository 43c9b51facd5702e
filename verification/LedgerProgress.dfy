/**
  The ledger as the callback watch reads it: one progress row per ZQ order, moved
  by fills and status reports exactly as the race of callbacks assumes.
 */
module LedgerProgress {
  import opened Results
  import opened LedgerModel
  import opened LedgerSteps
  import opened LedgerInvariants
  import opened BatchRuns
  import opened CallbackGap
  import opened HonestRace

  function ProgressOf(b: Batch, order: ZqOrder): Progress {
    Progress(order.orderId, order.state, order.quantity as real, b.filled, if b.reported.Some? then b.reported.value
      else 0.0)
  }

  /** Every ZQ order beside its batch. */
  ghost function OrderProgress(db: Db): (r: seq<Progress>)
    requires BatchKeys(db.batches, db.zqOrders)
    ensures |r| == |db.zqOrders|
    ensures forall i :: 0 <= i < |r| ==> r[i] == ProgressOf(db.batches[i], db.zqOrders[i])
  {
    seq(|db.zqOrders|, i requires 0 <= i < |db.zqOrders| => ProgressOf(db.batches[i], db.zqOrders[i]))
  }

  /** All futures shares the ledger recorded. */
  function AllFills(zqExecs: seq<ZqExecution>): real {
    if |zqExecs| == 0 then 0.0 else AllFills(zqExecs[..|zqExecs| - 1]) + zqExecs[|zqExecs| - 1].quantity
  }

  lemma BatchOfOrder(db: Db, i: nat)
    requires BatchKeys(db.batches, db.zqOrders) && i < |db.zqOrders|
    ensures FindBatch(db.batches, db.zqOrders[i].batch) == Some(i)
  {
    FindBatchAt(db.batches, i);
  }

  /** Only the progress of order `i` changes, and it becomes `p`. */
  ghost predicate Moves(db: Db, r: Db, i: nat, p: Progress) {
    && Keys(db) && Keys(r) && i < |db.zqOrders|
    && OrderProgress(r) == OrderProgress(db)[i := p]
  }

  /** A new fill report moves the progress of its order by its shares; any other report moves nothing. */
  lemma FillMovesProgress(db: Db, orderId: int, execId: string, shares: real, legacy: TokenShares)
    requires Sound(db) && legacy.Valid()
    ensures var o := RecordZqFill(db, orderId, execId, shares, legacy);
      if o.Done? && o.value != [] then
        && FindZqOrder(db.zqOrders, orderId).Some? && shares > 0.0
        && var i := FindZqOrder(db.zqOrders, orderId).value;
        && i < |db.batches|
        && var p := ProgressOf(db.batches[i], db.zqOrders[i]);
        Moves(db, o.db, i, p.(executed := p.executed + shares))
      else Kept(db, o) == db
  {
    var o := RecordZqFill(db, orderId, execId, shares, legacy);
    if o.Done? && o.value != [] {
      assert Keys(db) && Keys(o.db) by {
        var lost := SoundGives(db);
        RecordZqFillKeeps(db, orderId, execId, shares, legacy, lost);
        InvGives(o.db, lost);
      }
      BatchOfOrder(db, FindZqOrder(db.zqOrders, orderId).value);
    }
  }

  /**
    A status report moves the progress of its order as the race assumes, and answers with the
    state the ledger kept.
   */
  lemma StatusMovesProgress(db: Db, orderId: int, status: ZqStatus, filled: Option<real>, left: Option<real>)
    requires Sound(db) && FindZqOrder(db.zqOrders, orderId).Some?
    ensures var o := UpdateZqStatus(db, orderId, status, filled, left);
      && o.Done?
      && var i := FindZqOrder(db.zqOrders, orderId).value;
      && i < |db.batches|
      && var p := ProgressOf(db.batches[i], db.zqOrders[i]);
      o.value == Some(EffectiveState(p, status)) && Moves(db, o.db, i, ReportedProgress(p, status, filled))
  {
    var o := UpdateZqStatus(db, orderId, status, filled, left);
    assert Keys(db) && Keys(o.db) by {
      var lost := SoundGives(db);
      UpdateZqStatusKeeps(db, orderId, status, filled, left, lost);
      InvGives(o.db, lost);
    }
    var i := FindZqOrder(db.zqOrders, orderId).value;
    var order := db.zqOrders[i];
    if FinishedZq(order.state) && !FinishedZq(status) {
      assert OrderProgress(db) == OrderProgress(db)[i := ProgressOf(db.batches[i], order)];
    } else {
      var b := ReportTouchesOneBatch(db, i, status, filled, left);
    }
  }

  lemma ReportTouchesOneBatch(db: Db, i: nat, status: ZqStatus, filled: Option<real>, left: Option<real>)
    returns (b: Batch)
    requires BatchKeys(db.batches, db.zqOrders) && i < |db.zqOrders|
      && (FinishedZq(db.zqOrders[i].state) ==> FinishedZq(status))
    ensures var order := db.zqOrders[i];
      var reported := db.(zqOrders := db.zqOrders[i := order.(state := status)]);
      && ReportToBatch(reported, order, status, filled, left) == reported.(batches := db.batches[i := b])
      && ProgressOf(b, order.(state := status)) == ReportedProgress(ProgressOf(db.batches[i], order), status, filled)
  {
    var order := db.zqOrders[i];
    var fill := if status.ZqFilled? && filled.None? then Some(order.quantity as real) else filled;
    BatchOfOrder(db, i);
    var reported := ReportedBatch(db.batches[i], status, fill, left);
    var batches := db.batches[i := reported];
    SameKeysFindBatch(db.batches, batches, order.batch);
    b := RefreshBatch(reported, db.obligations, db.orders);
    assert batches[i := b] == db.batches[i := b];
    RefreshKeepsProgress(reported, db.obligations, db.orders, order.(state := status));
  }

  lemma RefreshKeepsProgress(b: Batch, obligations: seq<Obligation>, orders: seq<Order>, order: ZqOrder)
    ensures ProgressOf(RefreshBatch(b, obligations, orders), order) == ProgressOf(b, order)
  {}

  // --- marking, new intents, abandonment ----------------------------------

  lemma OrderOfBatch(db: Db, batch: string)
    requires BatchKeys(db.batches, db.zqOrders)
    ensures FindZqOrderOfBatch(db.zqOrders, batch) == FindBatch(db.batches, batch)
  {
    var at, i := FindBatch(db.batches, batch), FindZqOrderOfBatch(db.zqOrders, batch);
    if i.Some? {
      assert db.batches[i.value].id == batch;
    }
    if at.Some? {
      assert db.zqOrders[at.value].batch == batch;
    }
  }

  /** Marking moves an intent to SUBMITTED and leaves any other progress alone; it fails for an unknown batch only. */
  lemma MarkingMovesProgress(db: Db, batch: string)
    requires Sound(db)
    ensures var o, at := MarkSubmitted(db, batch), FindBatch(db.batches, batch);
      && (o.Done? <==> at.Some?)
      && (o.Done? ==>
        && at.value < |db.zqOrders|
        && Moves(db, o.db, at.value, HonestRace.Marked(ProgressOf(db.batches[at.value], db.zqOrders[at.value]))))
  {
    var o := MarkSubmitted(db, batch);
    assert Keys(db) && (o.Done? ==> Keys(o.db)) by {
      var lost := SoundGives(db);
      MarkSubmittedKeeps(db, batch, lost);
      if o.Done? {
        InvGives(o.db, lost);
      }
    }
    OrderOfBatch(db, batch);
  }

  lemma RowAddsProgress(db: Db, r: Db, b: Batch, order: ZqOrder)
    requires BatchKeys(db.batches, db.zqOrders) && BatchKeys(r.batches, r.zqOrders)
    requires r.batches == db.batches + [b] && r.zqOrders == db.zqOrders + [order]
    ensures OrderProgress(r) == OrderProgress(db) + [ProgressOf(b, order)]
  {}

  /** A batch not on record is taken on, unless its ratios or its order id forbid it, as one unsent intent. */
  lemma NewIntentIsRecorded(db: Db, batch: string, orderId: int, quantity: int, ratios: Option<Ratios>)
    ensures var o := CreateBatch(db, batch, orderId, quantity, ratios);
      && (o.Raised? <==>
        || (ratios.Some? && !ratios.value.Valid())
        || (FindBatch(db.batches, batch).None? && FindZqOrder(db.zqOrders, orderId).Some?))
      && (o.Done? && FindBatch(db.batches, batch).Some? ==> o.db == db)
      && (o.Done? && FindBatch(db.batches, batch).None? ==>
        && |o.db.batches| == |db.batches| + 1 && |o.db.zqOrders| == |db.zqOrders| + 1
        && var b, order := o.db.batches[|db.batches|], o.db.zqOrders[|db.zqOrders|];
        && o.db == db.(batches := db.batches + [b], zqOrders := db.zqOrders + [order])
        && b.id == order.batch == batch && b.ratios == ratios && b.quantity == order.quantity == quantity
        && b.cancelReason == "" && b.remaining == quantity as real
        && ProgressOf(b, order) == Progress(orderId, ZqIntent, quantity as real, 0.0, 0.0))
  {}

  /** A new entry adds the progress of an unsent intent, and touches no other. */
  lemma NewIntentAddsProgress(db: Db, batch: string, orderId: int, quantity: int, ratios: Option<Ratios>)
    requires Sound(db) && FindBatch(db.batches, batch).None?
      && CreateBatch(db, batch, orderId, quantity, ratios).Done?
    ensures var r := CreateBatch(db, batch, orderId, quantity, ratios).db;
      && BatchKeys(db.batches, db.zqOrders) && BatchKeys(r.batches, r.zqOrders)
      && OrderProgress(r) == OrderProgress(db) + [Progress(orderId, ZqIntent, quantity as real, 0.0, 0.0)]
  {
    var r := CreateBatch(db, batch, orderId, quantity, ratios).db;
    assert BatchKeys(db.batches, db.zqOrders) && BatchKeys(r.batches, r.zqOrders) by {
      var lost := SoundGives(db);
      CreateBatchKeeps(db, batch, orderId, quantity, ratios, lost);
      InvGives(r, lost);
    }
    NewIntentIsRecorded(db, batch, orderId, quantity, ratios);
    RowAddsProgress(db, r, r.batches[|db.batches|], r.zqOrders[|db.zqOrders|]);
  }

  /** Only an unsent intent is given up; its progress ends as ABORTED. */
  lemma AbandonmentMovesProgress(db: Db, batch: string)
    requires Sound(db)
    ensures var o, at := AbandonIntent(db, batch), FindBatch(db.batches, batch);
      && (o.Done? <==> at.Some? && at.value < |db.zqOrders| && db.zqOrders[at.value].state.ZqIntent?)
      && (o.Done? ==>
        && at.value < |db.zqOrders|
        && Moves(db, o.db, at.value,
            ProgressOf(db.batches[at.value], db.zqOrders[at.value]).(state := ZqAborted)))
  {
    var o := AbandonIntent(db, batch);
    assert Keys(db) && (o.Done? ==> Keys(o.db)) by {
      var lost := SoundGives(db);
      AbandonKeeps(db, batch, lost);
      if o.Done? {
        InvGives(o.db, lost + LostByAbandoning(db, batch));
      }
    }
    OrderOfBatch(db, batch);
  }

  // --- the ledger's quantity ----------------------------------------------

  /** Fills of the first `n` batches. */
  function FillsOfBatches(batches: seq<Batch>, zqExecs: seq<ZqExecution>, n: nat): real
    requires n <= |batches|
  {
    if n == 0 then 0.0 else FillsOfBatches(batches, zqExecs, n - 1) + SumFills(zqExecs, batches[n - 1].id)
  }

  lemma {:induction false} FillsWithout(batches: seq<Batch>, zqExecs: seq<ZqExecution>, n: nat, at: nat)
    requires n <= |batches| && at < |batches| && |zqExecs| > 0
    requires forall i, j :: 0 <= i < j < |batches| ==> batches[i].id != batches[j].id
    requires zqExecs[|zqExecs| - 1].batch == batches[at].id
    ensures FillsOfBatches(batches, zqExecs, n)
      == FillsOfBatches(batches, zqExecs[..|zqExecs| - 1], n)
        + (if at < n then zqExecs[|zqExecs| - 1].quantity else 0.0)
  {
    if n > 0 {
      FillsWithout(batches, zqExecs, n - 1, at);
    }
  }

  lemma {:induction false} NoFills(batches: seq<Batch>, n: nat)
    requires n <= |batches|
    ensures FillsOfBatches(batches, [], n) == 0.0
  {
    if n > 0 {
      NoFills(batches, n - 1);
    }
  }

  /** Every fill belongs to exactly one batch, so summing by batch loses and repeats nothing. */
  lemma {:induction false} FillsByBatch(batches: seq<Batch>, zqExecs: seq<ZqExecution>)
    requires forall i, j :: 0 <= i < j < |batches| ==> batches[i].id != batches[j].id
    requires forall i :: 0 <= i < |zqExecs| ==> FindBatch(batches, zqExecs[i].batch).Some?
    ensures FillsOfBatches(batches, zqExecs, |batches|) == AllFills(zqExecs)
  {
    if |zqExecs| == 0 {
      NoFills(batches, |batches|);
    } else {
      var last := |zqExecs| - 1;
      FillsByBatch(batches, zqExecs[..last]);
      FillsWithout(batches, zqExecs, |batches|, FindBatch(batches, zqExecs[last].batch).value);
    }
  }

  lemma {:induction false} ExecutedByBatch(db: Db, n: nat)
    requires BatchKeys(db.batches, db.zqOrders) && n <= |db.batches|
    requires forall i :: 0 <= i < |db.batches| ==> db.batches[i].filled == SumFills(db.zqExecs, db.batches[i].id)
    ensures SumExecuted(OrderProgress(db)[..n]) == FillsOfBatches(db.batches, db.zqExecs, n)
  {
    if n > 0 {
      ExecutedByBatch(db, n - 1);
      assert OrderProgress(db)[..n][..n - 1] == OrderProgress(db)[..n - 1];
    }
  }

  /** The quantity the venue's position is compared with is the executed progress of all orders. */
  lemma LedgerQuantityIsExecuted(db: Db)
    requires Sound(db)
    ensures Keys(db) && SumExecuted(OrderProgress(db)) == AllFills(db.zqExecs)
  {
    assert Keys(db) && Sized(db) by { var lost := SoundGives(db); }
    forall i | 0 <= i < |db.batches| ensures db.batches[i].filled == SumFills(db.zqExecs, db.batches[i].id) {
      assert SizedBatch(db.batches[i], db.obligations, db.zqExecs);
    }
    FillsByBatch(db.batches, db.zqExecs);
    ExecutedByBatch(db, |db.batches|);
    assert OrderProgress(db)[..|db.batches|] == OrderProgress(db);
  }
}

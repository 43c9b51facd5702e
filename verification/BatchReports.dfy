/**
  What futures fills, status reports and the engine's own marks leave in the row of a
  batch, field by field.
 */
module BatchReports {
  import opened Results
  import opened Amounts
  import opened Rounding
  import opened LedgerModel
  import opened LedgerSteps
  import opened LedgerInvariants
  import opened LedgerProgress
  import opened BatchStates

  lemma RowOfOrder(db: Db, orderId: int) returns (i: nat)
    requires Sound(db) && FindZqOrder(db.zqOrders, orderId).Some?
    ensures FindZqOrder(db.zqOrders, orderId) == Some(i) && i < |db.batches|
    ensures db.zqOrders[i].orderId == orderId && db.zqOrders[i].batch == db.batches[i].id
    ensures FindBatch(db.batches, db.batches[i].id) == Some(i)
  {
    i := FindZqOrder(db.zqOrders, orderId).value;
    var lost := SoundGives(db);
    BatchOfOrder(db, i);
  }

  lemma RowOfBatch(db: Db, batch: string)
    requires Sound(db)
    ensures FindZqOrderOfBatch(db.zqOrders, batch) == FindBatch(db.batches, batch)
  {
    var lost := SoundGives(db);
    OrderOfBatch(db, batch);
  }

  // --- fills --------------------------------------------------------------

  /** An obligation as a fill leaves it: its shares due and nothing bought. */
  predicate NewlyDue(o: Obligation, b: Batch, execId: string, token: string, due: real) {
    && o.id.batch == b.id && o.id.execId == execId && o.id.token == token
    && o.due == due && o.confirmed == o.actual == o.pending == o.excess == 0.0 && o.state == Unhedged
  }

  /** What a fill of `q` adds to a cumulative size. */
  function Added(ratio: real, b: Batch, q: real): real {
    SharesFor(ratio, b.filled + q) - SharesFor(ratio, b.filled)
  }

  /** Both dues of a fill: by the saved ratios, or as the caller gave them. */
  predicate DuesOfFill(x: Obligation, y: Obligation, b: Batch, execId: string, q: real, legacy: TokenShares) {
    match b.ratios
    case Some(r) =>
      && NewlyDue(x, b, execId, r.first, Added(r.firstRatio, b, q))
      && NewlyDue(y, b, execId, r.second, Added(r.secondRatio, b, q))
    case None =>
      && NewlyDue(x, b, execId, legacy.first, legacy.firstShares)
      && NewlyDue(y, b, execId, legacy.second, legacy.secondShares)
  }

  /** The fill, its batch row and its two obligations are recorded; no other row changes. */
  predicate FillRecorded(db: Db, r: Db, i: nat, execId: string, q: real, legacy: TokenShares)
    requires i < |db.batches| && i < |db.zqOrders|
  {
    var b, n := db.batches[i], |db.obligations|;
    && |r.obligations| == n + 2 && DuesOfFill(r.obligations[n], r.obligations[n + 1], b, execId, q, legacy)
    && r == db.(
      obligations := db.obligations + [r.obligations[n], r.obligations[n + 1]],
      zqExecs := db.zqExecs + [ZqExecution(execId, db.zqOrders[i].orderId, b.id, q)],
      batches := db.batches[i := b.(filled := b.filled + q, state := ZqPartial,
        remaining := Max(0.0, b.quantity as real - b.filled - q))])
  }

  lemma DuesAreAdded(b: Batch, execId: string, q: real, legacy: TokenShares)
    ensures var due := DueShares(b, q, legacy);
      DuesOfFill(NewObligation(b.id, execId, due.first, due.firstShares),
          NewObligation(b.id, execId, due.second, due.secondShares), b, execId, q, legacy)
  {}

  lemma FillIsTaken(db: Db, i: nat, orderId: int, execId: string, q: real, legacy: TokenShares)
    requires i < |db.batches| && FindZqOrder(db.zqOrders, orderId) == Some(i) && !HasZqExecution(db.zqExecs, execId)
    requires db.zqOrders[i].orderId == orderId && db.zqOrders[i].batch == db.batches[i].id
    requires FindBatch(db.batches, db.batches[i].id) == Some(i) && 0.0 < q <= db.batches[i].quantity as real
      - db.batches[i].filled
    ensures var outcome := RecordZqFill(db, orderId, execId, q, legacy);
      && outcome.Done? && FillRecorded(db, outcome.db, i, execId, q, legacy)
      && outcome.value == outcome.db.obligations[|db.obligations|..]
  {
    var b := db.batches[i];
    var due := DueShares(b, q, legacy);
    DuesAreAdded(b, execId, q, legacy);
    assert RecordZqFill(db, orderId, execId, q, legacy).db.obligations == db.obligations
      + [NewObligation(b.id, execId, due.first, due.firstShares),
         NewObligation(b.id, execId, due.second, due.secondShares)];
  }

  /**
    A fill seen before, or of an unknown order, changes nothing. Any other is refused exactly
    when it is not positive or exceeds what the batch has left, and recorded otherwise.
   */
  lemma FillIsRecordedExactlyWhen(db: Db, orderId: int, execId: string, q: real, legacy: TokenShares)
    requires Sound(db)
    ensures var outcome, at := RecordZqFill(db, orderId, execId, q, legacy), FindZqOrder(db.zqOrders, orderId);
      if (exists e :: e in db.zqExecs && e.execId == execId) || at.None? then outcome == Done(db, [])
      else
        && at.value < |db.batches|
        && var b := db.batches[at.value];
        if q <= 0.0 || q > b.quantity as real - b.filled then outcome.Raised?
        else
          && outcome.Done? && FillRecorded(db, outcome.db, at.value, execId, q, legacy)
          && outcome.value == outcome.db.obligations[|db.obligations|..]
  {
    SeenFill(db.zqExecs, execId);
    if FindZqOrder(db.zqOrders, orderId).Some? && !HasZqExecution(db.zqExecs, execId) {
      var i := RowOfOrder(db, orderId);
      if 0.0 < q <= db.batches[i].quantity as real - db.batches[i].filled {
        FillIsTaken(db, i, orderId, execId, q, legacy);
      }
    }
  }

  lemma SeenFill(zqExecs: seq<ZqExecution>, execId: string)
    ensures HasZqExecution(zqExecs, execId) <==> exists e :: e in zqExecs && e.execId == execId
  {
    forall i | 0 <= i < |zqExecs| ensures zqExecs[i] in zqExecs {}
  }

  // --- status reports -----------------------------------------------------

  /** The figure a report carries; FILLED without one means the whole order. */
  function Figure(order: ZqOrder, status: ZqStatus, filled: Option<real>): Option<real> {
    if filled.Some? then filled else if status == ZqFilled then Some(order.quantity as real) else None
  }

  /** A batch that took over a report, but for the state it is refreshed into. */
  predicate TookReport(b: Batch, after: Batch, status: ZqStatus, figure: Option<real>, left: Option<real>) {
    && after == b.(state := after.state, zqStatus := status, reported := after.reported, remaining := after.remaining)
    && (if figure.None? then after.reported == b.reported
        else after.reported == Some(Max(if b.reported.Some? then b.reported.value else 0.0, figure.value)))
    && (!after.state.Complete? ==> after.remaining == if left.Some? then Max(0.0, left.value) else b.remaining)
  }

  lemma RefreshKeepsReport(b: Batch, obligations: seq<Obligation>, orders: seq<Order>)
    ensures var r := RefreshBatch(b, obligations, orders);
      r == b.(state := r.state, remaining := r.remaining) && (!r.state.Complete? ==> r.remaining == b.remaining)
  {}

  /** A status moved a futures order and its batch row, and no other row. */
  predicate StatusTaken(db: Db, r: Db, i: nat, status: ZqStatus, filled: Option<real>, left: Option<real>)
    requires i < |db.batches| && i < |db.zqOrders|
  {
    var order := db.zqOrders[i];
    && |r.batches| == |db.batches|
    && r == db.(zqOrders := db.zqOrders[i := order.(state := status)], batches := db.batches[i := r.batches[i]])
    && TookReport(db.batches[i], r.batches[i], status, Figure(order, status, filled), left)
  }

  lemma ReportIsTaken(db: Db, i: nat, status: ZqStatus, filled: Option<real>, left: Option<real>)
    requires i < |db.batches| && i < |db.zqOrders|
    requires FindBatch(db.batches, db.zqOrders[i].batch) == Some(i)
    ensures var order := db.zqOrders[i];
      StatusTaken(db, ReportToBatch(db.(zqOrders := db.zqOrders[i := order.(state := status)]), order, status, filled,
          left), i, status, filled, left)
  {
    var order := db.zqOrders[i];
    var reported := ReportedRow(db.(zqOrders := db.zqOrders[i := order.(state := status)]), order, status, filled,
        left, i);
    RefreshKeepsReport(reported, db.obligations, db.orders);
  }

  /**
    A status moves a futures order and its batch row, unless the order ended and the status
    says it did not; the reported fill only grows, and no other row changes.
   */
  lemma StatusReachesTheBatch(db: Db, orderId: int, status: ZqStatus, filled: Option<real>, left: Option<real>)
    requires Sound(db) && FindZqOrder(db.zqOrders, orderId).Some?
    ensures var outcome, i := UpdateZqStatus(db, orderId, status, filled, left),
          FindZqOrder(db.zqOrders, orderId).value;
      && outcome.Done? && i < |db.batches|
      && var kept := db.zqOrders[i].state;
      if FinishedZq(kept) && !FinishedZq(status) then outcome.db == db && outcome.value == Some(kept)
      else outcome.value == Some(status) && StatusTaken(db, outcome.db, i, status, filled, left)
  {
    var i := RowOfOrder(db, orderId);
    ReportIsTaken(db, i, status, filled, left);
  }

  // --- the engine's own marks ---------------------------------------------

  /** Only row `i` of the batches changes, to `b`, and only the state of its order, to `state`. */
  predicate RowBecomes(db: Db, r: Db, i: nat, b: Batch, state: ZqStatus)
    requires i < |db.batches| && i < |db.zqOrders|
  {
    r == db.(batches := db.batches[i := b], zqOrders := db.zqOrders[i := db.zqOrders[i].(state := state)])
  }

  /** Marking sends a batch that still waits to be sent on its way, and nothing back. */
  lemma MarkingReachesTheBatch(db: Db, batch: string)
    requires Sound(db)
    ensures var outcome, at := MarkSubmitted(db, batch), FindBatch(db.batches, batch);
      && (outcome.Done? <==> at.Some?)
      && (outcome.Done? ==>
        && at.value < |db.zqOrders|
        && var b, sent := db.batches[at.value], db.zqOrders[at.value].state;
        RowBecomes(db, outcome.db, at.value,
          b.(state := if b.state == Qualified then ZqSubmittedState else b.state,
             zqStatus := if b.zqStatus == ZqIntent then ZqSubmitted else b.zqStatus),
          if sent == ZqIntent then ZqSubmitted else sent))
  {
    RowOfBatch(db, batch);
    var at := FindBatch(db.batches, batch);
    if at.Some? {
      var order := db.zqOrders[at.value];
      assert db.zqOrders[at.value := order.(state := order.state)] == db.zqOrders;
    }
  }

  /** A batch is put up for cancelling once, with its reason. */
  lemma CancelPendingReachesTheBatch(db: Db, batch: string, reason: string)
    requires Sound(db)
    ensures var outcome, at := SetBatchCancelPending(db, batch, reason), FindBatch(db.batches, batch);
      && outcome.Done?
      && (outcome.value <==> at.Some? && db.batches[at.value].state != CancelPendingState)
      && (!outcome.value ==> outcome.db == db)
      && (outcome.value ==> at.value < |db.zqOrders| && RowBecomes(db, outcome.db, at.value,
            db.batches[at.value].(state := CancelPendingState, cancelReason := reason), db.zqOrders[at.value].state))
  {
    RowOfBatch(db, batch);
    var at := FindBatch(db.batches, batch);
    if at.Some? {
      var order := db.zqOrders[at.value];
      assert db.zqOrders[at.value := order.(state := order.state)] == db.zqOrders;
    }
  }

  /** Only an unsent intent is given up: its batch ends with nothing left, its order as ABORTED. */
  lemma AbandonmentEndsTheBatch(db: Db, batch: string)
    requires Sound(db)
    ensures var outcome, at := AbandonIntent(db, batch), FindBatch(db.batches, batch);
      && (outcome.Done? <==> at.Some? && at.value < |db.zqOrders| && db.zqOrders[at.value].state == ZqIntent)
      && (outcome.Done? ==> at.value < |db.zqOrders| && RowBecomes(db, outcome.db, at.value,
            db.batches[at.value].(state := Complete, zqStatus := ZqAborted, remaining := 0.0), ZqAborted))
  {
    RowOfBatch(db, batch);
  }
}

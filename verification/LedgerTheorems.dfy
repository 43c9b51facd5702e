/**
  Theorems over every run of the ledger, whatever the venues report: what COMPLETE
  means, how dues add up, and how confirmed fills are allotted.
 */
module LedgerTheorems {
  import opened Results
  import opened Amounts
  import opened Rounding
  import opened LedgerModel
  import opened LedgerSteps
  import opened LedgerInvariants
  import opened LedgerRuns
  import opened BatchRuns

  function Run(db: Db, ops: seq<Op>): Db {
    if |ops| == 0 then db else Apply(Run(db, ops[..|ops| - 1]), ops[|ops| - 1])
  }

  /** What callers promise: fallback sizes are not negative. */
  predicate Legal(op: Op) {
    op.OpZqFill? ==> op.legacy.Valid()
  }

  predicate LegalRun(ops: seq<Op>) {
    forall n :: 0 <= n < |ops| ==> Legal(ops[n])
  }

  /** Batches a transaction makes COMPLETE though they have an obligation: an intent abandoned after a fill. */
  ghost function LostBy(db: Db, op: Op): set<string> {
    if op.OpAbandon? then LostByAbandoning(db, op.batch) else {}
  }

  /** Batches abandoned after a fill anywhere along the run. */
  ghost function LostIn(ops: seq<Op>): set<string> {
    if |ops| == 0 then {}
    else LostIn(ops[..|ops| - 1]) + LostBy(Run(EMPTY, ops[..|ops| - 1]), ops[|ops| - 1])
  }

  lemma EmptyInv()
    ensures Inv(EMPTY, {})
  {
    InvFrom(EMPTY, {});
  }

  lemma ApplyKeeps(db: Db, op: Op, lost: set<string>)
    requires Inv(db, lost) && Legal(op)
    ensures Inv(Apply(db, op), lost + LostBy(db, op))
  {
    assert !op.OpAbandon? ==> lost + LostBy(db, op) == lost;
    match op
    case OpCreateBatch(batch, zqOrderId, quantity, ratios) =>
      CreateBatchKeeps(db, batch, zqOrderId, quantity, ratios, lost);
    case OpMarkSubmitted(batch) => MarkSubmittedKeeps(db, batch, lost);
    case OpAbandon(batch) => AbandonKeeps(db, batch, lost);
    case OpCancelPending(batch, reason) => SetBatchCancelPendingKeeps(db, batch, reason, lost);
    case OpZqFill(zqOrderId, execId, shares, legacy) => RecordZqFillKeeps(db, zqOrderId, execId, shares, legacy, lost);
    case OpZqStatus(zqOrderId, status, filled, left) => UpdateZqStatusKeeps(db, zqOrderId, status, filled, left, lost);
    case OpCreateIntent(id, key, shares, price, signed, orderId) =>
      CreateIntentKeeps(db, id, key, shares, price, signed, orderId, lost);
    case OpSubmission(key, state) => SubmissionKeeps(db, key, state, lost);
    case OpAccept(key, orderId, state) => AcceptKeeps(db, key, orderId, state, lost);
    case OpStatus(orderId, state) => UpdateStatusKeeps(db, orderId, state, lost);
    case OpVerify(orderId, state, matched, associated) => VerifyKeeps(db, orderId, state, matched, associated, lost);
    case OpExecution(execId, orderId, shares, price, tradeId, status) =>
      RecordExecutionKeeps(db, execId, orderId, shares, price, tradeId, status, lost);
    case OpNormalize => NormalizeKeeps(db, lost);
  }

  lemma {:induction false} RunKeeps(ops: seq<Op>)
    requires LegalRun(ops)
    ensures Inv(Run(EMPTY, ops), LostIn(ops))
  {
    if |ops| == 0 {
      EmptyInv();
    } else {
      var before := ops[..|ops| - 1];
      RunKeeps(before);
      ApplyKeeps(Run(EMPTY, before), ops[|ops| - 1], LostIn(before));
    }
  }

  /** Any legal transaction keeps keys, judgements and sizing, an abandonment after a fill included. */
  lemma ApplyKeepsSound(db: Db, op: Op)
    requires Sound(db) && Legal(op)
    ensures Sound(Apply(db, op))
  {
    var lost := SoundGives(db);
    ApplyKeeps(db, op, lost);
  }

  // --- COMPLETE -----------------------------------------------------------

  function ConfirmedShares(db: Db, o: Obligation): real {
    Total(db.execs, HedgeOrderIds(db.orders, o.id), ConfirmedShare)
  }

  function PendingShares(db: Db, o: Obligation): real {
    Total(db.execs, HedgeOrderIds(db.orders, o.id), PendingShare)
  }

  /** Confirmed shares of one token over the first `n` obligations, of those that belong to the batch. */
  function TokenConfirmed(db: Db, batch: string, token: string, n: nat): real
    requires n <= |db.obligations|
  {
    if n == 0 then 0.0
    else
      var o := db.obligations[n - 1];
      TokenConfirmed(db, batch, token, n - 1)
        + (if o.id.batch == batch && o.id.token == token then ConfirmedShares(db, o) else 0.0)
  }

  lemma {:induction false} TokenConfirmedIsDue(db: Db, batch: string, token: string, n: nat)
    requires n <= |db.obligations|
    requires forall i :: 0 <= i < n && db.obligations[i].id.batch == batch ==>
      ConfirmedShares(db, db.obligations[i]) == db.obligations[i].due
    ensures TokenConfirmed(db, batch, token, n) == SumDue(db.obligations[..n], batch, token)
  {
    if n > 0 {
      TokenConfirmedIsDue(db, batch, token, n - 1);
      assert db.obligations[..n][..n - 1] == db.obligations[..n - 1];
    }
  }

  lemma CoveredIsExact(db: Db, o: Obligation)
    requires JudgedObligation(db, o) && Covered(o)
    ensures ConfirmedShares(db, o) == o.due && PendingShares(db, o) == 0.0
  {}

  /**
    A terminal ZQ status, no unrecorded futures fill, every obligation confirmed to the
    share with nothing pending, and every hedge order terminal with a verified final fill.
   */
  ghost predicate FullyHedged(db: Db, b: Batch) {
    && TerminalZq(b.zqStatus) && b.reported.Some? && b.filled >= b.reported.value
    && (forall o :: o in db.obligations && o.id.batch == b.id ==>
      ConfirmedShares(db, o) == o.due && PendingShares(db, o) == 0.0)
    && (forall order :: order in db.orders && order.obligation.batch == b.id ==>
      TerminalOrder(order.state) && order.verified)
  }

  /** What COMPLETE means for a batch with an obligation that was not lost. */
  lemma CompleteMeansHedged(db: Db, b: Batch, lost: set<string>)
    requires Inv(db, lost) && b.id !in lost && b in db.batches && b.state.Complete?
      && HasObligations(db.obligations, b.id)
    ensures FullyHedged(db, b)
  {
    assert Judged(db, None) && CompleteBatch(b, db.obligations, db.orders)
      && SizedBatch(b, db.obligations, db.zqExecs) by
    {
      InvGives(db, lost);
      var i :| 0 <= i < |db.batches| && db.batches[i] == b;
      assert CompleteBatch(db.batches[i], db.obligations, db.orders)
        && SizedBatch(db.batches[i], db.obligations, db.zqExecs);
    }
    forall o | o in db.obligations && o.id.batch == b.id
      ensures ConfirmedShares(db, o) == o.due && PendingShares(db, o) == 0.0
    {
      var k :| 0 <= k < |db.obligations| && db.obligations[k] == o;
      assert JudgedObligation(db, db.obligations[k]);
      CoveredIsExact(db, o);
    }
    forall order | order in db.orders && order.obligation.batch == b.id
      ensures TerminalOrder(order.state) && order.verified
    {
      assert Resolved(order);
    }
  }

  lemma SizedIn(db: Db, b: Batch)
    requires Sound(db) && b in db.batches
    ensures SizedBatch(b, db.obligations, db.zqExecs)
    ensures forall o :: o in db.obligations ==> o.due >= 0.0
  {
    var lost := SoundGives(db);
    var i :| 0 <= i < |db.batches| && db.batches[i] == b;
    assert SizedBatch(db.batches[i], db.obligations, db.zqExecs);
  }

  /**
    A COMPLETE batch sized by saved ratios holds, per token, exactly the rounded hedge of its
    recorded futures fills.
   */
  lemma CompleteHoldsTheHedge(db: Db, b: Batch, lost: set<string>)
    requires Inv(db, lost) && b.id !in lost && b in db.batches && b.state.Complete?
      && HasObligations(db.obligations, b.id) && b.ratios.Some?
    ensures TokenConfirmed(db, b.id, b.ratios.value.first, |db.obligations|)
      == SharesFor(b.ratios.value.firstRatio, SumFills(db.zqExecs, b.id))
    ensures TokenConfirmed(db, b.id, b.ratios.value.second, |db.obligations|)
      == SharesFor(b.ratios.value.secondRatio, SumFills(db.zqExecs, b.id))
  {
    CompleteMeansHedged(db, b, lost);
    SizedIn(db, b);
    assert db.obligations[..|db.obligations|] == db.obligations;
    TokenConfirmedIsDue(db, b.id, b.ratios.value.first, |db.obligations|);
    TokenConfirmedIsDue(db, b.id, b.ratios.value.second, |db.obligations|);
  }

  // --- cumulative rounding ------------------------------------------------

  /**
    Through any run, with any duplicated fill reports, the dues of a token add up to
    the rounding of ratio times what was filled: the total rounding never reaches 0.01.
   */
  lemma DuesTelescope(db: Db, b: Batch)
    requires Sound(db) && b in db.batches && b.ratios.Some?
    ensures b.filled == SumFills(db.zqExecs, b.id) && 0.0 <= b.filled
      && (b.filled > 0.0 ==> b.filled <= b.quantity as real)
    ensures RoundsOnce(SumDue(db.obligations, b.id, b.ratios.value.first), b.ratios.value.firstRatio, b.filled)
    ensures RoundsOnce(SumDue(db.obligations, b.id, b.ratios.value.second), b.ratios.value.secondRatio, b.filled)
    ensures forall o :: o in db.obligations ==> o.due >= 0.0
  {
    SizedIn(db, b);
    SharesForRoundsOnce(b.ratios.value.firstRatio, b.filled);
    SharesForRoundsOnce(b.ratios.value.secondRatio, b.filled);
  }

  /**
    After every run of transactions from the empty ledger: the dues of every batch sized
    by saved ratios are the rounding of the whole, and a COMPLETE batch with an obligation
    is fully hedged unless its intent was abandoned after it was filled.
   */
  lemma EveryRunHedges(ops: seq<Op>, b: Batch)
    requires LegalRun(ops) && b in Run(EMPTY, ops).batches
    ensures var db := Run(EMPTY, ops);
      && (b.state.Complete? && HasObligations(db.obligations, b.id) && b.id !in LostIn(ops) ==> FullyHedged(db, b))
      && (b.ratios.Some? ==>
            && RoundsOnce(SumDue(db.obligations, b.id, b.ratios.value.first), b.ratios.value.firstRatio, b.filled)
            && RoundsOnce(SumDue(db.obligations, b.id, b.ratios.value.second), b.ratios.value.secondRatio, b.filled))
  {
    var db := Run(EMPTY, ops);
    RunKeeps(ops);
    if b.state.Complete? && HasObligations(db.obligations, b.id) && b.id !in LostIn(ops) {
      CompleteMeansHedged(db, b, LostIn(ops));
    }
    if b.ratios.Some? {
      DuesTelescope(db, b);
    }
  }

  // --- allotment ----------------------------------------------------------

  /** Shares allotted on the orders `ids`. */
  function SumAllotted(execs: seq<Execution>, ids: set<string>): real {
    if |execs| == 0 then 0.0
    else
      SumAllotted(execs[..|execs| - 1], ids)
        + (if execs[|execs| - 1].orderId in ids then execs[|execs| - 1].allotted else 0.0)
  }

  lemma AllotmentOfPrefix(execs: seq<Execution>, ids: set<string>, due: real, n: nat)
    requires n <= |execs|
    ensures AllocateExecs(execs[..n], ids, due) == AllocateExecs(execs, ids, due)[..n]
  {
    var a, b := AllocateExecs(execs[..n], ids, due), AllocateExecs(execs, ids, due)[..n];
    forall i | 0 <= i < n ensures a[i] == b[i] {
      assert execs[..n][..i] == execs[..i];
    }
  }

  lemma {:induction false} AllotmentSums(execs: seq<Execution>, ids: set<string>, due: real)
    requires due >= 0.0 && forall i :: 0 <= i < |execs| ==> execs[i].quantity > 0.0
    ensures SumAllotted(AllocateExecs(execs, ids, due), ids) == Min(Total(execs, ids, ConfirmedShare), due)
  {
    if |execs| > 0 {
      var n := |execs| - 1;
      AllotmentSums(execs[..n], ids, due);
      AllotmentOfPrefix(execs, ids, due, n);
      TotalPositive(execs[..n], ids, ConfirmedShare);
    }
  }

  /** No execution is allotted more than it filled, and an unconfirmed one nothing. */
  lemma AllotmentWithinFill(execs: seq<Execution>, ids: set<string>, due: real, i: nat)
    requires i < |execs| && execs[i].quantity > 0.0 && execs[i].orderId in ids
    ensures var e := AllocateExecs(execs, ids, due)[i];
      0.0 <= e.allotted <= e.quantity && (!e.status.Confirmed? ==> e.allotted == 0.0)
  {}

  /** A later fill gets a share only once every earlier confirmed one is allotted in full. */
  lemma AllotmentInOrder(execs: seq<Execution>, ids: set<string>, due: real, i: nat, j: nat)
    requires i < j < |execs| && execs[i].orderId in ids && execs[i].status.Confirmed?
    requires forall k :: 0 <= k < |execs| ==> execs[k].quantity > 0.0
    requires Allocation(execs, ids, due, j) > 0.0
    ensures Allocation(execs, ids, due, i) == execs[i].quantity
  {
    EarlierConfirmedAddsUp(execs, ids, i, j);
  }

  /**
    Refreshing an obligation allots in total exactly the confirmed
    shares it then shows, the smaller of what confirmed and what is due; what exceeds the
    due amount, confirmed or still waiting, is the excess.
   */
  lemma AllotmentConserves(db: Db, id: ObligationId)
    requires Sound(db) && FindObligation(db.obligations, id).Some?
    ensures var r := RefreshRows(db, id); var o := r.obligations[FindObligation(db.obligations, id).value];
      && SumAllotted(r.execs, HedgeOrderIds(db.orders, id)) == o.confirmed == Min(ConfirmedShares(db, o), o.due)
      && o.excess == Max(0.0, ConfirmedShares(db, o) + PendingShares(db, o) - o.due)
  {
    var due := db.obligations[FindObligation(db.obligations, id).value].due;
    RefreshedObligation(db, id);
    QuantitiesArePositive(db, id);
    AllotmentSums(db.execs, HedgeOrderIds(db.orders, id), due);
  }

  lemma RefreshedObligation(db: Db, id: ObligationId)
    requires FindObligation(db.obligations, id).Some?
    ensures var r := RefreshRows(db, id); var at := FindObligation(db.obligations, id).value;
      var o := r.obligations[at];
      && r.execs == AllocateExecs(db.execs, HedgeOrderIds(db.orders, id), o.due)
      && o.id == id && o.due == db.obligations[at].due
      && JudgedBy(o, ConfirmedShares(db, o), PendingShares(db, o))
  {}

  lemma QuantitiesArePositive(db: Db, id: ObligationId)
    requires Sound(db) && FindObligation(db.obligations, id).Some?
    ensures db.obligations[FindObligation(db.obligations, id).value].due >= 0.0
    ensures forall i :: 0 <= i < |db.execs| ==> db.execs[i].quantity > 0.0
  {
    var lost := SoundGives(db);
  }

  lemma {:induction false} EarlierConfirmedAddsUp(execs: seq<Execution>, ids: set<string>, i: nat, j: nat)
    requires i < j <= |execs| && execs[i].orderId in ids && execs[i].status.Confirmed?
    requires forall k :: 0 <= k < |execs| ==> execs[k].quantity > 0.0
    ensures Total(execs[..i], ids, ConfirmedShare) + execs[i].quantity <= Total(execs[..j], ids, ConfirmedShare)
    decreases j
  {
    assert execs[..j][..j - 1] == execs[..j - 1];
    if j - 1 > i {
      EarlierConfirmedAddsUp(execs, ids, i, j - 1);
    }
  }
}

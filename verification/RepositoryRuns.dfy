/**
  Sequences of repository calls: the object goes through the ledger states the
  theorems speak of.
 */
module RepositoryRuns {
  import opened LedgerModel
  import opened LedgerSteps
  import opened LedgerInvariants
  import opened LedgerTheorems
  import opened Repository

  /** Calls about futures batches. */
  method PerformBatchCall(repository: Repository, op: Op)
    requires op.OpCreateBatch? || op.OpMarkSubmitted? || op.OpAbandon? || op.OpCancelPending? || op.OpZqFill?
      || op.OpZqStatus?
      || op.OpNormalize?
    modifies repository
    ensures repository.Tables() == Apply(old(repository.Tables()), op)
  {
    match op {
      case OpCreateBatch(batch, zqOrderId, quantity, ratios) =>
        var _ := repository.CreateZqBatchIntent(batch, zqOrderId, quantity, ratios);
      case OpMarkSubmitted(batch) => var _ := repository.MarkZqSubmitted(batch);
      case OpAbandon(batch) => var _ := repository.AbandonZqIntent(batch);
      case OpCancelPending(batch, reason) => var _ := repository.MarkBatchCancelPending(batch, reason);
      case OpZqFill(zqOrderId, execId, shares, legacy) =>
        var _ := repository.RecordIbkrExecutionAndObligations(zqOrderId, execId, shares, legacy);
      case OpZqStatus(zqOrderId, status, filled, left) =>
        var _ := repository.UpdateZqOrderStatus(zqOrderId, status, filled, left);
      case OpNormalize => repository.NormalizeActiveBatchState();
    }
  }

  /** Calls about hedge orders. */
  method PerformHedgeCall(repository: Repository, op: Op)
    requires op.OpCreateIntent? || op.OpSubmission? || op.OpAccept? || op.OpStatus? || op.OpVerify? || op.OpExecution?
    modifies repository
    ensures repository.Tables() == Apply(old(repository.Tables()), op)
  {
    match op {
      case OpCreateIntent(id, key, shares, price, signed, orderId) =>
        var _ := repository.CreateHedgeOrderIntent(id, key, shares, price, signed, orderId);
      case OpSubmission(key, state) => var _ := repository.SetHedgeSubmissionState(key, state);
      case OpAccept(key, orderId, state) => var _ := repository.AcceptHedgeOrder(key, orderId, state);
      case OpStatus(orderId, state) => var _ := repository.UpdatePolymarketOrderStatus(orderId, state);
      case OpVerify(orderId, state, matched, associated) =>
        var _ := repository.VerifyPolymarketOrder(orderId, state, matched, associated);
      case OpExecution(execId, orderId, shares, price, tradeId, status) =>
        var _ := repository.RecordPolymarketExecution(execId, orderId, shares, price, tradeId, status);
    }
  }

  method Perform(repository: Repository, op: Op)
    modifies repository
    ensures repository.Tables() == Apply(old(repository.Tables()), op)
  {
    if op.OpCreateIntent? || op.OpSubmission? || op.OpAccept? || op.OpStatus? || op.OpVerify? || op.OpExecution? {
      PerformHedgeCall(repository, op);
    } else {
      PerformBatchCall(repository, op);
    }
  }

  /** The calls in order, a raised one included, take the object to the state at the end of the run. */
  method PerformAll(repository: Repository, ops: seq<Op>)
    modifies repository
    ensures repository.Tables() == Run(old(repository.Tables()), ops)
  {
    ghost var before := repository.Tables();
    for i := 0 to |ops|
      invariant repository.Tables() == Run(before, ops[..i])
    {
      assert ops[..i + 1][..i] == ops[..i];
      Perform(repository, ops[i]);
    }
    assert ops[..|ops|] == ops;
  }

  /** A repository used from the start holds the ledger invariant. */
  method Used(ops: seq<Op>) returns (repository: Repository)
    requires LegalRun(ops)
    ensures fresh(repository) && repository.Tables() == Run(EMPTY, ops) && Inv(repository.Tables(), LostIn(ops))
  {
    repository := new Repository();
    PerformAll(repository, ops);
    RunKeeps(ops);
  }
}

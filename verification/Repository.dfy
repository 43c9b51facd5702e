/**
  The repository object: its methods update the tables in place, one transaction
  each, and are proved against the specification functions of LedgerSteps.
 */
module Repository {
  import opened Results
  import opened Amounts
  import opened TradeLifecycle
  import opened LedgerModel
  import opened LedgerSteps

  class Repository {
    var batches: seq<Batch>
    var zqOrders: seq<ZqOrder>
    var zqExecs: seq<ZqExecution>
    var obligations: seq<Obligation>
    var orders: seq<Order>
    var execs: seq<Execution>

    ghost function Tables(): Db
      reads this
    {
      Db(batches, zqOrders, zqExecs, obligations, orders, execs)
    }

    constructor ()
      ensures Tables() == EMPTY
    {
      batches, zqOrders, zqExecs, obligations, orders, execs := [], [], [], [], [], [];
    }

    // --- refreshing ---------------------------------------------------------

    /** Shares recorded on one order. */
    method RecordedOn(orderId: string) returns (recorded: real)
      ensures recorded == Total(execs, {orderId}, Everything)
    {
      recorded := 0.0;
      for i := 0 to |execs|
        invariant recorded == Total(execs[..i], {orderId}, Everything)
      {
        assert execs[..i + 1][..i] == execs[..i];
        if execs[i].orderId == orderId {
          recorded := recorded + execs[i].quantity;
        }
      }
      assert execs[..|execs|] == execs;
    }

    method ReopenOutgrown(id: ObligationId)
      modifies this`orders
      ensures orders == ReopenOrders(old(orders), execs, id)
    {
      ghost var was := orders;
      for i := 0 to |orders|
        invariant |orders| == |was|
        invariant forall k :: 0 <= k < i ==> orders[k] == ReopenedOrder(was[k], execs, id)
        invariant forall k :: i <= k < |was| ==> orders[k] == was[k]
      {
        var o := orders[i];
        if o.obligation == id && Resolved(o) {
          var recorded := RecordedOn(o.orderId);
          if recorded > o.venueMatched {
            orders := orders[i := o.(verified := false)];
          }
        }
      }
    }

    /** Walks the executions in recording order, allotting the due shares as it goes. */
    method AllotExecutions(ids: set<string>, due: real) returns (confirmed: real, pending: real)
      modifies this`execs
      ensures execs == AllocateExecs(old(execs), ids, due)
      ensures confirmed == Total(old(execs), ids, ConfirmedShare) && pending == Total(old(execs), ids, PendingShare)
    {
      ghost var was := execs;
      confirmed, pending := 0.0, 0.0;
      for i := 0 to |execs|
        invariant |execs| == |was|
        invariant forall k :: 0 <= k < i ==> execs[k] == AllocatedExec(was, ids, due, k)
        invariant forall k :: i <= k < |was| ==> execs[k] == was[k]
        invariant confirmed == Total(was[..i], ids, ConfirmedShare) && pending == Total(was[..i], ids, PendingShare)
      {
        assert was[..i + 1][..i] == was[..i];
        var e := execs[i];
        if e.orderId in ids {
          var allotted := 0.0;
          if e.status.Confirmed? {
            allotted := Min(e.quantity, Max(0.0, due - confirmed));
            confirmed := confirmed + e.quantity;
          } else if !e.status.Failed? {
            pending := pending + e.quantity;
          }
          execs := execs[i := e.(allotted := allotted)];
        }
      }
      assert was[..|was|] == was;
    }

    method RefreshBatchState(batch: string)
      modifies this`batches
      ensures Tables() == RefreshBatchOf(old(Tables()), batch)
    {
      match FindBatch(batches, batch)
      case None =>
      case Some(i) =>
        batches := batches[i := RefreshBatch(batches[i], obligations, orders)];
    }

    method RefreshObligation(id: ObligationId)
      requires FindObligation(obligations, id).Some?
      modifies this
      ensures Tables() == RefreshHedge(old(Tables()), id)
    {
      var at := FindObligation(obligations, id).value;
      var ids := HedgeOrderIds(orders, id);
      ReopenOutgrown(id);
      var confirmed, pending := AllotExecutions(ids, obligations[at].due);
      obligations := obligations[at := JudgeObligation(obligations[at], confirmed, pending, AnyUnresolved(orders, id))];
      RefreshBatchState(id.batch);
    }

    // --- hedge orders -------------------------------------------------------

    method CreateHedgeOrderIntent(id: ObligationId, key: string, shares: real, price: real, signed: bool,
        orderId: string)
      returns (r: Result<bool>)
      modifies this
      ensures r.Ok? ==> CreateIntent(old(Tables()), id, key, shares, price, signed, orderId) == Done(Tables(), r.value)
      ensures r.Err? ==>
        CreateIntent(old(Tables()), id, key, shares, price, signed, orderId).Raised? && Tables() == old(Tables())
    {
      if !signed {
        return Err("Unsigned hedge intent is forbidden outside simulation");
      }
      if !RealOrderId(orderId) {
        return Err("Real hedge intent requires its signed order hash before submission");
      }
      if FindOrderByKey(orders, key).Some? || AnyUnresolved(orders, id) {
        return Ok(false);
      }
      var found := FindObligation(obligations, id);
      if found.None? {
        return Err("hedge obligation is missing");
      }
      var o := obligations[found.value];
      if shares <= 0.0 || shares > Available(o) {
        return Err("hedge order exceeds the unreserved obligation");
      }
      if FindOrder(orders, orderId).Some? {
        return Err("unique venue order id");
      }
      orders := orders + [Order(orderId, key, id, shares, price, Intent, false, 0.0)];
      obligations := obligations[found.value := o.(state := IntentRecorded)];
      r := Ok(true);
    }

    method SetHedgeSubmissionState(key: string, state: OrderState) returns (r: Result<()>)
      modifies this
      ensures r.Ok? ==> SetSubmission(old(Tables()), key, state) == Done(Tables(), ())
      ensures r.Err? ==> SetSubmission(old(Tables()), key, state).Raised? && Tables() == old(Tables())
    {
      var found := FindOrderByKey(orders, key);
      if found.None? {
        return Err("durable hedge intent is missing");
      }
      if AwaitingOutcome(orders[found.value].state) {
        orders := orders[found.value := orders[found.value].(state := state)];
      }
      r := Ok(());
    }

    method AcceptHedgeOrder(key: string, orderId: string, state: OrderState) returns (r: Result<()>)
      modifies this
      ensures r.Ok? ==> Accept(old(Tables()), key, orderId, state) == Done(Tables(), ())
      ensures r.Err? ==> Accept(old(Tables()), key, orderId, state).Raised? && Tables() == old(Tables())
    {
      var found := FindOrderByKey(orders, key);
      if found.None? {
        return Err("hedge order intent is missing");
      }
      var o := orders[found.value];
      if o.orderId != orderId {
        return Err("Venue acknowledgement does not match the persisted order hash");
      }
      if FindObligation(obligations, o.obligation).None? {
        return Err("Polymarket execution has no hedge obligation");
      }
      if !Resolved(o) {
        orders := orders[found.value := o.(state := state)];
      }
      assert orders == old(orders)[found.value := if Resolved(o) then o else o.(state := state)];
      RefreshObligation(o.obligation);
      r := Ok(());
    }

    method UpdatePolymarketOrderStatus(orderId: string, status: OrderState) returns (r: Result<()>)
      modifies this
      ensures r.Ok? ==> UpdateStatus(old(Tables()), orderId, status) == Done(Tables(), ())
      ensures r.Err? ==> UpdateStatus(old(Tables()), orderId, status).Raised? && Tables() == old(Tables())
    {
      var found := FindOrder(orders, orderId);
      if found.None? || Resolved(orders[found.value]) {
        return Ok(());
      }
      var o := orders[found.value];
      if FindObligation(obligations, o.obligation).None? {
        return Err("Polymarket execution has no hedge obligation");
      }
      orders := orders[found.value := o.(state := status, verified := false)];
      RefreshObligation(o.obligation);
      r := Ok(());
    }

    /** Releases a reservation only on terminal status and cumulative fill evidence. */
    method VerifyPolymarketOrder(orderId: string, status: OrderState, matched: Option<real>, associated: set<string>)
      returns (r: Result<bool>)
      modifies this
      ensures r.Ok? ==> Verify(old(Tables()), orderId, status, matched, associated) == Done(Tables(), r.value)
      ensures r.Err? ==>
        Verify(old(Tables()), orderId, status, matched, associated).Raised? && Tables() == old(Tables())
    {
      if matched.None? {
        return Ok(false);
      }
      if matched.value < 0.0 {
        return Err("invalid cumulative matched quantity");
      }
      var found := FindOrder(orders, orderId);
      if found.None? {
        return Ok(false);
      }
      r := CheckOrder(found.value, status, matched.value, associated);
    }

    method CheckOrder(i: nat, status: OrderState, matched: real, associated: set<string>) returns (r: Result<bool>)
      requires i < |orders|
      modifies this
      ensures r.Ok? ==> CheckedOrder(old(Tables()), i, status, matched, associated) == Done(Tables(), r.value)
      ensures r.Err? ==>
        CheckedOrder(old(Tables()), i, status, matched, associated).Raised? && Tables() == old(Tables())
    {
      var o := orders[i];
      var recorded, verified := JudgeSnapshot(o, status, matched, associated);
      if Resolved(o) && !verified && matched <= o.venueMatched && recorded <= matched {
        return Ok(true);
      }
      r := StoreChecked(i, o.(state := status, venueMatched := matched, verified := verified));
    }

    method JudgeSnapshot(o: Order, status: OrderState, matched: real, associated: set<string>)
      returns (recorded: real, verified: bool)
      ensures recorded == Total(execs, {o.orderId}, Everything)
      ensures verified == Verifies(Tables(), o, status, matched, associated)
    {
      recorded := RecordedOn(o.orderId);
      verified := TerminalOrder(status) && recorded == matched && matched <= o.quantity
        && associated <= KnownTrades(execs, o.orderId);
    }

    /** Writes one order, refreshes its obligation and answers whether it is verified. */
    method StoreChecked(i: nat, o: Order) returns (r: Result<bool>)
      requires i < |orders|
      modifies this
      ensures r.Ok? ==> Stored(old(Tables()), i, o) == Done(Tables(), r.value)
      ensures r.Err? ==> Stored(old(Tables()), i, o).Raised? && Tables() == old(Tables())
    {
      if FindObligation(obligations, o.obligation).None? {
        return Err("Polymarket execution has no hedge obligation");
      }
      orders := orders[i := o];
      RefreshObligation(o.obligation);
      r := Ok(o.verified);
    }

    method RecordPolymarketExecution(execId: string, orderId: string, quantity: real, price: real, tradeId: string,
        status: TradeStatus)
      returns (r: Result<bool>)
      modifies this
      ensures r.Ok? ==>
        RecordExecution(old(Tables()), execId, orderId, quantity, price, tradeId, status) == Done(Tables(), r.value)
      ensures r.Err? ==>
        RecordExecution(old(Tables()), execId, orderId, quantity, price, tradeId, status).Raised?
          && Tables() == old(Tables())
    {
      if quantity <= 0.0 || price < 0.0 {
        return Err("invalid execution quantity or price");
      }
      var order := FindOrder(orders, orderId);
      if order.None? {
        return Ok(false);
      }
      var id := orders[order.value].obligation;
      var found := FindExecution(execs, execId);
      if found.Some? {
        var e := execs[found.value];
        if e.orderId != orderId || e.quantity != quantity || e.price != price {
          return Err("Conflicting payload for an existing execution identity");
        }
        r := ReviseExecution(id, found.value, tradeId, status);
        return;
      }
      if FindObligation(obligations, id).None? {
        return Err("Polymarket execution has no hedge obligation");
      }
      execs := execs + [Execution(execId, orderId, quantity, price, tradeId, status, 0.0)];
      RefreshObligation(id);
      r := Ok(true);
    }

    method ReviseExecution(id: ObligationId, j: nat, tradeId: string, status: TradeStatus) returns (r: Result<bool>)
      requires j < |execs|
      modifies this
      ensures r.Ok? ==> RevisedExecution(old(Tables()), id, j, tradeId, status) == Done(Tables(), r.value)
      ensures r.Err? ==> RevisedExecution(old(Tables()), id, j, tradeId, status).Raised? && Tables() == old(Tables())
    {
      var e := execs[j];
      if !Contradicts(e.status, status) && (e.status == status || Rank(e.status) > Rank(status)) {
        return Ok(true);
      }
      if FindObligation(obligations, id).None? {
        return Err("Polymarket execution has no hedge obligation");
      }
      if Contradicts(e.status, status) {
        execs := execs[j := e.(status := Conflict)];
      } else {
        execs := execs[j := e.(status := status, tradeId := tradeId)];
      }
      RefreshObligation(id);
      r := Ok(true);
    }

    // --- ZQ batches ---------------------------------------------------------

    method CreateZqBatchIntent(batch: string, orderId: int, quantity: int, ratios: Option<Ratios>)
      returns (r: Result<()>)
      modifies this
      ensures r.Ok? ==> CreateBatch(old(Tables()), batch, orderId, quantity, ratios) == Done(Tables(), ())
      ensures r.Err? ==>
        CreateBatch(old(Tables()), batch, orderId, quantity, ratios).Raised? && Tables() == old(Tables())
    {
      if ratios.Some? && !ratios.value.Valid() {
        return Err("invalid persisted settlement hedge ratios");
      }
      if FindBatch(batches, batch).Some? {
        return Ok(());
      }
      if FindZqOrder(zqOrders, orderId).Some? {
        return Err("unique venue order id");
      }
      batches := batches + [Batch(batch, quantity, 0.0, Qualified, ZqIntent, ratios, "", None, quantity as real)];
      zqOrders := zqOrders + [ZqOrder(orderId, batch, ZqIntent, quantity)];
      r := Ok(());
    }

    /** Records one futures execution once, with both of its hedge obligations. */
    method RecordIbkrExecutionAndObligations(orderId: int, execId: string, quantity: real, legacy: TokenShares)
      returns (r: Result<seq<Obligation>>)
      modifies this
      ensures r.Ok? ==> RecordZqFill(old(Tables()), orderId, execId, quantity, legacy) == Done(Tables(), r.value)
      ensures r.Err? ==>
        RecordZqFill(old(Tables()), orderId, execId, quantity, legacy).Raised? && Tables() == old(Tables())
    {
      if HasZqExecution(zqExecs, execId) {
        return Ok([]);
      }
      var order := FindZqOrder(zqOrders, orderId);
      if order.None? {
        return Ok([]);
      }
      var batch := zqOrders[order.value].batch;
      var found := FindBatch(batches, batch);
      if found.None? {
        return Err("execution references a missing batch");
      }
      var b := batches[found.value];
      if quantity <= 0.0 || b.filled + quantity > b.quantity as real {
        return Err("IBKR execution quantity is outside the batch");
      }
      var due := DueShares(b, quantity, legacy);
      zqExecs := zqExecs + [ZqExecution(execId, orderId, batch, quantity)];
      batches := batches[found.value := FilledBatch(b, quantity)];
      var added := [NewObligation(batch, execId, due.first, due.firstShares),
          NewObligation(batch, execId, due.second, due.secondShares)];
      obligations := obligations + added;
      r := Ok(added);
    }

    method UpdateZqOrderStatus(orderId: int, status: ZqStatus, filled: Option<real>, remaining: Option<real>)
      returns (r: Option<ZqStatus>)
      modifies this
      ensures UpdateZqStatus(old(Tables()), orderId, status, filled, remaining) == Done(Tables(), r)
    {
      var found := FindZqOrder(zqOrders, orderId);
      if found.None? {
        return None;
      }
      var order := zqOrders[found.value];
      if FinishedZq(order.state) && !FinishedZq(status) {
        return Some(order.state);
      }
      zqOrders := zqOrders[found.value := order.(state := status)];
      ReportStatusToBatch(order, status, filled, remaining);
      r := Some(status);
    }

    method ReportStatusToBatch(order: ZqOrder, status: ZqStatus, filled: Option<real>, remaining: Option<real>)
      modifies this`batches
      ensures Tables() == ReportToBatch(old(Tables()), order, status, filled, remaining)
    {
      var at := FindBatch(batches, order.batch);
      if at.Some? {
        var fill := filled;
        if status.ZqFilled? && filled.None? {
          fill := Some(order.quantity as real);
        }
        batches := batches[at.value := ReportedBatch(batches[at.value], status, fill, remaining)];
        RefreshBatchState(order.batch);
      }
    }

    method MarkBatchCancelPending(batch: string, reason: string) returns (marked: bool)
      modifies this
      ensures SetBatchCancelPending(old(Tables()), batch, reason) == Done(Tables(), marked)
    {
      var at := FindBatch(batches, batch);
      if at.None? || batches[at.value].state.CancelPendingState? {
        return false;
      }
      batches := batches[at.value := batches[at.value].(state := CancelPendingState, cancelReason := reason)];
      marked := true;
    }

    /** Ends an entry that was never sent. */
    method AbandonZqIntent(batch: string) returns (r: Result<()>)
      modifies this
      ensures r.Ok? ==> AbandonIntent(old(Tables()), batch) == Done(Tables(), ())
      ensures r.Err? ==> AbandonIntent(old(Tables()), batch).Raised? && Tables() == old(Tables())
    {
      var at, order := FindBatch(batches, batch), FindZqOrderOfBatch(zqOrders, batch);
      if at.None? || order.None? || !zqOrders[order.value].state.ZqIntent? {
        return Err("cannot abandon an entry that is not an unsent intent");
      }
      zqOrders := zqOrders[order.value := zqOrders[order.value].(state := ZqAborted)];
      batches := batches[at.value := batches[at.value].(state := Complete, zqStatus := ZqAborted, remaining := 0.0)];
      r := Ok(());
    }

    method MarkZqSubmitted(batch: string) returns (r: Result<()>)
      modifies this
      ensures r.Ok? ==> MarkSubmitted(old(Tables()), batch) == Done(Tables(), ())
      ensures r.Err? ==> MarkSubmitted(old(Tables()), batch).Raised? && Tables() == old(Tables())
    {
      var at, order := FindBatch(batches, batch), FindZqOrderOfBatch(zqOrders, batch);
      if at.None? || order.None? {
        return Err("durable ZQ order intent is missing");
      }
      var b := batches[at.value];
      if b.state.Qualified? {
        b := b.(state := ZqSubmittedState);
      }
      if b.zqStatus.ZqIntent? {
        b := b.(zqStatus := ZqSubmitted);
      }
      batches := batches[at.value := b];
      if zqOrders[order.value].state.ZqIntent? {
        zqOrders := zqOrders[order.value := zqOrders[order.value].(state := ZqSubmitted)];
      }
      r := Ok(());
    }

    /** Recomputes every batch; a late settlement failure can reopen an older one. */
    method NormalizeActiveBatchState()
      modifies this`batches
      ensures Tables() == Normalize(old(Tables()))
    {
      ghost var was := batches;
      for i := 0 to |batches|
        invariant |batches| == |was|
        invariant forall k :: 0 <= k < i ==> batches[k] == RefreshBatch(was[k], obligations, orders)
        invariant forall k :: i <= k < |was| ==> batches[k] == was[k]
      {
        batches := batches[i := RefreshBatch(batches[i], obligations, orders)];
      }
    }
  }
}

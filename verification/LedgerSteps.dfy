/**
  What each ledger transaction makes of the tables: the specification that the
  methods of Repository are proved against. A transaction that raises is rolled
  back as a whole.
 */
module LedgerSteps {
  import opened Results
  import opened Amounts
  import opened TradeLifecycle
  import opened Rounding
  import opened LedgerModel

  datatype Outcome<+T> = Done(db: Db, value: T) | Raised

  // --- refreshes ----------------------------------------------------------

  function RefreshBatchOf(db: Db, batch: string): Db {
    match FindBatch(db.batches, batch)
    case None => db
    case Some(i) => db.(batches := db.batches[i := RefreshBatch(db.batches[i], db.obligations, db.orders)])
  }

  function RefreshRows(db: Db, id: ObligationId): Db
    requires FindObligation(db.obligations, id).Some?
  {
    var at := FindObligation(db.obligations, id).value;
    var ids := HedgeOrderIds(db.orders, id);
    var orders := ReopenOrders(db.orders, db.execs, id);
    var confirmed, pending := Total(db.execs, ids, ConfirmedShare), Total(db.execs, ids, PendingShare);
    db.(orders := orders,
        execs := AllocateExecs(db.execs, ids, db.obligations[at].due),
        obligations := db.obligations[at := JudgeObligation(db.obligations[at], confirmed, pending,
            AnyUnresolved(orders, id))])
  }

  function RefreshHedge(db: Db, id: ObligationId): Db
    requires FindObligation(db.obligations, id).Some?
  {
    RefreshBatchOf(RefreshRows(db, id), id.batch)
  }

  function AfterRefresh<T>(db: Db, id: ObligationId, value: T): Outcome<T> {
    if FindObligation(db.obligations, id).None? then Raised else Done(RefreshHedge(db, id), value)
  }

  // --- hedge orders and executions ----------------------------------------

  /** A signed order hash, not one of the ledger's placeholders. */
  predicate RealOrderId(orderId: string) {
    orderId != "" && !("INTENT:" <= orderId) && !("SIM-" <= orderId)
  }

  function Available(o: Obligation): real {
    Max(0.0, o.due - o.confirmed - o.pending)
  }

  function CreateIntent(db: Db, id: ObligationId, key: string, shares: real, price: real, signed: bool,
      orderId: string): Outcome<bool>
  {
    if !signed || !RealOrderId(orderId) then Raised
    else if FindOrderByKey(db.orders, key).Some? || AnyUnresolved(db.orders, id) then Done(db, false)
    else match FindObligation(db.obligations, id)
      case None => Raised
      case Some(at) =>
        var o := db.obligations[at];
        if shares <= 0.0 || shares > Available(o) || FindOrder(db.orders, orderId).Some? then Raised
        else Done(db.(orders := db.orders + [Order(orderId, key, id, shares, price, Intent, false, 0.0)],
                      obligations := db.obligations[at := o.(state := IntentRecorded)]), true)
  }

  predicate AwaitingOutcome(s: OrderState) {
    s.Intent? || s.Submitting? || s.OutcomeUnknown?
  }

  function SetSubmission(db: Db, key: string, state: OrderState): Outcome<()> {
    match FindOrderByKey(db.orders, key)
    case None => Raised
    case Some(i) =>
      if AwaitingOutcome(db.orders[i].state) then Done(db.(orders := db.orders[i := db.orders[i].(state := state)]), ())
      else Done(db, ())
  }

  function Accept(db: Db, key: string, orderId: string, state: OrderState): Outcome<()> {
    match FindOrderByKey(db.orders, key)
    case None => Raised
    case Some(i) =>
      var o := db.orders[i];
      if o.orderId != orderId then Raised
      else
        var accepted := if Resolved(o) then o else o.(state := state);
        AfterRefresh(db.(orders := db.orders[i := accepted]), o.obligation, ())
  }

  function UpdateStatus(db: Db, orderId: string, status: OrderState): Outcome<()> {
    match FindOrder(db.orders, orderId)
    case None => Done(db, ())
    case Some(i) =>
      var o := db.orders[i];
      if Resolved(o) then Done(db, ())
      else AfterRefresh(db.(orders := db.orders[i := o.(state := status, verified := false)]), o.obligation, ())
  }

  function TradeKey(e: Execution): string {
    if e.tradeId != "" then e.tradeId else e.execId
  }

  function KnownTrades(execs: seq<Execution>, orderId: string): set<string> {
    set i | 0 <= i < |execs| && execs[i].orderId == orderId :: TradeKey(execs[i])
  }

  /** Terminal status, recorded fills equal to the venue's cumulative figure, and every named trade known. */
  predicate Verifies(db: Db, o: Order, status: OrderState, matched: real, associated: set<string>) {
    && TerminalOrder(status)
    && Total(db.execs, {o.orderId}, Everything) == matched
    && matched <= o.quantity
    && associated <= KnownTrades(db.execs, o.orderId)
  }

  /** A report that changes nothing: the order is resolved and the report lies between recorded and stored fills. */
  predicate StaleReport(db: Db, o: Order, matched: real) {
    Resolved(o) && matched <= o.venueMatched && Total(db.execs, {o.orderId}, Everything) <= matched
  }

  function Stored(db: Db, i: nat, o: Order): Outcome<bool>
    requires i < |db.orders|
  {
    AfterRefresh(db.(orders := db.orders[i := o]), o.obligation, o.verified)
  }

  function CheckedOrder(db: Db, i: nat, status: OrderState, matched: real, associated: set<string>): Outcome<bool>
    requires i < |db.orders|
  {
    var o := db.orders[i];
    var verified := Verifies(db, o, status, matched, associated);
    if !verified && StaleReport(db, o, matched) then Done(db, true)
    else
      var checked := o.(state := status, venueMatched := matched, verified := verified);
      Stored(db, i, checked)
  }

  function Verify(db: Db, orderId: string, status: OrderState, matched: Option<real>,
      associated: set<string>): Outcome<bool>
  {
    if matched.None? then Done(db, false)
    else if matched.value < 0.0 then Raised
    else match FindOrder(db.orders, orderId)
      case None => Done(db, false)
      case Some(i) => CheckedOrder(db, i, status, matched.value, associated)
  }

  /** One more report for the recorded execution `j` of obligation `id`. */
  function RevisedExecution(db: Db, id: ObligationId, j: nat, tradeId: string, status: TradeStatus): Outcome<bool>
    requires j < |db.execs|
  {
    var e := db.execs[j];
    var next := NextStatus(e.status, status);
    if Contradicts(e.status, status) then AfterRefresh(db.(execs := db.execs[j := e.(status := next)]), id, true)
    else if next == e.status then Done(db, true)
    else AfterRefresh(db.(execs := db.execs[j := e.(status := next, tradeId := tradeId)]), id, true)
  }

  function RecordExecution(db: Db, execId: string, orderId: string, quantity: real, price: real, tradeId: string,
      status: TradeStatus): Outcome<bool>
  {
    if quantity <= 0.0 || price < 0.0 then Raised
    else match FindOrder(db.orders, orderId)
      case None => Done(db, false)
      case Some(i) =>
        var id := db.orders[i].obligation;
        match FindExecution(db.execs, execId)
        case None =>
          AfterRefresh(db.(execs := db.execs + [Execution(execId, orderId, quantity, price, tradeId, status, 0.0)]), id,
              true)
        case Some(j) =>
          var e := db.execs[j];
          if e.orderId != orderId || e.quantity != quantity || e.price != price then Raised
          else RevisedExecution(db, id, j, tradeId, status)
  }

  // --- ZQ batches ---------------------------------------------------------

  /** Shares per token given by the caller for a batch saved without ratios. */
  datatype TokenShares = TokenShares(first: string, firstShares: real, second: string, secondShares: real) {
    predicate Valid() { first != second && firstShares >= 0.0 && secondShares >= 0.0 }
  }

  function CreateBatch(db: Db, batch: string, orderId: int, quantity: int, ratios: Option<Ratios>): Outcome<()> {
    if ratios.Some? && !ratios.value.Valid() then Raised
    else if FindBatch(db.batches, batch).Some? then Done(db, ())
    else if FindZqOrder(db.zqOrders, orderId).Some? then Raised
    else
      Done(db.(batches := db.batches
        + [Batch(batch, quantity, 0.0, Qualified, ZqIntent, ratios, "", None, quantity as real)],
                  zqOrders := db.zqOrders + [ZqOrder(orderId, batch, ZqIntent, quantity)]), ())
  }

  function DueShares(b: Batch, quantity: real, legacy: TokenShares): TokenShares {
    match b.ratios
    case None => legacy
    case Some(r) => TokenShares(r.first, IncrementalHedgeShares(r.firstRatio, b.filled, quantity),
                                r.second, IncrementalHedgeShares(r.secondRatio, b.filled, quantity))
  }

  function NewObligation(batch: string, execId: string, token: string, due: real): Obligation {
    Obligation(ObligationId(batch, execId, token), due, 0.0, 0.0, 0.0, 0.0, Unhedged)
  }

  function FilledBatch(b: Batch, quantity: real): Batch {
    b.(filled := b.filled + quantity, state := ZqPartial,
        remaining := Max(0.0, b.quantity as real - (b.filled + quantity)))
  }

  function RecordZqFill(db: Db, orderId: int, execId: string, quantity: real,
      legacy: TokenShares): Outcome<seq<Obligation>>
  {
    if HasZqExecution(db.zqExecs, execId) then Done(db, [])
    else match FindZqOrder(db.zqOrders, orderId)
      case None => Done(db, [])
      case Some(i) =>
        var batch := db.zqOrders[i].batch;
        match FindBatch(db.batches, batch)
        case None => Raised
        case Some(j) =>
          var b := db.batches[j];
          if quantity <= 0.0 || b.filled + quantity > b.quantity as real then Raised
          else
            var due := DueShares(b, quantity, legacy);
            var fresh' := [NewObligation(batch, execId, due.first, due.firstShares),
                           NewObligation(batch, execId, due.second, due.secondShares)];
            Done(db.(zqExecs := db.zqExecs + [ZqExecution(execId, orderId, batch, quantity)],
                     batches := db.batches[j := FilledBatch(b, quantity)],
                     obligations := db.obligations + fresh'), fresh')
  }

  predicate FinishedZq(s: ZqStatus) {
    TerminalZq(s) || s.ZqAborted?
  }

  /** A batch after a status report; the reported fill only grows. */
  function ReportedBatch(b: Batch, status: ZqStatus, filled: Option<real>, remaining: Option<real>): Batch {
    b.(zqStatus := status,
       remaining := if remaining.Some? then Max(0.0, remaining.value) else b.remaining,
       reported := if filled.Some? then Some(Max(if b.reported.Some? then b.reported.value else 0.0, filled.value))
         else b.reported)
  }

  /** The batch of an order takes over a status report and is refreshed. */
  function ReportToBatch(db: Db, order: ZqOrder, status: ZqStatus, filled: Option<real>, remaining: Option<real>): Db {
    match FindBatch(db.batches, order.batch)
    case None => db
    case Some(j) =>
      var fill := if status.ZqFilled? && filled.None? then Some(order.quantity as real) else filled;
      RefreshBatchOf(db.(batches := db.batches[j := ReportedBatch(db.batches[j], status, fill, remaining)]),
          order.batch)
  }

  function UpdateZqStatus(db: Db, orderId: int, status: ZqStatus, filled: Option<real>,
      remaining: Option<real>): Outcome<Option<ZqStatus>>
  {
    match FindZqOrder(db.zqOrders, orderId)
    case None => Done(db, None)
    case Some(i) =>
      var order := db.zqOrders[i];
      if FinishedZq(order.state) && !FinishedZq(status) then Done(db, Some(order.state))
      else
        Done(ReportToBatch(db.(zqOrders := db.zqOrders[i := order.(state := status)]), order, status, filled,
            remaining), Some(status))
  }

  function SetBatchCancelPending(db: Db, batch: string, reason: string): Outcome<bool> {
    match FindBatch(db.batches, batch)
    case None => Done(db, false)
    case Some(j) =>
      if db.batches[j].state.CancelPendingState? then Done(db, false)
      else
        Done(db.(batches := db.batches[j := db.batches[j].(state := CancelPendingState, cancelReason := reason)]), true)
  }

  function AbandonIntent(db: Db, batch: string): Outcome<()> {
    match FindBatch(db.batches, batch)
    case None => Raised
    case Some(j) =>
      match FindZqOrderOfBatch(db.zqOrders, batch)
      case None => Raised
      case Some(i) =>
        if !db.zqOrders[i].state.ZqIntent? then Raised
        else Done(db.(zqOrders := db.zqOrders[i := db.zqOrders[i].(state := ZqAborted)],
                      batches := db.batches[j := db.batches[j].(state := Complete, zqStatus := ZqAborted,
                          remaining := 0.0)]), ())
  }

  function MarkSubmitted(db: Db, batch: string): Outcome<()> {
    match FindBatch(db.batches, batch)
    case None => Raised
    case Some(j) =>
      match FindZqOrderOfBatch(db.zqOrders, batch)
      case None => Raised
      case Some(i) =>
        var b, order := db.batches[j], db.zqOrders[i];
        var state := if b.state.Qualified? then ZqSubmittedState else b.state;
        var status := if b.zqStatus.ZqIntent? then ZqSubmitted else b.zqStatus;
        Done(db.(batches := db.batches[j := b.(state := state, zqStatus := status)],
                 zqOrders := if order.state.ZqIntent? then db.zqOrders[i := order.(state := ZqSubmitted)]
                   else db.zqOrders), ())
  }

  function Normalize(db: Db): Db {
    db.(batches := seq(|db.batches|, i
      requires 0 <= i < |db.batches| => RefreshBatch(db.batches[i], db.obligations, db.orders)))
  }

  // --- runs ---------------------------------------------------------------

  datatype Op =
    | OpCreateBatch(batch: string, zqOrderId: int, zqQuantity: int, ratios: Option<Ratios>)
    | OpMarkSubmitted(batch: string)
    | OpAbandon(batch: string)
    | OpCancelPending(batch: string, reason: string)
    | OpZqFill(zqOrderId: int, execId: string, shares: real, legacy: TokenShares)
    | OpZqStatus(zqOrderId: int, zqStatus: ZqStatus, filled: Option<real>, left: Option<real>)
    | OpCreateIntent(id: ObligationId, key: string, shares: real, price: real, signed: bool, orderId: string)
    | OpSubmission(key: string, state: OrderState)
    | OpAccept(key: string, orderId: string, state: OrderState)
    | OpStatus(orderId: string, state: OrderState)
    | OpVerify(orderId: string, state: OrderState, matched: Option<real>, associated: set<string>)
    | OpExecution(execId: string, orderId: string, shares: real, price: real, tradeId: string, status: TradeStatus)
    | OpNormalize

  function Kept<T>(db: Db, o: Outcome<T>): Db {
    if o.Done? then o.db else db
  }

  /** The tables after one transaction; a raised one leaves them as they were. */
  function Apply(db: Db, op: Op): Db {
    match op
    case OpCreateBatch(batch, zqOrderId, quantity, ratios) =>
      Kept(db, CreateBatch(db, batch, zqOrderId, quantity, ratios))
    case OpMarkSubmitted(batch) => Kept(db, MarkSubmitted(db, batch))
    case OpAbandon(batch) => Kept(db, AbandonIntent(db, batch))
    case OpCancelPending(batch, reason) => Kept(db, SetBatchCancelPending(db, batch, reason))
    case OpZqFill(zqOrderId, execId, shares, legacy) => Kept(db, RecordZqFill(db, zqOrderId, execId, shares, legacy))
    case OpZqStatus(zqOrderId, status, filled, left) => Kept(db, UpdateZqStatus(db, zqOrderId, status, filled, left))
    case OpCreateIntent(id, key, shares, price, signed, orderId) =>
      Kept(db, CreateIntent(db, id, key, shares, price, signed, orderId))
    case OpSubmission(key, state) => Kept(db, SetSubmission(db, key, state))
    case OpAccept(key, orderId, state) => Kept(db, Accept(db, key, orderId, state))
    case OpStatus(orderId, state) => Kept(db, UpdateStatus(db, orderId, state))
    case OpVerify(orderId, state, matched, associated) => Kept(db, Verify(db, orderId, state, matched, associated))
    case OpExecution(execId, orderId, shares, price, tradeId, status) =>
      Kept(db, RecordExecution(db, execId, orderId, shares, price, tradeId, status))
    case OpNormalize => Normalize(db)
  }
}

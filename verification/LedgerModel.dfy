/**
  The durable ledger: rows in insertion order, the queries over them, and the
  totals an obligation is judged by. Only the real-venue mode is modelled.
 */
module LedgerModel {
  import opened Results
  import opened Amounts
  import opened TradeLifecycle

  // --- rows ---------------------------------------------------------------

  /** Status of a ZQ futures order as IBKR spells it, upper-cased. */
  datatype ZqStatus =
    ZqIntent | ZqSubmitted | ZqFilled | ZqCancelled | ZqCanceled | ZqApiCancelled | ZqInactive | ZqAborted |
    ZqOther(text: string)

  datatype BatchState =
    Qualified | ZqSubmittedState | ZqPartial | CancelPendingState | PolyHedgePending | PartiallyHedged | HedgedState |
    Complete

  /** Saved sizing: exactly two distinct tokens with positive shares per contract. */
  datatype Ratios = Ratios(first: string, firstRatio: real, second: string, secondRatio: real) {
    predicate Valid() {
      first != second && first != "" && second != "" && firstRatio > 0.0 && secondRatio > 0.0
    }
  }

  datatype Batch = Batch(
    id: string, quantity: int, filled: real, state: BatchState, zqStatus: ZqStatus, ratios: Option<Ratios>,
    cancelReason: string, reported: Option<real>, remaining: real)

  datatype ZqOrder = ZqOrder(orderId: int, batch: string, state: ZqStatus, quantity: int)

  datatype ZqExecution = ZqExecution(execId: string, orderId: int, batch: string, quantity: real)

  datatype ObligationId = ObligationId(batch: string, execId: string, token: string)

  datatype ObligationState = Unhedged | IntentRecorded | OrderUnresolved | Hedged | SettlementPending | Excess

  datatype Obligation = Obligation(
    id: ObligationId, due: real, confirmed: real, actual: real, pending: real, excess: real, state: ObligationState)

  datatype OrderState =
    Intent | Submitting | OutcomeUnknown | CancelPending | OrderCancelled | OrderFilled | OrderMatched | OrderRejected |
    OrderExpired | OtherState(text: string)

  /** A hedge order; `verified` and `venueMatched` are the evidence of its final fill. */
  datatype Order = Order(
    orderId: string, key: string, obligation: ObligationId, quantity: real, price: real, state: OrderState,
    verified: bool, venueMatched: real)

  datatype Execution = Execution(
    execId: string, orderId: string, quantity: real, price: real, tradeId: string, status: TradeStatus, allotted: real)

  datatype Db = Db(
    batches: seq<Batch>, zqOrders: seq<ZqOrder>, zqExecs: seq<ZqExecution>, obligations: seq<Obligation>,
    orders: seq<Order>, execs: seq<Execution>)

  const EMPTY: Db := Db([], [], [], [], [], [])

  predicate TerminalOrder(s: OrderState) {
    s.OrderCancelled? || s.OrderFilled? || s.OrderMatched? || s.OrderRejected? || s.OrderExpired?
  }

  predicate Resolved(o: Order) {
    TerminalOrder(o.state) && o.verified
  }

  // --- queries ------------------------------------------------------------

  function FindBatch(batches: seq<Batch>, id: string): (r: Option<nat>)
    ensures r.Some? ==> r.value < |batches| && batches[r.value].id == id
    ensures r.None? ==> forall i :: 0 <= i < |batches| ==> batches[i].id != id
  {
    if |batches| == 0 then None
    else if batches[|batches| - 1].id == id then Some(|batches| - 1)
    else FindBatch(batches[..|batches| - 1], id)
  }

  function FindZqOrder(zqOrders: seq<ZqOrder>, orderId: int): (r: Option<nat>)
    ensures r.Some? ==> r.value < |zqOrders| && zqOrders[r.value].orderId == orderId
    ensures r.None? ==> forall i :: 0 <= i < |zqOrders| ==> zqOrders[i].orderId != orderId
  {
    if |zqOrders| == 0 then None
    else if zqOrders[|zqOrders| - 1].orderId == orderId then Some(|zqOrders| - 1)
    else FindZqOrder(zqOrders[..|zqOrders| - 1], orderId)
  }

  function FindZqOrderOfBatch(zqOrders: seq<ZqOrder>, batch: string): (r: Option<nat>)
    ensures r.Some? ==> r.value < |zqOrders| && zqOrders[r.value].batch == batch
    ensures r.None? ==> forall i :: 0 <= i < |zqOrders| ==> zqOrders[i].batch != batch
  {
    if |zqOrders| == 0 then None
    else if zqOrders[|zqOrders| - 1].batch == batch then Some(|zqOrders| - 1)
    else FindZqOrderOfBatch(zqOrders[..|zqOrders| - 1], batch)
  }

  function FindObligation(obligations: seq<Obligation>, id: ObligationId): (r: Option<nat>)
    ensures r.Some? ==> r.value < |obligations| && obligations[r.value].id == id
    ensures r.None? ==> forall i :: 0 <= i < |obligations| ==> obligations[i].id != id
  {
    if |obligations| == 0 then None
    else if obligations[|obligations| - 1].id == id then Some(|obligations| - 1)
    else FindObligation(obligations[..|obligations| - 1], id)
  }

  function FindOrder(orders: seq<Order>, orderId: string): (r: Option<nat>)
    ensures r.Some? ==> r.value < |orders| && orders[r.value].orderId == orderId
    ensures r.None? ==> forall i :: 0 <= i < |orders| ==> orders[i].orderId != orderId
  {
    if |orders| == 0 then None
    else if orders[|orders| - 1].orderId == orderId then Some(|orders| - 1)
    else FindOrder(orders[..|orders| - 1], orderId)
  }

  function FindOrderByKey(orders: seq<Order>, key: string): (r: Option<nat>)
    ensures r.Some? ==> r.value < |orders| && orders[r.value].key == key
    ensures r.None? ==> forall i :: 0 <= i < |orders| ==> orders[i].key != key
  {
    if |orders| == 0 then None
    else if orders[|orders| - 1].key == key then Some(|orders| - 1)
    else FindOrderByKey(orders[..|orders| - 1], key)
  }

  function FindExecution(execs: seq<Execution>, execId: string): (r: Option<nat>)
    ensures r.Some? ==> r.value < |execs| && execs[r.value].execId == execId
    ensures r.None? ==> forall i :: 0 <= i < |execs| ==> execs[i].execId != execId
  {
    if |execs| == 0 then None
    else if execs[|execs| - 1].execId == execId then Some(|execs| - 1)
    else FindExecution(execs[..|execs| - 1], execId)
  }

  predicate HasZqExecution(zqExecs: seq<ZqExecution>, execId: string) {
    exists i :: 0 <= i < |zqExecs| && zqExecs[i].execId == execId
  }

  /** Venue ids of the hedge orders of one obligation. */
  function HedgeOrderIds(orders: seq<Order>, id: ObligationId): set<string> {
    set i | 0 <= i < |orders| && orders[i].obligation == id :: orders[i].orderId
  }

  predicate AnyUnresolved(orders: seq<Order>, id: ObligationId) {
    exists i :: 0 <= i < |orders| && orders[i].obligation == id && !Resolved(orders[i])
  }

  predicate AllResolved(orders: seq<Order>, batch: string) {
    forall i :: 0 <= i < |orders| && orders[i].obligation.batch == batch ==> Resolved(orders[i])
  }

  predicate HasObligations(obligations: seq<Obligation>, batch: string) {
    exists i :: 0 <= i < |obligations| && obligations[i].id.batch == batch
  }

  // --- totals over executions --------------------------------------------

  datatype Share = Everything | ConfirmedShare | PendingShare | FailedShare

  predicate Counts(s: TradeStatus, k: Share) {
    match k
    case Everything => true
    case ConfirmedShare => s.Confirmed?
    case PendingShare => !s.Confirmed? && !s.Failed?
    case FailedShare => s.Failed?
  }

  function Contribution(e: Execution, ids: set<string>, k: Share): real {
    if e.orderId in ids && Counts(e.status, k) then e.quantity else 0.0
  }

  /** Shares of kind `k` executed on the orders `ids`. */
  function Total(execs: seq<Execution>, ids: set<string>, k: Share): real {
    if |execs| == 0 then 0.0
    else Total(execs[..|execs| - 1], ids, k) + Contribution(execs[|execs| - 1], ids, k)
  }

  lemma {:induction false} TotalSameContributions(a: seq<Execution>, b: seq<Execution>, ids: set<string>, k: Share)
    requires |a| == |b|
    requires forall i :: 0 <= i < |a| ==> Contribution(a[i], ids, k) == Contribution(b[i], ids, k)
    ensures Total(a, ids, k) == Total(b, ids, k)
  {
    if |a| > 0 {
      TotalSameContributions(a[..|a| - 1], b[..|b| - 1], ids, k);
    }
  }

  lemma {:induction false} TotalPositive(a: seq<Execution>, ids: set<string>, k: Share)
    requires forall i :: 0 <= i < |a| ==> a[i].quantity > 0.0
    ensures Total(a, ids, k) >= 0.0
  {
    if |a| > 0 {
      TotalPositive(a[..|a| - 1], ids, k);
    }
  }

  lemma {:induction false} TotalSplits(a: seq<Execution>, ids: set<string>)
    ensures Total(a, ids, Everything)
      == Total(a, ids, ConfirmedShare) + Total(a, ids, PendingShare) + Total(a, ids, FailedShare)
  {
    if |a| > 0 {
      TotalSplits(a[..|a| - 1], ids);
    }
  }

  // --- batch refresh ------------------------------------------------------

  predicate Covered(o: Obligation) {
    o.confirmed >= o.due && o.excess == 0.0 && o.pending == 0.0
  }

  predicate BatchHedged(obligations: seq<Obligation>, batch: string) {
    && HasObligations(obligations, batch)
    && forall i :: 0 <= i < |obligations| && obligations[i].id.batch == batch ==> Covered(obligations[i])
  }

  predicate TerminalZq(s: ZqStatus) {
    s.ZqFilled? || s.ZqCancelled? || s.ZqCanceled? || s.ZqApiCancelled? || s.ZqInactive?
  }

  predicate CaughtUp(b: Batch) {
    b.reported.Some? && b.filled >= b.reported.value
  }

  predicate MayComplete(b: Batch, obligations: seq<Obligation>, orders: seq<Order>) {
    && TerminalZq(b.zqStatus)
    && CaughtUp(b)
    && ((b.reported == Some(0.0) && b.filled == 0.0) || BatchHedged(obligations, b.id))
    && AllResolved(orders, b.id)
  }

  predicate AnyConfirmed(obligations: seq<Obligation>, batch: string) {
    exists i :: 0 <= i < |obligations| && obligations[i].id.batch == batch && obligations[i].confirmed > 0.0
  }

  function RefreshBatch(b: Batch, obligations: seq<Obligation>, orders: seq<Order>): Batch {
    if MayComplete(b, obligations, orders) then b.(state := Complete, remaining := 0.0)
    else if b.cancelReason != "" then b.(state := CancelPendingState)
    else if BatchHedged(obligations, b.id) then b.(state := HedgedState)
    else if AnyConfirmed(obligations, b.id) then b.(state := PartiallyHedged)
    else if HasObligations(obligations, b.id) then b.(state := PolyHedgePending)
    else b
  }

  // --- hedge refresh ------------------------------------------------------

  /** Shares an execution is allotted: what the earlier confirmed ones leave of the due amount. */
  function Allocation(execs: seq<Execution>, ids: set<string>, due: real, i: nat): real
    requires i < |execs|
  {
    if execs[i].status.Confirmed? then
      Min(execs[i].quantity, Max(0.0, due - Total(execs[..i], ids, ConfirmedShare)))
    else 0.0
  }

  function AllocatedExec(execs: seq<Execution>, ids: set<string>, due: real, i: nat): Execution
    requires i < |execs|
  {
    if execs[i].orderId in ids then execs[i].(allotted := Allocation(execs, ids, due, i)) else execs[i]
  }

  function AllocateExecs(execs: seq<Execution>, ids: set<string>, due: real): (r: seq<Execution>)
    ensures |r| == |execs|
    ensures forall i :: 0 <= i < |r| ==> r[i] == AllocatedExec(execs, ids, due, i)
  {
    seq(|execs|, i requires 0 <= i < |execs| => AllocatedExec(execs, ids, due, i))
  }

  /** A resolved order whose recorded fills outgrow the venue's figure is reopened. */
  function ReopenedOrder(o: Order, execs: seq<Execution>, id: ObligationId): Order {
    if o.obligation == id && Resolved(o) && Total(execs, {o.orderId}, Everything) > o.venueMatched then
      o.(verified := false)
    else o
  }

  function ReopenOrders(orders: seq<Order>, execs: seq<Execution>, id: ObligationId): (r: seq<Order>)
    ensures |r| == |orders|
    ensures forall i :: 0 <= i < |r| ==> r[i] == ReopenedOrder(orders[i], execs, id)
  {
    seq(|orders|, i requires 0 <= i < |orders| => ReopenedOrder(orders[i], execs, id))
  }

  function JudgeObligation(o: Obligation, confirmed: real, pending: real, unresolved: bool): Obligation {
    var excess := Max(0.0, confirmed + pending - o.due);
    o.(confirmed := Min(confirmed, o.due), actual := confirmed, pending := pending, excess := excess,
       state :=
       if excess != 0.0 then Excess
       else if unresolved then OrderUnresolved
       else if confirmed >= o.due then Hedged
       else if pending != 0.0 then SettlementPending
       else Unhedged)
  }
}

/**
  No over-hedge. Beside the ledger stands the venue's own truth; the ledger sees it
  only through reports that may be delayed, repeated or out of order.
 */
module HonestVenue {
  import opened Results
  import opened TradeLifecycle
  import opened LedgerModel
  import opened LedgerSteps
  import opened LedgerInvariants
  import opened BatchRuns
  import opened LedgerTheorems

  // --- the venue ----------------------------------------------------------

  datatype Fate = Unsettled | Final(failed: bool)

  datatype Trade = Trade(execId: string, orderId: string, quantity: real, price: real, fate: Fate)

  datatype VenueOrder = VenueOrder(quantity: real, closed: bool)

  datatype Venue = Venue(orders: map<string, VenueOrder>, trades: seq<Trade>)

  datatype World = World(db: Db, venue: Venue)

  const START: World := World(EMPTY, Venue(map[], []))

  predicate TradeCounts(t: Trade, orderId: string, failedOnly: bool) {
    t.orderId == orderId && (failedOnly ==> t.fate == Final(true))
  }

  /** True shares matched on one order: all of them, or those whose settlement failed. */
  function TradeTotal(trades: seq<Trade>, orderId: string, failedOnly: bool): real {
    if |trades| == 0 then 0.0
    else
      var t := trades[|trades| - 1];
      TradeTotal(trades[..|trades| - 1], orderId, failedOnly)
        + (if TradeCounts(t, orderId, failedOnly) then t.quantity else 0.0)
  }

  predicate IsOpen(venue: Venue, orderId: string) {
    orderId in venue.orders && !venue.orders[orderId].closed
  }

  /**
    What one hedge order can still cost: its settled and settling fills, plus what is
    open at the venue, or all of it while the venue has not seen the order yet.
   */
  function Exposure(venue: Venue, o: Order): real {
    if o.orderId !in venue.orders then o.quantity
    else
      var all := TradeTotal(venue.trades, o.orderId, false);
      all - TradeTotal(venue.trades, o.orderId, true)
        + (if IsOpen(venue, o.orderId) then venue.orders[o.orderId].quantity - all else 0.0)
  }

  function TotalExposure(venue: Venue, orders: seq<Order>, id: ObligationId): real {
    if |orders| == 0 then 0.0
    else
      var o := orders[|orders| - 1];
      TotalExposure(venue, orders[..|orders| - 1], id) + (if o.obligation == id then Exposure(venue, o) else 0.0)
  }

  // --- steps --------------------------------------------------------------

  datatype Step =
    | Transact(op: Op)                 // the ledger runs one transaction
    | Post(orderId: string)            // a signed order reaches the venue; replays change nothing
    | Match(trade: Trade)              // the venue fills part of an open order
    | Settle(n: nat, failed: bool)     // a trade settles or fails for good
    | Close(orderId: string)           // an order is cancelled, rejected, expired or exhausted

  /** A trade report repeats a trade that exists; it says CONFIRMED or FAILED only of one that is. */
  ghost predicate HonestTrade(venue: Venue, execId: string, orderId: string, quantity: real, price: real,
      status: TradeStatus)
  {
    exists k :: 0 <= k < |venue.trades| && Describes(venue.trades[k], execId, orderId, quantity, price, status)
  }

  predicate Describes(t: Trade, execId: string, orderId: string, quantity: real, price: real, status: TradeStatus) {
    && t.execId == execId && t.orderId == orderId && t.quantity == quantity && t.price == price
    && TrueOf(t, status)
  }

  predicate TrueOf(t: Trade, status: TradeStatus) {
    && !status.Conflict?
    && (status.Confirmed? ==> t.fate == Final(false))
    && (status.Failed? ==> t.fate == Final(true))
  }

  /** Only a terminal snapshot is trusted, and it gives the order's true final fill. */
  ghost predicate HonestSnapshot(venue: Venue, orderId: string, state: OrderState, matched: Option<real>) {
    TerminalOrder(state) && matched.Some? ==>
      orderId in venue.orders && venue.orders[orderId].closed
        && matched.value == TradeTotal(venue.trades, orderId, false)
  }

  ghost predicate Honest(venue: Venue, op: Op) {
    match op
    case OpExecution(execId, orderId, shares, price, _, status) =>
      HonestTrade(venue, execId, orderId, shares, price, status)
    case OpVerify(orderId, state, matched, _) => HonestSnapshot(venue, orderId, state, matched)
    case _ => true
  }

  ghost predicate Enabled(w: World, s: Step) {
    match s
    case Transact(op) => Legal(op) && Honest(w.venue, op)
    case Post(orderId) => FindOrder(w.db.orders, orderId).Some?
    case Match(t) =>
      && IsOpen(w.venue, t.orderId) && t.quantity > 0.0 && t.fate.Unsettled?
      && TradeTotal(w.venue.trades, t.orderId, false) + t.quantity <= w.venue.orders[t.orderId].quantity
      && (forall k :: 0 <= k < |w.venue.trades| ==> w.venue.trades[k].execId != t.execId)
    case Settle(n, _) => n < |w.venue.trades| && w.venue.trades[n].fate.Unsettled?
    case Close(orderId) => FindOrder(w.db.orders, orderId).Some?
  }

  function Next(w: World, s: Step): World
    requires Enabled(w, s)
  {
    var v := w.venue;
    match s
    case Transact(op) => w.(db := Apply(w.db, op))
    case Post(orderId) =>
      if orderId in v.orders then w
      else
        w.(venue := v.(orders := v.orders[orderId := VenueOrder(w.db.orders[FindOrder(w.db.orders,
            orderId).value].quantity, false)]))
    case Match(t) => w.(venue := v.(trades := v.trades + [t]))
    case Settle(n, failed) => w.(venue := v.(trades := v.trades[n := v.trades[n].(fate := Final(failed))]))
    case Close(orderId) =>
      var quantity := if orderId in v.orders then v.orders[orderId].quantity else 0.0;
      w.(venue := v.(orders := v.orders[orderId := VenueOrder(quantity, true)]))
  }

  // --- invariant ----------------------------------------------------------

  ghost predicate Trades(venue: Venue) {
    && (forall i, j :: 0 <= i < j < |venue.trades| ==> venue.trades[i].execId != venue.trades[j].execId)
    && (forall i :: 0 <= i < |venue.trades| ==>
      venue.trades[i].quantity > 0.0 && venue.trades[i].orderId in venue.orders)
  }

  /** The venue knows only orders of the ledger and never fills one past its size. */
  ghost predicate VenueOrders(db: Db, venue: Venue) {
    forall orderId :: orderId in venue.orders ==>
      && FindOrder(db.orders, orderId).Some?
      && TradeTotal(venue.trades, orderId, false) <= venue.orders[orderId].quantity
        <= db.orders[FindOrder(db.orders, orderId).value].quantity
  }

  ghost predicate LinkedTo(trades: seq<Trade>, e: Execution) {
    exists k :: 0 <= k < |trades| && Describes(trades[k], e.execId, e.orderId, e.quantity, e.price, e.status)
  }

  ghost predicate Linked(execs: seq<Execution>, trades: seq<Trade>) {
    forall i :: 0 <= i < |execs| ==> LinkedTo(trades, execs[i])
  }

  /** The venue is done with the order and every fill of it is recorded. */
  predicate Known(execs: seq<Execution>, venue: Venue, orderId: string) {
    && orderId in venue.orders && venue.orders[orderId].closed
    && Total(execs, {orderId}, Everything) == TradeTotal(venue.trades, orderId, false)
  }

  /** The ledger's own upper bound on what an order costs. */
  function Bound(execs: seq<Execution>, venue: Venue, o: Order): real {
    if Known(execs, venue, o.orderId)
      then Total(execs, {o.orderId}, Everything) - Total(execs, {o.orderId}, FailedShare)
    else o.quantity
  }

  function TotalBound(execs: seq<Execution>, venue: Venue, orders: seq<Order>, id: ObligationId): real {
    if |orders| == 0 then 0.0
    else
      var o := orders[|orders| - 1];
      TotalBound(execs, venue, orders[..|orders| - 1], id)
        + (if o.obligation == id then Bound(execs, venue, o) else 0.0)
  }

  ghost predicate VerifiedKnown(w: World) {
    forall i :: 0 <= i < |w.db.orders| && w.db.orders[i].verified ==> Known(w.db.execs, w.venue, w.db.orders[i].orderId)
  }

  ghost predicate Bounded(w: World) {
    forall i :: 0 <= i < |w.db.obligations| ==>
      TotalBound(w.db.execs, w.venue, w.db.orders, w.db.obligations[i].id) <= w.db.obligations[i].due
  }

  datatype WorldAspect = LedgerAspect | TradesAspect | VenueOrdersAspect | LinkedAspect | VerifiedAspect | BoundedAspect

  ghost predicate WorldHolds(aspect: WorldAspect, w: World) {
    match aspect
    case LedgerAspect => Sound(w.db)
    case TradesAspect => Trades(w.venue)
    case VenueOrdersAspect => VenueOrders(w.db, w.venue)
    case LinkedAspect => Linked(w.db.execs, w.venue.trades)
    case VerifiedAspect => VerifiedKnown(w)
    case BoundedAspect => Bounded(w)
  }

  ghost predicate WorldInv(w: World) {
    forall aspect: WorldAspect :: WorldHolds(aspect, w)
  }

  lemma WorldInvGives(w: World)
    requires WorldInv(w)
    ensures Sound(w.db) && Trades(w.venue) && VenueOrders(w.db, w.venue) && Linked(w.db.execs, w.venue.trades)
      && VerifiedKnown(w) && Bounded(w)
  {
    assert WorldHolds(LedgerAspect, w) && WorldHolds(TradesAspect, w) && WorldHolds(VenueOrdersAspect, w);
    assert WorldHolds(LinkedAspect, w) && WorldHolds(VerifiedAspect, w) && WorldHolds(BoundedAspect, w);
  }

  lemma WorldInvFrom(w: World)
    requires Sound(w.db) && Trades(w.venue) && VenueOrders(w.db, w.venue) && Linked(w.db.execs, w.venue.trades)
      && VerifiedKnown(w) && Bounded(w)
    ensures WorldInv(w)
  {}

  // --- recorded fills are fills -------------------------------------------

  lemma {:induction false} TotalBoth(a: seq<Execution>, b: seq<Execution>, ids: set<string>, k: Share)
    ensures Total(a + b, ids, k) == Total(a, ids, k) + Total(b, ids, k)
  {
    if |b| == 0 {
      assert a + b == a;
    } else {
      assert (a + b)[..|a + b| - 1] == a + b[..|b| - 1];
      TotalBoth(a, b[..|b| - 1], ids, k);
    }
  }

  lemma TotalRemove(execs: seq<Execution>, j: nat, ids: set<string>, k: Share)
    requires j < |execs|
    ensures Total(execs, ids, k) == Total(execs[..j] + execs[j + 1..], ids, k) + Contribution(execs[j], ids, k)
  {
    assert execs[..j + 1] + execs[j + 1..] == execs;
    assert execs[..j + 1][..j] == execs[..j];
    TotalBoth(execs[..j + 1], execs[j + 1..], ids, k);
    TotalBoth(execs[..j], execs[j + 1..], ids, k);
  }

  lemma NoTradesNoLink(trades: seq<Trade>, e: Execution)
    requires |trades| == 0
    ensures !LinkedTo(trades, e)
  {}

  lemma LinkedToPrefix(trades: seq<Trade>, e: Execution, last: string)
    requires |trades| > 0 && LinkedTo(trades, e) && trades[|trades| - 1].execId == last && e.execId != last
    ensures LinkedTo(trades[..|trades| - 1], e)
  {
    var m :| 0 <= m < |trades| && Describes(trades[m], e.execId, e.orderId, e.quantity, e.price, e.status);
    assert trades[..|trades| - 1][m] == trades[m];
  }

  ghost predicate DistinctExecutions(execs: seq<Execution>) {
    forall i, j :: 0 <= i < j < |execs| ==> execs[i].execId != execs[j].execId
  }

  predicate Tells(t: Trade, e: Execution) {
    Describes(t, e.execId, e.orderId, e.quantity, e.price, e.status)
  }

  /** The executions but the one that tells the last trade are linked to the earlier trades. */
  lemma OthersLinkedEarlier(execs: seq<Execution>, trades: seq<Trade>, j: nat)
    requires |trades| > 0 && Linked(execs, trades) && DistinctExecutions(execs)
    requires j < |execs| && Tells(trades[|trades| - 1], execs[j])
    ensures Linked(execs[..j] + execs[j + 1..], trades[..|trades| - 1])
      && DistinctExecutions(execs[..j] + execs[j + 1..])
  {
    var rest := execs[..j] + execs[j + 1..];
    forall i | 0 <= i < |rest| ensures LinkedTo(trades[..|trades| - 1], rest[i]) {
      var i' := if i < j then i else i + 1;
      assert rest[i] == execs[i'];
      LinkedToPrefix(trades, execs[i'], execs[j].execId);
    }
  }

  lemma AllLinkedEarlier(execs: seq<Execution>, trades: seq<Trade>)
    requires |trades| > 0 && Linked(execs, trades)
    requires forall j :: 0 <= j < |execs| ==> !Tells(trades[|trades| - 1], execs[j])
    ensures Linked(execs, trades[..|trades| - 1])
  {
    forall i | 0 <= i < |execs| ensures LinkedTo(trades[..|trades| - 1], execs[i]) {
      assert LinkedTo(trades, execs[i]);
      var m :| 0 <= m < |trades| && Tells(trades[m], execs[i]);
      assert trades[..|trades| - 1][m] == trades[m];
    }
  }

  /** Over linked executions, what is recorded on an order is at most what truly happened on it. */
  lemma {:induction false} RecordedWithinTrue(execs: seq<Execution>, trades: seq<Trade>, orderId: string,
      failedOnly: bool)
    requires Linked(execs, trades) && DistinctExecutions(execs)
    requires forall i :: 0 <= i < |trades| ==> trades[i].quantity > 0.0
    ensures Total(execs, {orderId}, if failedOnly then FailedShare else Everything)
      <= TradeTotal(trades, orderId, failedOnly)
    decreases |trades|
  {
    if |trades| == 0 {
      forall e: Execution ensures !LinkedTo(trades, e) {
        NoTradesNoLink(trades, e);
      }
    } else {
      var n := |trades| - 1;
      if j :| 0 <= j < |execs| && Tells(trades[n], execs[j]) {
        TotalRemove(execs, j, {orderId}, if failedOnly then FailedShare else Everything);
        OthersLinkedEarlier(execs, trades, j);
        RecordedWithinTrue(execs[..j] + execs[j + 1..], trades[..n], orderId, failedOnly);
      } else {
        AllLinkedEarlier(execs, trades);
        RecordedWithinTrue(execs, trades[..n], orderId, failedOnly);
      }
    }
  }

  lemma {:induction false} TradeTotalSign(trades: seq<Trade>, orderId: string)
    requires forall i :: 0 <= i < |trades| ==> trades[i].quantity > 0.0
    ensures 0.0 <= TradeTotal(trades, orderId, true) <= TradeTotal(trades, orderId, false)
  {
    if |trades| > 0 {
      TradeTotalSign(trades[..|trades| - 1], orderId);
    }
  }

  lemma {:induction false} TradeTotalNone(trades: seq<Trade>, orderId: string, failedOnly: bool)
    requires forall i :: 0 <= i < |trades| ==> trades[i].orderId != orderId
    ensures TradeTotal(trades, orderId, failedOnly) == 0.0
  {
    if |trades| > 0 {
      TradeTotalNone(trades[..|trades| - 1], orderId, failedOnly);
    }
  }

  lemma OrderWithinQuantity(w: World, i: nat)
    requires Trades(w.venue) && VenueOrders(w.db, w.venue) && OrderKeys(w.db.orders, w.db.obligations)
      && i < |w.db.orders|
    ensures TradeTotal(w.venue.trades, w.db.orders[i].orderId, false) <= w.db.orders[i].quantity
  {
    var orderId := w.db.orders[i].orderId;
    if orderId in w.venue.orders {
      assert FindOrder(w.db.orders, orderId).value == i;
    } else {
      TradeTotalNone(w.venue.trades, orderId, false);
    }
  }

  // --- the bound covers the truth -----------------------------------------

  /** The figures of one order: recorded against true, true against the order's size. */
  lemma OrderFigures(w: World, i: nat)
    requires WorldInv(w) && i < |w.db.orders|
    ensures var orderId := w.db.orders[i].orderId;
      && Total(w.db.execs, {orderId}, FailedShare) <= TradeTotal(w.venue.trades, orderId, true)
      && Total(w.db.execs, {orderId}, Everything) <= TradeTotal(w.venue.trades, orderId, false)
        <= w.db.orders[i].quantity
      && 0.0 <= TradeTotal(w.venue.trades, orderId, true)
      && 0.0 <= Total(w.db.execs, {orderId}, FailedShare)
      && (orderId in w.venue.orders ==> w.venue.orders[orderId].quantity <= w.db.orders[i].quantity)
  {
    var o := w.db.orders[i];
    WorldInvGives(w);
    var lost := SoundGives(w.db);
    OrderWithinQuantity(w, i);
    TradeTotalSign(w.venue.trades, o.orderId);
    RecordedWithinTrue(w.db.execs, w.venue.trades, o.orderId, true);
    RecordedWithinTrue(w.db.execs, w.venue.trades, o.orderId, false);
    TotalPositive(w.db.execs, {o.orderId}, FailedShare);
    if o.orderId in w.venue.orders {
      assert FindOrder(w.db.orders, o.orderId).value == i;
    }
  }

  lemma BoundCoversExposure(w: World, i: nat)
    requires WorldInv(w) && i < |w.db.orders|
    ensures Exposure(w.venue, w.db.orders[i]) <= Bound(w.db.execs, w.venue, w.db.orders[i])
    ensures Total(w.db.execs, {w.db.orders[i].orderId}, Everything) - Total(w.db.execs, {w.db.orders[i].orderId},
        FailedShare)
         <= Bound(w.db.execs, w.venue, w.db.orders[i])
  {
    OrderFigures(w, i);
  }

  lemma {:induction false} ExposureWithinBound(w: World, n: nat, id: ObligationId)
    requires WorldInv(w) && n <= |w.db.orders|
    ensures TotalExposure(w.venue, w.db.orders[..n], id) <= TotalBound(w.db.execs, w.venue, w.db.orders[..n], id)
  {
    if n > 0 {
      ExposureWithinBound(w, n - 1, id);
      BoundCoversExposure(w, n - 1);
      assert w.db.orders[..n][..n - 1] == w.db.orders[..n - 1];
    }
  }

  lemma {:induction false} TotalOneMore(execs: seq<Execution>, ids: set<string>, orderId: string, k: Share)
    requires orderId !in ids
    ensures Total(execs, ids + {orderId}, k) == Total(execs, ids, k) + Total(execs, {orderId}, k)
  {
    if |execs| > 0 {
      TotalOneMore(execs[..|execs| - 1], ids, orderId, k);
    }
  }

  lemma IdsOneMore(orders: seq<Order>, n: nat, id: ObligationId)
    requires n < |orders| && forall i, j :: 0 <= i < j < |orders| ==> orders[i].orderId != orders[j].orderId
    ensures HedgeOrderIds(orders[..n + 1], id)
      == HedgeOrderIds(orders[..n], id) + (if orders[n].obligation == id then {orders[n].orderId} else {})
    ensures orders[n].orderId !in HedgeOrderIds(orders[..n], id)
  {
    var more, less := HedgeOrderIds(orders[..n + 1], id), HedgeOrderIds(orders[..n], id);
    forall x | x in less ensures x in more {
      var i :| 0 <= i < n && orders[..n][i].obligation == id && orders[..n][i].orderId == x;
      assert orders[..n + 1][i] == orders[i];
    }
    if orders[n].obligation == id {
      assert orders[..n + 1][n] == orders[n];
    }
    forall x | x in more ensures x in less || (orders[n].obligation == id && x == orders[n].orderId) {
      var i :| 0 <= i <= n && orders[..n + 1][i].obligation == id && orders[..n + 1][i].orderId == x;
      if i < n {
        assert orders[..n][i] == orders[i];
      }
    }
  }

  /** What the ledger counts for an obligation, confirmed or waiting, stays within the bound. */
  lemma {:induction false} CountedWithinBound(w: World, n: nat, id: ObligationId)
    requires WorldInv(w) && n <= |w.db.orders|
    ensures var ids := HedgeOrderIds(w.db.orders[..n], id);
      Total(w.db.execs, ids, ConfirmedShare)
        + Total(w.db.execs, ids, PendingShare) <= TotalBound(w.db.execs, w.venue, w.db.orders[..n], id)
  {
    if n == 0 {
      assert HedgeOrderIds(w.db.orders[..n], id) == {};
      TotalOfNothing(w.db.execs, ConfirmedShare);
      TotalOfNothing(w.db.execs, PendingShare);
    } else {
      var o, ids := w.db.orders[n - 1], HedgeOrderIds(w.db.orders[..n - 1], id);
      CountedWithinBound(w, n - 1, id);
      assert w.db.orders[..n][..n - 1] == w.db.orders[..n - 1];
      DistinctOrders(w);
      IdsOneMore(w.db.orders, n - 1, id);
      if o.obligation != id {
        assert HedgeOrderIds(w.db.orders[..n], id) == ids;
      } else {
        TotalOneMore(w.db.execs, ids, o.orderId, ConfirmedShare);
        TotalOneMore(w.db.execs, ids, o.orderId, PendingShare);
        TotalSplits(w.db.execs, {o.orderId});
        BoundCoversExposure(w, n - 1);
      }
    }
  }

  lemma DistinctOrders(w: World)
    requires WorldInv(w)
    ensures forall i, j :: 0 <= i < j < |w.db.orders| ==> w.db.orders[i].orderId != w.db.orders[j].orderId
  {
    WorldInvGives(w);
    var lost := SoundGives(w.db);
  }
}

/**
  The safety theorem of the hedge ledger: under any delay, duplication and reordering
  of an honest venue's reports, no obligation is ever over-hedged.
 */
module NoOverHedge {
  import opened Results
  import opened TradeLifecycle
  import opened LedgerModel
  import opened LedgerSteps
  import opened LedgerInvariants
  import opened LedgerRuns
  import opened BatchRuns
  import opened LedgerTheorems
  import opened HonestVenue

  // --- bounds only drop ---------------------------------------------------

  ghost predicate BoundDrops(execs: seq<Execution>, venue: Venue, execs': seq<Execution>, venue': Venue, o: Order,
      o': Order)
  {
    SameOrderRow(o, o') && Bound(execs', venue', o') <= Bound(execs, venue, o)
  }

  lemma {:induction false} TotalBoundDrops(execs: seq<Execution>, venue: Venue, orders: seq<Order>,
      execs': seq<Execution>, venue': Venue, orders': seq<Order>, id: ObligationId)
    requires |orders| == |orders'|
    requires forall i :: 0 <= i < |orders| ==> BoundDrops(execs, venue, execs', venue', orders[i], orders'[i])
    ensures TotalBound(execs', venue', orders', id) <= TotalBound(execs, venue, orders, id)
  {
    if |orders| > 0 {
      var n := |orders| - 1;
      assert BoundDrops(execs, venue, execs', venue', orders[n], orders'[n]);
      TotalBoundDrops(execs, venue, orders[..n], execs', venue', orders'[..n], id);
    }
  }

  lemma {:induction false} TotalBoundNone(execs: seq<Execution>, venue: Venue, orders: seq<Order>, id: ObligationId)
    requires forall i :: 0 <= i < |orders| ==> orders[i].obligation != id
    ensures TotalBound(execs, venue, orders, id) == 0.0
  {
    if |orders| > 0 {
      TotalBoundNone(execs, venue, orders[..|orders| - 1], id);
    }
  }

  /** Obligations may be added, unordered; none is lost or resized. */
  ghost predicate ObligationsKept(db: Db, r: Db) {
    && |db.obligations| <= |r.obligations|
    && (forall i :: 0 <= i < |db.obligations| ==>
      r.obligations[i].id == db.obligations[i].id && r.obligations[i].due == db.obligations[i].due)
    && (forall i :: |db.obligations| <= i < |r.obligations| ==>
        r.obligations[i].due >= 0.0 && forall j :: 0 <= j < |r.orders| ==>
          r.orders[j].obligation != r.obligations[i].id)
  }

  lemma BoundedByDrops(w: World, w': World)
    requires Bounded(w) && ObligationsKept(w.db, w'.db) && |w.db.orders| == |w'.db.orders|
    requires forall i :: 0 <= i < |w.db.orders| ==>
      BoundDrops(w.db.execs, w.venue, w'.db.execs, w'.venue, w.db.orders[i], w'.db.orders[i])
    ensures Bounded(w')
  {
    forall i | 0 <= i < |w'.db.obligations|
      ensures TotalBound(w'.db.execs, w'.venue, w'.db.orders, w'.db.obligations[i].id) <= w'.db.obligations[i].due
    {
      if i < |w.db.obligations| {
        TotalBoundDrops(w.db.execs, w.venue, w.db.orders, w'.db.execs, w'.venue, w'.db.orders, w.db.obligations[i].id);
      } else {
        TotalBoundNone(w'.db.execs, w'.venue, w'.db.orders, w'.db.obligations[i].id);
      }
    }
  }

  // --- transactions that learn nothing about fills ------------------------

  ghost predicate SameExecution(a: Execution, b: Execution) {
    a == b.(allotted := a.allotted)
  }

  /** Same orders and executions up to what refreshes write. */
  ghost predicate Quiet(db: Db, r: Db) {
    && SameOrderRows(db.orders, r.orders)
    && |r.execs| == |db.execs|
    && (forall i :: 0 <= i < |db.execs| ==> SameExecution(r.execs[i], db.execs[i]))
    && ObligationsKept(db, r)
  }

  lemma QuietTotals(db: Db, r: Db, ids: set<string>, k: Share)
    requires Quiet(db, r)
    ensures Total(r.execs, ids, k) == Total(db.execs, ids, k)
  {
    forall i | 0 <= i < |db.execs| ensures Contribution(r.execs[i], ids, k) == Contribution(db.execs[i], ids, k) {
      assert SameExecution(r.execs[i], db.execs[i]);
    }
    TotalSameContributions(r.execs, db.execs, ids, k);
  }

  lemma QuietBound(db: Db, r: Db, venue: Venue, orderId: string)
    requires Quiet(db, r)
    ensures Known(r.execs, venue, orderId) <==> Known(db.execs, venue, orderId)
    ensures forall o, o' :: SameOrderRow(o, o') && o.orderId == orderId ==>
      Bound(r.execs, venue, o') == Bound(db.execs, venue, o)
  {
    QuietTotals(db, r, {orderId}, Everything);
    QuietTotals(db, r, {orderId}, FailedShare);
  }

  lemma QuietVenueOrders(db: Db, r: Db, venue: Venue)
    requires VenueOrders(db, venue) && SameOrderRows(db.orders, r.orders)
    ensures VenueOrders(r, venue)
  {
    forall orderId | orderId in venue.orders
      ensures FindOrder(r.orders, orderId).Some?
      ensures TradeTotal(venue.trades, orderId, false) <= venue.orders[orderId].quantity
        <= r.orders[FindOrder(r.orders, orderId).value].quantity
    {
      SameRowsFindOrder(db.orders, r.orders, orderId);
      var i := FindOrder(db.orders, orderId).value;
      assert SameOrderRow(db.orders[i], r.orders[i]);
    }
  }

  lemma QuietLinked(db: Db, r: Db, trades: seq<Trade>)
    requires Linked(db.execs, trades) && Quiet(db, r)
    ensures Linked(r.execs, trades)
  {
    forall i | 0 <= i < |r.execs| ensures LinkedTo(trades, r.execs[i]) {
      assert SameExecution(r.execs[i], db.execs[i]) && LinkedTo(trades, db.execs[i]);
    }
  }

  ghost predicate NewlyVerifiedKnown(w: World, r: Db)
    requires |r.orders| == |w.db.orders|
  {
    forall i :: 0 <= i < |r.orders| && r.orders[i].verified && !w.db.orders[i].verified ==>
      Known(w.db.execs, w.venue, w.db.orders[i].orderId)
  }

  lemma QuietKeeps(w: World, r: Db)
    requires Trades(w.venue) && VenueOrders(w.db, w.venue) && Linked(w.db.execs, w.venue.trades) && VerifiedKnown(w)
      && Bounded(w)
    requires Quiet(w.db, r) && Sound(r) && NewlyVerifiedKnown(w, r)
    ensures WorldInv(w.(db := r))
  {
    var w' := w.(db := r);
    QuietVenueOrders(w.db, r, w.venue);
    QuietLinked(w.db, r, w.venue.trades);
    forall i | 0 <= i < |r.orders|
      ensures BoundDrops(w.db.execs, w.venue, r.execs, w.venue, w.db.orders[i], r.orders[i])
    {
      assert SameOrderRow(w.db.orders[i], r.orders[i]);
      QuietBound(w.db, r, w.venue, w.db.orders[i].orderId);
    }
    BoundedByDrops(w, w');
    forall i | 0 <= i < |r.orders| && r.orders[i].verified ensures Known(r.execs, w.venue, r.orders[i].orderId) {
      assert SameOrderRow(w.db.orders[i], r.orders[i]);
      QuietBound(w.db, r, w.venue, w.db.orders[i].orderId);
    }
    WorldInvFrom(w');
  }

  ghost predicate NoneVerified(db: Db, r: Db) {
    |r.orders| == |db.orders| && forall i :: 0 <= i < |r.orders| && r.orders[i].verified ==> db.orders[i].verified
  }

  lemma RefreshIsQuiet(db: Db, id: ObligationId)
    requires FindObligation(db.obligations, id).Some?
    ensures Quiet(db, RefreshHedge(db, id)) && NoneVerified(db, RefreshHedge(db, id))
  {
    RowsRefreshed(db, id);
    var m, r := RefreshRows(db, id), RefreshHedge(db, id);
    assert r.orders == m.orders && r.execs == m.execs && r.obligations == m.obligations;
    forall i | 0 <= i < |db.execs| ensures SameExecution(r.execs[i], db.execs[i]) {
      assert m.execs[i] == db.execs[i].(allotted := m.execs[i].allotted);
    }
  }

  lemma OrderEditIsQuiet(db: Db, i: nat, o: Order)
    requires i < |db.orders| && SameOrderRow(db.orders[i], o) && FindObligation(db.obligations, o.obligation).Some?
    ensures var r := RefreshHedge(db.(orders := db.orders[i := o]), o.obligation);
      && Quiet(db, r)
      && forall k :: 0 <= k < |r.orders| && r.orders[k].verified && !db.orders[k].verified ==> k == i && o.verified
  {
    var m := db.(orders := db.orders[i := o]);
    var r := RefreshHedge(m, o.obligation);
    RefreshIsQuiet(m, o.obligation);
    forall k | 0 <= k < |db.orders| ensures SameOrderRow(db.orders[k], r.orders[k]) {
      assert SameOrderRow(m.orders[k], r.orders[k]);
    }
    forall k | 0 <= k < |db.execs| ensures SameExecution(r.execs[k], db.execs[k]) {
      assert SameExecution(r.execs[k], m.execs[k]);
    }
  }

  /** Transactions about futures fills, batches and reports that prove nothing. */
  predicate Uninformative(op: Op) {
    !op.OpCreateIntent? && !op.OpVerify? && !op.OpExecution?
  }

  lemma NoOrdersForNewObligation(db: Db, execId: string, id: ObligationId)
    requires Keys(db) && !HasZqExecution(db.zqExecs, execId) && id.execId == execId
    ensures forall k :: 0 <= k < |db.orders| ==> db.orders[k].obligation != id
  {
    forall k | 0 <= k < |db.orders| ensures db.orders[k].obligation != id {
      var at := FindObligation(db.obligations, db.orders[k].obligation).value;
      assert HasZqExecution(db.zqExecs, db.obligations[at].id.execId);
    }
  }

  lemma FillIsQuiet(db: Db, orderId: int, execId: string, quantity: real, legacy: TokenShares)
    requires Sound(db) && legacy.Valid()
    ensures var r := Kept(db, RecordZqFill(db, orderId, execId, quantity, legacy)); Quiet(db, r) && NoneVerified(db, r)
  {
    var outcome := RecordZqFill(db, orderId, execId, quantity, legacy);
    if outcome.Done? && |outcome.value| != 0 {
      var batch := db.zqOrders[FindZqOrder(db.zqOrders, orderId).value].batch;
      var j := FindBatch(db.batches, batch).value;
      var due := DueShares(db.batches[j], quantity, legacy);
      var x, y := NewObligation(batch, execId, due.first, due.firstShares),
          NewObligation(batch, execId, due.second, due.secondShares);
      assert due.Valid() by {
        var lost := SoundGives(db);
        assert SizedBatch(db.batches[j], db.obligations, db.zqExecs);
        DueSharesNonNegative(db.batches[j], quantity, legacy);
      }
      assert forall k :: 0 <= k < |db.orders| ==>
        db.orders[k].obligation != x.id && db.orders[k].obligation != y.id by {
        var lost := SoundGives(db);
        NoOrdersForNewObligation(db, execId, x.id);
        NoOrdersForNewObligation(db, execId, y.id);
      }
      assert outcome.db.obligations == db.obligations + [x, y];
      assert ObligationsKept(db, outcome.db);
    }
  }

  lemma AcceptIsQuiet(db: Db, key: string, orderId: string, state: OrderState)
    ensures var r := Kept(db, Accept(db, key, orderId, state)); Quiet(db, r) && NoneVerified(db, r)
  {
    var outcome := Accept(db, key, orderId, state);
    if outcome.Done? {
      var i := FindOrderByKey(db.orders, key).value;
      var o := db.orders[i];
      OrderEditIsQuiet(db, i, if Resolved(o) then o else o.(state := state));
    }
  }

  lemma UpdateStatusIsQuiet(db: Db, orderId: string, state: OrderState)
    ensures var r := Kept(db, UpdateStatus(db, orderId, state)); Quiet(db, r) && NoneVerified(db, r)
  {
    var outcome := UpdateStatus(db, orderId, state);
    if outcome.Done? && outcome.db != db {
      var i := FindOrder(db.orders, orderId).value;
      OrderEditIsQuiet(db, i, db.orders[i].(state := state, verified := false));
    }
  }

  lemma SameRowsAreQuiet(db: Db, r: Db)
    requires r.orders == db.orders && r.execs == db.execs && r.obligations == db.obligations
    ensures Quiet(db, r) && NoneVerified(db, r)
  {}

  lemma SubmissionIsQuiet(db: Db, key: string, state: OrderState)
    ensures var r := Kept(db, SetSubmission(db, key, state)); Quiet(db, r) && NoneVerified(db, r)
  {}

  lemma UninformativeIsQuiet(db: Db, op: Op)
    requires Sound(db) && Legal(op) && Uninformative(op)
    ensures Quiet(db, Apply(db, op)) && NoneVerified(db, Apply(db, op))
  {
    match op
    case OpZqFill(zqOrderId, execId, shares, legacy) => FillIsQuiet(db, zqOrderId, execId, shares, legacy);
    case OpAccept(key, orderId, state) => AcceptIsQuiet(db, key, orderId, state);
    case OpStatus(orderId, state) => UpdateStatusIsQuiet(db, orderId, state);
    case OpSubmission(key, state) => SubmissionIsQuiet(db, key, state);
    case _ => SameRowsAreQuiet(db, Apply(db, op));
  }

  lemma VerifiedIsKnown(w: World, o: Order, state: OrderState, matched: real, associated: set<string>)
    requires HonestSnapshot(w.venue, o.orderId, state, Some(matched)) && Verifies(w.db, o, state, matched, associated)
    ensures Known(w.db.execs, w.venue, o.orderId)
  {}

  lemma CheckedKeepsWorld(w: World, i: nat, o: Order)
    requires WorldInv(w) && i < |w.db.orders| && SameOrderRow(w.db.orders[i], o)
    requires o.verified ==> Known(w.db.execs, w.venue, o.orderId)
    ensures FindObligation(w.db.obligations, o.obligation).Some?
    ensures WorldInv(w.(db := RefreshHedge(w.db.(orders := w.db.orders[i := o]), o.obligation)))
  {
    WorldInvGives(w);
    var lost := SoundGives(w.db);
    OrderEditRefreshed(w.db, i, o, lost);
    OrderEditIsQuiet(w.db, i, o);
    QuietKeeps(w, RefreshHedge(w.db.(orders := w.db.orders[i := o]), o.obligation));
  }

  lemma VerifyKeepsWorld(w: World, orderId: string, state: OrderState, matched: Option<real>, associated: set<string>)
    requires WorldInv(w) && HonestSnapshot(w.venue, orderId, state, matched)
    ensures WorldInv(w.(db := Apply(w.db, OpVerify(orderId, state, matched, associated))))
  {
    var outcome := Verify(w.db, orderId, state, matched, associated);
    if outcome.Done? && outcome.db != w.db {
      var i := FindOrder(w.db.orders, orderId).value;
      var o := w.db.orders[i];
      var verified := Verifies(w.db, o, state, matched.value, associated);
      if verified {
        VerifiedIsKnown(w, o, state, matched.value, associated);
      }
      CheckedKeepsWorld(w, i, o.(state := state, venueMatched := matched.value, verified := verified));
    }
  }

  // --- a fill report ------------------------------------------------------

  lemma {:induction false} TotalGrows(a: seq<Execution>, b: seq<Execution>, ids: set<string>, k: Share)
    requires |a| <= |b|
    requires forall i :: 0 <= i < |a| ==> Contribution(a[i], ids, k) <= Contribution(b[i], ids, k)
    requires forall i :: |a| <= i < |b| ==> 0.0 <= Contribution(b[i], ids, k)
    ensures Total(a, ids, k) <= Total(b, ids, k)
  {
    if |b| > 0 {
      if |a| == |b| {
        TotalGrows(a[..|a| - 1], b[..|b| - 1], ids, k);
      } else {
        TotalGrows(a, b[..|b| - 1], ids, k);
      }
    }
  }

  /** Executions only gain: a fill is added, or a recorded one moves on without leaving FAILED. */
  ghost predicate Grown(execs: seq<Execution>, execs': seq<Execution>) {
    && |execs| <= |execs'|
    && (forall i :: 0 <= i < |execs| ==>
        execs'[i].orderId == execs[i].orderId && execs'[i].quantity == execs[i].quantity
          && (execs[i].status.Failed? ==> execs'[i].status.Failed?))
    && (forall i :: 0 <= i < |execs'| ==> execs'[i].quantity > 0.0)
  }

  lemma GrownTotals(execs: seq<Execution>, execs': seq<Execution>, ids: set<string>)
    requires Grown(execs, execs')
    ensures Total(execs, ids, Everything) <= Total(execs', ids, Everything)
    ensures Total(execs, ids, FailedShare) <= Total(execs', ids, FailedShare)
    ensures 0.0 <= Total(execs', ids, FailedShare)
  {
    TotalGrows(execs, execs', ids, Everything);
    TotalGrows(execs, execs', ids, FailedShare);
    TotalPositive(execs', ids, FailedShare);
  }

  lemma GrownBoundDrops(w: World, execs': seq<Execution>, i: nat)
    requires WorldInv(w) && i < |w.db.orders| && Grown(w.db.execs, execs') && Linked(execs', w.venue.trades)
    requires forall a, b :: 0 <= a < b < |execs'| ==> execs'[a].execId != execs'[b].execId
    ensures BoundDrops(w.db.execs, w.venue, execs', w.venue, w.db.orders[i], w.db.orders[i])
    ensures Known(w.db.execs, w.venue, w.db.orders[i].orderId) ==> Known(execs', w.venue, w.db.orders[i].orderId)
  {
    var orderId := w.db.orders[i].orderId;
    assert forall k :: 0 <= k < |w.venue.trades| ==> w.venue.trades[k].quantity > 0.0 by {
      WorldInvGives(w);
    }
    OrderFigures(w, i);
    RecordedWithinTrue(execs', w.venue.trades, orderId, false);
    GrownTotals(w.db.execs, execs', {orderId});
  }

  lemma GrownKeeps(w: World, execs': seq<Execution>, id: ObligationId)
    requires WorldInv(w) && Grown(w.db.execs, execs') && Linked(execs', w.venue.trades)
    requires forall a, b :: 0 <= a < b < |execs'| ==> execs'[a].execId != execs'[b].execId
    requires FindObligation(w.db.obligations, id).Some? && Sound(RefreshHedge(w.db.(execs := execs'), id))
    ensures WorldInv(w.(db := RefreshHedge(w.db.(execs := execs'), id)))
  {
    var m := w.(db := w.db.(execs := execs'));
    WorldInvGives(w);
    forall i | 0 <= i < |w.db.orders|
      ensures BoundDrops(w.db.execs, w.venue, execs', w.venue, w.db.orders[i], m.db.orders[i])
      ensures Known(w.db.execs, w.venue, w.db.orders[i].orderId) ==> Known(execs', w.venue, w.db.orders[i].orderId)
    {
      GrownBoundDrops(w, execs', i);
    }
    BoundedByDrops(w, m);
    assert VerifiedKnown(m);
    assert VenueOrders(m.db, m.venue);
    RefreshIsQuiet(m.db, id);
    QuietKeeps(m, RefreshHedge(m.db, id));
  }

  /** An honest report about a recorded fill never contradicts it, and never takes it out of FAILED. */
  lemma HonestReportFits(w: World, j: nat, execId: string, orderId: string, quantity: real, price: real,
      status: TradeStatus)
    requires WorldInv(w) && HonestTrade(w.venue, execId, orderId, quantity, price, status)
    requires j < |w.db.execs| && w.db.execs[j].execId == execId
    ensures var e := w.db.execs[j]; var next := NextStatus(e.status, status);
      && e.orderId == orderId && e.quantity == quantity && e.price == price
      && (e.status.Failed? ==> next.Failed?)
      && exists k :: 0 <= k < |w.venue.trades| && Describes(w.venue.trades[k], execId, orderId, quantity, price, next)
  {
    WorldInvGives(w);
    var e := w.db.execs[j];
    assert LinkedTo(w.venue.trades, e);
    var a :| 0 <= a < |w.venue.trades|
      && Describes(w.venue.trades[a], e.execId, e.orderId, e.quantity, e.price, e.status);
    var b :| 0 <= b < |w.venue.trades| && Describes(w.venue.trades[b], execId, orderId, quantity, price, status);
    assert a == b;
    assert Describes(w.venue.trades[b], execId, orderId, quantity, price, NextStatus(e.status, status));
  }

  lemma RevisedFits(execs: seq<Execution>, trades: seq<Trade>, orders: seq<Order>, j: nat, e: Execution)
    requires ExecutionKeys(execs, orders) && Linked(execs, trades) && j < |execs| && LinkedTo(trades, e)
    requires e == execs[j].(status := e.status, tradeId := e.tradeId) && (execs[j].status.Failed? ==> e.status.Failed?)
    ensures var execs' := execs[j := e];
      && Grown(execs, execs') && Linked(execs', trades)
      && forall a, b :: 0 <= a < b < |execs'| ==> execs'[a].execId != execs'[b].execId
  {}

  lemma AddedFits(execs: seq<Execution>, trades: seq<Trade>, orders: seq<Order>, e: Execution)
    requires ExecutionKeys(execs, orders) && Linked(execs, trades) && LinkedTo(trades, e)
    requires e.quantity > 0.0 && FindExecution(execs, e.execId).None?
    ensures var execs' := execs + [e];
      && Grown(execs, execs') && Linked(execs', trades)
      && forall a, b :: 0 <= a < b < |execs'| ==> execs'[a].execId != execs'[b].execId
  {}

  lemma RevisedKeepsWorld(w: World, i: nat, j: nat, e: Execution)
    requires WorldInv(w) && i < |w.db.orders| && j < |w.db.execs| && w.db.execs[j].orderId == w.db.orders[i].orderId
    requires e == w.db.execs[j].(status := e.status, tradeId := e.tradeId)
      && (w.db.execs[j].status.Failed? ==> e.status.Failed?)
    requires LinkedTo(w.venue.trades, e)
    ensures FindObligation(w.db.obligations, w.db.orders[i].obligation).Some?
    ensures WorldInv(w.(db := RefreshHedge(w.db.(execs := w.db.execs[j := e]), w.db.orders[i].obligation)))
  {
    WorldInvGives(w);
    var lost := SoundGives(w.db);
    ExecutionRevised(w.db, i, j, e, lost);
    RevisedFits(w.db.execs, w.venue.trades, w.db.orders, j, e);
    GrownKeeps(w, w.db.execs[j := e], w.db.orders[i].obligation);
  }

  lemma AddedKeepsWorld(w: World, i: nat, e: Execution)
    requires WorldInv(w) && e.quantity > 0.0 && FindOrder(w.db.orders, e.orderId) == Some(i)
    requires FindExecution(w.db.execs, e.execId).None? && LinkedTo(w.venue.trades, e)
    ensures FindObligation(w.db.obligations, w.db.orders[i].obligation).Some?
    ensures WorldInv(w.(db := RefreshHedge(w.db.(execs := w.db.execs + [e]), w.db.orders[i].obligation)))
  {
    WorldInvGives(w);
    var lost := SoundGives(w.db);
    ExecutionAdded(w.db, i, e, lost);
    AddedFits(w.db.execs, w.venue.trades, w.db.orders, e);
    GrownKeeps(w, w.db.execs + [e], w.db.orders[i].obligation);
  }

  lemma RepeatedReportKeepsWorld(w: World, i: nat, j: nat, execId: string, orderId: string, quantity: real, price: real,
      tradeId: string, status: TradeStatus)
    requires WorldInv(w) && HonestTrade(w.venue, execId, orderId, quantity, price, status)
    requires FindOrder(w.db.orders, orderId) == Some(i) && j < |w.db.execs| && w.db.execs[j].execId == execId
    ensures FindObligation(w.db.obligations, w.db.orders[i].obligation).Some?
    ensures WorldInv(w.(db := Kept(w.db, RevisedExecution(w.db, w.db.orders[i].obligation, j, tradeId, status))))
  {
    var e := w.db.execs[j];
    var next := NextStatus(e.status, status);
    HonestReportFits(w, j, execId, orderId, quantity, price, status);
    RevisedKeepsWorld(
      w, i, j, if Contradicts(e.status, status) then e.(status := next) else e.(status := next, tradeId := tradeId));
  }

  lemma NewReportKeepsWorld(w: World, i: nat, e: Execution)
    requires WorldInv(w) && HonestTrade(w.venue, e.execId, e.orderId, e.quantity, e.price, e.status) && e.quantity > 0.0
    requires FindOrder(w.db.orders, e.orderId) == Some(i) && FindExecution(w.db.execs, e.execId).None?
    ensures var added := w.db.(execs := w.db.execs + [e]);
      WorldInv(w.(db := Kept(w.db, AfterRefresh(added, w.db.orders[i].obligation, true))))
  {
    AddedKeepsWorld(w, i, e);
  }

  lemma ExecutionKeepsWorld(w: World, execId: string, orderId: string, quantity: real, price: real, tradeId: string,
      status: TradeStatus)
    requires WorldInv(w) && HonestTrade(w.venue, execId, orderId, quantity, price, status)
    ensures WorldInv(w.(db := Apply(w.db, OpExecution(execId, orderId, quantity, price, tradeId, status))))
  {
    var outcome := RecordExecution(w.db, execId, orderId, quantity, price, tradeId, status);
    if outcome.Done? && outcome.db != w.db {
      var i := FindOrder(w.db.orders, orderId).value;
      match FindExecution(w.db.execs, execId)
      case None => NewReportKeepsWorld(w, i, Execution(execId, orderId, quantity, price, tradeId, status, 0.0));
      case Some(j) => RepeatedReportKeepsWorld(w, i, j, execId, orderId, quantity, price, tradeId, status);
    }
  }

  // --- a new intent -------------------------------------------------------

  /** With every order resolved, the bound is exactly what the ledger counts. */
  lemma {:induction false} ResolvedBoundIsExact(w: World, n: nat, id: ObligationId)
    requires WorldInv(w) && n <= |w.db.orders| && !AnyUnresolved(w.db.orders, id)
    ensures var ids := HedgeOrderIds(w.db.orders[..n], id);
      TotalBound(w.db.execs, w.venue, w.db.orders[..n], id)
        == Total(w.db.execs, ids, ConfirmedShare) + Total(w.db.execs, ids, PendingShare)
  {
    if n == 0 {
      assert HedgeOrderIds(w.db.orders[..n], id) == {};
      TotalOfNothing(w.db.execs, ConfirmedShare);
      TotalOfNothing(w.db.execs, PendingShare);
    } else {
      var o, ids := w.db.orders[n - 1], HedgeOrderIds(w.db.orders[..n - 1], id);
      ResolvedBoundIsExact(w, n - 1, id);
      assert w.db.orders[..n][..n - 1] == w.db.orders[..n - 1];
      DistinctOrders(w);
      IdsOneMore(w.db.orders, n - 1, id);
      if o.obligation != id {
        assert HedgeOrderIds(w.db.orders[..n], id) == ids;
      } else {
        TotalOneMore(w.db.execs, ids, o.orderId, ConfirmedShare);
        TotalOneMore(w.db.execs, ids, o.orderId, PendingShare);
        TotalSplits(w.db.execs, {o.orderId});
        assert Known(w.db.execs, w.venue, o.orderId) by {
          WorldInvGives(w);
          assert Resolved(w.db.orders[n - 1]);
        }
      }
    }
  }

  /** The room an intent may use is really there. */
  lemma RoomIsReal(w: World, at: nat)
    requires WorldInv(w) && at < |w.db.obligations| && !AnyUnresolved(w.db.orders, w.db.obligations[at].id)
    requires Available(w.db.obligations[at]) > 0.0
    ensures TotalBound(w.db.execs, w.venue, w.db.orders, w.db.obligations[at].id)
      + Available(w.db.obligations[at]) <= w.db.obligations[at].due
  {
    var id := w.db.obligations[at].id;
    assert w.db.orders[..|w.db.orders|] == w.db.orders;
    ResolvedBoundIsExact(w, |w.db.orders|, id);
    assert JudgedObligation(w.db, w.db.obligations[at]) && ExecutionKeys(w.db.execs, w.db.orders) by {
      WorldInvGives(w);
      var lost := SoundGives(w.db);
    }
    TotalPositive(w.db.execs, HedgeOrderIds(w.db.orders, id), PendingShare);
  }

  lemma FindOrderBefore(orders: seq<Order>, o: Order, orderId: string)
    requires orderId != o.orderId
    ensures FindOrder(orders + [o], orderId) == FindOrder(orders, orderId)
  {
    assert (orders + [o])[..|orders|] == orders;
  }

  lemma IntentKeepsVenueOrders(w: World, r: Db, o: Order)
    requires VenueOrders(w.db, w.venue) && r.orders == w.db.orders + [o] && FindOrder(w.db.orders, o.orderId).None?
    ensures VenueOrders(r, w.venue)
  {
    forall orderId | orderId in w.venue.orders
      ensures FindOrder(r.orders, orderId).Some?
      ensures TradeTotal(w.venue.trades, orderId, false) <= w.venue.orders[orderId].quantity
        <= r.orders[FindOrder(r.orders, orderId).value].quantity
    {
      FindOrderBefore(w.db.orders, o, orderId);
    }
  }

  lemma IntentKeepsBounded(w: World, r: Db, o: Order, at: nat)
    requires WorldInv(w) && IntentAdded(w.db, r, o, at) && !AnyUnresolved(w.db.orders, o.obligation)
    requires o.quantity <= Available(w.db.obligations[at]) && o.orderId !in w.venue.orders
    ensures Bounded(w.(db := r))
  {
    WorldInvGives(w);
    assert r.orders[..|w.db.orders|] == w.db.orders;
    RoomIsReal(w, at);
    forall i | 0 <= i < |r.obligations|
      ensures TotalBound(r.execs, w.venue, r.orders, r.obligations[i].id) <= r.obligations[i].due
    {
      assert TotalBound(w.db.execs, w.venue, w.db.orders, w.db.obligations[i].id) <= w.db.obligations[i].due;
      if r.obligations[i].id == o.obligation {
        assert i == at by {
          var lost := SoundGives(w.db);
        }
      }
    }
  }

  lemma IntentKeepsWorld(w: World, id: ObligationId, key: string, shares: real, price: real, signed: bool,
      orderId: string)
    requires WorldInv(w)
    ensures WorldInv(w.(db := Apply(w.db, OpCreateIntent(id, key, shares, price, signed, orderId))))
  {
    var outcome := CreateIntent(w.db, id, key, shares, price, signed, orderId);
    if outcome.Done? && outcome.value {
      var at, r := FindObligation(w.db.obligations, id).value, outcome.db;
      var o := Order(orderId, key, id, shares, price, Intent, false, 0.0);
      WorldInvGives(w);
      assert Sound(r) by {
        ApplyKeepsSound(w.db, OpCreateIntent(id, key, shares, price, signed, orderId));
      }
      IntentKeepsVenueOrders(w, r, o);
      IntentKeepsBounded(w, r, o, at);
      WorldInvFrom(w.(db := r));
    }
  }

  // --- venue steps --------------------------------------------------------

  lemma PostedVenueOrders(w: World, orderId: string)
    requires Trades(w.venue) && VenueOrders(w.db, w.venue) && OrderKeys(w.db.orders, w.db.obligations)
    requires Enabled(w, Post(orderId)) && orderId !in w.venue.orders
    ensures VenueOrders(w.db, Next(w, Post(orderId)).venue)
  {
    TradeTotalNone(w.venue.trades, orderId, false);
  }

  lemma VenueMoves(w: World, venue: Venue)
    requires WorldInv(w) && Trades(venue) && VenueOrders(w.db, venue) && Linked(w.db.execs, venue.trades)
    requires forall i :: 0 <= i < |w.db.orders| ==>
      && BoundDrops(w.db.execs, w.venue, w.db.execs, venue, w.db.orders[i], w.db.orders[i])
      && (Known(w.db.execs, w.venue, w.db.orders[i].orderId) ==> Known(w.db.execs, venue, w.db.orders[i].orderId))
    ensures WorldInv(w.(venue := venue))
  {
    WorldInvGives(w);
    BoundedByDrops(w, w.(venue := venue));
    WorldInvFrom(w.(venue := venue));
  }

  lemma PostKeeps(w: World, orderId: string)
    requires WorldInv(w) && Enabled(w, Post(orderId)) && orderId !in w.venue.orders
    ensures WorldInv(Next(w, Post(orderId)))
  {
    var venue := Next(w, Post(orderId)).venue;
    assert VenueOrders(w.db, venue) && Trades(venue) && Linked(w.db.execs, venue.trades) by {
      WorldInvGives(w);
      var lost := SoundGives(w.db);
      PostedVenueOrders(w, orderId);
    }
    VenueMoves(w, venue);
  }

  lemma TradeTotalAppend(trades: seq<Trade>, t: Trade, orderId: string, failedOnly: bool)
    ensures TradeTotal(trades + [t], orderId, failedOnly)
      == TradeTotal(trades, orderId, failedOnly) + (if TradeCounts(t, orderId, failedOnly) then t.quantity else 0.0)
  {
    assert (trades + [t])[..|trades|] == trades;
  }

  lemma LinkedGrows(execs: seq<Execution>, trades: seq<Trade>, t: Trade)
    requires Linked(execs, trades)
    ensures Linked(execs, trades + [t])
  {
    forall i | 0 <= i < |execs| ensures LinkedTo(trades + [t], execs[i]) {
      assert LinkedTo(trades, execs[i]);
      var e := execs[i];
      var k :| 0 <= k < |trades| && Describes(trades[k], e.execId, e.orderId, e.quantity, e.price, e.status);
      assert (trades + [t])[k] == trades[k];
    }
  }

  lemma MatchedTrades(w: World, t: Trade)
    requires Trades(w.venue) && VenueOrders(w.db, w.venue) && Enabled(w, Match(t))
    ensures Trades(Next(w, Match(t)).venue) && VenueOrders(w.db, Next(w, Match(t)).venue)
  {
    forall orderId {
      TradeTotalAppend(w.venue.trades, t, orderId, false);
    }
  }

  lemma MatchKeeps(w: World, t: Trade)
    requires WorldInv(w) && Enabled(w, Match(t))
    ensures WorldInv(Next(w, Match(t)))
  {
    var venue := Next(w, Match(t)).venue;
    assert VenueOrders(w.db, venue) && Trades(venue) && Linked(w.db.execs, venue.trades) by {
      WorldInvGives(w);
      MatchedTrades(w, t);
      LinkedGrows(w.db.execs, w.venue.trades, t);
    }
    forall orderId ensures Known(w.db.execs, venue, orderId) <==> Known(w.db.execs, w.venue, orderId) {
      TradeTotalAppend(w.venue.trades, t, orderId, false);
    }
    VenueMoves(w, venue);
  }

  lemma {:induction false} TradeTotalSameFills(a: seq<Trade>, b: seq<Trade>, orderId: string)
    requires |a| == |b| && forall i :: 0 <= i < |a| ==> b[i] == a[i].(fate := b[i].fate)
    ensures TradeTotal(a, orderId, false) == TradeTotal(b, orderId, false)
  {
    if |a| > 0 {
      TradeTotalSameFills(a[..|a| - 1], b[..|b| - 1], orderId);
    }
  }

  lemma SettledLinked(execs: seq<Execution>, trades: seq<Trade>, n: nat, failed: bool)
    requires Linked(execs, trades) && n < |trades| && trades[n].fate.Unsettled?
    ensures Linked(execs, trades[n := trades[n].(fate := Final(failed))])
  {
    var trades' := trades[n := trades[n].(fate := Final(failed))];
    forall i | 0 <= i < |execs| ensures LinkedTo(trades', execs[i]) {
      assert LinkedTo(trades, execs[i]);
      var e := execs[i];
      var k :| 0 <= k < |trades| && Describes(trades[k], e.execId, e.orderId, e.quantity, e.price, e.status);
      assert Describes(trades'[k], e.execId, e.orderId, e.quantity, e.price, e.status);
    }
  }

  lemma SettleKeeps(w: World, n: nat, failed: bool)
    requires WorldInv(w) && Enabled(w, Settle(n, failed))
    ensures WorldInv(Next(w, Settle(n, failed)))
  {
    var venue := Next(w, Settle(n, failed)).venue;
    forall orderId
      ensures TradeTotal(venue.trades, orderId, false) == TradeTotal(w.venue.trades, orderId, false)
      ensures Known(w.db.execs, venue, orderId) <==> Known(w.db.execs, w.venue, orderId)
    {
      TradeTotalSameFills(w.venue.trades, venue.trades, orderId);
    }
    assert VenueOrders(w.db, venue) && Trades(venue) && Linked(w.db.execs, venue.trades) by {
      WorldInvGives(w);
      SettledLinked(w.db.execs, w.venue.trades, n, failed);
    }
    VenueMoves(w, venue);
  }

  lemma ClosedVenueOrders(w: World, orderId: string)
    requires Trades(w.venue) && VenueOrders(w.db, w.venue) && OrderKeys(w.db.orders, w.db.obligations)
      && Enabled(w, Close(orderId))
    ensures VenueOrders(w.db, Next(w, Close(orderId)).venue) && Trades(Next(w, Close(orderId)).venue)
  {
    TradeTotalNoOrder(w.venue, orderId);
  }

  lemma CloseKeeps(w: World, orderId: string)
    requires WorldInv(w) && Enabled(w, Close(orderId))
    ensures WorldInv(Next(w, Close(orderId)))
  {
    var venue := Next(w, Close(orderId)).venue;
    assert VenueOrders(w.db, venue) && Trades(venue) && Linked(w.db.execs, venue.trades) by {
      WorldInvGives(w);
      var lost := SoundGives(w.db);
      ClosedVenueOrders(w, orderId);
    }
    forall i | 0 <= i < |w.db.orders|
      ensures BoundDrops(w.db.execs, w.venue, w.db.execs, venue, w.db.orders[i], w.db.orders[i])
    {
      OrderFigures(w, i);
    }
    VenueMoves(w, venue);
  }

  lemma TradeTotalNoOrder(venue: Venue, orderId: string)
    requires Trades(venue)
    ensures orderId !in venue.orders ==> TradeTotal(venue.trades, orderId, false) == 0.0
  {
    if orderId !in venue.orders {
      TradeTotalNone(venue.trades, orderId, false);
    }
  }

  // --- the theorem --------------------------------------------------------

  lemma StepKeeps(w: World, s: Step)
    requires WorldInv(w) && Enabled(w, s)
    ensures WorldInv(Next(w, s))
  {
    match s
    case Post(orderId) => if orderId !in w.venue.orders { PostKeeps(w, orderId); }
    case Match(t) => MatchKeeps(w, t);
    case Settle(n, failed) => SettleKeeps(w, n, failed);
    case Close(orderId) => CloseKeeps(w, orderId);
    case Transact(op) =>
      match op
      case OpCreateIntent(id, key, shares, price, signed, orderId) =>
        IntentKeepsWorld(w, id, key, shares, price, signed, orderId);
      case OpVerify(orderId, state, matched, associated) => VerifyKeepsWorld(w, orderId, state, matched, associated);
      case OpExecution(execId, orderId, shares, price, tradeId, status) =>
        ExecutionKeepsWorld(w, execId, orderId, shares, price, tradeId, status);
      case _ =>
        WorldInvGives(w);
        UninformativeIsQuiet(w.db, op);
        ApplyKeepsSound(w.db, op);
        QuietKeeps(w, Apply(w.db, op));
  }

  /** Worlds that some run of enabled steps reaches. */
  ghost predicate ReachedBy(w: World, steps: seq<Step>)
    decreases |steps|
  {
    if |steps| == 0 then w == START
    else exists before: World {:trigger ReachedBy(before, steps[..|steps| - 1])} ::
      ReachedBy(before, steps[..|steps| - 1]) && Enabled(before, steps[|steps| - 1])
        && w == Next(before, steps[|steps| - 1])
  }

  lemma {:induction false} RunsKeep(w: World, steps: seq<Step>)
    requires ReachedBy(w, steps)
    ensures WorldInv(w)
    decreases |steps|
  {
    if |steps| == 0 {
      EmptyInv();
      WorldInvFrom(w);
    } else {
      var before: World :| ReachedBy(before, steps[..|steps| - 1]) && Enabled(before, steps[|steps| - 1])
        && w == Next(before, steps[|steps| - 1]);
      RunsKeep(before, steps[..|steps| - 1]);
      StepKeeps(before, steps[|steps| - 1]);
    }
  }

  lemma WorldIsNotOverHedged(w: World, i: nat)
    requires WorldInv(w) && i < |w.db.obligations|
    ensures TotalExposure(w.venue, w.db.orders, w.db.obligations[i].id) <= w.db.obligations[i].due
    ensures w.db.obligations[i].excess == 0.0 && !w.db.obligations[i].state.Excess?
  {
    var o, n := w.db.obligations[i], |w.db.orders|;
    assert w.db.orders[..n] == w.db.orders;
    ExposureWithinBound(w, n, o.id);
    CountedWithinBound(w, n, o.id);
    WorldInvGives(w);
    var lost := SoundGives(w.db);
    assert JudgedObligation(w.db, w.db.obligations[i]);
  }

  /**
    After any run against an honest venue, and for every obligation: fills that did not
    fail, plus whatever is still open or could still be posted, never exceed the shares
    due; and the ledger never shows an excess.
   */
  lemma NeverOverHedged(w: World, steps: seq<Step>, i: nat)
    requires ReachedBy(w, steps) && i < |w.db.obligations|
    ensures TotalExposure(w.venue, w.db.orders, w.db.obligations[i].id) <= w.db.obligations[i].due
    ensures w.db.obligations[i].excess == 0.0 && !w.db.obligations[i].state.Excess?
  {
    RunsKeep(w, steps);
    WorldIsNotOverHedged(w, i);
  }
}

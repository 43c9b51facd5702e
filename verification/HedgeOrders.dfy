/**
  When the ledger takes on a hedge order, and when it holds the order's final fill
  for proved, read off the rows of the ledger itself.
 */
module HedgeOrders {
  import opened Results
  import opened LedgerModel
  import opened LedgerSteps
  import opened LedgerInvariants
  import opened LedgerTheorems
  import opened BatchStates

  // --- a new intent -------------------------------------------------------

  /** Neither the key nor the venue id is taken, and every earlier order of the obligation is settled for good. */
  ghost predicate RoomForAnOrder(db: Db, id: ObligationId, key: string) {
    forall o :: o in db.orders ==> o.key != key && (o.obligation == id ==> OrderEnded(o.state) && o.verified)
  }

  /** With this many more shares the obligation is not over-bought. */
  ghost predicate Fits(db: Db, o: Obligation, shares: real) {
    shares > 0.0 && ConfirmedShares(db, o) + PendingShares(db, o) + shares <= o.due
  }

  ghost predicate FitsTheObligation(db: Db, id: ObligationId, shares: real) {
    exists o :: o in db.obligations && o.id == id && Fits(db, o, shares)
  }

  ghost predicate IdIsTaken(db: Db, orderId: string) {
    exists o :: o in db.orders && o.orderId == orderId
  }

  /** A hash the venue can know the order by. */
  predicate VenueHash(orderId: string) {
    |orderId| > 0 && !("INTENT:" <= orderId) && !("SIM-" <= orderId)
  }

  lemma RoomIsFound(db: Db, id: ObligationId, key: string)
    ensures RoomForAnOrder(db, id, key) <==> FindOrderByKey(db.orders, key).None? && !AnyUnresolved(db.orders, id)
  {
    forall i | 0 <= i < |db.orders| ensures db.orders[i] in db.orders {}
    var found := FindOrderByKey(db.orders, key);
    if found.Some? {
      assert db.orders[found.value] in db.orders;
    }
  }

  lemma AvailableFits(db: Db, o: Obligation, shares: real)
    requires JudgedObligation(db, o) && PendingShares(db, o) >= 0.0
    ensures Fits(db, o, shares) <==> 0.0 < shares <= Available(o)
  {}

  lemma FitIsFound(db: Db, id: ObligationId, shares: real)
    requires Sound(db)
    ensures var at := FindObligation(db.obligations, id);
      FitsTheObligation(db, id, shares) <==> at.Some? && 0.0 < shares <= Available(db.obligations[at.value])
  {
    var lost := SoundGives(db);
    var at := FindObligation(db.obligations, id);
    forall i | 0 <= i < |db.obligations|
      ensures db.obligations[i] in db.obligations
      ensures Fits(db, db.obligations[i], shares) <==> 0.0 < shares <= Available(db.obligations[i])
    {
      assert JudgedObligation(db, db.obligations[i]);
      TotalPositive(db.execs, HedgeOrderIds(db.orders, db.obligations[i].id), PendingShare);
      AvailableFits(db, db.obligations[i], shares);
    }
    if FitsTheObligation(db, id, shares) {
      var o :| o in db.obligations && o.id == id && Fits(db, o, shares);
      var i :| 0 <= i < |db.obligations| && db.obligations[i] == o;
      assert at.Some? && at.value == i;
    }
  }

  lemma IdIsFound(db: Db, orderId: string)
    ensures IdIsTaken(db, orderId) <==> FindOrder(db.orders, orderId).Some?
  {
    var found := FindOrder(db.orders, orderId);
    if found.Some? {
      assert db.orders[found.value] in db.orders;
    }
  }

  /**
    A signed intent under a venue hash is taken on exactly when nothing is in its way and it
    fits what is due, all that is unreserved included; it is put off while something is in
    its way, and refused otherwise.
   */
  lemma IntentIsTakenExactlyWhen(db: Db, id: ObligationId, key: string, shares: real, price: real, signed: bool,
      orderId: string)
    requires Sound(db)
    ensures var outcome := CreateIntent(db, id, key, shares, price, signed, orderId);
      if !signed || !VenueHash(orderId) then outcome.Raised?
      else if !RoomForAnOrder(db, id, key) then outcome == Done(db, false)
      else if !FitsTheObligation(db, id, shares) || IdIsTaken(db, orderId) then outcome.Raised?
      else outcome.Done? && outcome.value
  {
    RoomIsFound(db, id, key);
    FitIsFound(db, id, shares);
    IdIsFound(db, orderId);
  }

  /** An intent taken on is one more order row, unsent, and its obligation is marked; nothing else changes. */
  lemma TakenIntentIsRecorded(db: Db, id: ObligationId, key: string, shares: real, price: real, signed: bool,
      orderId: string)
    requires Sound(db)
    requires var outcome := CreateIntent(db, id, key, shares, price, signed, orderId);
      outcome.Done? && outcome.value
    ensures var r := CreateIntent(db, id, key, shares, price, signed, orderId).db;
      && r.orders == db.orders + [Order(orderId, key, id, shares, price, Intent, false, 0.0)]
      && r == db.(orders := r.orders, obligations := r.obligations)
      && |r.obligations| == |db.obligations|
      && forall i :: 0 <= i < |r.obligations| ==>
        r.obligations[i] == if db.obligations[i].id == id then db.obligations[i].(state := IntentRecorded)
          else db.obligations[i]
  {
    var lost := SoundGives(db);
  }

  // --- verification -------------------------------------------------------

  function RecordedShares(db: Db, o: Order): real {
    Total(db.execs, {o.orderId}, Everything)
  }

  predicate GoesBy(e: Execution, trade: string) {
    if e.tradeId != "" then e.tradeId == trade else e.execId == trade
  }

  /** The trade is on record for this order, under its trade id or, without one, its execution id. */
  ghost predicate TradeOnRecord(db: Db, o: Order, trade: string) {
    exists e :: e in db.execs && e.orderId == o.orderId && GoesBy(e, trade)
  }

  /** The venue says the order ended with exactly what is recorded, and every trade it names is on record. */
  ghost predicate Proved(db: Db, o: Order, status: OrderState, matched: real, associated: set<string>) {
    && OrderEnded(status)
    && RecordedShares(db, o) == matched <= o.quantity
    && forall trade :: trade in associated ==> TradeOnRecord(db, o, trade)
  }

  /** An order proved before, and a figure between what is recorded and what proved it. */
  ghost predicate Outdated(db: Db, o: Order, matched: real) {
    OrderEnded(o.state) && o.verified && RecordedShares(db, o) <= matched <= o.venueMatched
  }

  lemma TradeIsKnown(db: Db, o: Order, trade: string)
    ensures trade in KnownTrades(db.execs, o.orderId) <==> TradeOnRecord(db, o, trade)
  {
    if trade in KnownTrades(db.execs, o.orderId) {
      var i :| 0 <= i < |db.execs| && db.execs[i].orderId == o.orderId && TradeKey(db.execs[i]) == trade;
      assert db.execs[i] in db.execs;
    }
    if TradeOnRecord(db, o, trade) {
      var e :| e in db.execs && e.orderId == o.orderId && GoesBy(e, trade);
      var i :| 0 <= i < |db.execs| && db.execs[i] == e;
      assert TradeKey(db.execs[i]) == trade;
    }
  }

  lemma ProvedIsVerified(db: Db, o: Order, status: OrderState, matched: real, associated: set<string>)
    ensures Verifies(db, o, status, matched, associated) <==> Proved(db, o, status, matched, associated)
  {
    forall trade | trade in associated
      ensures trade in KnownTrades(db.execs, o.orderId) <==> TradeOnRecord(db, o, trade)
    {
      TradeIsKnown(db, o, trade);
    }
  }

  lemma OrderAt(db: Db, o: Order) returns (i: nat)
    requires Sound(db) && o in db.orders
    ensures i < |db.orders| && db.orders[i] == o
    ensures FindOrder(db.orders, o.orderId) == Some(i) && FindOrderByKey(db.orders, o.key) == Some(i)
    ensures FindObligation(db.obligations, o.obligation).Some?
  {
    i :| 0 <= i < |db.orders| && db.orders[i] == o;
    var lost := SoundGives(db);
    OrderIsFound(db.orders, i);
  }

  lemma OrderRowRefreshed(db: Db, i: nat, o: Order, r: Db)
    requires i < |db.orders| && FindObligation(db.obligations, o.obligation).Some?
    requires r == RefreshHedge(db.(orders := db.orders[i := o]), o.obligation)
    ensures i < |r.orders|
    ensures r.orders[i] == if OrderEnded(o.state) && o.verified && RecordedShares(db, o) > o.venueMatched then
        o.(verified := false)
      else o
  {}

  /**
    A venue snapshot with a figure settles an order exactly when the order ended, the recorded
    shares are that figure and no more than the order, and every trade the venue names is on
    record; an outdated one changes nothing. Any other leaves the order open with that figure.
   */
  lemma OrderIsVerifiedExactlyWhen(db: Db, o: Order, status: OrderState, matched: real, associated: set<string>)
    returns (o': Order)
    requires Sound(db) && o in db.orders && matched >= 0.0
    ensures var outcome := Verify(db, o.orderId, status, Some(matched), associated);
      var proved, outdated := Proved(db, o, status, matched, associated), Outdated(db, o, matched);
      && outcome.Done?
      && (outcome.value <==> proved || outdated)
      && (!proved && outdated ==> outcome.db == db)
      && (proved || !outdated ==>
        && o' in outcome.db.orders
        && o' == o.(state := status, venueMatched := matched, verified := proved))
  {
    var i := OrderAt(db, o);
    ProvedIsVerified(db, o, status, matched, associated);
    var checked := o.(state := status, venueMatched := matched, verified := Verifies(db, o, status, matched,
        associated));
    o' := checked;
    var r := RefreshHedge(db.(orders := db.orders[i := checked]), o.obligation);
    OrderRowRefreshed(db, i, checked, r);
    assert checked in r.orders by {
      assert r.orders[i] == checked;
    }
  }

  /** A finished order whose whole quantity is recorded is verified by a snapshot that names trades on record only. */
  lemma FullyRecordedOrderIsVerified(db: Db, o: Order, status: OrderState, associated: set<string>)
    requires Sound(db) && o in db.orders && OrderEnded(status) && RecordedShares(db, o) == o.quantity
    requires forall trade :: trade in associated ==> TradeOnRecord(db, o, trade)
    ensures var outcome := Verify(db, o.orderId, status, Some(o.quantity), associated);
      outcome.Done? && outcome.value
  {
    assert o.quantity > 0.0 by {
      var lost := SoundGives(db);
    }
    var o' := OrderIsVerifiedExactlyWhen(db, o, status, o.quantity, associated);
  }

  // --- reopening ----------------------------------------------------------

  lemma RefreshReopens(db: Db, id: ObligationId, k: nat)
    requires FindObligation(db.obligations, id).Some? && k < |db.orders|
    ensures var r, o := RefreshHedge(db, id), db.orders[k];
      && |r.orders| == |db.orders|
      && r.orders[k] == if o.obligation == id && OrderEnded(o.state) && o.verified
          && RecordedShares(r, o) > o.venueMatched then o.(verified := false)
        else o
  {
    var at := FindObligation(db.obligations, id).value;
    AllotmentKeepsTotals(db.execs, HedgeOrderIds(db.orders, id), db.obligations[at].due, {db.orders[k].orderId},
        Everything);
  }

  /**
    A recorded execution report opens exactly the settled orders of the obligation whose
    recorded shares now exceed what settled them, and touches no other order.
   */
  lemma ReportReopensTheOutgrown(db: Db, op: Op, o: Order, k: nat)
    requires Sound(db) && o in db.orders && op.OpExecution? && AboutOrder(op, o) && k < |db.orders|
    requires Apply(db, op) != db
    ensures var r, other := Apply(db, op), db.orders[k];
      && |r.orders| == |db.orders|
      && r.orders[k] == if other.obligation == o.obligation && OrderEnded(other.state) && other.verified
          && RecordedShares(r, other) > other.venueMatched then other.(verified := false)
        else other
  {
    var i := OrderAt(db, o);
    OrderOpRefreshes(db, op, i);
    RefreshReopens(RowsWritten(db, op, i), o.obligation, k);
  }

  // --- the state of an order ----------------------------------------------

  /**
    A status from the venue, an acceptance and a submission outcome reach the order row unless
    it is settled for good, or, for a submission, unless an outcome is known already.
   */
  lemma StatusReachesTheOrder(db: Db, o: Order, status: OrderState)
    requires Sound(db) && o in db.orders
    ensures var r := Apply(db, OpStatus(o.orderId, status));
      if OrderEnded(o.state) && o.verified then r == db
      else o.(state := status, verified := false) in r.orders
  {
    var i := OrderAt(db, o);
    if !Resolved(o) {
      OpenOrderTakesStatus(db, i, status);
    }
  }

  lemma OpenOrderTakesStatus(db: Db, i: nat, status: OrderState)
    requires i < |db.orders| && !Resolved(db.orders[i]) && FindOrder(db.orders, db.orders[i].orderId) == Some(i)
    requires FindObligation(db.obligations, db.orders[i].obligation).Some?
    ensures db.orders[i].(state := status, verified := false)
      in Apply(db, OpStatus(db.orders[i].orderId, status)).orders
  {
    var o := db.orders[i].(state := status, verified := false);
    var r := RefreshHedge(db.(orders := db.orders[i := o]), o.obligation);
    assert UpdateStatus(db, o.orderId, status) == Done(r, ());
    OrderRowRefreshed(db, i, o, r);
    assert o in r.orders by { assert r.orders[i] == o; }
  }

  /** The state an acceptance gives an order, whose verification it can only lose. */
  predicate AcceptedFrom(o: Order, o': Order, state: OrderState) {
    && o' == o.(state := if OrderEnded(o.state) && o.verified then o.state else state, verified := o'.verified)
    && (o'.verified ==> o.verified)
  }

  lemma AcceptanceReachesTheOrder(db: Db, o: Order, orderId: string, state: OrderState) returns (o': Order)
    requires Sound(db) && o in db.orders
    ensures var r := Apply(db, OpAccept(o.key, orderId, state));
      if orderId != o.orderId then r == db else o' in r.orders && AcceptedFrom(o, o', state)
  {
    var i := OrderAt(db, o);
    o' := o;
    if orderId == o.orderId {
      o' := AcceptedRow(db, i, state);
    }
  }

  lemma AcceptedRow(db: Db, i: nat, state: OrderState) returns (o': Order)
    requires i < |db.orders| && FindOrderByKey(db.orders, db.orders[i].key) == Some(i)
    requires FindObligation(db.obligations, db.orders[i].obligation).Some?
    ensures o' in Apply(db, OpAccept(db.orders[i].key, db.orders[i].orderId, state)).orders
    ensures AcceptedFrom(db.orders[i], o', state)
  {
    var o := db.orders[i];
    var accepted := if Resolved(o) then o else o.(state := state);
    var r := RefreshHedge(db.(orders := db.orders[i := accepted]), o.obligation);
    assert Accept(db, o.key, o.orderId, state) == Done(r, ());
    OrderRowRefreshed(db, i, accepted, r);
    o' := r.orders[i];
  }

  lemma SubmissionReachesTheOrder(db: Db, o: Order, state: OrderState)
    requires Sound(db) && o in db.orders
    ensures var r := Apply(db, OpSubmission(o.key, state));
      if o.state == Intent || o.state == Submitting || o.state == OutcomeUnknown then
        exists i :: 0 <= i < |db.orders| && db.orders[i] == o && r == db.(orders := db.orders[i := o.(state := state)])
      else r == db
  {
    var i := OrderAt(db, o);
  }
}

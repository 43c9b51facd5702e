/**
  What the ledger holds of one hedge execution after any run: the fill it first
  accepted, the fold of the statuses it accepted, and the trade id it adopted last.
 */
module ExecutionHistory {
  import opened Results
  import opened TradeLifecycle
  import opened LedgerModel
  import opened LedgerSteps
  import opened LedgerInvariants
  import opened LedgerTheorems

  /** One report of a fill as the venue sent it. */
  datatype Report = Report(orderId: string, quantity: real, price: real, tradeId: string, status: TradeStatus)

  ghost predicate KnowsOrder(db: Db, orderId: string) {
    exists o :: o in db.orders && o.orderId == orderId
  }

  /** A report for `execId` with a positive quantity and a price that is not negative. */
  predicate ReportsOn(op: Op, execId: string) {
    op.OpExecution? && op.execId == execId && op.shares > 0.0 && op.price >= 0.0
  }

  function ReportOf(op: Op): Report
    requires op.OpExecution?
  {
    Report(op.orderId, op.shares, op.price, op.tradeId, op.status)
  }

  predicate SameFill(a: Report, b: Report) {
    a.orderId == b.orderId && a.quantity == b.quantity && a.price == b.price
  }

  /** A report is accepted for a known order, unless an earlier accepted one told of another fill. */
  ghost predicate Accepted(db: Db, earlier: seq<Report>, op: Op, execId: string) {
    && ReportsOn(op, execId)
    && KnowsOrder(db, op.orderId)
    && (|earlier| > 0 ==> SameFill(earlier[0], ReportOf(op)))
  }

  /** The accepted reports on one execution along a run, in order. */
  ghost function History(ops: seq<Op>, execId: string): seq<Report> {
    if |ops| == 0 then []
    else
      var before, op := ops[..|ops| - 1], ops[|ops| - 1];
      if Accepted(Run(EMPTY, before), History(before, execId), op, execId) then
        History(before, execId) + [ReportOf(op)]
      else
        History(before, execId)
  }

  function Statuses(history: seq<Report>): (r: seq<TradeStatus>)
    ensures |r| == |history| && forall i :: 0 <= i < |r| ==> r[i] == history[i].status
  {
    seq(|history|, i requires 0 <= i < |history| => history[i].status)
  }

  /** The trade id of the last report whose own status became the stored one. */
  function AdoptedTrade(history: seq<Report>): string
    requires |history| > 0
  {
    var n := |history| - 1;
    if n == 0 then history[0].tradeId
    else
      var earlier, now := Fold(Statuses(history[..n])), Fold(Statuses(history));
      if now != earlier && now == history[n].status then history[n].tradeId else AdoptedTrade(history[..n])
  }

  /** The row a history leaves behind, whatever share of it is allotted. */
  predicate Tells(history: seq<Report>, e: Execution) {
    && |history| > 0
    && e.orderId == history[0].orderId && e.quantity == history[0].quantity && e.price == history[0].price
    && e.status == Fold(Statuses(history))
    && e.tradeId == AdoptedTrade(history)
  }

  // --- one transaction ----------------------------------------------------

  /** The same executions up to their allotted shares. */
  ghost predicate SameFills(a: seq<Execution>, b: seq<Execution>) {
    |a| == |b| && forall i :: 0 <= i < |a| ==> b[i] == a[i].(allotted := b[i].allotted)
  }

  lemma {:induction false} SameFillsFind(a: seq<Execution>, b: seq<Execution>, execId: string)
    requires SameFills(a, b)
    ensures FindExecution(a, execId) == FindExecution(b, execId)
  {
    if |a| > 0 {
      var n := |a| - 1;
      assert b[n] == a[n].(allotted := b[n].allotted);
      SameFillsFind(a[..n], b[..n], execId);
    }
  }

  lemma {:induction false} FindOfRevised(execs: seq<Execution>, j: nat, e: Execution, execId: string)
    requires j < |execs| && e.execId == execs[j].execId
    ensures FindExecution(execs[j := e], execId) == FindExecution(execs, execId)
  {
    var n, revised := |execs| - 1, execs[j := e];
    if j == n {
      assert revised[..n] == execs[..n];
    } else {
      assert revised[..n] == execs[..n][j := e];
      FindOfRevised(execs[..n], j, e, execId);
    }
  }

  lemma RefreshKeepsFills<T>(db: Db, id: ObligationId, value: T)
    ensures var r := AfterRefresh(db, id, value);
      r.Done? ==> SameFills(db.execs, r.db.execs)
  {
    if FindObligation(db.obligations, id).Some? {
      RowsRefreshed(db, id);
    }
  }

  lemma OtherOpsKeepFills(db: Db, op: Op)
    requires !op.OpExecution?
    ensures SameFills(db.execs, Apply(db, op).execs)
  {
    match op
    case OpAccept(key, orderId, state) =>
      var found := FindOrderByKey(db.orders, key);
      if found.Some? {
        var o := db.orders[found.value];
        RefreshKeepsFills(db.(orders := db.orders[found.value := if Resolved(o) then o else o.(state := state)]),
            o.obligation, ());
      }
    case OpStatus(orderId, state) =>
      var found := FindOrder(db.orders, orderId);
      if found.Some? {
        var o := db.orders[found.value];
        RefreshKeepsFills(db.(orders := db.orders[found.value := o.(state := state, verified := false)]),
            o.obligation, ());
      }
    case OpVerify(orderId, state, matched, associated) =>
      var found := FindOrder(db.orders, orderId);
      if found.Some? && matched.Some? {
        var o := db.orders[found.value];
        var verified := Verifies(db, o, state, matched.value, associated);
        RefreshKeepsFills(db.(orders :=
            db.orders[found.value := o.(state := state, venueMatched := matched.value, verified := verified)]),
            o.obligation, verified);
      }
    case _ =>
  }

  /** What one report makes of the rows, before any share is allotted. */
  ghost predicate TakesReport(before: seq<Execution>, after: seq<Execution>, op: Op)
    requires op.OpExecution?
  {
    match FindExecution(before, op.execId)
    case None =>
      SameFills(before + [Execution(op.execId, op.orderId, op.shares, op.price, op.tradeId, op.status, 0.0)], after)
    case Some(j) =>
      var e := before[j];
      var next := NextStatus(e.status, op.status);
      if e.orderId != op.orderId || e.quantity != op.shares || e.price != op.price then after == before
      else if next == op.status && next != e.status then
        SameFills(before[j := e.(status := next, tradeId := op.tradeId)], after)
      else SameFills(before[j := e.(status := next)], after)
  }

  lemma ReportTaken(db: Db, op: Op, lost: set<string>)
    requires Inv(db, lost) && op.OpExecution?
    ensures if ReportsOn(op, op.execId) && KnowsOrder(db, op.orderId) then
        TakesReport(db.execs, Apply(db, op).execs, op)
      else Apply(db, op) == db
  {
    var found := FindOrder(db.orders, op.orderId);
    if found.Some? && ReportsOn(op, op.execId) {
      assert db.orders[found.value] in db.orders;
      var id := db.orders[found.value].obligation;
      assert FindObligation(db.obligations, id).Some? by { InvGives(db, lost); }
      match FindExecution(db.execs, op.execId)
      case None =>
        RefreshKeepsFills(db.(execs :=
            db.execs + [Execution(op.execId, op.orderId, op.shares, op.price, op.tradeId, op.status, 0.0)]), id, true);
      case Some(j) =>
        if db.execs[j].orderId == op.orderId && db.execs[j].quantity == op.shares && db.execs[j].price == op.price {
          RevisionTaken(db, id, j, op);
        }
    }
  }

  lemma RevisionTaken(db: Db, id: ObligationId, j: nat, op: Op)
    requires op.OpExecution? && FindExecution(db.execs, op.execId) == Some(j)
    requires FindObligation(db.obligations, id).Some?
    requires db.execs[j].orderId == op.orderId && db.execs[j].quantity == op.shares && db.execs[j].price == op.price
    ensures TakesReport(db.execs, Kept(db, RevisedExecution(db, id, j, op.tradeId, op.status)).execs, op)
  {
    var e := db.execs[j];
    var next := NextStatus(e.status, op.status);
    assert db.execs[j := e] == db.execs;
    RefreshKeepsFills(db.(execs := db.execs[j := e.(status := next)]), id, true);
    RefreshKeepsFills(db.(execs := db.execs[j := e.(status := next, tradeId := op.tradeId)]), id, true);
  }

  // --- every run ----------------------------------------------------------

  lemma {:induction false} ExtendedStatuses(history: seq<Report>, report: Report)
    ensures Statuses(history + [report]) == Statuses(history) + [report.status]
    ensures |history| > 0 ==>
      Fold(Statuses(history + [report])) == NextStatus(Fold(Statuses(history)), report.status)
  {
    var statuses := Statuses(history);
    assert Statuses(history + [report]) == statuses + [report.status];
    assert (statuses + [report.status])[..|statuses|] == statuses;
  }

  /** One more accepted report moves the row as the longer history tells. */
  lemma {:induction false} ReportExtends(history: seq<Report>, report: Report, e: Execution, r: Execution)
    requires Tells(history, e) && SameFill(history[0], report)
    requires var next := NextStatus(e.status, report.status);
      r == e.(status := next, allotted := r.allotted,
          tradeId := if next == report.status && next != e.status then report.tradeId else e.tradeId)
    ensures Tells(history + [report], r)
  {
    ExtendedStatuses(history, report);
    assert (history + [report])[..|history|] == history;
  }

  lemma {:induction false} FirstReportTells(report: Report, e: Execution)
    requires e == Execution(e.execId, report.orderId, report.quantity, report.price, report.tradeId, report.status,
        e.allotted)
    ensures Tells([report], e)
  {
    assert Statuses([report]) == [report.status];
  }

  /** The row of an execution, if it has one, is what its history tells; without a history there is none. */
  ghost predicate Told(execs: seq<Execution>, execId: string, history: seq<Report>) {
    match FindExecution(execs, execId)
    case None => |history| == 0
    case Some(j) => Tells(history, execs[j])
  }

  lemma {:induction false} FindOfLonger(execs: seq<Execution>, e: Execution, execId: string)
    ensures FindExecution(execs + [e], execId)
      == if e.execId == execId then Some(|execs|) else FindExecution(execs, execId)
  {
    assert (execs + [e])[..|execs|] == execs;
  }

  lemma {:induction false} SameFillsKeep(a: seq<Execution>, b: seq<Execution>, execId: string, history: seq<Report>)
    requires SameFills(a, b) && Told(a, execId, history)
    ensures Told(b, execId, history)
  {
    SameFillsFind(a, b, execId);
  }

  lemma {:induction false} ReportOnAnother(before: seq<Execution>, after: seq<Execution>, op: Op, execId: string,
      history: seq<Report>)
    requires op.OpExecution? && op.execId != execId && TakesReport(before, after, op)
    requires Told(before, execId, history)
    ensures Told(after, execId, history)
  {
    match FindExecution(before, op.execId)
    case None =>
      var e := Execution(op.execId, op.orderId, op.shares, op.price, op.tradeId, op.status, 0.0);
      FindOfLonger(before, e, execId);
      SameFillsKeep(before + [e], after, execId, history);
    case Some(j) =>
      var e := before[j];
      if e.orderId == op.orderId && e.quantity == op.shares && e.price == op.price {
        var next := NextStatus(e.status, op.status);
        var r := if next == op.status && next != e.status then e.(status := next, tradeId := op.tradeId)
          else e.(status := next);
        FindOfRevised(before, j, r, execId);
        SameFillsKeep(before[j := r], after, execId, history);
      }
  }

  lemma {:induction false} ReportOnIt(before: seq<Execution>, after: seq<Execution>, op: Op, history: seq<Report>)
    requires op.OpExecution? && TakesReport(before, after, op)
    requires Told(before, op.execId, history)
    ensures Told(after, op.execId, if |history| == 0 || SameFill(history[0], ReportOf(op)) then
        history + [ReportOf(op)] else history)
  {
    match FindExecution(before, op.execId)
    case None =>
      var e := Execution(op.execId, op.orderId, op.shares, op.price, op.tradeId, op.status, 0.0);
      FindOfLonger(before, e, op.execId);
      FirstReportTells(ReportOf(op), e);
      assert history + [ReportOf(op)] == [ReportOf(op)];
      SameFillsKeep(before + [e], after, op.execId, [ReportOf(op)]);
    case Some(j) =>
      var e := before[j];
      if e.orderId == op.orderId && e.quantity == op.shares && e.price == op.price {
        var next := NextStatus(e.status, op.status);
        var r := if next == op.status && next != e.status then e.(status := next, tradeId := op.tradeId)
          else e.(status := next);
        FindOfRevised(before, j, r, op.execId);
        ReportExtends(history, ReportOf(op), e, r);
        SameFillsKeep(before[j := r], after, op.execId, history + [ReportOf(op)]);
      }
  }

  lemma {:induction false} RunIsTold(ops: seq<Op>, execId: string)
    requires LegalRun(ops)
    ensures Told(Run(EMPTY, ops).execs, execId, History(ops, execId))
  {
    if |ops| > 0 {
      var before, op := ops[..|ops| - 1], ops[|ops| - 1];
      var db, history := Run(EMPTY, before), History(before, execId);
      RunIsTold(before, execId);
      RunKeeps(before);
      if !op.OpExecution? {
        OtherOpsKeepFills(db, op);
        SameFillsKeep(db.execs, Apply(db, op).execs, execId, history);
      } else {
        ReportTaken(db, op, LostIn(before));
        if ReportsOn(op, op.execId) && KnowsOrder(db, op.orderId) {
          if op.execId == execId {
            ReportOnIt(db.execs, Apply(db, op).execs, op, history);
          } else {
            ReportOnAnother(db.execs, Apply(db, op).execs, op, execId, history);
          }
        }
      }
    }
  }

  ghost predicate DistinctIds(execs: seq<Execution>) {
    forall i, j :: 0 <= i < j < |execs| ==> execs[i].execId != execs[j].execId
  }

  lemma {:induction false} RunKeepsDistinctIds(ops: seq<Op>)
    requires LegalRun(ops)
    ensures DistinctIds(Run(EMPTY, ops).execs)
  {
    RunKeeps(ops);
    InvGives(Run(EMPTY, ops), LostIn(ops));
  }

  lemma {:induction false} ToldRows(execs: seq<Execution>, execId: string, history: seq<Report>)
    requires DistinctIds(execs) && Told(execs, execId, history)
    ensures |history| > 0 <==> exists e :: e in execs && e.execId == execId
    ensures forall e :: e in execs && e.execId == execId ==> Tells(history, e)
  {
    var found := FindExecution(execs, execId);
    if found.Some? {
      assert execs[found.value] in execs;
    }
  }

  /**
    Over every run an execution is on record exactly when a report of it was accepted. Its
    row has the order, quantity and price of the first one, the fold of all the accepted
    statuses, and the trade id of the last report whose status was adopted.
   */
  lemma HistoryIsStored(ops: seq<Op>, execId: string)
    requires LegalRun(ops)
    ensures var db, history := Run(EMPTY, ops), History(ops, execId);
      && (|history| > 0 <==> exists e :: e in db.execs && e.execId == execId)
      && (forall e :: e in db.execs && e.execId == execId ==>
        && |history| > 0
        && e.orderId == history[0].orderId && e.quantity == history[0].quantity && e.price == history[0].price
        && e.status == Fold(Statuses(history))
        && e.tradeId == AdoptedTrade(history))
  {
    RunIsTold(ops, execId);
    RunKeepsDistinctIds(ops);
    ToldRows(Run(EMPTY, ops).execs, execId, History(ops, execId));
  }

  /** A first report with a plausible figure for a known order is always recorded, as it was sent. */
  lemma FirstReportIsRecorded(ops: seq<Op>, op: Op)
    requires LegalRun(ops) && op.OpExecution? && op.shares > 0.0 && op.price >= 0.0
    requires KnowsOrder(Run(EMPTY, ops), op.orderId)
    requires forall e :: e in Run(EMPTY, ops).execs ==> e.execId != op.execId
    ensures exists e :: e in Run(EMPTY, ops + [op]).execs && e.execId == op.execId
    ensures forall e :: e in Run(EMPTY, ops + [op]).execs && e.execId == op.execId ==>
      ReportOf(op) == Report(e.orderId, e.quantity, e.price, e.tradeId, e.status)
  {
    assert (ops + [op])[..|ops|] == ops;
    HistoryIsStored(ops, op.execId);
    HistoryIsStored(ops + [op], op.execId);
    assert History(ops + [op], op.execId) == [ReportOf(op)];
  }

  /**
    Over every run the shares of an execution are counted, dropped or waiting as the
    statuses reported for it say: CONFIRMED without FAILED, FAILED without CONFIRMED, or neither.
   */
  lemma CountsAsReported(ops: seq<Op>, e: Execution)
    requires LegalRun(ops) && e in Run(EMPTY, ops).execs
    ensures var statuses := Statuses(History(ops, e.execId));
      StandingOf(e.status) == if Poisoned(statuses) then Waiting
        else Expected(TradeStatus.Confirmed in statuses, TradeStatus.Failed in statuses)
  {
    HistoryIsStored(ops, e.execId);
    StandingDependsOnlyOnWhatWasReported(Statuses(History(ops, e.execId)));
  }

  predicate OtherFill(e: Execution, op: Op)
    requires op.OpExecution?
  {
    e.orderId != op.orderId || e.quantity != op.shares || e.price != op.price
  }

  /** The execution is on record with another order, quantity or price than this report names. */
  ghost predicate RecordedOtherwise(execs: seq<Execution>, op: Op)
    requires op.OpExecution?
  {
    exists e :: e in execs && e.execId == op.execId && OtherFill(e, op)
  }

  lemma {:induction false} OtherwiseIsFound(execs: seq<Execution>, op: Op)
    requires op.OpExecution? && DistinctIds(execs)
    ensures var found := FindExecution(execs, op.execId);
      RecordedOtherwise(execs, op) <==> found.Some? && OtherFill(execs[found.value], op)
  {
    var found := FindExecution(execs, op.execId);
    if found.Some? {
      assert execs[found.value] in execs;
    }
  }

  /**
    A report is refused for an implausible figure or for a known order whose execution is on
    record with another fill; otherwise the answer is whether the order is known.
   */
  lemma ReportIsAnswered(db: Db, op: Op)
    requires Sound(db) && op.OpExecution?
    ensures var outcome := RecordExecution(db, op.execId, op.orderId, op.shares, op.price, op.tradeId, op.status);
      && (outcome.Raised? <==>
        || op.shares <= 0.0 || op.price < 0.0
        || (KnowsOrder(db, op.orderId) && RecordedOtherwise(db.execs, op)))
      && (outcome.Done? ==> outcome.value == KnowsOrder(db, op.orderId))
  {
    var order := FindOrder(db.orders, op.orderId);
    if order.Some? {
      assert db.orders[order.value] in db.orders;
      assert FindObligation(db.obligations, db.orders[order.value].obligation).Some? by {
        var lost := SoundGives(db);
      }
    }
    assert DistinctIds(db.execs) by {
      var lost := SoundGives(db);
    }
    OtherwiseIsFound(db.execs, op);
  }
}

/**
  What the callback watch makes of its evidence: which differences a check reports,
  which orders stand disputed after any callbacks, and what a lost connection forgets.
 */
module CallbackEvidence {
  import opened Results
  import opened LedgerModel
  import opened CallbackGap
  import opened GapTheorems

  // --- what a check reports -----------------------------------------------

  /** The status ends an order, cancelled or filled, at the venue or before it got there. */
  predicate Ended(s: ZqStatus) {
    || s == ZqFilled || s == ZqCancelled || s == ZqCanceled || s == ZqApiCancelled || s == ZqInactive
    || s == ZqAborted
  }

  ghost predicate ReportedMoreThanExecuted(orders: seq<Progress>) {
    exists p :: p in orders && p.reported > p.executed
  }

  ghost predicate ExecutedButNotEnded(orders: seq<Progress>) {
    exists p :: p in orders && p.executed == p.quantity && !Ended(p.state)
  }

  lemma OrdersTell(orders: seq<Progress>)
    ensures AnyOutstanding(orders) <==> ReportedMoreThanExecuted(orders)
    ensures AnyIncomplete(orders) <==> ExecutedButNotEnded(orders)
  {
    forall i | 0 <= i < |orders| ensures orders[i] in orders {}
  }

  /** All four parts of an account snapshot have ended. */
  predicate WholeSnapshot(w: Watch) {
    && OpenOrderEnd in w.complete && CompletedOrderEnd in w.complete
    && ExecutionEnd in w.complete && PositionEnd in w.complete
  }

  /** The position a check goes by: a whole snapshot, else the live callbacks since a reconciled baseline. */
  function SeenPosition(w: Watch): Option<real> {
    if WholeSnapshot(w) then Some(SumPositions(w.positions))
    else if w.matched.Some? && w.callbackPositions.Some? then Some(SumPositions(w.callbackPositions.value))
    else None
  }

  lemma WholeIsEveryPart(w: Watch)
    ensures AllComplete(w) <==> WholeSnapshot(w)
    ensures Observed(w) == SeenPosition(w)
  {
    if WholeSnapshot(w) {
      forall m: Marker ensures m in w.complete && m in EVERY_PART {
        match m
        case OpenOrderEnd =>
        case CompletedOrderEnd =>
        case ExecutionEnd =>
        case PositionEnd =>
      }
    }
  }

  lemma DifferencesAre(w: Watch, orders: seq<Progress>, expected: real, observed: real)
    ensures var differences := Differences(w, orders, expected, observed);
      && (UnrecordedFills in differences <==> ReportedMoreThanExecuted(orders))
      && (UnconfirmedCompletion in differences <==> ExecutedButNotEnded(orders))
      && (TerminalConflicts in differences <==> w.terminalConflicts != {})
      && (PositionMismatch in differences <==> observed != expected)
  {
    OrdersTell(orders);
  }

  lemma CheckedDifferences(w: Watch, orders: seq<Progress>, expected: real, now: real, settle: real)
    ensures var v, seen := Classify(w, orders, expected, now, settle), Observed(w);
      && v.differences == (if seen.None? then {} else Differences(w, orders, expected, seen.value))
      && (seen.Some? && v.differences == {} ==> v.watch.gap.None?)
  {
    assert Observed(ExpireIfDue(w, now)) == Observed(w);
  }

  /**
    A check reports each IBKR difference exactly when its evidence is there, and nothing
    without a position to go by; finding none, it closes an open gap.
   */
  lemma CheckReportsExactly(w: Watch, orders: seq<Progress>, expected: real, now: real, settle: real)
    ensures var v, seen := Classify(w, orders, expected, now, settle), SeenPosition(w);
      && (UnrecordedFills in v.differences <==> seen.Some? && ReportedMoreThanExecuted(orders))
      && (UnconfirmedCompletion in v.differences <==> seen.Some? && ExecutedButNotEnded(orders))
      && (TerminalConflicts in v.differences <==> seen.Some? && w.terminalConflicts != {})
      && (PositionMismatch in v.differences <==> seen.Some? && seen.value != expected)
      && (seen.Some? && v.differences == {} ==> v.watch.gap.None?)
  {
    WholeIsEveryPart(w);
    CheckedDifferences(w, orders, expected, now, settle);
    if SeenPosition(w).Some? {
      DifferencesAre(w, orders, expected, SeenPosition(w).value);
    }
  }

  /** A candidate other than the position is a difference, unless a whole refresh has shown the conflict again. */
  lemma CandidatesAre(w: Watch, orders: seq<Progress>, expected: real, observed: real, key: Key)
    requires key != PositionMismatch
    ensures key in Candidates(w, orders, expected, observed) <==>
      && key in Differences(w, orders, expected, observed)
      && (key == TerminalConflicts ==> w.refreshConflicts == {} || w.refreshing)
  {}

  lemma CheckedTolerance(w: Watch, orders: seq<Progress>, expected: real, now: real, settle: real)
    requires Shaped(w) && Observed(w).Some? && Differences(w, orders, expected, Observed(w).value) != {}
    ensures var candidates :=
        Candidates(Anchor(w, orders, expected, Observed(w).value), orders, expected, Observed(w).value);
      Classify(w, orders, expected, now, settle).tolerated ==
        if InGrace(w, now) && (w.gap.Some? || w.matched.Some?) then candidates else {}
  {
    assert Observed(ExpireIfDue(w, now)) == Observed(w);
  }

  /**
    A difference other than the position is tolerated exactly while a gap may be used over
    a baseline; a conflict that a whole refresh has shown again never is.
   */
  lemma OtherDifferencesAreTolerated(w: Watch, orders: seq<Progress>, expected: real, now: real, settle: real, key: Key)
    requires Shaped(w) && key != PositionMismatch
    ensures var v := Classify(w, orders, expected, now, settle);
      key in v.tolerated <==>
        && key in v.differences && InGrace(w, now)
        && (w.gap.Some? || w.matched.Some?)
        && (key == TerminalConflicts ==> w.refreshConflicts == {} || w.refreshing)
  {
    CheckedDifferences(w, orders, expected, now, settle);
    if Observed(w).Some? && Differences(w, orders, expected, Observed(w).value) != {} {
      CheckedTolerance(w, orders, expected, now, settle);
      CandidatesAre(Anchor(w, orders, expected, Observed(w).value), orders, expected, Observed(w).value, key);
    }
  }

  // --- how a gap begins ---------------------------------------------------

  /** A position between the baseline and the ledger, or above the ledger by no more than the known orders may add. */
  predicate Explained(baseline: real, orders: seq<Progress>, expected: real, seen: real) {
    || baseline <= seen < expected
    || (baseline <= expected < seen && seen <= expected + Capacity(orders))
  }

  lemma CandidatesFound(w: Watch, orders: seq<Progress>, expected: real, observed: real)
    requires w.matched.Some?
    ensures Candidates(w, orders, expected, observed) != {} <==>
      || ReportedMoreThanExecuted(orders) || ExecutedButNotEnded(orders)
      || (w.terminalConflicts != {} && (w.refreshConflicts == {} || w.refreshing))
      || Explained(w.matched.value, orders, expected, observed)
  {
    DifferencesAre(w, orders, expected, observed);
    CandidatesAre(w, orders, expected, observed, UnrecordedFills);
    CandidatesAre(w, orders, expected, observed, UnconfirmedCompletion);
    CandidatesAre(w, orders, expected, observed, TerminalConflicts);
    var candidates := Candidates(w, orders, expected, observed);
    assert PositionMismatch in candidates <==> Explained(w.matched.value, orders, expected, observed);
    if candidates != {} {
      var key :| key in candidates;
      assert key.PositionMismatch? || key.UnrecordedFills? || key.UnconfirmedCompletion? || key.TerminalConflicts?;
    }
  }

  /** A check moves the baseline to the ledger when both agree and no report is ahead of the executions. */
  lemma BaselineFollows(w: Watch, orders: seq<Progress>, expected: real, now: real, settle: real)
    ensures Classify(w, orders, expected, now, settle).watch.matched ==
      if w.matched.Some? && SeenPosition(w) == Some(expected) && !ReportedMoreThanExecuted(orders) then Some(expected)
      else w.matched
  {
    OrdersTell(orders);
    WholeIsEveryPart(w);
    assert Observed(ExpireIfDue(w, now)) == Observed(w);
  }

  lemma CheckedGap(w: Watch, orders: seq<Progress>, expected: real, now: real, settle: real)
    requires Shaped(w) && w.gap.None? && Observed(w).Some?
    ensures var seen := Observed(w).value;
      var candidates := Candidates(Anchor(w, orders, expected, seen), orders, expected, seen);
      var next := Classify(w, orders, expected, now, settle).watch;
      if w.matched.Some? && Differences(w, orders, expected, seen) != {} && candidates != {} then
        next.gap == Some(Gap(w.completedSerial)) && next.deadline == Some(now + settle) && !next.expired
      else next.gap.None?
  {}

  /**
    A check opens a gap exactly when, over a baseline, it finds fills or a completion not
    confirmed, a conflict no whole refresh has shown again, or an explained position. The
    gap then ends the settling time from now, and counts from the last whole read.
   */
  lemma GapOpensExactlyWhen(w: Watch, orders: seq<Progress>, expected: real, now: real, settle: real)
    requires Shaped(w) && w.gap.None?
    ensures var next := Classify(w, orders, expected, now, settle).watch;
      && (next.gap.Some? <==>
        && SeenPosition(w).Some? && w.matched.Some?
        && (|| ReportedMoreThanExecuted(orders) || ExecutedButNotEnded(orders)
            || (w.terminalConflicts != {} && (w.refreshConflicts == {} || w.refreshing))
            || Explained(w.matched.value, orders, expected, SeenPosition(w).value)))
      && (next.gap.Some? ==>
        && next.gap.value.refreshSerial == w.completedSerial
        && next.deadline == Some(now + settle) && !next.expired)
  {
    WholeIsEveryPart(w);
    if Observed(w).Some? {
      CheckedGap(w, orders, expected, now, settle);
      if w.matched.Some? {
        var seen := Observed(w).value;
        var anchored := Anchor(w, orders, expected, seen);
        CandidatesFound(anchored, orders, expected, seen);
        assert Explained(anchored.matched.value, orders, expected, seen)
          <==> Explained(w.matched.value, orders, expected, seen);
        DifferencesAre(w, orders, expected, seen);
      }
    }
  }

  // --- disputed orders ----------------------------------------------------

  /** The venue calls an order unfinished that the ledger keeps as ended. */
  predicate Disputes(e: Event, id: int) {
    e.StatusSeen? && e.orderId == id && e.effective.Some? && Ended(e.effective.value) && !Ended(e.status)
  }

  /** The venue calls the order ended too. */
  predicate Settles(e: Event, id: int) {
    e.StatusSeen? && e.orderId == id && Ended(e.status)
  }

  /** Whether an order is disputed after the events: the last word on it counts. */
  predicate LastWord(disputed: bool, events: seq<Event>, id: int) {
    if |events| == 0 then disputed
    else
      var e := events[|events| - 1];
      if Disputes(e, id) then true
      else if Settles(e, id) then false
      else LastWord(disputed, events[..|events| - 1], id)
  }

  /** A marker completes a refresh at this step of the run. */
  predicate Completes(w: Watch, e: Event, settle: real) {
    e.MarkerSeen? && w.refreshing && !After(w, e, settle).refreshing
  }

  /** No refresh completes along the run. */
  predicate NoneCompletes(w: Watch, events: seq<Event>, settle: real) {
    |events| == 0
    || (NoneCompletes(w, events[..|events| - 1], settle)
        && !Completes(Run(w, events[..|events| - 1], settle), events[|events| - 1], settle))
  }

  /** What no check changes. */
  predicate SameEvidence(w: Watch, next: Watch) {
    && next.terminalConflicts == w.terminalConflicts && next.refreshConflicts == w.refreshConflicts
    && next.refreshing == w.refreshing && next.complete == w.complete && next.positions == w.positions
    && next.callbackPositions == w.callbackPositions && (w.matched.None? ==> next.matched.None?)
  }

  lemma HeldKeepsEvidence(w: Watch, orders: seq<Progress>, expected: real, observed: real, candidates: set<Key>,
      now: real, settle: real)
    ensures SameEvidence(w, Open(Anchor(w, orders, expected, observed), candidates, now, settle))
    ensures SameEvidence(w, Finish(Anchor(w, orders, expected, observed)))
  {}

  lemma ClassifyKeepsEvidence(w: Watch, orders: seq<Progress>, expected: real, now: real, settle: real)
    ensures SameEvidence(w, Classify(w, orders, expected, now, settle).watch)
  {
    var due := ExpireIfDue(w, now);
    assert SameEvidence(w, due);
    if Observed(due).Some? {
      var observed := Observed(due).value;
      var anchored := Anchor(due, orders, expected, observed);
      HeldKeepsEvidence(due, orders, expected, observed, Candidates(anchored, orders, expected, observed), now, settle);
    }
  }

  lemma StepDisputes(w: Watch, e: Event, settle: real, id: int)
    requires !Completes(w, e, settle)
    ensures id in After(w, e, settle).terminalConflicts
      <==> Disputes(e, id) || (id in w.terminalConflicts && !Settles(e, id))
  {
    if e.Reconciled? {
      ClassifyKeepsEvidence(w, e.orders, e.expected, e.now, settle);
    }
  }

  /**
    Between two completed refreshes an order is in conflict exactly when the last status
    that disputes or settles it disputes it.
   */
  lemma {:induction false} ConflictIsTheLastWord(w: Watch, events: seq<Event>, settle: real, id: int)
    requires NoneCompletes(w, events, settle)
    ensures id in Run(w, events, settle).terminalConflicts <==> LastWord(id in w.terminalConflicts, events, id)
  {
    if |events| > 0 {
      var before := events[..|events| - 1];
      ConflictIsTheLastWord(w, before, settle, id);
      StepDisputes(Run(w, before, settle), events[|events| - 1], settle, id);
    }
  }

  /** The refresh under way at the start of the run stays under way. */
  predicate StaysRefreshing(w: Watch, events: seq<Event>, settle: real) {
    && Run(w, events, settle).refreshing
    && (|events| == 0 || StaysRefreshing(w, events[..|events| - 1], settle))
  }

  lemma {:induction false} StillRefreshing(w: Watch, events: seq<Event>, settle: real)
    requires StaysRefreshing(w, events, settle)
    ensures Run(w, events, settle).refreshing
  {}

  ghost predicate DisputedIn(events: seq<Event>, id: int) {
    exists e :: e in events && Disputes(e, id)
  }

  lemma StepCollects(w: Watch, e: Event, settle: real, id: int)
    requires w.refreshing && After(w, e, settle).refreshing
    ensures id in After(w, e, settle).refreshConflicts <==> id in w.refreshConflicts || Disputes(e, id)
  {
    if e.Reconciled? {
      ClassifyKeepsEvidence(w, e.orders, e.expected, e.now, settle);
    }
  }

  lemma {:induction false} RefreshCollects(w: Watch, events: seq<Event>, settle: real, id: int)
    requires StaysRefreshing(w, events, settle)
    ensures id in Run(w, events, settle).refreshConflicts <==> id in w.refreshConflicts || DisputedIn(events, id)
  {
    if |events| > 0 {
      var n := |events| - 1;
      StillRefreshing(w, events, settle);
      StillRefreshing(w, events[..n], settle);
      RefreshCollects(w, events[..n], settle, id);
      StepCollects(Run(w, events[..n], settle), events[n], settle, id);
      assert forall e :: e in events <==> e in events[..n] || e == events[n];
    }
  }

  /**
    A refresh that completes leaves in conflict exactly the orders disputed while it was
    under way, whatever was disputed before.
   */
  lemma CompletionKeepsFreshConflicts(w: Watch, events: seq<Event>, marker: Marker, settle: real, id: int)
    requires !w.refreshing && StaysRefreshing(BeginRefresh(w), events, settle)
    requires Completes(Run(BeginRefresh(w), events, settle), MarkerSeen(marker), settle)
    ensures var end := After(Run(BeginRefresh(w), events, settle), MarkerSeen(marker), settle);
      id in end.terminalConflicts <==> DisputedIn(events, id)
  {
    RefreshCollects(BeginRefresh(w), events, settle, id);
  }

  // --- a fresh snapshot ---------------------------------------------------

  /** A check that finds nothing amiss over a whole snapshot, here and elsewhere, and so gives a new baseline. */
  predicate CleanFullCheck(w: Watch, e: Event, settle: real) {
    e.Reconciled? && e.elsewhere && WholeSnapshot(w)
    && Classify(w, e.orders, e.expected, e.now, settle).differences == {}
  }

  /** The quantity on record for a contract. */
  function LookUp(positions: seq<Position>, contract: string): Option<real> {
    if |positions| == 0 then None
    else if positions[0].contract == contract then Some(positions[0].quantity)
    else LookUp(positions[1..], contract)
  }

  /** The last position reported for a contract. */
  function LastPosition(events: seq<Event>, contract: string): Option<real> {
    if |events| == 0 then None
    else
      var e := events[|events| - 1];
      if e.PositionSeen? && e.contract == contract then Some(e.quantity)
      else LastPosition(events[..|events| - 1], contract)
  }

  lemma {:induction false} UpsertLooksUp(positions: seq<Position>, contract: string, quantity: real, other: string)
    ensures LookUp(Upsert(positions, contract, quantity), other)
      == if other == contract then Some(quantity) else LookUp(positions, other)
  {
    if |positions| > 0 && positions[0].contract != contract {
      UpsertLooksUp(positions[1..], contract, quantity, other);
      assert Upsert(positions, contract, quantity)[1..] == Upsert(positions[1..], contract, quantity);
    } else if |positions| > 0 {
      assert Upsert(positions, contract, quantity)[1..] == positions[1..];
    }
  }

  lemma StepReads(w: Watch, e: Event, settle: real, contract: string)
    requires w.refreshing && After(w, e, settle).refreshing
    ensures LookUp(After(w, e, settle).positions, contract)
      == if e.PositionSeen? && e.contract == contract then Some(e.quantity) else LookUp(w.positions, contract)
    ensures After(w, e, settle).refreshSerial == w.refreshSerial
  {
    match e
    case PositionSeen(c, quantity) => UpsertLooksUp(w.positions, c, quantity, contract);
    case Reconciled(orders, expected, now, _) =>
      ClassifyKeepsEvidence(w, orders, expected, now, settle);
      ClassifyKeepsSerial(w, orders, expected, now, settle);
    case _ =>
  }

  lemma ClassifyKeepsSerial(w: Watch, orders: seq<Progress>, expected: real, now: real, settle: real)
    ensures Classify(w, orders, expected, now, settle).watch.refreshSerial == w.refreshSerial
  {}

  /** While a refresh is under way it holds the positions reported since it began, each the last one, and no other. */
  lemma {:induction false} RefreshReadsAnew(w: Watch, events: seq<Event>, settle: real, contract: string)
    requires !w.refreshing && StaysRefreshing(BeginRefresh(w), events, settle)
    ensures LookUp(Run(BeginRefresh(w), events, settle).positions, contract) == LastPosition(events, contract)
    ensures Run(BeginRefresh(w), events, settle).refreshSerial == w.refreshSerial + 1
  {
    if |events| > 0 {
      var n := |events| - 1;
      StillRefreshing(BeginRefresh(w), events[..n], settle);
      RefreshReadsAnew(w, events[..n], settle, contract);
      StepReads(Run(BeginRefresh(w), events[..n], settle), events[n], settle, contract);
    }
  }

  /**
    When the positions of a refresh have ended, the live callbacks go on from them: what a
    contract held before and is not reported again is gone.
   */
  lemma PositionEndReplacesCallbacks(w: Watch, events: seq<Event>, settle: real, contract: string)
    requires !w.refreshing && StaysRefreshing(BeginRefresh(w), events, settle)
    requires Run(BeginRefresh(w), events, settle).callbackPositions.Some?
    ensures var end := After(Run(BeginRefresh(w), events, settle), MarkerSeen(PositionEnd), settle);
      end.callbackPositions.Some? && LookUp(end.callbackPositions.value, contract) == LastPosition(events, contract)
  {
    RefreshReadsAnew(w, events, settle, contract);
  }

  /** A gap counts from a read that had completed, and reads complete in the order they begin. */
  predicate Counted(w: Watch) {
    w.completedSerial <= w.refreshSerial && (w.gap.Some? ==> w.gap.value.refreshSerial <= w.completedSerial)
  }

  /** Once a whole read begun after a gap opened has completed, that gap tolerates nothing more. */
  lemma SecondReadEndsGrace(w: Watch, events: seq<Event>, marker: Marker, orders: seq<Progress>, expected: real,
      now: real, settle: real)
    requires Counted(w) && !w.refreshing && w.gap.Some? && StaysRefreshing(BeginRefresh(w), events, settle)
    requires Completes(Run(BeginRefresh(w), events, settle), MarkerSeen(marker), settle)
    ensures var end := After(Run(BeginRefresh(w), events, settle), MarkerSeen(marker), settle);
      end.gap == w.gap ==> Classify(end, orders, expected, now, settle).tolerated == {}
  {
    RefreshReadsAnew(w, events, settle, "");
    var end := After(Run(BeginRefresh(w), events, settle), MarkerSeen(marker), settle);
    if end.gap == w.gap {
      LateReadToleratesNothing(end, orders, expected, now, settle);
    }
  }

  lemma LateReadToleratesNothing(w: Watch, orders: seq<Progress>, expected: real, now: real, settle: real)
    requires w.gap.Some? && w.completedSerial > w.gap.value.refreshSerial
    ensures Classify(w, orders, expected, now, settle).tolerated == {}
  {}

  /** A clean check over a whole snapshot makes its positions the baseline. */
  lemma CleanCheckRebases(w: Watch, e: Event, settle: real)
    requires CleanFullCheck(w, e, settle)
    ensures After(w, e, settle).matched == Some(e.expected)
    ensures After(w, e, settle).callbackPositions == Some(w.positions)
  {
    ClassifyKeepsEvidence(w, e.orders, e.expected, e.now, settle);
    WholeIsEveryPart(Classify(w, e.orders, e.expected, e.now, settle).watch);
  }

  // --- a lost connection --------------------------------------------------

  predicate NoneIsClean(w: Watch, events: seq<Event>, settle: real) {
    |events| == 0
    || (NoneIsClean(w, events[..|events| - 1], settle)
        && !CleanFullCheck(Run(w, events[..|events| - 1], settle), events[|events| - 1], settle))
  }

  lemma BaselineStaysLost(w: Watch, e: Event, settle: real)
    requires w.matched.None? && w.callbackPositions.None? && !CleanFullCheck(w, e, settle)
    ensures After(w, e, settle).matched.None? && After(w, e, settle).callbackPositions.None?
    ensures w.gap.None? ==> After(w, e, settle).gap.None?
  {
    if e.Reconciled? {
      ClassifyKeepsEvidence(w, e.orders, e.expected, e.now, settle);
      WholeIsEveryPart(w);
      WholeIsEveryPart(Classify(w, e.orders, e.expected, e.now, settle).watch);
    }
  }

  lemma {:induction false} LostUntilCleanCheck(w: Watch, events: seq<Event>, settle: real)
    requires NoneIsClean(OnDisconnect(w), events, settle)
    ensures var end := Run(OnDisconnect(w), events, settle);
      && end.matched.None? && end.callbackPositions.None?
      && (w.gap.None? ==> end.gap.None?)
  {
    if |events| > 0 {
      var before := events[..|events| - 1];
      LostUntilCleanCheck(w, before, settle);
      BaselineStaysLost(Run(OnDisconnect(w), before, settle), events[|events| - 1], settle);
    }
  }

  /**
    After a lost connection, until a whole snapshot has been checked clean, no position but
    that of a whole snapshot is gone by, no mismatch is tolerated, and no gap opens.
   */
  lemma NothingToleratedAfterDisconnect(w: Watch, events: seq<Event>, orders: seq<Progress>, expected: real, now: real,
      settle: real)
    requires NoneIsClean(OnDisconnect(w), events, settle)
    ensures var lost := Run(OnDisconnect(w), events, settle);
      var v := Classify(lost, orders, expected, now, settle);
      && (SeenPosition(lost).Some? <==> WholeSnapshot(lost))
      && PositionMismatch !in v.tolerated
      && (w.gap.None? ==> v.watch.gap.None? && v.tolerated == {})
  {
    LostUntilCleanCheck(w, events, settle);
    var lost := Run(OnDisconnect(w), events, settle);
    WholeIsEveryPart(lost);
  }

  lemma PartStaysMissing(w: Watch, e: Event, settle: real, marker: Marker)
    requires marker !in w.complete && e != MarkerSeen(marker)
    ensures marker !in After(w, e, settle).complete
  {
    if e.Reconciled? {
      ClassifyKeepsEvidence(w, e.orders, e.expected, e.now, settle);
    }
  }

  /** A snapshot is whole again only after each of its four parts has ended anew. */
  lemma {:induction false} SnapshotIsReadAnew(w: Watch, events: seq<Event>, settle: real, marker: Marker)
    requires MarkerSeen(marker) !in events
    ensures marker !in Run(OnDisconnect(w), events, settle).complete
    ensures !WholeSnapshot(Run(OnDisconnect(w), events, settle))
  {
    if |events| > 0 {
      var before := events[..|events| - 1];
      assert forall e :: e in before ==> e in events;
      assert events[|events| - 1] in events;
      SnapshotIsReadAnew(w, before, settle, marker);
      PartStaysMissing(Run(OnDisconnect(w), before, settle), events[|events| - 1], settle, marker);
    }
  }
}

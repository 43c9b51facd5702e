/**
  The in-memory batch machine: a transition table, and fills that create hedge
  obligations; a twin of what the ledger does with the same fill reports.
 */
module BatchMachine {
  import opened Results
  import opened Rounding
  import opened LedgerModel
  import opened LedgerSteps
  import LedgerInvariants
  import opened Settlement
  import opened ThreeState

  datatype State =
    Idle | QualifiedState | Submitted | Partial | Cancelling | HedgePending | PartlyHedged | FullyHedged |
    Completed | Recovery
    | Halted | HaltedManual

  function Allowed(s: State): set<State> {
    match s
    case Idle => {QualifiedState, Recovery, Halted}
    case QualifiedState => {Submitted, Idle, Halted}
    case Submitted => {Partial, Cancelling, Completed, Recovery, Halted}
    case Partial => {Cancelling, HedgePending, PartlyHedged, FullyHedged, Recovery, HaltedManual}
    case Cancelling => {Partial, HedgePending, FullyHedged, Completed, Recovery, HaltedManual}
    case HedgePending => {PartlyHedged, FullyHedged, Recovery, HaltedManual}
    case PartlyHedged => {HedgePending, FullyHedged, HaltedManual}
    case FullyHedged => {Partial, Completed, Recovery}
    case Completed => {Idle, Recovery}
    case Recovery => {Idle, Submitted, FullyHedged, HaltedManual}
    case Halted => {Recovery}
    case HaltedManual => {Recovery}
  }

  datatype Due = Due(execId: string, leg: Leg, shares: real)

  datatype Transition = Transition(before: State, after: State, reason: string)

  /** One machine; `effr` and `cal` never change. */
  datatype Machine = Machine(
    effr: real, cal: MeetingCalendar, quantity: int, state: State, filled: real, seen: set<string>,
        obligations: seq<Due>,
    history: seq<Transition>)

  function Moved(m: Machine, next: State, reason: string): Machine {
    m.(state := next, history := m.history + [Transition(m.state, next, reason)])
  }

  function DuesOf(m: Machine, execId: string, delta: real): seq<Due> {
    var ratios := OwnRatios(m.effr, m.cal);
    [Due(execId, Inc25, IncrementalHedgeShares(ratios.r25, m.filled, delta)),
     Due(execId, Inc50Plus, IncrementalHedgeShares(ratios.r50, m.filled, delta))]
  }

  /** The machine after one fill report: None when it raises. */
  function Filled(m: Machine, execId: string, delta: real): Option<Machine> {
    if delta <= 0.0 then None
    else if execId in m.seen then Some(m)
    else if m.filled + delta > m.quantity as real then None
    else
      var counted := m.(filled := m.filled + delta, seen := m.seen + {execId},
          obligations := m.obligations + DuesOf(m, execId, delta));
      Some(if m.state.Submitted? then Moved(counted, Partial, "execution " + execId) else counted)
  }

  class BatchMachine {
    const effr: real
    const cal: MeetingCalendar
    const quantity: int
    var state: State
    var filled: real
    var seen: set<string>
    var obligations: seq<Due>
    var history: seq<Transition>

    ghost function View(): Machine
      reads this
    {
      Machine(effr, cal, quantity, state, filled, seen, obligations, history)
    }

    constructor (effr: real, cal: MeetingCalendar, quantity: int)
      ensures View() == Machine(effr, cal, quantity, Idle, 0.0, {}, [], [])
    {
      this.effr, this.cal, this.quantity := effr, cal, quantity;
      state, filled, seen, obligations, history := Idle, 0.0, {}, [], [];
    }

    method Transit(next: State, reason: string) returns (ok: bool)
      modifies this`state, this`history
      ensures ok <==> next in Allowed(old(state))
      ensures View() == if ok then Moved(old(View()), next, reason) else old(View())
    {
      if next !in Allowed(state) {
        return false;
      }
      history := history + [Transition(state, next, reason)];
      state := next;
      ok := true;
    }

    method RecordZqExecution(execId: string, delta: real) returns (r: Result<seq<Due>>)
      modifies this
      ensures r.Err? <==> Filled(old(View()), execId, delta).None?
      ensures r.Err? ==> View() == old(View())
      ensures r.Ok? ==> Some(View()) == Filled(old(View()), execId, delta)
      ensures r.Ok? ==> r.value == if execId in old(seen) then [] else DuesOf(old(View()), execId, delta)
    {
      if delta <= 0.0 {
        return Err("fill delta must be positive");
      }
      if execId in seen {
        return Ok([]);
      }
      if filled + delta > quantity as real {
        return Err("execution would exceed original ZQ quantity");
      }
      seen := seen + {execId};
      filled := filled + delta;
      if state.Submitted? {
        var moved := Transit(Partial, "execution " + execId);
      }
      var due25 := IncrementalHedgeShares(HedgeSharesPerContract(25, effr, cal), filled - delta, delta);
      var due50 := IncrementalHedgeShares(HedgeSharesPerContract(50, effr, cal), filled - delta, delta);
      var dues := [Due(execId, Inc25, due25), Due(execId, Inc50Plus, due50)];
      obligations := obligations + dues;
      r := Ok(dues);
    }
  }

  // --- every run ----------------------------------------------------------

  datatype Call = Transits(next: State, reason: string) | Fills(execId: string, delta: real)

  /** A call that raises leaves the machine as it was. */
  function After(m: Machine, c: Call): Machine {
    match c
    case Transits(next, reason) => if next in Allowed(m.state) then Moved(m, next, reason) else m
    case Fills(execId, delta) => if Filled(m, execId, delta).Some? then Filled(m, execId, delta).value else m
  }

  function Run(m: Machine, calls: seq<Call>): Machine {
    if |calls| == 0 then m else After(Run(m, calls[..|calls| - 1]), calls[|calls| - 1])
  }

  function DueOnLeg(obligations: seq<Due>, leg: Leg): real {
    if |obligations| == 0 then 0.0
    else
      var last := obligations[|obligations| - 1];
      DueOnLeg(obligations[..|obligations| - 1], leg) + (if last.leg == leg then last.shares else 0.0)
  }

  function RatioOf(m: Machine, leg: Leg): real {
    HedgeSharesPerContract(if leg.Inc25? then 25 else 50, m.effr, m.cal)
  }

  /** The history is a path of allowed transitions from idle to the current state. */
  ghost predicate Path(m: Machine) {
    && (|m.history| == 0 ==> m.state == Idle)
    && (|m.history| > 0 ==> m.history[0].before == Idle && m.history[|m.history| - 1].after == m.state)
    && (forall i :: 0 <= i < |m.history| ==> m.history[i].after in Allowed(m.history[i].before))
    && (forall i :: 0 < i < |m.history| ==> m.history[i].before == m.history[i - 1].after)
  }

  ghost predicate Sized(m: Machine) {
    && 0.0 <= m.filled && (m.filled > 0.0 ==> m.filled <= m.quantity as real)
    && (forall leg :: DueOnLeg(m.obligations, leg) == SharesFor(RatioOf(m, leg), m.filled))
  }

  lemma DueOnLegAppend(obligations: seq<Due>, a: Due, b: Due, leg: Leg)
    ensures DueOnLeg(obligations + [a, b], leg)
      == DueOnLeg(obligations, leg) + (if a.leg == leg then a.shares else 0.0)
        + (if b.leg == leg then b.shares else 0.0)
  {
    assert (obligations + [a, b])[..|obligations| + 1] == obligations + [a];
    assert (obligations + [a])[..|obligations|] == obligations;
  }

  lemma FillKeepsSized(m: Machine, execId: string, delta: real)
    requires Sized(m)
    ensures Sized(After(m, Fills(execId, delta)))
  {
    var next := After(m, Fills(execId, delta));
    if next != m {
      var dues := DuesOf(m, execId, delta);
      forall leg ensures DueOnLeg(next.obligations, leg) == SharesFor(RatioOf(m, leg), next.filled) {
        DueOnLegAppend(m.obligations, dues[0], dues[1], leg);
      }
    }
  }

  lemma CallKeepsPath(m: Machine, c: Call)
    requires Path(m)
    ensures Path(After(m, c))
  {
    var next := After(m, c);
    if next.history != m.history {
      assert next.history[..|m.history|] == m.history;
    }
  }

  lemma CallKeepsSized(m: Machine, c: Call)
    requires Sized(m)
    ensures Sized(After(m, c))
  {
    if c.Fills? {
      FillKeepsSized(m, c.execId, c.delta);
    }
  }

  lemma {:induction false} RunKeepsMachine(effr: real, cal: MeetingCalendar, quantity: int, calls: seq<Call>)
    ensures var m := Run(Machine(effr, cal, quantity, Idle, 0.0, {}, [], []), calls);
      Path(m) && Sized(m) && m.effr == effr && m.cal == cal && m.quantity == quantity
  {
    var start := Machine(effr, cal, quantity, Idle, 0.0, {}, [], []);
    if |calls| == 0 {
      SharesForNothing(HedgeSharesPerContract(25, effr, cal));
      SharesForNothing(HedgeSharesPerContract(50, effr, cal));
    } else {
      var before, c := calls[..|calls| - 1], calls[|calls| - 1];
      RunKeepsMachine(effr, cal, quantity, before);
      CallKeepsPath(Run(start, before), c);
      CallKeepsSized(Run(start, before), c);
    }
  }

  /**
    Over every run, with duplicate, refused and late reports: the dues of each leg add up
    to the whole hedge of the filled quantity rounded up once, so all fills together
    over-round by less than a hundredth of a share.
   */
  lemma {:induction false} MachineDuesTelescope(effr: real, cal: MeetingCalendar, quantity: int, calls: seq<Call>,
      leg: Leg)
    ensures var m := Run(Machine(effr, cal, quantity, Idle, 0.0, {}, [], []), calls);
      RoundsOnce(DueOnLeg(m.obligations, leg), RatioOf(m, leg), m.filled)
  {
    RunKeepsMachine(effr, cal, quantity, calls);
    var m := Run(Machine(effr, cal, quantity, Idle, 0.0, {}, [], []), calls);
    SharesForRoundsOnce(RatioOf(m, leg), m.filled);
  }

  /** A new fill that fits is counted once, and moves a submitted batch to PARTIAL and no other batch anywhere. */
  lemma FillIsCountedExactlyWhen(m: Machine, execId: string, delta: real)
    ensures var next := After(m, Fills(execId, delta));
      if delta > 0.0 && execId !in m.seen && delta <= m.quantity as real - m.filled then
        && next.filled == m.filled + delta && next.seen == m.seen + {execId}
        && |next.obligations| == |m.obligations| + 2 && m.obligations <= next.obligations
        && next.state == (if m.state == Submitted then Partial else m.state)
        && |next.history| == |m.history| + (if m.state == Submitted then 1 else 0)
      else next == m
  {}

  /**
    Over every run: a batch completes only from a submission, a cancellation or a full hedge,
    is idle again only before submission, after completion or from recovery, and leaves a
    halt only to recovery.
   */
  lemma HistoryIsOrderly(effr: real, cal: MeetingCalendar, quantity: int, calls: seq<Call>, i: nat)
    requires i < |Run(Machine(effr, cal, quantity, Idle, 0.0, {}, [], []), calls).history|
    ensures var t := Run(Machine(effr, cal, quantity, Idle, 0.0, {}, [], []), calls).history[i];
      && (t.after == Completed ==> t.before == Submitted || t.before == Cancelling || t.before == FullyHedged)
      && (t.after == Idle ==> t.before == QualifiedState || t.before == Completed || t.before == Recovery)
      && (t.before == Halted || t.before == HaltedManual ==> t.after == Recovery)
      && (t.after == Submitted ==> t.before == QualifiedState || t.before == Recovery)
  {
    RunKeepsMachine(effr, cal, quantity, calls);
    var m := Run(Machine(effr, cal, quantity, Idle, 0.0, {}, [], []), calls);
    assert m.history[i].after in Allowed(m.history[i].before);
  }

  // --- the twin -----------------------------------------------------------

  /** The ledger has recorded execution `id` of this batch. */
  ghost predicate HasFill(zqExecs: seq<ZqExecution>, batch: string, id: string) {
    exists i :: 0 <= i < |zqExecs| && zqExecs[i].batch == batch && zqExecs[i].execId == id
  }

  function BatchOf(db: Db, orderId: int): string
    requires FindZqOrder(db.zqOrders, orderId).Some?
  {
    db.zqOrders[FindZqOrder(db.zqOrders, orderId).value].batch
  }

  /** The machine and one batch of the ledger have seen the same fills; other batches may have their own. */
  ghost predicate Twins(m: Machine, db: Db, orderId: int, first: string, second: string) {
    && FindZqOrder(db.zqOrders, orderId).Some?
    && FindBatch(db.batches, BatchOf(db, orderId)).Some?
    && var b := db.batches[FindBatch(db.batches, BatchOf(db, orderId)).value];
    && b.filled == m.filled && b.quantity == m.quantity
    && b.ratios == Some(Ratios(first, OwnRatios(m.effr, m.cal).r25, second, OwnRatios(m.effr, m.cal).r50))
    && (forall id :: id in m.seen <==> HasFill(db.zqExecs, BatchOf(db, orderId), id))
  }

  /**
    On every positive fill report whose execution id no other batch used, the machine and
    the ledger agree: both refuse it, both ignore it, or both create the same dues.
   */
  lemma TwinsAgree(m: Machine, db: Db, orderId: int, first: string, second: string, execId: string, delta: real,
      legacy: TokenShares)
    requires Twins(m, db, orderId, first, second) && delta > 0.0
    requires HasZqExecution(db.zqExecs, execId) ==> HasFill(db.zqExecs, BatchOf(db, orderId), execId)
    ensures var o, f := RecordZqFill(db, orderId, execId, delta, legacy), Filled(m, execId, delta);
      && (o.Raised? <==> f.None?)
      && (o.Done? ==>
            && Twins(f.value, o.db, orderId, first, second)
            && (if execId in m.seen then o.value == [] && f.value == m
                else
                  |o.value| == 2 && o.value[0].due == DuesOf(m, execId, delta)[0].shares
                    && o.value[1].due == DuesOf(m, execId, delta)[1].shares))
  {
    var o, f := RecordZqFill(db, orderId, execId, delta, legacy), Filled(m, execId, delta);
    FillIsExecution(db.zqExecs, BatchOf(db, orderId), execId);
    if o.Done? && execId !in m.seen {
      var batch := BatchOf(db, orderId);
      LedgerInvariants.SameKeysFindBatch(db.batches, o.db.batches, batch);
      forall id ensures id in f.value.seen <==> HasFill(o.db.zqExecs, batch, id) {
        SeenOneMore(db.zqExecs, o.db.zqExecs[|db.zqExecs|], batch, id);
      }
    }
  }

  lemma FillIsExecution(zqExecs: seq<ZqExecution>, batch: string, id: string)
    ensures HasFill(zqExecs, batch, id) ==> HasZqExecution(zqExecs, id)
  {}

  lemma SeenOneMore(zqExecs: seq<ZqExecution>, e: ZqExecution, batch: string, id: string)
    ensures HasFill(zqExecs + [e], batch, id) <==> HasFill(zqExecs, batch, id) || (e.batch == batch && e.execId == id)
  {
    assert (zqExecs + [e])[|zqExecs|] == e;
    if i :| 0 <= i < |zqExecs| && zqExecs[i].batch == batch && zqExecs[i].execId == id {
      assert (zqExecs + [e])[i].execId == id;
    }
  }
}

/**
  The entry gate and the race of callbacks as one machine. Entry is authorised without
  the coordinator lock, so between a callback's arrival and its check there are moments
  in which the evidence has moved and no gap is open yet. A callback takes the lock,
  moves the venue revision, publishes that nothing is reconciled, and only then takes
  effect; a reconciliation takes the lock, classifies, announces and records.
 */
module RaceGate {
  import opened Results
  import opened CallbackGap
  import opened GapTheorems
  import G = EntryGate
  import H = HonestRace

  /** The IBKR handler that holds the lock, between its awaits. */
  datatype Handler = Free | Received(what: H.Happening) | Invalidated(what: H.Happening)

  /** `verdict`: the reconciliation under way found a complete read without differences. */
  datatype Engine = Engine(gate: G.Gate, race: H.Race, handler: Handler, verdict: bool)

  datatype Move =
    | Receives(what: H.Happening)
    | Refreshes                       // a fresh account read is asked for
    | Invalidates
    | TakesEffect
    | GivesUp                         // the handler ignores its callback or fails
    | Marks(marker: Marker)
    | Happens(what: H.Happening)      // the venue fills or ends an order
    | Classifies(now: real)
    | WatchdogFires                   // the gap's deadline passed
    | RecordsIntent(batch: string, orderId: int, quantity: real)
    | Finalises(index: nat)           // the submitter's last check, and the send of its order
    | Submits(index: nat)             // the sent order is marked in the ledger
    | MarkingFails
    | Abandons(index: nat)
    | Other(step: G.Step)             // any other step of the gate

  predicate LockFree(e: Engine) {
    e.handler.Free? && e.gate.reconciler.Resting?
  }

  predicate VenueEvidence(h: H.Happening) {
    h.PositionCallback? || h.ExecutionCallback? || h.StatusCallback? || h.Disconnects?
  }

  predicate WritesLedger(h: H.Happening) {
    h.ExecutionCallback? || h.StatusCallback?
  }

  /** The gate's flags show the watch. */
  function Mirrored(blocks: G.Blocks, w: Watch): G.Blocks {
    blocks.(gapOpen := w.gap.Some?, refreshing := w.refreshing)
  }

  predicate PossibleOther(e: Engine, step: G.Step) {
    && G.Enabled(e.gate, step)
    && !step.IbkrEvidence? && !step.RecordsIntent? && !step.Finalises? && !step.Abandons?
    && (step.ReconcileBegins? ==> e.handler.Free? && e.race.marking.None?)
    && (step.ReconcileJudges? && step.clean ==> e.verdict)
    && (step.SetsBlocks? ==> step.blocks == Mirrored(step.blocks, e.race.watch))
  }

  /**
    A disconnect takes effect at once; every other callback is first published as
    unreconciled. A reconciliation asks for the ledger first, so it never begins while a
    marking waits.
   */
  predicate Possible(e: Engine, m: Move) {
    match m
    case Receives(what) => LockFree(e) && VenueEvidence(what)
    case Refreshes => LockFree(e) && !e.race.watch.refreshing
    case Invalidates => e.handler.Received?
    case TakesEffect =>
      && !e.handler.Free? && e.gate.reconciler.Resting? && H.Possible(e.race, e.handler.what)
      && (e.handler.Received? ==> e.handler.what.Disconnects?)
    case GivesUp => !e.handler.Free?
    case Marks(_) => LockFree(e) && H.Possible(e.race, H.EndMarker(m.marker))
    case Happens(what) => (what.VenueFills? || what.VenueEnds?) && H.Possible(e.race, what)
    case Classifies(now) => e.gate.reconciler.Reading? && H.Possible(e.race, H.Check(now, false))
    case WatchdogFires => LockFree(e) && H.Possible(e.race, H.WatchdogFires)
    case RecordsIntent(batch, orderId, quantity) =>
      G.Enabled(e.gate, G.RecordsIntent(batch)) && H.Possible(e.race, H.Intends(orderId, quantity))
    case Finalises(index) =>
      && G.Enabled(e.gate, G.Finalises)
      && (G.Sends(e.gate, G.Finalises) ==> H.Possible(e.race, H.Sends(index)))
    case MarkingFails => H.Possible(e.race, H.MarkingFails)
    case Submits(index) => e.gate.reconciler.Resting? && H.Possible(e.race, H.Submits(index))
    case Abandons(index) => G.Enabled(e.gate, G.Abandons) && H.Possible(e.race, H.Abandons(index))
    case Other(step) => PossibleOther(e, step)
  }

  /** Where the move touches the race, the venue is honest. */
  predicate Honest(s: H.Setting, e: Engine, m: Move)
    requires Possible(e, m)
  {
    match m
    case TakesEffect => H.Honest(s, e.race, e.handler.what)
    case Marks(marker) => H.Honest(s, e.race, H.EndMarker(marker))
    case Happens(what) => H.Honest(s, e.race, what)
    case _ => true
  }

  function RaceNext(s: H.Setting, e: Engine, m: Move): H.Race
    requires Possible(e, m)
  {
    match m
    case TakesEffect => H.Next(s, e.race, e.handler.what)
    case Marks(marker) => H.Next(s, e.race, H.EndMarker(marker))
    case Happens(what) => H.Next(s, e.race, what)
    case Classifies(now) => H.Next(s, e.race, H.Check(now, false))
    case RecordsIntent(_, orderId, quantity) => H.Next(s, e.race, H.Intends(orderId, quantity))
    case WatchdogFires => H.Next(s, e.race, H.WatchdogFires)
    case Finalises(index) => if G.Sends(e.gate, G.Finalises) then H.Next(s, e.race, H.Sends(index)) else e.race
    case Submits(index) => H.Next(s, e.race, H.Submits(index))
    case MarkingFails => H.Next(s, e.race, H.MarkingFails)
    case Abandons(index) => H.Next(s, e.race, H.Abandons(index))
    case Other(step) =>
      if G.JudgesNow(e.gate, step) then e.race.(watch := OnClean(e.race.watch, H.Expected(s, e.race.orders)))
        else e.race
    case _ => e.race
  }

  /** Every move is one step of the gate; most only refresh its flags. */
  function GateStep(s: H.Setting, e: Engine, m: Move): (step: G.Step)
    requires Possible(e, m)
    ensures G.Enabled(e.gate, step)
  {
    match m
    case Receives(_) => G.IbkrEvidence
    case Refreshes => G.Publishes(e.gate.published.(clean := false))
    case Invalidates => G.Publishes(e.gate.published.(clean := false))
    case TakesEffect =>
      if WritesLedger(e.handler.what) then G.Commits("IBKR callback")
      else G.SetsBlocks(Mirrored(e.gate.blocks, RaceNext(s, e, m).watch))
    case RecordsIntent(batch, _, _) => G.RecordsIntent(batch)
    case Finalises(_) => G.Finalises
    case Submits(_) => G.Commits("order submitted")
    case Abandons(_) => G.Abandons
    case Other(step) => step
    case _ => G.SetsBlocks(Mirrored(e.gate.blocks, RaceNext(s, e, m).watch))
  }

  function HandlerNext(e: Engine, m: Move): Handler
    requires Possible(e, m)
  {
    match m
    case Receives(what) => Received(what)
    case Refreshes => Invalidated(H.RefreshBegins)
    case Invalidates => Invalidated(e.handler.what)
    case TakesEffect => Free
    case GivesUp => Free
    case _ => e.handler
  }

  function VerdictNext(s: H.Setting, e: Engine, m: Move): bool
    requires Possible(e, m)
  {
    match m
    case Classifies(now) => AllComplete(e.race.watch) && H.VerdictAt(s, e.race, now).differences == {}
    case Other(ReconcileBegins) => false
    case _ => e.verdict
  }

  function Next(s: H.Setting, e: Engine, m: Move): Engine
    requires Possible(e, m)
  {
    Engine(G.Next(e.gate, GateStep(s, e, m)), RaceNext(s, e, m), HandlerNext(e, m), VerdictNext(s, e, m))
  }

  // --- any venue ----------------------------------------------------------

  /** The positions read since the last refresh add up to the ledger, and no order reports more than it executed. */
  predicate PositionsAgree(s: H.Setting, r: H.Race) {
    SumPositions(r.watch.positions) == H.Expected(s, r.orders) && !AnyOutstanding(r.orders)
  }

  predicate Locked(e: Engine) {
    OneHolder(e) && e.gate.blocks == Mirrored(e.gate.blocks, e.race.watch)
  }

  /** Handler and reconciliation share the lock; no callback that waits behind a marking is seen while one reads. */
  predicate OneHolder(e: Engine) {
    && |e.race.truths| == |e.race.orders|
    && (!e.handler.Free? ==> e.gate.reconciler.Resting?)
    && (e.race.lagging ==> e.race.marking.Some?)
    && (e.gate.reconciler.Reading? ==> !e.race.lagging)
  }

  predicate VerdictHolds(s: H.Setting, e: Engine) {
    !e.gate.reconciler.Resting? && e.verdict ==> AllComplete(e.race.watch) && PositionsAgree(s, e.race)
  }

  /** Published as reconciled by the venues' evidence, not by an operator's attestation. */
  predicate PublishedClean(g: G.Gate) {
    g.published.clean && !g.published.attested
  }

  predicate PublishedHolds(s: H.Setting, e: Engine) {
    && (PublishedClean(e.gate) ==> PositionsAgree(s, e.race))
    && (e.handler.Invalidated? ==> !PublishedClean(e.gate))
  }

  /** Only the handler makes the race lag, and only behind a marking. */
  lemma RaceStepLags(s: H.Setting, r: H.Race, h: H.Happening)
    requires H.Possible(r, h) && (r.lagging ==> r.marking.Some?)
    ensures var next := H.Next(s, r, h);
      && |next.truths| == |next.orders| && (next.lagging ==> next.marking.Some?)
      && (VenueEvidence(h) || h.RefreshBegins? || h.EndMarker? || !next.lagging || r.lagging)
  {}

  lemma MoveLags(s: H.Setting, e: Engine, m: Move)
    requires |e.race.truths| == |e.race.orders| && (e.race.lagging ==> e.race.marking.Some?) && Possible(e, m)
    ensures var next := RaceNext(s, e, m);
      && |next.truths| == |next.orders| && (next.lagging ==> next.marking.Some?)
      && (m.TakesEffect? || m.Marks? || !next.lagging || e.race.lagging)
  {
    match m
    case TakesEffect => RaceStepLags(s, e.race, e.handler.what);
    case Marks(marker) => RaceStepLags(s, e.race, H.EndMarker(marker));
    case Happens(what) => RaceStepLags(s, e.race, what);
    case Classifies(now) => RaceStepLags(s, e.race, H.Check(now, false));
    case WatchdogFires => RaceStepLags(s, e.race, H.WatchdogFires);
    case RecordsIntent(_, orderId, quantity) => RaceStepLags(s, e.race, H.Intends(orderId, quantity));
    case Finalises(index) => if G.Sends(e.gate, G.Finalises) { RaceStepLags(s, e.race, H.Sends(index)); }
    case Submits(index) => RaceStepLags(s, e.race, H.Submits(index));
    case MarkingFails => RaceStepLags(s, e.race, H.MarkingFails);
    case Abandons(index) => RaceStepLags(s, e.race, H.Abandons(index));
    case _ =>
  }

  lemma MoveKeepsLock(s: H.Setting, e: Engine, m: Move)
    requires !e.handler.Free? ==> e.gate.reconciler.Resting?
    requires Possible(e, m)
    ensures var next := Next(s, e, m);
      && (!next.handler.Free? ==> next.gate.reconciler.Resting?)
      && (next.gate.reconciler.Reading? ==>
            !m.TakesEffect? && !m.Marks? && (e.gate.reconciler.Reading? || e.race.marking.None?))
  {}

  lemma StepKeepsHolder(s: H.Setting, e: Engine, m: Move)
    requires OneHolder(e) && Possible(e, m)
    ensures OneHolder(Next(s, e, m))
  {
    MoveLags(s, e, m);
    MoveKeepsLock(s, e, m);
  }

  /** A reconciliation that reads is never kept from classifying. */
  lemma ReadingMayClassify(s: H.Setting, states: seq<Engine>, moves: seq<Move>, i: nat, now: real)
    requires EngineRun(s, states, moves) && i < |states| && states[i].gate.reconciler.Reading?
    ensures Possible(states[i], Classifies(now))
  {
    RunKeepsPublished(s, states, moves, i);
  }

  /** A gate step touches the flags only when it sets them. */
  lemma GateKeepsBlocks(g: G.Gate, step: G.Step)
    requires G.Enabled(g, step) && !step.SetsBlocks?
    ensures G.Next(g, step).blocks == g.blocks
  {}

  lemma StepKeepsMirror(s: H.Setting, e: Engine, m: Move)
    requires e.gate.blocks == Mirrored(e.gate.blocks, e.race.watch) && Possible(e, m)
    ensures var next := Next(s, e, m); next.gate.blocks == Mirrored(next.gate.blocks, next.race.watch)
  {
    var step := GateStep(s, e, m);
    if step.SetsBlocks? {
      SetFlagsMirror(s, e, m);
    } else {
      GateKeepsBlocks(e.gate, step);
      OtherStepsKeepFlags(s, e, m);
    }
  }

  lemma SetFlagsMirror(s: H.Setting, e: Engine, m: Move)
    requires Possible(e, m) && GateStep(s, e, m).SetsBlocks?
    ensures var blocks := GateStep(s, e, m).blocks; blocks == Mirrored(blocks, RaceNext(s, e, m).watch)
  {
    if !m.Other? {
      assert GateStep(s, e, m) == G.SetsBlocks(Mirrored(e.gate.blocks, RaceNext(s, e, m).watch));
    }
  }

  predicate SameFlags(w: Watch, next: Watch) {
    next.gap == w.gap && next.refreshing == w.refreshing
  }

  lemma LedgerCallbackKeepsFlags(s: H.Setting, r: H.Race, h: H.Happening)
    requires H.Possible(r, h) && WritesLedger(h)
    ensures SameFlags(r.watch, H.Next(s, r, h).watch)
  {}

  lemma OtherStepsKeepFlags(s: H.Setting, e: Engine, m: Move)
    requires Possible(e, m) && !GateStep(s, e, m).SetsBlocks?
    ensures SameFlags(e.race.watch, RaceNext(s, e, m).watch)
  {
    match m
    case TakesEffect => LedgerCallbackKeepsFlags(s, e.race, e.handler.what);
    case RecordsIntent(_, orderId, quantity) => IntentAgrees(s, e.race, H.Intends(orderId, quantity));
    case Submits(index) => IntentAgrees(s, e.race, H.Submits(index));
    case Abandons(index) => IntentAgrees(s, e.race, H.Abandons(index));
    case _ =>
  }

  lemma StepKeepsLocked(s: H.Setting, e: Engine, m: Move)
    requires Locked(e) && Possible(e, m)
    ensures Locked(Next(s, e, m))
  {
    StepKeepsHolder(s, e, m);
    StepKeepsMirror(s, e, m);
  }

  lemma IntentAgrees(s: H.Setting, r: H.Race, h: H.Happening)
    requires H.Possible(r, h) && (h.Intends? || h.Submits? || h.Abandons?)
    ensures var next := H.Next(s, r, h);
      && next.watch == r.watch && next.shown == r.shown
      && SumExecuted(next.orders) == SumExecuted(r.orders)
      && (AnyOutstanding(next.orders) ==> AnyOutstanding(r.orders))
  {
    var next := H.Next(s, r, h);
    match h
    case Intends(_, _) => assert next.orders[..|r.orders|] == r.orders;
    case Submits(index) => H.SumExecutedUpdate(r.orders, index, next.orders[index]);
    case Abandons(index) => H.SumExecutedUpdate(r.orders, index, next.orders[index]);
    if AnyOutstanding(next.orders) {
      var i :| 0 <= i < |next.orders| && Outstanding(next.orders[i]);
      assert i < |r.orders| && Outstanding(r.orders[i]);
    }
  }

  /** A move that is not a callback taking effect keeps the ledger's quantity and the positions read. */
  lemma QuietMoveAgrees(s: H.Setting, e: Engine, m: Move)
    requires Possible(e, m) && !m.TakesEffect?
    ensures var next := RaceNext(s, e, m);
      && next.watch.positions == e.race.watch.positions && next.shown == e.race.shown
      && SumExecuted(next.orders) == SumExecuted(e.race.orders)
      && (AnyOutstanding(next.orders) ==> AnyOutstanding(e.race.orders))
  {
    match m
    case RecordsIntent(_, orderId, quantity) => IntentAgrees(s, e.race, H.Intends(orderId, quantity));
    case Submits(index) => IntentAgrees(s, e.race, H.Submits(index));
    case Abandons(index) => IntentAgrees(s, e.race, H.Abandons(index));
    case Classifies(now) => CheckKeepsPositions(s, e.race, now);
    case _ =>
  }

  lemma CheckKeepsPositions(s: H.Setting, r: H.Race, now: real)
    ensures var next := Reconcile(r.watch, r.orders, H.Expected(s, r.orders), now, s.settle, false);
      next.positions == r.watch.positions && next.complete == r.watch.complete
  {
    H.ClassifyKeepsPositions(r.watch, r.orders, H.Expected(s, r.orders), now, s.settle);
  }

  lemma ClassifyKeepsVerdict(s: H.Setting, e: Engine, now: real)
    requires Possible(e, Classifies(now))
    ensures VerdictHolds(s, Next(s, e, Classifies(now)))
  {
    CheckKeepsPositions(s, e.race, now);
    if AllComplete(e.race.watch) && H.VerdictAt(s, e.race, now).differences == {} {
      H.CleanMeansEqual(e.race.watch, e.race.orders, H.Expected(s, e.race.orders), now, s.settle);
    }
  }

  /** While a reconciliation reads, no other move touches the read or the verdict. */
  lemma ReadingIsUndisturbed(s: H.Setting, e: Engine, m: Move)
    requires Locked(e) && Possible(e, m) && !m.Classifies? && Next(s, e, m).gate.reconciler.Reading?
    ensures VerdictNext(s, e, m) ==> e.gate.reconciler.Reading? && e.verdict
    ensures VerdictNext(s, e, m) ==> RaceNext(s, e, m).watch.complete == e.race.watch.complete && !m.TakesEffect?
  {}

  lemma StepKeepsVerdict(s: H.Setting, e: Engine, m: Move)
    requires Locked(e) && VerdictHolds(s, e) && Possible(e, m)
    ensures VerdictHolds(s, Next(s, e, m))
  {
    if m.Classifies? {
      ClassifyKeepsVerdict(s, e, m.now);
    } else if Next(s, e, m).gate.reconciler.Reading? && VerdictNext(s, e, m) {
      ReadingIsUndisturbed(s, e, m);
      QuietMoveAgrees(s, e, m);
    }
  }

  lemma EffectKeepsPublished(s: H.Setting, e: Engine)
    requires PublishedHolds(s, e) && Possible(e, TakesEffect)
    ensures PublishedHolds(s, Next(s, e, TakesEffect))
  {
    var next := Next(s, e, TakesEffect);
    assert next.gate.published == e.gate.published;
    if e.handler.Received? {
      assert next.race.watch.positions == e.race.watch.positions && next.race.orders == e.race.orders;
    }
  }

  /** Only an announced clean verdict makes the page clean by evidence. */
  lemma GatePublishes(g: G.Gate, step: G.Step)
    requires G.Enabled(g, step) && PublishedClean(G.Next(g, step))
    ensures PublishedClean(g) || step == G.ReconcileJudges(true)
  {}

  lemma StepKeepsPublished(s: H.Setting, e: Engine, m: Move)
    requires Locked(e) && VerdictHolds(s, e) && PublishedHolds(s, e) && Possible(e, m)
    ensures PublishedHolds(s, Next(s, e, m))
  {
    if m.TakesEffect? {
      EffectKeepsPublished(s, e);
    } else {
      QuietMoveAgrees(s, e, m);
      if PublishedClean(Next(s, e, m).gate) {
        GatePublishes(e.gate, GateStep(s, e, m));
      }
    }
  }

  /** An engine that has just started, over any ledger. */
  predicate Fresh(e: Engine) {
    && |e.race.truths| == |e.race.orders| && e.race.marking.None? && !e.race.lagging
    && e.handler.Free? && !e.verdict
    && e.gate.reconciler.Resting? && e.gate.reconciledVenue.None? && !e.gate.published.clean
    && e.gate.blocks == Mirrored(e.gate.blocks, e.race.watch)
  }

  /** Move `i` leads from one state to the next. */
  ghost predicate Leads(s: H.Setting, states: seq<Engine>, moves: seq<Move>, i: nat)
    requires |states| == |moves| + 1 && i < |moves|
  {
    Possible(states[i], moves[i]) && states[i + 1] == Next(s, states[i], moves[i])
  }

  ghost predicate EngineRun(s: H.Setting, states: seq<Engine>, moves: seq<Move>) {
    && |states| == |moves| + 1
    && Fresh(states[0])
    && (forall i {:trigger Leads(s, states, moves, i)} :: 0 <= i < |moves| ==> Leads(s, states, moves, i))
  }

  lemma {:induction false} RunKeepsPublished(s: H.Setting, states: seq<Engine>, moves: seq<Move>, i: nat)
    requires EngineRun(s, states, moves) && i < |states|
    ensures Locked(states[i]) && VerdictHolds(s, states[i]) && PublishedHolds(s, states[i])
  {
    if i > 0 {
      RunKeepsPublished(s, states, moves, i - 1);
      assert Leads(s, states, moves, i - 1);
      StepKeepsLocked(s, states[i - 1], moves[i - 1]);
      StepKeepsVerdict(s, states[i - 1], moves[i - 1]);
      StepKeepsPublished(s, states[i - 1], moves[i - 1]);
    }
  }

  /**
    Whatever the venue reports, in every state of every interleaving: an entry authorised
    on the venues' own evidence finds the positions read equal to the ledger's quantity,
    no order reporting more than it executed, no gap open and no refresh under way.
   */
  lemma EntryFindsPositionsEqual(s: H.Setting, states: seq<Engine>, moves: seq<Move>, i: nat, expected: Option<nat>)
    requires EngineRun(s, states, moves) && i < |states|
    requires G.Authorized(states[i].gate, expected) && !states[i].gate.published.attested
    ensures PositionsAgree(s, states[i].race)
    ensures states[i].race.watch.gap.None? && !states[i].race.watch.refreshing
  {
    RunKeepsPublished(s, states, moves, i);
  }

  // --- an honest venue ----------------------------------------------------

  /** The recorded venue revision is the current one only while nothing has arrived since. */
  predicate RevisionHolds(e: Engine) {
    && (e.gate.reconciledVenue.Some? ==> e.gate.reconciledVenue.value <= e.gate.venueRevision)
    && (e.gate.reconciledVenue == Some(e.gate.venueRevision) ==> !H.Apart(e.race))
    && (!e.handler.Free? && VenueEvidence(e.handler.what) ==> e.gate.reconciledVenue != Some(e.gate.venueRevision))
    && (!e.handler.Free? ==> VenueEvidence(e.handler.what) || e.handler.what.RefreshBegins?)
  }

  ghost predicate HonestMove(s: H.Setting, states: seq<Engine>, moves: seq<Move>, i: nat)
    requires i < |moves| && i < |states|
  {
    Possible(states[i], moves[i]) && Honest(s, states[i], moves[i])
  }

  ghost predicate HonestRun(s: H.Setting, states: seq<Engine>, moves: seq<Move>) {
    && EngineRun(s, states, moves) && H.RaceInv(s, states[0].race)
    && (forall i {:trigger HonestMove(s, states, moves, i)} :: 0 <= i < |moves| ==> HonestMove(s, states, moves, i))
  }

  lemma StepKeepsRace(s: H.Setting, e: Engine, m: Move)
    requires Locked(e) && VerdictHolds(s, e) && H.RaceInv(s, e.race) && Possible(e, m) && Honest(s, e, m)
    ensures H.RaceInv(s, RaceNext(s, e, m))
  {
    match m
    case TakesEffect => H.StepKeepsRace(s, e.race, e.handler.what);
    case Marks(marker) => H.StepKeepsRace(s, e.race, H.EndMarker(marker));
    case Happens(what) => H.StepKeepsRace(s, e.race, what);
    case Classifies(now) => H.StepKeepsRace(s, e.race, H.Check(now, false));
    case RecordsIntent(_, orderId, quantity) => H.StepKeepsRace(s, e.race, H.Intends(orderId, quantity));
    case WatchdogFires => H.StepKeepsRace(s, e.race, H.WatchdogFires);
    case Finalises(index) => if G.Sends(e.gate, G.Finalises) { H.StepKeepsRace(s, e.race, H.Sends(index)); }
    case Submits(index) => H.StepKeepsRace(s, e.race, H.Submits(index));
    case MarkingFails => H.StepKeepsRace(s, e.race, H.MarkingFails);
    case Abandons(index) => H.StepKeepsRace(s, e.race, H.Abandons(index));
    case Other(step) => if G.JudgesNow(e.gate, step) { H.AdoptionKeepsRace(s, e.race); }
    case _ =>
  }

  /** A complete read of an honest venue that equals the ledger shows every executed fill and no other. */
  lemma AgreedIsTogether(s: H.Setting, r: H.Race)
    requires H.RaceInv(s, r) && AllComplete(r.watch) && PositionsAgree(s, r)
    ensures !H.Apart(r)
  {}

  lemma EffectKeepsRevision(s: H.Setting, e: Engine)
    requires RevisionHolds(e) && Possible(e, TakesEffect)
    ensures RevisionHolds(Next(s, e, TakesEffect))
  {
    var next := Next(s, e, TakesEffect);
    assert next.gate.reconciledVenue == e.gate.reconciledVenue && next.gate.venueRevision == e.gate.venueRevision;
    assert e.handler.what.RefreshBegins? ==> next.race.orders == e.race.orders && next.race.shown == e.race.shown;
  }

  lemma RecordKeepsRevision(s: H.Setting, e: Engine)
    requires Locked(e) && VerdictHolds(s, e) && RevisionHolds(e) && H.RaceInv(s, e.race)
    requires Possible(e, Other(G.ReconcileJudges(true))) && G.JudgesNow(e.gate, G.ReconcileJudges(true))
    ensures RevisionHolds(Next(s, e, Other(G.ReconcileJudges(true))))
  {
    AgreedIsTogether(s, e.race);
  }

  /** The venue revision only grows; the record stays where it was. */
  lemma GateKeepsRecord(g: G.Gate, step: G.Step)
    requires G.Enabled(g, step) && !G.JudgesNow(g, step)
    ensures var next := G.Next(g, step);
      && next.reconciledVenue == g.reconciledVenue
      && g.venueRevision <= next.venueRevision && (step.IbkrEvidence? ==> g.venueRevision < next.venueRevision)
  {}

  predicate JudgesNow(e: Engine, m: Move) {
    m.Other? && G.JudgesNow(e.gate, m.step)
  }

  lemma QuietMoveKeepsRevision(s: H.Setting, e: Engine, m: Move)
    requires RevisionHolds(e) && Possible(e, m) && !m.TakesEffect? && !JudgesNow(e, m)
    requires var next := RaceNext(s, e, m); H.Apart(next) ==> H.Apart(e.race)
    ensures RevisionHolds(Next(s, e, m))
  {
    GateKeepsRecord(e.gate, GateStep(s, e, m));
  }

  lemma StepKeepsRevision(s: H.Setting, e: Engine, m: Move)
    requires Locked(e) && VerdictHolds(s, e) && RevisionHolds(e) && H.RaceInv(s, e.race) && Possible(e, m)
    ensures RevisionHolds(Next(s, e, m))
  {
    if m.TakesEffect? {
      EffectKeepsRevision(s, e);
    } else if JudgesNow(e, m) {
      RecordKeepsRevision(s, e);
    } else {
      QuietMoveAgrees(s, e, m);
      QuietMoveKeepsRevision(s, e, m);
    }
  }

  lemma HonestStepKeeps(s: H.Setting, e: Engine, m: Move, next: Engine)
    requires Locked(e) && VerdictHolds(s, e) && RevisionHolds(e) && H.RaceInv(s, e.race)
    requires Possible(e, m) && Honest(s, e, m) && next == Next(s, e, m)
    ensures H.RaceInv(s, next.race) && RevisionHolds(next)
  {
    StepKeepsRace(s, e, m);
    StepKeepsRevision(s, e, m);
  }

  lemma {:induction false} RunKeepsRevision(s: H.Setting, states: seq<Engine>, moves: seq<Move>, i: nat)
    requires HonestRun(s, states, moves) && i < |states|
    ensures H.RaceInv(s, states[i].race) && RevisionHolds(states[i])
  {
    if i > 0 {
      RunKeepsRevision(s, states, moves, i - 1);
      RunKeepsPublished(s, states, moves, i - 1);
      assert Leads(s, states, moves, i - 1) && HonestMove(s, states, moves, i - 1);
      HonestStepKeeps(s, states[i - 1], moves[i - 1], states[i]);
    }
  }

  /**
    Against an honest venue, in every state of every interleaving, the moments between a
    callback and its check included: outside the manual simulation no entry is authorised
    while position and executions disagree or a status reports more than was executed.
   */
  lemma NoEntryWhileApart(s: H.Setting, states: seq<Engine>, moves: seq<Move>, i: nat, expected: Option<nat>)
    requires HonestRun(s, states, moves) && i < |states| && H.Apart(states[i].race)
    ensures G.Authorized(states[i].gate, expected) ==> G.ManualSimulation(states[i].gate)
  {
    RunKeepsRevision(s, states, moves, i);
  }

  function Gates(states: seq<Engine>): (r: seq<G.Gate>)
    ensures |r| == |states| && forall i :: 0 <= i < |r| ==> r[i] == states[i].gate
  {
    seq(|states|, i requires 0 <= i < |states| => states[i].gate)
  }

  ghost function GateSteps(s: H.Setting, states: seq<Engine>, moves: seq<Move>): (r: seq<G.Step>)
    requires EngineRun(s, states, moves)
    ensures |r| == |moves|
    ensures forall i :: 0 <= i < |r| ==> Possible(states[i], moves[i]) && r[i] == GateStep(s, states[i], moves[i])
  {
    assert forall i :: 0 <= i < |moves| ==> Possible(states[i], moves[i]) by {
      forall i | 0 <= i < |moves| ensures Possible(states[i], moves[i]) {
        assert Leads(s, states, moves, i);
      }
    }
    seq(|moves|, i requires 0 <= i < |moves| => GateStep(s, states[i], moves[i]))
  }

  /** What the machine does to the gate is a run of the gate: everything proved of the gate holds here. */
  lemma EngineRunIsGateRun(s: H.Setting, states: seq<Engine>, moves: seq<Move>)
    requires EngineRun(s, states, moves) && G.GateInv(states[0].gate)
    ensures G.GateRun(Gates(states), GateSteps(s, states, moves))
  {
    var gates, steps := Gates(states), GateSteps(s, states, moves);
    forall i | 0 <= i < |steps| ensures G.Enabled(gates[i], steps[i]) && gates[i + 1] == G.Next(gates[i], steps[i]) {
      assert Leads(s, states, moves, i);
    }
  }

  /**
    Nor is an order sent: outside the manual simulation a send finds position and
    executions together, the recorded venue revision current, and the ledger that entry
    was authorised on followed by this batch's own intent alone.
   */
  lemma NothingSentWhileApart(s: H.Setting, states: seq<Engine>, moves: seq<Move>, i: nat)
    requires HonestRun(s, states, moves) && G.GateInv(states[0].gate) && i < |moves|
    requires |states[i + 1].gate.sent| > |states[i].gate.sent| && !G.ManualSimulation(states[i].gate)
    ensures !H.Apart(states[i].race)
    ensures var g := states[i].gate;
      && g.submitter.Intended? && g.published == g.submitter.seen
      && g.reconciledVenue == Some(g.venueRevision)
      && g.log == g.submitter.was + [G.OwnIntent(g.submitter.batch)]
  {
    RunKeepsRevision(s, states, moves, i);
    EngineRunIsGateRun(s, states, moves);
    var gates, steps := Gates(states), GateSteps(s, states, moves);
    assert Leads(s, states, moves, i) && gates[i] == states[i].gate;
    G.SendIsFresh(gates, steps, i);
  }

  // --- one reconciliation -------------------------------------------------

  /** The gate shows the watch's gap and the operating state it latched. */
  predicate Shows(g: G.Gate, w: Watch) {
    g.blocks.gapOpen == w.gap.Some? && g.published.paused == w.paused && g.published.armed == w.armed
  }

  /** After a reconciliation that finds any IBKR difference, no expected ledger revision authorises an entry. */
  lemma DisagreementBarsEntry(
      g: G.Gate, w: Watch, orders: seq<Progress>, expected: real, now: real, settle: real, elsewhere: bool,
          revision: Option<nat>)
    requires Classify(w, orders, expected, now, settle).differences != {}
    requires Shows(g, Reconcile(w, orders, expected, now, settle, elsewhere))
    ensures !G.Authorized(g, revision)
  {
    DisagreementBlocksEntry(w, orders, expected, now, settle, elsewhere);
  }

  // --- an entry that is authorised ----------------------------------------

  /** A fresh armed engine. */
  const STARTED := Engine(G.START, H.START, Free, false)

  lemma Extend(s: H.Setting, states: seq<Engine>, moves: seq<Move>, m: Move)
    returns (states': seq<Engine>, moves': seq<Move>)
    requires HonestRun(s, states, moves) && Possible(states[|moves|], m) && Honest(s, states[|moves|], m)
    ensures HonestRun(s, states', moves') && |moves'| == |moves| + 1
    ensures states'[|moves'|] == Next(s, states[|moves|], m)
  {
    states', moves' := states + [Next(s, states[|moves|], m)], moves + [m];
    forall i | 0 <= i < |moves'| ensures Leads(s, states', moves', i) && HonestMove(s, states', moves', i) {
      if i < |moves| {
        assert Leads(s, states, moves, i) && HonestMove(s, states, moves, i);
      }
    }
  }

  /** The engine while it reads an empty account. */
  function Reading(complete: set<Marker>): Engine {
    STARTED.(race := H.ReadSoFar(complete),
             gate := G.START.(published := G.ARMED_PAGE.(id := 1), blocks := G.OPEN_BLOCKS.(refreshing := true)))
  }

  lemma RefreshStarts() returns (states: seq<Engine>, moves: seq<Move>)
    ensures HonestRun(H.PLAIN, states, moves) && states[|moves|] == Reading({})
  {
    states, moves := [STARTED], [];
    states, moves := Extend(H.PLAIN, states, moves, Refreshes);
    states, moves := Extend(H.PLAIN, states, moves, TakesEffect);
  }

  lemma Reads(states: seq<Engine>, moves: seq<Move>, complete: set<Marker>, marker: Marker)
    returns (states': seq<Engine>, moves': seq<Move>)
    requires HonestRun(H.PLAIN, states, moves) && states[|moves|] == Reading(complete)
    requires PositionEnd !in complete && marker != PositionEnd
    ensures HonestRun(H.PLAIN, states', moves') && states'[|moves'|] == Reading(complete + {marker})
  {
    assert PositionEnd !in complete + {marker} && PositionEnd in EVERY_PART;
    H.MarkedRead(states[|moves|].race.watch, marker);
    states', moves' := Extend(H.PLAIN, states, moves, Marks(marker));
  }

  /** The engine with the empty account read. */
  const READ := STARTED.(race := H.START.(watch := H.READ), gate := G.START.(published := G.ARMED_PAGE.(id := 1)))

  lemma ReadEnds(states: seq<Engine>, moves: seq<Move>, complete: set<Marker>)
    returns (states': seq<Engine>, moves': seq<Move>)
    requires HonestRun(H.PLAIN, states, moves) && states[|moves|] == Reading(complete)
    requires complete + {PositionEnd} == EVERY_PART
    ensures HonestRun(H.PLAIN, states', moves') && states'[|moves'|] == READ
  {
    H.MarkedRead(states[|moves|].race.watch, PositionEnd);
    states', moves' := Extend(H.PLAIN, states, moves, Marks(PositionEnd));
  }

  lemma AccountIsRead() returns (states: seq<Engine>, moves: seq<Move>)
    ensures HonestRun(H.PLAIN, states, moves) && states[|moves|] == READ
  {
    var a, b, c := {OpenOrderEnd}, {CompletedOrderEnd}, {ExecutionEnd};
    states, moves := RefreshStarts();
    states, moves := Reads(states, moves, {}, OpenOrderEnd);
    states, moves := Reads(states, moves, {} + a, CompletedOrderEnd);
    states, moves := Reads(states, moves, {} + a + b, ExecutionEnd);
    assert {} + a + b + c + {PositionEnd} == EVERY_PART;
    states, moves := ReadEnds(states, moves, {} + a + b + c);
  }

  lemma ClassifiesClean(s: H.Setting, e: Engine, now: real)
    requires Possible(e, Classifies(now)) && e.gate.blocks == Mirrored(e.gate.blocks, e.race.watch)
    requires AllComplete(e.race.watch) && H.VerdictAt(s, e.race, now) == Verdict(e.race.watch, {}, {})
    ensures Next(s, e, Classifies(now)) == e.(verdict := true)
  {}

  lemma CleanExtends(s: H.Setting, states: seq<Engine>, moves: seq<Move>, now: real)
    returns (states': seq<Engine>, moves': seq<Move>)
    requires HonestRun(s, states, moves) && Possible(states[|moves|], Classifies(now))
    requires var e := states[|moves|];
      && e.gate.blocks == Mirrored(e.gate.blocks, e.race.watch)
      && AllComplete(e.race.watch) && H.VerdictAt(s, e.race, now) == Verdict(e.race.watch, {}, {})
    ensures HonestRun(s, states', moves') && states'[|moves'|] == states[|moves|].(verdict := true)
  {
    ClassifiesClean(s, states[|moves|], now);
    states', moves' := Extend(s, states, moves, Classifies(now));
  }

  /** The reconciliation has begun on the read account. */
  const BEGUN := READ.(gate := READ.gate.(reconciler := G.Reading(0)))

  lemma ReconciliationBegins() returns (states: seq<Engine>, moves: seq<Move>)
    ensures HonestRun(H.PLAIN, states, moves) && states[|moves|] == BEGUN
  {
    states, moves := AccountIsRead();
    states, moves := Extend(H.PLAIN, states, moves, Other(G.ReconcileBegins));
  }

  lemma EmptyReadIsClean(e: Engine)
    requires e.race == H.START.(watch := H.READ)
    ensures AllComplete(e.race.watch) && H.VerdictAt(H.PLAIN, e.race, 0.0) == Verdict(e.race.watch, {}, {})
  {
    H.CleanClassifies(e.race.watch, [], H.Expected(H.PLAIN, []), 0.0, H.PLAIN.settle);
  }

  lemma AccountIsJudged() returns (states: seq<Engine>, moves: seq<Move>)
    ensures HonestRun(H.PLAIN, states, moves) && states[|moves|] == BEGUN.(verdict := true)
  {
    states, moves := ReconciliationBegins();
    EmptyReadIsClean(states[|moves|]);
    states, moves := CleanExtends(H.PLAIN, states, moves, 0.0);
  }

  /** After one clean read of the account the gate does authorise an entry. */
  lemma EntryIsReachable() returns (states: seq<Engine>, moves: seq<Move>)
    ensures HonestRun(H.PLAIN, states, moves)
    ensures var g := states[|moves|].gate; G.Authorized(g, g.ledgerRevision) && !G.ManualSimulation(g)
  {
    states, moves := AccountIsJudged();
    states, moves := Extend(H.PLAIN, states, moves, Other(G.ReconcileJudges(true)));
  }
}

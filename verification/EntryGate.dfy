/**
  When a new ZQ order may be sent. The engine's tasks interleave at their awaits;
  one step here is what runs between two of them. The submitter authorises an
  entry, re-reads the published snapshot, records its intent and sends only if
  nothing changed on the way.
 */
module EntryGate {
  import opened Results

  /** A ledger transaction that changed execution rows; the database counts them. */
  datatype Commit = OwnIntent(batch: string) | OwnAbandoned(batch: string) | Other(what: string)

  /** The published snapshot, as far as entry depends on it. */
  datatype Published = Published(
    id: nat, armed: bool, paused: bool, killSwitch: bool, clean: bool, attested: bool, unresolvedHedges: bool,
    openDeficit: bool, bid: Option<real>)

  datatype Opportunity = Opportunity(snapshotId: nat, price: real)

  /** Coordinator fields that block entry, and the settings that allow it. */
  datatype Blocks = Blocks(
    maintenance: bool, gapOpen: bool, refreshing: bool, refreshAmbiguous: bool, halted: bool, overflowed: bool,
    routingEnabled: bool, paperSimulation: bool)

  /** The submitter between awaits; `was` and `seen` record history and guard nothing. */
  datatype Submitter =
    | Idle
    | Entering(opportunity: Opportunity, entryRevision: nat, was: seq<Commit>)
    | Fetched(opportunity: Opportunity, entryRevision: nat, was: seq<Commit>, seen: Published)
    | Rechecked(opportunity: Opportunity, entryRevision: nat, was: seq<Commit>, seen: Published)
    | Intended(opportunity: Opportunity, entryRevision: nat, was: seq<Commit>, seen: Published, batch: string)
    | Aborting(batch: string)

  /** The reconciliation between awaits; it holds the coordinator lock and the ledger transaction. */
  datatype Reconciler = Resting | Reading(revision: nat)

  /** A sent order, with what the sender relied on. */
  datatype Sent = Sent(batch: string, opportunity: Opportunity)

  datatype Gate = Gate(
    log: seq<Commit>, published: Published, blocks: Blocks,
    venueRevision: nat, reconciledVenue: Option<nat>, ledgerRevision: Option<nat>,
    submitter: Submitter, reconciler: Reconciler, sent: seq<Sent>,
    judgedVenue: set<nat>, judgedLog: Option<seq<Commit>>)

  predicate ManualSimulation(g: Gate) {
    g.blocks.paperSimulation && g.published.attested
  }

  /** Entry authorisation against an expected ledger revision. */
  predicate Authorized(g: Gate, expected: Option<nat>) {
    && g.published.armed
    && !g.blocks.maintenance && !g.blocks.gapOpen && !g.blocks.refreshing && !g.blocks.refreshAmbiguous
    && g.published.clean
    && (ManualSimulation(g) || g.reconciledVenue == Some(g.venueRevision))
    && (ManualSimulation(g) || expected == Some(|g.log|))
    && !g.blocks.halted
    && !g.published.paused && !g.published.killSwitch
    && !g.published.unresolvedHedges && !g.published.openDeficit
    && g.blocks.routingEnabled
  }

  datatype Step =
    | Commits(what: string)
    | Publishes(published: Published)
    | Attests
    | SetsBlocks(blocks: Blocks)
    | IbkrEvidence
    | PolymarketInvalidated
    | ReconcileBegins
    | ReconcileStops(invalidates: bool)
    | ReconcileJudges(clean: bool)
    | Authorises(opportunity: Opportunity)
    | Fetches
    | Rechecks
    | RecordsIntent(batch: string)
    | Finalises
    | Abandons

  function PublishedNext(g: Gate, p: Published): Gate {
    g.(published := p.(id := g.published.id + 1))
  }

  /** What a verdict leaves behind. */
  function Recorded(g: Gate, clean: bool): Gate {
    if clean then
      g.(reconciler := Resting, ledgerRevision := Some(|g.log|), reconciledVenue := Some(g.venueRevision),
         judgedVenue := g.judgedVenue + {g.venueRevision}, judgedLog := Some(g.log))
    else g.(reconciler := Resting, ledgerRevision := None, judgedLog := None)
  }

  predicate Enabled(g: Gate, s: Step) {
    match s
    case Commits(_) => g.reconciler.Resting?
    case Publishes(p) =>
      if p.clean then g.published.clean && p.attested == g.published.attested else p.attested ==> g.published.attested
    case Attests => true
    case SetsBlocks(b) => g.blocks.overflowed ==> b.overflowed
    case IbkrEvidence => g.reconciler.Resting?
    case PolymarketInvalidated => true
    case ReconcileBegins => g.reconciler.Resting?
    case ReconcileStops(_) => g.reconciler.Reading?
    case ReconcileJudges(_) => g.reconciler.Reading?
    case Authorises(_) => g.submitter.Idle? && Authorized(g, g.ledgerRevision)
    case Fetches => g.submitter.Entering?
    case Rechecks => g.submitter.Fetched?
    case RecordsIntent(_) => g.submitter.Rechecked? && g.reconciler.Resting?
    case Finalises => g.submitter.Intended?
    case Abandons => g.submitter.Aborting? && g.reconciler.Resting?
  }

  /**
    From the comparison of venue revisions to the record nothing suspends: the nested
    session and the state store's lock are free for the task that runs, so a verdict is
    judged, announced and recorded in one step.
   */
  function Next(g: Gate, s: Step): Gate
    requires Enabled(g, s)
  {
    match s
    case Commits(what) => g.(log := g.log + [Other(what)])
    case Publishes(p) => PublishedNext(g, p)
    case Attests => PublishedNext(g, g.published.(clean := true, attested := true))
    case SetsBlocks(b) => g.(blocks := b)
    case IbkrEvidence => g.(venueRevision := g.venueRevision + 1)
    case PolymarketInvalidated => g.(venueRevision := g.venueRevision + 1)
    case ReconcileBegins => g.(reconciler := Reading(g.venueRevision))
    case ReconcileStops(invalidates) =>
      (if invalidates then PublishedNext(g, g.published.(clean := false)) else g).(reconciler := Resting)
    case ReconcileJudges(clean) =>
      if g.venueRevision != g.reconciler.revision
        then PublishedNext(g, g.published.(clean := false)).(reconciler := Resting)
      else Recorded(PublishedNext(g, g.published.(clean := clean, attested := false)), clean)
    case Authorises(opportunity) => g.(submitter := Entering(opportunity, |g.log| + 1, g.log))
    case Fetches =>
      var e := g.submitter;
      if g.published.id != e.opportunity.snapshotId || g.published.bid != Some(e.opportunity.price)
        then g.(submitter := Idle)
      else g.(submitter := Fetched(e.opportunity, e.entryRevision, e.was, g.published))
    case Rechecks =>
      var e := g.submitter;
      if g.published.id != e.seen.id || g.published.bid != Some(e.opportunity.price) then g.(submitter := Idle)
      else g.(submitter := Rechecked(e.opportunity, e.entryRevision, e.was, e.seen))
    case RecordsIntent(batch) =>
      var e := g.submitter;
      g.(log := g.log + [OwnIntent(batch)], submitter := Intended(e.opportunity, e.entryRevision, e.was, e.seen, batch))
    case Finalises =>
      var e := g.submitter;
      if g.published.id != e.seen.id || !Authorized(g, Some(e.entryRevision)) || g.blocks.overflowed
      then g.(submitter := Aborting(e.batch))
      else g.(submitter := Idle, sent := g.sent + [Sent(e.batch, e.opportunity)])
    case Abandons => g.(log := g.log + [OwnAbandoned(g.submitter.batch)], submitter := Idle)
  }

  // --- invariant ----------------------------------------------------------

  predicate Underway(e: Submitter) {
    e.Entering? || e.Fetched? || e.Rechecked? || e.Intended?
  }

  /** What the submitter remembers of the ledger. */
  predicate KnowsLedger(e: Submitter, log: seq<Commit>) {
    && (Underway(e) ==> e.entryRevision == |e.was| + 1 && e.was <= log)
    && (e.Intended? ==> OwnIntent(e.batch) in log[|e.was|..])
  }

  /** What the submitter remembers of the published snapshot. */
  predicate KnowsSnapshot(e: Submitter, published: Published) {
    Underway(e) && !e.Entering? ==>
      && e.seen.id <= published.id && (e.seen.id == published.id ==> e.seen == published)
      && e.opportunity.snapshotId == e.seen.id && e.seen.bid == Some(e.opportunity.price)
  }

  predicate LedgerJudged(g: Gate) {
    && (g.ledgerRevision.Some? <==> g.judgedLog.Some?)
    && (g.ledgerRevision.Some? ==> g.ledgerRevision.value == |g.judgedLog.value| && g.judgedLog.value <= g.log)
  }

  predicate GateInv(g: Gate) {
    KnowsLedger(g.submitter, g.log) && KnowsSnapshot(g.submitter, g.published) && LedgerJudged(g)
  }

  lemma LedgerGrows(e: Submitter, log: seq<Commit>, c: Commit)
    requires KnowsLedger(e, log)
    ensures KnowsLedger(e, log + [c])
  {
    if Underway(e) {
      assert (log + [c])[|e.was|..] == log[|e.was|..] + [c];
    }
  }

  lemma StepKeepsLedger(g: Gate, s: Step)
    requires KnowsLedger(g.submitter, g.log) && Enabled(g, s)
    ensures KnowsLedger(Next(g, s).submitter, Next(g, s).log)
  {
    match s
    case Commits(what) => LedgerGrows(g.submitter, g.log, Other(what));
    case RecordsIntent(batch) =>
      assert (g.log + [OwnIntent(batch)])[|g.submitter.was|..] == g.log[|g.submitter.was|..] + [OwnIntent(batch)];
    case _ =>
  }

  lemma StepKeepsSnapshot(g: Gate, s: Step)
    requires KnowsSnapshot(g.submitter, g.published) && Enabled(g, s)
    ensures KnowsSnapshot(Next(g, s).submitter, Next(g, s).published)
  {
  }

  lemma StepKeepsGate(g: Gate, s: Step)
    requires GateInv(g) && Enabled(g, s)
    ensures GateInv(Next(g, s))
  {
    StepKeepsLedger(g, s);
    StepKeepsSnapshot(g, s);
  }

  ghost predicate GateRun(states: seq<Gate>, steps: seq<Step>) {
    && |states| == |steps| + 1
    && GateInv(states[0])
    && (forall i :: 0 <= i < |steps| ==> Enabled(states[i], steps[i]) && states[i + 1] == Next(states[i], steps[i]))
  }

  lemma {:induction false} RunKeepsGate(states: seq<Gate>, steps: seq<Step>, i: nat)
    requires GateRun(states, steps) && i < |states|
    ensures GateInv(states[i])
  {
    if i > 0 {
      RunKeepsGate(states, steps, i - 1);
      StepKeepsGate(states[i - 1], steps[i - 1]);
    }
  }

  // --- sending ------------------------------------------------------------

  predicate Sends(g: Gate, s: Step)
    requires Enabled(g, s)
  {
    |Next(g, s).sent| > |g.sent|
  }

  /**
    Over every interleaving, a ZQ order outside the manual simulation is sent only while
    the published snapshot is, field for field, the one its opportunity came from, the
    venue revision is the recorded one, and the ledger is the one authorised at entry
    followed by this batch's own intent and nothing else.
   */
  lemma SendIsFresh(states: seq<Gate>, steps: seq<Step>, i: nat)
    requires GateRun(states, steps) && i < |steps| && Sends(states[i], steps[i])
    ensures var g := states[i];
      && g.submitter.Intended?
      && g.published == g.submitter.seen && g.published.id == g.submitter.opportunity.snapshotId
      && g.published.bid == Some(g.submitter.opportunity.price)
      && Authorized(g, Some(|g.submitter.was| + 1)) && !g.blocks.overflowed
      && (!ManualSimulation(g) ==>
            g.reconciledVenue == Some(g.venueRevision) && g.log == g.submitter.was + [OwnIntent(g.submitter.batch)])
  {
    RunKeepsGate(states, steps, i);
    var g := states[i];
    if !ManualSimulation(g) {
      var e := g.submitter;
      assert g.log == e.was + g.log[|e.was|..];
    }
  }

  /** A published snapshot on which the operator and the venues' state allow entry. */
  predicate PageAllows(p: Published) {
    p.armed && !p.paused && !p.killSwitch && p.clean && !p.unresolvedHedges && !p.openDeficit
  }

  /** No hold of the coordinator is up, and orders may be routed. */
  predicate NothingHolds(b: Blocks) {
    !b.maintenance && !b.gapOpen && !b.refreshing && !b.refreshAmbiguous && !b.halted && b.routingEnabled
  }

  /** Nobody published and nobody else committed since the snapshot was fetched and entry was authorised. */
  predicate NothingMoved(g: Gate)
    requires g.submitter.Intended?
  {
    && g.published == g.submitter.seen
    && ((g.blocks.paperSimulation && g.published.attested)
        || (g.reconciledVenue == Some(g.venueRevision) && g.log == g.submitter.was + [OwnIntent(g.submitter.batch)]))
  }

  /**
    Over every interleaving the last check sends exactly when the page is armed, unpaused,
    free of kill switch, clean, without an unresolved hedge or an open deficit, no hold,
    gap, refresh or halt is up, routing is enabled, no event was lost, and nothing moved.
   */
  lemma SendsExactlyWhen(states: seq<Gate>, steps: seq<Step>, i: nat)
    requires GateRun(states, steps) && i < |steps| && steps[i].Finalises?
    ensures var g := states[i];
      Sends(g, steps[i]) <==>
        PageAllows(g.published) && NothingHolds(g.blocks) && !g.blocks.overflowed && NothingMoved(g)
  {
    RunKeepsGate(states, steps, i);
    var g, e := states[i], states[i].submitter;
    assert g.log == e.was + g.log[|e.was|..];
    if Sends(g, steps[i]) {
      SendIsFresh(states, steps, i);
    }
  }

  /** Only the last check sends, and it finds the page, the holds and the snapshot as an entry needs them. */
  lemma SendFindsEverythingOpen(states: seq<Gate>, steps: seq<Step>, i: nat)
    requires GateRun(states, steps) && i < |steps| && Sends(states[i], steps[i])
    ensures steps[i].Finalises?
    ensures var p, b := states[i].published, states[i].blocks;
      && p.armed && !p.paused && !p.killSwitch && p.clean && !p.unresolvedHedges && !p.openDeficit
      && !b.maintenance && !b.gapOpen && !b.refreshing && !b.refreshAmbiguous && !b.halted && b.routingEnabled
      && !b.overflowed
  {
    SendsExactlyWhen(states, steps, i);
  }

  /** An entry begins exactly from the idle submitter, on an open page and evidence judged clean and still current. */
  lemma EntryBeginsExactlyWhen(states: seq<Gate>, steps: seq<Step>, i: nat, opportunity: Opportunity)
    requires GateRun(states, steps) && i < |states|
    ensures var g := states[i];
      Enabled(g, Authorises(opportunity)) <==>
        && g.submitter == Idle && PageAllows(g.published) && NothingHolds(g.blocks)
        && ((g.blocks.paperSimulation && g.published.attested)
            || (g.reconciledVenue == Some(g.venueRevision) && g.judgedLog == Some(g.log)))
  {
    RunKeepsGate(states, steps, i);
    var g := states[i];
    if g.judgedLog.Some? && |g.judgedLog.value| == |g.log| {
      assert g.judgedLog.value == g.log;
    }
  }

  /** A snapshot the operator disarmed, paused or killed. */
  predicate Barred(p: Published) {
    !p.armed || p.paused || p.killSwitch
  }

  /**
    From a snapshot published disarmed, paused or killed on, no entry begins and no order is
    sent before a snapshot that is none of these is published.
   */
  lemma {:induction false} NothingWhileBarred(states: seq<Gate>, steps: seq<Step>, i: nat, j: nat)
    requires GateRun(states, steps) && i <= j < |states| && Barred(states[i].published)
    requires forall k :: i <= k < j && steps[k].Publishes? ==> Barred(steps[k].published)
    ensures Barred(states[j].published) && states[j].sent == states[i].sent
    ensures forall k :: i <= k < j ==> !steps[k].Authorises?
    decreases j
  {
    if i < j {
      NothingWhileBarred(states, steps, i, j - 1);
      BarredStep(states[j - 1], steps[j - 1]);
    }
  }

  lemma BarredStep(g: Gate, s: Step)
    requires Enabled(g, s) && Barred(g.published) && (s.Publishes? ==> Barred(s.published))
    ensures Barred(Next(g, s).published) && Next(g, s).sent == g.sent && !s.Authorises?
  {}

  /** The same for a hold of the coordinator, until the holds are lifted. */
  lemma {:induction false} NothingWhileHeld(states: seq<Gate>, steps: seq<Step>, i: nat, j: nat)
    requires GateRun(states, steps) && i <= j < |states| && !NothingHolds(states[i].blocks)
    requires forall k :: i <= k < j && steps[k].SetsBlocks? ==> !NothingHolds(steps[k].blocks)
    ensures !NothingHolds(states[j].blocks) && states[j].sent == states[i].sent
    ensures forall k :: i <= k < j ==> !steps[k].Authorises?
    decreases j
  {
    if i < j {
      NothingWhileHeld(states, steps, i, j - 1);
      HeldStep(states[j - 1], steps[j - 1]);
    }
  }

  lemma HeldStep(g: Gate, s: Step)
    requires Enabled(g, s) && !NothingHolds(g.blocks) && (s.SetsBlocks? ==> !NothingHolds(s.blocks))
    ensures !NothingHolds(Next(g, s).blocks) && Next(g, s).sent == g.sent && !s.Authorises?
  {}

  /** Any other ledger transaction since entry makes the last check abort instead of sending. */
  lemma OtherCommitAborts(states: seq<Gate>, steps: seq<Step>, i: nat)
    requires GateRun(states, steps) && i < |steps| && steps[i].Finalises? && !ManualSimulation(states[i])
    requires states[i].log != states[i].submitter.was + [OwnIntent(states[i].submitter.batch)]
    ensures states[i + 1].submitter == Aborting(states[i].submitter.batch) && states[i + 1].sent == states[i].sent
  {
    if Sends(states[i], steps[i]) {
      SendIsFresh(states, steps, i);
    }
  }

  /** The ledger that entry was authorised on is the one the last clean reconciliation read. */
  lemma AuthorisedOnTheJudgedLedger(states: seq<Gate>, steps: seq<Step>, i: nat)
    requires GateRun(states, steps) && i < |steps| && steps[i].Authorises? && !ManualSimulation(states[i])
    ensures states[i].judgedLog == Some(states[i].log) && states[i + 1].submitter.was == states[i].log
  {
    RunKeepsGate(states, steps, i);
    var g := states[i];
    assert Authorized(g, g.ledgerRevision) && g.ledgerRevision == Some(|g.log|);
    assert g.judgedLog.value == g.log;
  }

  /** Whoever is under way was authorised at some earlier step, on the ledger it remembers. */
  lemma {:induction false} EnteredFrom(states: seq<Gate>, steps: seq<Step>, i: nat) returns (a: nat)
    requires GateRun(states, steps) && i < |states|
    requires !Underway(states[0].submitter) && Underway(states[i].submitter)
    ensures a < i && steps[a] == Authorises(states[i].submitter.opportunity)
    ensures Enabled(states[a], steps[a]) && states[a].log == states[i].submitter.was
  {
    if steps[i - 1].Authorises? {
      a := i - 1;
    } else {
      a := EnteredFrom(states, steps, i - 1);
    }
  }

  /**
    From entry to send: a sent order's ledger is the one a clean reconciliation had read
    when entry was authorised, and this batch's own intent.
   */
  lemma SentLedgerIsJudgedPlusIntent(states: seq<Gate>, steps: seq<Step>, i: nat) returns (a: nat)
    requires GateRun(states, steps) && !Underway(states[0].submitter)
    requires i < |steps| && Sends(states[i], steps[i]) && !ManualSimulation(states[i])
    requires forall k :: 0 <= k < i && steps[k].Authorises? ==> !ManualSimulation(states[k])
    ensures a < i && steps[a].Authorises? && states[a].judgedLog == Some(states[a].log)
    ensures states[i].log == states[a].log + [OwnIntent(states[i].submitter.batch)]
  {
    SendIsFresh(states, steps, i);
    a := EnteredFrom(states, steps, i);
    AuthorisedOnTheJudgedLedger(states, steps, a);
  }

  /** The manual attestation ends with the next verdict, and only attesting again brings it back. */
  lemma {:induction false} VerdictEndsAttestation(states: seq<Gate>, steps: seq<Step>, i: nat, j: nat)
    requires GateRun(states, steps) && i < j < |states| && steps[i].ReconcileJudges?
      && states[i].venueRevision == states[i].reconciler.revision
    requires forall k :: i < k < j ==> steps[k] != Attests
    ensures !states[j].published.attested
    decreases j
  {
    if i + 1 < j {
      VerdictEndsAttestation(states, steps, i, j - 1);
    }
  }

  // --- every intent is accounted for --------------------------------------

  function Intents(log: seq<Commit>, batch: string): nat {
    if |log| == 0 then 0
    else Intents(log[..|log| - 1], batch) + if log[|log| - 1] == OwnIntent(batch) then 1 else 0
  }

  function Abandonments(log: seq<Commit>, batch: string): nat {
    if |log| == 0 then 0
    else Abandonments(log[..|log| - 1], batch) + if log[|log| - 1] == OwnAbandoned(batch) then 1 else 0
  }

  function TimesSent(sent: seq<Sent>, batch: string): nat {
    if |sent| == 0 then 0
    else TimesSent(sent[..|sent| - 1], batch) + if sent[|sent| - 1].batch == batch then 1 else 0
  }

  /** The submitter still has to send or give up an intent of this batch. */
  predicate Undecided(e: Submitter, batch: string) {
    (e.Intended? || e.Aborting?) && e.batch == batch
  }

  predicate Accounted(g: Gate, batch: string) {
    Intents(g.log, batch) == Abandonments(g.log, batch) + TimesSent(g.sent, batch)
      + if Undecided(g.submitter, batch) then 1 else 0
  }

  lemma CommitCounts(log: seq<Commit>, c: Commit, batch: string)
    ensures Intents(log + [c], batch) == Intents(log, batch) + if c == OwnIntent(batch) then 1 else 0
    ensures Abandonments(log + [c], batch) == Abandonments(log, batch) + if c == OwnAbandoned(batch) then 1 else 0
  {
    assert (log + [c])[..|log|] == log;
  }

  lemma StepAccounts(g: Gate, s: Step, batch: string)
    requires Enabled(g, s) && Accounted(g, batch)
    ensures Accounted(Next(g, s), batch)
  {
    match s
    case Commits(what) => CommitCounts(g.log, Other(what), batch);
    case RecordsIntent(b) => CommitCounts(g.log, OwnIntent(b), batch);
    case Abandons => CommitCounts(g.log, OwnAbandoned(g.submitter.batch), batch);
    case Finalises =>
      assert (g.sent + [Sent(g.submitter.batch, g.submitter.opportunity)])[..|g.sent|] == g.sent;
    case _ =>
  }

  /**
    Over every run each intent recorded is sent once or abandoned once, but for the one the
    submitter is deciding on.
   */
  lemma {:induction false} EveryIntentIsAccountedFor(states: seq<Gate>, steps: seq<Step>, i: nat, batch: string)
    requires GateRun(states, steps) && i < |states| && Accounted(states[0], batch)
    ensures Intents(states[i].log, batch) == Abandonments(states[i].log, batch) + TimesSent(states[i].sent, batch)
      + if Undecided(states[i].submitter, batch) then 1 else 0
  {
    if i > 0 {
      EveryIntentIsAccountedFor(states, steps, i - 1, batch);
      StepAccounts(states[i - 1], steps[i - 1], batch);
    }
  }

  // --- the venue side -----------------------------------------------------

  predicate MovesVenue(s: Step) {
    s.IbkrEvidence? || s.PolymarketInvalidated?
  }

  predicate RecordedRevisionJudged(g: Gate) {
    g.reconciledVenue.Some? ==> g.reconciledVenue.value in g.judgedVenue
  }

  /** The recorded revision is one that was judged clean. */
  lemma {:induction false} RecordedIsJudged(states: seq<Gate>, steps: seq<Step>, i: nat)
    requires GateRun(states, steps) && RecordedRevisionJudged(states[0]) && i < |states|
    ensures RecordedRevisionJudged(states[i])
  {
    if i > 0 {
      RecordedIsJudged(states, steps, i - 1);
    }
  }

  lemma VenueStep(g: Gate, s: Step)
    requires Enabled(g, s)
    ensures Next(g, s).venueRevision == if MovesVenue(s) then g.venueRevision + 1 else g.venueRevision
  {}

  lemma {:induction false} VenueGrows(states: seq<Gate>, steps: seq<Step>, i: nat, j: nat)
    requires GateRun(states, steps) && i <= j < |states|
    ensures states[i].venueRevision <= states[j].venueRevision
    ensures states[i].venueRevision == states[j].venueRevision ==> forall k :: i <= k < j ==> !MovesVenue(steps[k])
  {
    if i < j {
      VenueGrows(states, steps, i, j - 1);
      VenueStep(states[j - 1], steps[j - 1]);
    }
  }

  /** A read under way began at some earlier step, on the revision it carries. */
  lemma {:induction false} ReadingFrom(states: seq<Gate>, steps: seq<Step>, i: nat) returns (b: nat)
    requires GateRun(states, steps) && states[0].reconciler.Resting? && i < |states| && states[i].reconciler.Reading?
    ensures b < i && steps[b] == ReconcileBegins && states[i].reconciler.revision == states[b].venueRevision
  {
    if steps[i - 1].ReconcileBegins? {
      b := i - 1;
    } else {
      b := ReadingFrom(states, steps, i - 1);
    }
  }

  /** A recorded revision was read from step `b` on and judged clean at step `a`, without a move in between. */
  lemma {:induction false} RecordedFrom(states: seq<Gate>, steps: seq<Step>, i: nat) returns (b: nat, a: nat)
    requires GateRun(states, steps) && states[0].reconciler.Resting? && states[0].reconciledVenue.None?
    requires i < |states| && states[i].reconciledVenue.Some?
    ensures b < a < i && steps[b] == ReconcileBegins && steps[a] == ReconcileJudges(true)
    ensures states[b].venueRevision == states[a].venueRevision == states[i].reconciledVenue.value
  {
    if JudgesNow(states[i - 1], steps[i - 1]) {
      a := i - 1;
      b := ReadingFrom(states, steps, a);
    } else {
      RecordStays(states[i - 1], steps[i - 1]);
      b, a := RecordedFrom(states, steps, i - 1);
    }
  }

  predicate JudgesNow(g: Gate, s: Step) {
    s == ReconcileJudges(true) && g.reconciler.Reading? && g.reconciler.revision == g.venueRevision
  }

  lemma RecordStays(g: Gate, s: Step)
    requires Enabled(g, s) && !JudgesNow(g, s)
    ensures Next(g, s).reconciledVenue == g.reconciledVenue
  {}

  /**
    On every run an order outside the manual simulation is sent only on venue evidence that
    one reconciliation read and judged clean: from the beginning of that read, over its
    verdict, to the send no IBKR evidence arrived and no Polymarket state was invalidated.
   */
  lemma SendIsOnJudgedEvidence(states: seq<Gate>, steps: seq<Step>, i: nat) returns (b: nat, a: nat)
    requires GateRun(states, steps) && states[0].reconciler.Resting? && states[0].reconciledVenue.None?
    requires i < |steps| && Sends(states[i], steps[i]) && !ManualSimulation(states[i])
    ensures b < a < i && steps[b] == ReconcileBegins && steps[a] == ReconcileJudges(true)
    ensures forall k :: b <= k < i ==> !MovesVenue(steps[k])
    ensures states[i].venueRevision in states[i].judgedVenue
  {
    SendIsFresh(states, steps, i);
    RecordedIsJudged(states, steps, i);
    b, a := RecordedFrom(states, steps, i);
    VenueGrows(states, steps, b, i);
  }

  const OPEN_BLOCKS := Blocks(false, false, false, false, false, false, true, false)
  const BID := 95.0
  const ARMED_PAGE := Published(0, true, false, false, false, false, false, false, Some(BID))
  const START := Gate([], ARMED_PAGE, OPEN_BLOCKS, 0, None, None, Idle, Resting, [], {}, None)
}

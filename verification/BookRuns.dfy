/**
  The state store's books under the stream processor, the REST reconciliation
  and stream restarts, interleaved at their awaits: a book flagged synchronised
  is an exact replay of the stream events applied to it.
 */
module BookRuns {
  import opened Results
  import opened DepthWalk
  import opened BookLadder
  import opened BookStream
  import opened Snapshots

  /** A book read over REST; it never carries the stream flag. */
  datatype RestBook = RestBook(token: string, bids: seq<BookLevel>, asks: seq<BookLevel>, tick: Option<real>,
      hash: string, timestamp: Option<int>)

  function Unsynchronized(books: Books): Books {
    map t | t in books :: books[t].(synchronized := false)
  }

  predicate Agrees(b: Book, r: RestBook) {
    || (b.hash != "" && r.hash != "" && b.hash == r.hash)
    || (b.bids == r.bids && b.asks == r.asks)
    || (b.timestamp.Some? && r.timestamp.Some? && r.timestamp.value < b.timestamp.value)
  }

  predicate Mismatches(books: Books, r: RestBook) {
    r.token in books && books[r.token].synchronized && !Agrees(books[r.token], r)
  }

  /** One REST book: it stands in for an unsynchronised one, and never touches the ladder of a synchronised one. */
  function ReconcileOne(books: Books, r: RestBook): Books {
    if r.token !in books || !books[r.token].synchronized then
      books[r.token := Book(r.token, r.bids, r.asks, r.tick, r.hash, r.timestamp, false)]
    else if Agrees(books[r.token], r) then
      books[r.token := books[r.token].(tick := if r.tick.Some? && r.tick.value != 0.0 then r.tick
        else books[r.token].tick)]
    else books[r.token := books[r.token].(synchronized := false)]
  }

  function ReconcileAll(books: Books, rest: seq<RestBook>): Books {
    if |rest| == 0 then books else ReconcileOne(ReconcileAll(books, rest[..|rest| - 1]), rest[|rest| - 1])
  }

  function MismatchedTokens(books: Books, rest: seq<RestBook>): seq<string> {
    if |rest| == 0 then []
    else
      var before, r := rest[..|rest| - 1], rest[|rest| - 1];
      MismatchedTokens(books, before) + (if Mismatches(ReconcileAll(books, before), r) then [r.token] else [])
  }

  // --- the store ----------------------------------------------------------

  class BookStore {
    var books: Books

    constructor ()
      ensures books == map[]
    {
      books := map[];
    }

    /** A failure, with its reason, leaves every book as it was. */
    method ApplyPolymarketEvent(event: Event) returns (failure: Option<string>)
      requires Filed(books)
      modifies this
      ensures var updated := UpdateBooks(old(books), event);
        && books == (if updated.Ok? then Store(old(books), updated.value) else old(books))
        && failure == (if updated.Ok? then None else Some(updated.reason))
    {
      var updated := UpdateBooksFromStreamEvent(books, event);
      if updated.Err? {
        return Some(updated.reason);
      }
      StoreBooks(updated.value);
      failure := None;
    }

    method StoreBooks(updated: seq<Book>)
      modifies this
      ensures books == Store(old(books), updated)
    {
      ghost var before := books;
      for i := 0 to |updated|
        invariant books == Store(before, updated[..i])
      {
        assert updated[..i + 1][..i] == updated[..i];
        books := books[updated[i].token := updated[i]];
      }
      assert updated[..|updated|] == updated;
    }

    method MarkUnsynchronized()
      modifies this
      ensures books == Unsynchronized(old(books))
    {
      books := map t | t in books :: books[t].(synchronized := false);
    }

    method ReconcilePolymarketBooks(rest: seq<RestBook>) returns (mismatches: seq<string>)
      modifies this
      ensures books == ReconcileAll(old(books), rest) && mismatches == MismatchedTokens(old(books), rest)
    {
      mismatches := [];
      ghost var before := books;
      for i := 0 to |rest|
        invariant books == ReconcileAll(before, rest[..i]) && mismatches == MismatchedTokens(before, rest[..i])
      {
        assert rest[..i + 1][..i] == rest[..i];
        var r := rest[i];
        if r.token !in books || !books[r.token].synchronized {
          books := books[r.token := Book(r.token, r.bids, r.asks, r.tick, r.hash, r.timestamp, false)];
        } else if Agrees(books[r.token], r) {
          books := books[r.token := books[r.token].(tick := if r.tick.Some? && r.tick.value != 0.0 then r.tick
            else books[r.token].tick)];
        } else {
          mismatches := mismatches + [r.token];
          books := books[r.token := books[r.token].(synchronized := false)];
        }
      }
      assert rest[..|rest|] == rest;
    }
  }

  // --- replay -------------------------------------------------------------

  datatype Ladders = Ladders(bids: seq<BookLevel>, asks: seq<BookLevel>)

  /** The ladders of a token after the applied events: its last snapshot with every later batch folded in. */
  function Replay(applied: seq<Event>, token: string): Option<Ladders> {
    if |applied| == 0 then None
    else
      var e, before := applied[|applied| - 1], Replay(applied[..|applied| - 1], token);
      if e.BookEvent? && e.token == token then Some(Ladders(Levels(e.bids, Buy), Levels(e.asks, Sell)))
      else if e.PriceChange? && e.changes.Some? && before.Some? then
        Some(Ladders(EditedSide(before.value.bids, e.changes.value, token, Buy),
            EditedSide(before.value.asks, e.changes.value, token, Sell)))
      else before
  }

  /** The map of one side after the applied events, entry by entry of a snapshot and change by change of a batch. */
  function FlatReplay(applied: seq<Event>, token: string, side: Side): map<real, real> {
    if |applied| == 0 then map[]
    else
      var e, before := applied[|applied| - 1], FlatReplay(applied[..|applied| - 1], token, side);
      if e.BookEvent? && e.token == token then RawMap(if side.Buy? then e.bids else e.asks)
      else if e.PriceChange? && e.changes.Some? then Replayed(before, e.changes.value, token, side)
      else before
  }

  /** Where the batches are cut does not matter: the replayed ladder holds what change-by-change replay holds. */
  lemma {:induction false} ReplayIsFlat(applied: seq<Event>, token: string)
    requires Replay(applied, token).Some?
    ensures AsMap(Replay(applied, token).value.bids) == FlatReplay(applied, token, Buy)
    ensures AsMap(Replay(applied, token).value.asks) == FlatReplay(applied, token, Sell)
  {
    var e, before := applied[|applied| - 1], applied[..|applied| - 1];
    if e.BookEvent? && e.token == token {
      RenderedSide(e.bids, Buy);
      RenderedSide(e.asks, Sell);
    } else {
      ReplayIsFlat(before, token);
      if e.PriceChange? && e.changes.Some? {
        EditedSideIsReplayed(Replay(before, token).value.bids, e.changes.value, token, Buy);
        EditedSideIsReplayed(Replay(before, token).value.asks, e.changes.value, token, Sell);
      }
    }
  }

  // --- interleavings ------------------------------------------------------

  /** The event processor: at its queue, or handling a protocol error. */
  datatype Processor = Waiting | Failed | Cleared

  /** `applied` records the events the books took and `origins` the stream generation each came from. */
  datatype Stream = Stream(
    books: Books, generation: nat, reset: bool, processor: Processor, mismatch: bool, restarting: bool, halted: bool,
    applied: seq<Event>, origins: seq<nat>)

  datatype Move =
    | Takes(event: Event, from: nat)
    | ClearsFlags
    | RequestsReset
    | RestReads(rest: seq<RestBook>)
    | RestRequestsReset
    | StreamStops
    | StreamRestarts

  predicate Enabled(s: Stream, m: Move) {
    match m
    case Takes(_, _) => s.processor.Waiting?
    case ClearsFlags => s.processor.Failed?
    case RequestsReset => s.processor.Cleared?
    case RestReads(_) => !s.mismatch
    case RestRequestsReset => s.mismatch
    case StreamStops => true
    case StreamRestarts => s.restarting
  }

  /** An event of an older stream, or one that comes while a new stream is asked for, is skipped. */
  predicate Passes(s: Stream, from: nat) {
    from == s.generation && !s.reset
  }

  function Outcome(s: Stream, e: Event, from: nat, r: Result<seq<Book>>): Stream {
    match r
    case Err(reason) => if reason == NOT_FINITE then s.(halted := true) else s.(processor := Failed)
    case Ok(updated) =>
      s.(books := Store(s.books, updated), applied := s.applied + [e], origins := s.origins + [from])
  }

  function Application(s: Stream, e: Event, from: nat): Stream
    requires Filed(s.books)
  {
    Outcome(s, e, from, UpdateBooks(s.books, e))
  }

  /**
    Filtering an event and applying it is one step, for nothing suspends in between, and so
    is a restart: it clears every flag, counts a new generation and drops the request for
    it. The handling of a protocol error is cut finer than the engine cuts it.
   */
  function Next(s: Stream, m: Move): Stream
    requires Enabled(s, m) && Filed(s.books)
  {
    match m
    case Takes(event, from) => if Passes(s, from) then Application(s, event, from) else s
    case ClearsFlags => s.(books := Unsynchronized(s.books), processor := Cleared)
    case RequestsReset => s.(reset := true, processor := Waiting)
    case RestReads(rest) => s.(books := ReconcileAll(s.books, rest), mismatch := MismatchedTokens(s.books, rest) != [])
    case RestRequestsReset => s.(reset := true, mismatch := false)
    case StreamStops => s.(books := Unsynchronized(s.books), restarting := true)
    case StreamRestarts =>
      s.(books := Unsynchronized(s.books), generation := s.generation + 1, reset := false, restarting := false)
  }

  /** A book flagged synchronised is the replay of the applied events, ladder for ladder. */
  predicate ExactReplay(b: Book, applied: seq<Event>) {
    b.synchronized ==> Replay(applied, b.token) == Some(Ladders(b.bids, b.asks))
  }

  ghost predicate StreamInv(s: Stream) {
    Filed(s.books) && forall t :: t in s.books ==> ExactReplay(s.books[t], s.applied)
  }

  lemma {:induction false} StoreAt(books: Books, updated: seq<Book>, t: string)
    requires t in Store(books, updated)
    ensures (exists i :: 0 <= i < |updated| && updated[i].token == t && Store(books, updated)[t] == updated[i])
      || (t in books && Store(books, updated)[t] == books[t] && forall i :: 0 <= i < |updated| ==>
        updated[i].token != t)
  {
    if |updated| > 0 && updated[|updated| - 1].token != t {
      StoreAt(books, updated[..|updated| - 1], t);
    }
  }

  lemma BatchReplays(before: Book, changes: seq<RawChange>, timestamp: Option<int>, b: Book, applied: seq<Event>)
    requires ExactReplay(before, applied) && BatchMakes(before, changes, b)
    ensures ExactReplay(b, applied + [PriceChange(Some(changes), timestamp)])
  {
    assert (applied + [PriceChange(Some(changes), timestamp)])[..|applied|] == applied;
    assert b.bids == SideOf(b, Buy) && b.asks == SideOf(b, Sell);
  }

  lemma UntouchedReplays(b: Book, changes: seq<RawChange>, timestamp: Option<int>, applied: seq<Event>)
    requires ExactReplay(b, applied) && !TouchesToken(changes, b.token)
    ensures ExactReplay(b, applied + [PriceChange(Some(changes), timestamp)])
  {
    assert (applied + [PriceChange(Some(changes), timestamp)])[..|applied|] == applied;
  }

  lemma BatchKeepsReplay(books: Books, changes: seq<RawChange>, timestamp: Option<int>, applied: seq<Event>, t: string)
    requires Filed(books) && UpdateBooks(books, PriceChange(Some(changes), timestamp)).Ok?
    requires forall k :: k in books ==> ExactReplay(books[k], applied)
    ensures var stored := Store(books, UpdateBooks(books, PriceChange(Some(changes), timestamp)).value);
      t in stored ==> stored[t].token == t && ExactReplay(stored[t], applied + [PriceChange(Some(changes), timestamp)])
  {
    var updated := UpdateBooks(books, PriceChange(Some(changes), timestamp)).value;
    if t in Store(books, updated) {
      StoreAt(books, updated, t);
      var b := Store(books, updated)[t];
      if i :| 0 <= i < |updated| && updated[i].token == t && b == updated[i] {
        assert BatchMakes(books[t], changes, b) by { BatchMade(books, changes, timestamp, i); }
        BatchReplays(books[t], changes, timestamp, b, applied);
      } else {
        assert !TouchesToken(changes, t) by { BatchIsAMapUpdate(books, changes, timestamp); }
        UntouchedReplays(b, changes, timestamp, applied);
      }
    }
  }

  lemma BatchMade(books: Books, changes: seq<RawChange>, timestamp: Option<int>, i: nat)
    requires Filed(books) && UpdateBooks(books, PriceChange(Some(changes), timestamp)).Ok?
    requires i < |UpdateBooks(books, PriceChange(Some(changes), timestamp)).value|
    ensures var b := UpdateBooks(books, PriceChange(Some(changes), timestamp)).value[i];
      b.token in books && BatchMakes(books[b.token], changes, b)
  {
    var e := EditAll(books, changes).value;
    EditAllIs(books, changes);
    EditsTrack(books, changes);
    CommittedMakes(books, changes, e, timestamp, e.order[i]);
  }

  lemma EventKeepsReplay(books: Books, e: Event, applied: seq<Event>)
    requires Filed(books) && UpdateBooks(books, e).Ok?
    requires forall k :: k in books ==> ExactReplay(books[k], applied)
    ensures var stored := Store(books, UpdateBooks(books, e).value);
      Filed(stored) && forall t :: t in stored ==> ExactReplay(stored[t], applied + [e])
  {
    var updated := UpdateBooks(books, e).value;
    var stored := Store(books, updated);
    assert (applied + [e])[..|applied|] == applied;
    forall t | t in stored ensures stored[t].token == t && ExactReplay(stored[t], applied + [e]) {
      if e.PriceChange? {
        BatchKeepsReplay(books, e.changes.value, e.timestamp, applied, t);
      } else {
        StoreAt(books, updated, t);
      }
    }
  }

  lemma {:induction false} RestKeepsReplay(books: Books, rest: seq<RestBook>, applied: seq<Event>)
    requires Filed(books) && forall k :: k in books ==> ExactReplay(books[k], applied)
    ensures Filed(ReconcileAll(books, rest)) && forall k :: k in ReconcileAll(books, rest) ==>
      ExactReplay(ReconcileAll(books, rest)[k], applied)
  {
    if |rest| > 0 {
      RestKeepsReplay(books, rest[..|rest| - 1], applied);
    }
  }

  lemma MoveKeepsReplay(s: Stream, m: Move)
    requires StreamInv(s) && Enabled(s, m)
    ensures StreamInv(Next(s, m))
  {
    match m
    case Takes(event, from) => if Passes(s, from) { ApplicationKeepsReplay(s, event, from); }
    case RestReads(rest) => RestKeepsReplay(s.books, rest, s.applied);
    case _ =>
  }

  lemma ApplicationKeepsReplay(s: Stream, e: Event, from: nat)
    requires StreamInv(s)
    ensures StreamInv(Application(s, e, from))
  {
    if UpdateBooks(s.books, e).Ok? {
      EventKeepsReplay(s.books, e, s.applied);
    }
    OutcomeKeepsReplay(s, e, from, UpdateBooks(s.books, e));
  }

  lemma OutcomeKeepsReplay(s: Stream, e: Event, from: nat, r: Result<seq<Book>>)
    requires StreamInv(s)
    requires r.Ok? ==>
      var stored := Store(s.books, r.value);
      Filed(stored) && forall t :: t in stored ==> ExactReplay(stored[t], s.applied + [e])
    ensures StreamInv(Outcome(s, e, from, r))
  {}

  /** Move `i` leads from one state to the next. */
  ghost predicate Leads(states: seq<Stream>, moves: seq<Move>, i: nat)
    requires |states| == |moves| + 1 && i < |moves|
  {
    Enabled(states[i], moves[i]) && Filed(states[i].books) && states[i + 1] == Next(states[i], moves[i])
  }

  ghost predicate StreamRun(states: seq<Stream>, moves: seq<Move>) {
    && |states| == |moves| + 1
    && states[0].books == map[] && states[0].processor.Waiting? && states[0].applied == [] && states[0].origins == []
    && forall i {:trigger Leads(states, moves, i)} :: 0 <= i < |moves| ==> Leads(states, moves, i)
  }

  lemma {:induction false} RunKeepsReplay(states: seq<Stream>, moves: seq<Move>, i: nat)
    requires StreamRun(states, moves) && i < |states|
    ensures StreamInv(states[i])
  {
    if i > 0 {
      RunKeepsReplay(states, moves, i - 1);
      assert Leads(states, moves, i - 1);
      MoveKeepsReplay(states[i - 1], moves[i - 1]);
    }
  }

  /**
    In every reachable state a synchronised book has the ladders of the last snapshot
    applied for its token with every later applied batch folded in: nothing of a REST
    ladder, and side by side the map that change-by-change replay gives.
   */
  lemma SynchronizedIsExactReplay(states: seq<Stream>, moves: seq<Move>, i: nat, t: string)
    requires StreamRun(states, moves) && i < |states| && t in states[i].books && states[i].books[t].synchronized
    ensures Replay(states[i].applied, t) == Some(Ladders(states[i].books[t].bids, states[i].books[t].asks))
    ensures forall s :: AsMap(SideOf(states[i].books[t], s)) == FlatReplay(states[i].applied, t, s)
  {
    RunKeepsReplay(states, moves, i);
    assert ExactReplay(states[i].books[t], states[i].applied);
    ReplayIsFlat(states[i].applied, t);
  }

  predicate AllUnsynchronized(books: Books) {
    forall t :: t in books ==> !books[t].synchronized
  }

  /** After a failure no flag comes back, and no event is applied, before the processor has asked for a new stream. */
  lemma {:induction false} FlagsStayCleared(states: seq<Stream>, moves: seq<Move>, i: nat, j: nat)
    requires StreamRun(states, moves) && i <= j < |states| && states[i].processor.Cleared?
      && AllUnsynchronized(states[i].books)
    requires forall k :: i <= k < j ==> moves[k] != RequestsReset
    ensures states[j].processor.Cleared? && AllUnsynchronized(states[j].books) && states[j].applied == states[i].applied
  {
    if i < j {
      FlagsStayCleared(states, moves, i, j - 1);
      assert Leads(states, moves, j - 1);
      MoveStaysCleared(states[j - 1], moves[j - 1]);
    }
  }

  lemma MoveStaysCleared(s: Stream, m: Move)
    requires Filed(s.books) && Enabled(s, m) && m != RequestsReset
    requires s.processor.Cleared? && AllUnsynchronized(s.books)
    ensures var next := Next(s, m);
      next.processor.Cleared? && AllUnsynchronized(next.books) && next.applied == s.applied
  {
    if m.RestReads? {
      RestNeverSynchronizes(s.books, m.rest);
    }
  }

  lemma {:induction false} RestNeverSynchronizes(books: Books, rest: seq<RestBook>)
    requires AllUnsynchronized(books)
    ensures AllUnsynchronized(ReconcileAll(books, rest)) && MismatchedTokens(books, rest) == []
  {
    if |rest| > 0 {
      RestNeverSynchronizes(books, rest[..|rest| - 1]);
    }
  }

  // --- from a failure to the reset ----------------------------------------

  /** The processor has not yet come back to its queue. */
  ghost predicate Busy(states: seq<Stream>, i: nat, j: nat)
    requires i <= j < |states|
  {
    forall k :: i <= k <= j ==> !states[k].processor.Waiting?
  }

  lemma MoveWhileBusy(s: Stream, m: Move)
    requires Filed(s.books) && Enabled(s, m) && (s.processor.Failed? || s.processor.Cleared?)
    ensures var next := Next(s, m);
      && next.applied == s.applied
      && (next.processor == s.processor
          || (s.processor.Failed? && m == ClearsFlags && next.processor.Cleared? && AllUnsynchronized(next.books))
          || (s.processor.Cleared? && m == RequestsReset && next.processor.Waiting? && next.reset
              && next.books == s.books))
  {}

  /** While the processor handles a failure nothing is applied; it first clears every flag. */
  lemma {:induction false} AfterFailure(states: seq<Stream>, moves: seq<Move>, i: nat, k: nat) returns (c: nat)
    requires StreamRun(states, moves) && i <= k < |states| && states[i].processor.Failed? && Busy(states, i, k)
    ensures states[k].applied == states[i].applied && i <= c <= k
    ensures if states[k].processor.Failed? then c == k
            else
              states[k].processor.Cleared? && c < k && moves[c] == ClearsFlags && AllUnsynchronized(states[c + 1].books)
                 && states[c + 1].processor.Cleared?
  {
    if i == k {
      c := k;
    } else {
      c := AfterFailure(states, moves, i, k - 1);
      assert Leads(states, moves, k - 1);
      MoveWhileBusy(states[k - 1], moves[k - 1]);
      if states[k].processor.Failed? {
        c := k;
      }
    }
  }

  /** The ladders filed for a token are those of `before`, or of a REST book read since. */
  ghost predicate KeptOrRest(before: Books, after: Books, rest: seq<RestBook>, t: string)
    requires t in after
  {
    || (t in before && before[t].bids == after[t].bids && before[t].asks == after[t].asks)
    || exists r :: r in rest && r.token == t && r.bids == after[t].bids && r.asks == after[t].asks
  }

  lemma {:induction false} RestKeepsOrReplaces(books: Books, rest: seq<RestBook>, t: string)
    requires Filed(books) && t in ReconcileAll(books, rest)
    ensures KeptOrRest(books, ReconcileAll(books, rest), rest, t)
  {
    if |rest| > 0 {
      var n := |rest| - 1;
      var mid := ReconcileAll(books, rest[..n]);
      if t in mid {
        RestKeepsOrReplaces(books, rest[..n], t);
        assert forall r :: r in rest[..n] ==> r in rest;
      }
      if rest[n].token == t {
        assert rest[n] in rest;
      }
    }
  }

  /** The REST books read along a stretch of the run. */
  function RestRead(moves: seq<Move>): seq<RestBook> {
    if |moves| == 0 then []
    else RestRead(moves[..|moves| - 1]) + RestOf(moves[|moves| - 1])
  }

  function RestOf(m: Move): seq<RestBook> {
    if m.RestReads? then m.rest else []
  }

  lemma MoveKeepsLadders(s: Stream, m: Move, t: string)
    requires Filed(s.books) && Enabled(s, m) && Next(s, m).applied == s.applied && t in Next(s, m).books
    ensures KeptOrRest(s.books, Next(s, m).books, RestOf(m), t)
  {
    match m
    case RestReads(rest) => RestKeepsOrReplaces(s.books, rest, t);
    case Takes(event, from) =>
      if Passes(s, from) {
        ApplicationGrows(s, event, from);
        assert |s.applied + [event]| == |s.applied| + 1;
      }
    case _ =>
  }

  lemma KeptAgain(a: Books, b: Books, c: Books, first: seq<RestBook>, second: seq<RestBook>, t: string)
    requires t in c && KeptOrRest(b, c, second, t) && (t in b ==> KeptOrRest(a, b, first, t))
    ensures KeptOrRest(a, c, first + second, t)
  {
    assert forall r :: r in first + second <==> r in first || r in second;
  }

  lemma AppliedSameBetween(states: seq<Stream>, moves: seq<Move>, i: nat, x: nat, k: nat)
    requires StreamRun(states, moves) && i <= x <= k < |states| && states[k].applied == states[i].applied
    ensures states[x].applied == states[i].applied
  {
    AppliedGrows(states, moves, i, x);
    AppliedGrows(states, moves, x, k);
  }

  lemma LastLadderMove(states: seq<Stream>, moves: seq<Move>, k: nat, t: string)
    requires StreamRun(states, moves) && k < |moves| && states[k + 1].applied == states[k].applied
      && t in states[k + 1].books
    ensures KeptOrRest(states[k].books, states[k + 1].books, RestOf(moves[k]), t)
  {
    assert Leads(states, moves, k);
    MoveKeepsLadders(states[k], moves[k], t);
  }

  lemma RestReadLast(moves: seq<Move>, i: nat, k: nat)
    requires i < k <= |moves|
    ensures RestRead(moves[i..k]) == RestRead(moves[i..k - 1]) + RestOf(moves[k - 1])
  {
    assert moves[i..k][..k - 1 - i] == moves[i..k - 1];
  }

  /** Move by move, the ladders of `t` are kept or come from the REST books of that move. */
  ghost predicate KeptEachMove(states: seq<Stream>, moves: seq<Move>, i: nat, k: nat, t: string)
    requires |states| == |moves| + 1 && i <= k < |states|
  {
    forall x :: i <= x < k && t in states[x + 1].books ==>
      KeptOrRest(states[x].books, states[x + 1].books, RestOf(moves[x]), t)
  }

  lemma {:induction false} KeptAllAlong(states: seq<Stream>, moves: seq<Move>, i: nat, k: nat, t: string)
    requires |states| == |moves| + 1 && i <= k < |states| && KeptEachMove(states, moves, i, k, t)
      && t in states[k].books
    ensures KeptOrRest(states[i].books, states[k].books, RestRead(moves[i..k]), t)
  {
    if i < k {
      if t in states[k - 1].books {
        KeptAllAlong(states, moves, i, k - 1, t);
      }
      RestReadLast(moves, i, k);
      KeptAgain(states[i].books, states[k - 1].books, states[k].books, RestRead(moves[i..k - 1]), RestOf(moves[k - 1]),
          t);
    }
  }

  lemma LaddersWithoutEvents(states: seq<Stream>, moves: seq<Move>, i: nat, k: nat, t: string)
    requires StreamRun(states, moves) && i <= k < |states| && t in states[k].books
    requires forall x :: i <= x <= k ==> states[x].applied == states[i].applied
    ensures KeptOrRest(states[i].books, states[k].books, RestRead(moves[i..k]), t)
  {
    forall x | i <= x < k && t in states[x + 1].books
      ensures KeptOrRest(states[x].books, states[x + 1].books, RestOf(moves[x]), t)
    {
      LastLadderMove(states, moves, x, t);
    }
    KeptAllAlong(states, moves, i, k, t);
  }

  lemma {:induction false} AppliedGrows(states: seq<Stream>, moves: seq<Move>, i: nat, k: nat)
    requires StreamRun(states, moves) && i <= k < |states|
    ensures states[i].applied <= states[k].applied
  {
    if i < k {
      AppliedGrows(states, moves, i, k - 1);
      assert Leads(states, moves, k - 1);
      MoveGrows(states[k - 1], moves[k - 1]);
    }
  }

  lemma MoveGrows(s: Stream, m: Move)
    requires Filed(s.books) && Enabled(s, m)
    ensures s.applied <= Next(s, m).applied
  {
    if m.Takes? && Passes(s, m.from) {
      ApplicationGrows(s, m.event, m.from);
    }
  }

  lemma OutcomeGrows(s: Stream, e: Event, from: nat, r: Result<seq<Book>>)
    ensures var next := Outcome(s, e, from, r);
      || (next.applied == s.applied && next.books == s.books)
      || next.applied == s.applied + [e]
  {}

  lemma ApplicationGrows(s: Stream, e: Event, from: nat)
    requires Filed(s.books)
    ensures var next := Application(s, e, from);
      || (next.applied == s.applied && next.books == s.books)
      || next.applied == s.applied + [e]
  {
    OutcomeGrows(s, e, from, UpdateBooks(s.books, e));
  }

  /** The processor takes an event that fails its integrity check. */
  predicate Rejects(s: Stream, m: Move) {
    && m.Takes? && Passes(s, m.from) && s.processor.Waiting? && Filed(s.books)
    && var r := UpdateBooks(s.books, m.event);
    r.Err? && r.reason != NOT_FINITE
  }

  lemma RejectionFails(states: seq<Stream>, moves: seq<Move>, i: nat)
    requires StreamRun(states, moves) && i < |moves| && Rejects(states[i], moves[i])
    ensures states[i + 1].processor.Failed? && states[i + 1].applied == states[i].applied
  {
    assert Leads(states, moves, i);
  }

  lemma LastMoveResets(states: seq<Stream>, moves: seq<Move>, k: nat)
    requires StreamRun(states, moves) && k < |moves|
    requires states[k].processor.Failed? || states[k].processor.Cleared?
    requires states[k + 1].processor.Waiting?
    ensures states[k].processor.Cleared? && moves[k] == RequestsReset && states[k + 1].reset
    ensures states[k + 1].books == states[k].books && states[k + 1].applied == states[k].applied
  {
    assert Leads(states, moves, k);
    MoveWhileBusy(states[k], moves[k]);
  }

  lemma ResetIsLast(states: seq<Stream>, moves: seq<Move>, i: nat, j: nat) returns (c: nat)
    requires StreamRun(states, moves) && i < j < |states| && states[i].processor.Failed?
    requires Busy(states, i, j - 1) && states[j].processor.Waiting?
    ensures moves[j - 1] == RequestsReset && states[j].reset && states[j].books == states[j - 1].books
    ensures states[j].applied == states[i].applied
    ensures i <= c < j - 1 && moves[c] == ClearsFlags
    ensures states[c + 1].processor.Cleared? && AllUnsynchronized(states[c + 1].books)
  {
    c := AfterFailure(states, moves, i, j - 1);
    LastMoveResets(states, moves, j - 1);
  }

  lemma StaysCleared(states: seq<Stream>, moves: seq<Move>, c: nat, j: nat, k: nat)
    requires StreamRun(states, moves) && c <= k < j < |states| && Busy(states, c, j - 1)
    requires states[c].processor.Cleared? && AllUnsynchronized(states[c].books)
    ensures AllUnsynchronized(states[k].books)
  {
    forall x | c <= x < k ensures moves[x] != RequestsReset {
      assert Leads(states, moves, x) && !states[x + 1].processor.Waiting?;
    }
    FlagsStayCleared(states, moves, c, k);
  }

  /**
    When the processor rejects an event at move `i` and is back at its queue for the first
    time at `j`: in between no event was applied, every ladder is the one before or a REST
    one, every flag was cleared at some move `c` and none came back, and the processor's
    last move asked for a new stream.
   */
  lemma FailureLeadsToReset(states: seq<Stream>, moves: seq<Move>, i: nat, j: nat) returns (c: nat)
    requires StreamRun(states, moves) && i + 1 < j < |states| && Rejects(states[i], moves[i])
    requires Busy(states, i + 1, j - 1) && states[j].processor.Waiting?
    ensures forall k :: i <= k <= j ==> states[k].applied == states[i].applied
    ensures forall k, t :: i <= k <= j && t in states[k].books ==>
      KeptOrRest(states[i].books, states[k].books, RestRead(moves[i..k]), t)
    ensures i < c < j && moves[c] == ClearsFlags
    ensures forall k :: c < k <= j ==> AllUnsynchronized(states[k].books)
    ensures moves[j - 1] == RequestsReset && states[j].reset
  {
    RejectionFails(states, moves, i);
    c := ResetIsLast(states, moves, i + 1, j);
    NothingApplied(states, moves, i, j);
    ClearedFrom(states, moves, c + 1, j);
  }

  lemma ClearedFrom(states: seq<Stream>, moves: seq<Move>, c: nat, j: nat)
    requires StreamRun(states, moves) && c < j < |states| && Busy(states, c, j - 1)
    requires states[c].processor.Cleared? && AllUnsynchronized(states[c].books)
    requires states[j].books == states[j - 1].books
    ensures forall k :: c <= k <= j ==> AllUnsynchronized(states[k].books)
  {
    forall k | c <= k < j ensures AllUnsynchronized(states[k].books) {
      StaysCleared(states, moves, c, j, k);
    }
  }

  /** A stretch of the run that applies nothing keeps the ladders but for REST books. */
  lemma NothingApplied(states: seq<Stream>, moves: seq<Move>, i: nat, j: nat)
    requires StreamRun(states, moves) && i <= j < |states| && states[j].applied == states[i].applied
    ensures forall k :: i <= k <= j ==> states[k].applied == states[i].applied
    ensures forall k, t :: i <= k <= j && t in states[k].books ==>
      KeptOrRest(states[i].books, states[k].books, RestRead(moves[i..k]), t)
  {
    forall k | i <= k <= j ensures states[k].applied == states[i].applied {
      AppliedSameBetween(states, moves, i, k, j);
    }
    forall k, t | i <= k <= j && t in states[k].books
      ensures KeptOrRest(states[i].books, states[k].books, RestRead(moves[i..k]), t)
    {
      LaddersWithoutEvents(states, moves, i, k, t);
    }
  }

  // --- from a REST mismatch to the reset ----------------------------------

  /** A REST book with another hash or none, another ladder, and no older timestamp. */
  predicate Contradicted(b: Book, r: RestBook) {
    && (b.hash == "" || r.hash != b.hash)
    && (r.bids != b.bids || r.asks != b.asks)
    && (b.timestamp.Some? && r.timestamp.Some? ==> r.timestamp.value >= b.timestamp.value)
  }

  ghost predicate AnyContradicts(b: Book, rest: seq<RestBook>) {
    exists r :: r in rest && r.token == b.token && Contradicted(b, r)
  }

  /** The tick a token has after REST books that name none or a new one. */
  function LastTick(tick: Option<real>, rest: seq<RestBook>, token: string): Option<real> {
    if |rest| == 0 then tick
    else
      var r := rest[|rest| - 1];
      if r.token == token && r.tick.Some? && r.tick.value != 0.0 then r.tick
      else LastTick(tick, rest[..|rest| - 1], token)
  }

  lemma AnyContradictsLast(b: Book, rest: seq<RestBook>)
    requires |rest| > 0
    ensures AnyContradicts(b, rest) <==>
      AnyContradicts(b, rest[..|rest| - 1])
      || (rest[|rest| - 1].token == b.token && Contradicted(b, rest[|rest| - 1]))
  {
    assert forall r :: r in rest <==> r in rest[..|rest| - 1] || r == rest[|rest| - 1];
  }

  /**
    A flagged book loses its flag, and its token is reported, exactly when some REST book of
    the token contradicts it; its ladders, hash and timestamp stay as the stream left them.
   */
  lemma {:induction false} RestVerdict(books: Books, rest: seq<RestBook>, t: string)
    requires Filed(books) && t in books && books[t].synchronized
    ensures t in ReconcileAll(books, rest)
    ensures var after := ReconcileAll(books, rest)[t];
      && (after.synchronized <==> !AnyContradicts(books[t], rest))
      && (after.synchronized ==> after == books[t].(tick := LastTick(books[t].tick, rest, t)))
    ensures t in MismatchedTokens(books, rest) <==> AnyContradicts(books[t], rest)
  {
    if |rest| > 0 {
      RestVerdict(books, rest[..|rest| - 1], t);
      AnyContradictsLast(books[t], rest);
    }
  }

  /** A book that the last REST book of its token contradicts keeps its ladders, hash and timestamp, unflagged. */
  lemma {:induction false} ContradictedKeepsItsLadders(books: Books, rest: seq<RestBook>, i: nat)
    requires Filed(books) && i < |rest| && forall k :: i < k < |rest| ==> rest[k].token != rest[i].token
    requires rest[i].token in books && books[rest[i].token].synchronized
    requires !AnyContradicts(books[rest[i].token], rest[..i]) && Contradicted(books[rest[i].token], rest[i])
    ensures var t := rest[i].token;
      && t in ReconcileAll(books, rest)
      && ReconcileAll(books, rest)[t]
        == books[t].(synchronized := false, tick := LastTick(books[t].tick, rest[..i], t))
  {
    var n := |rest| - 1;
    if i < n {
      assert rest[..n][..i] == rest[..i];
      ContradictedKeepsItsLadders(books, rest[..n], i);
    } else {
      RestVerdict(books, rest[..n], rest[i].token);
    }
  }

  /** A token without a flagged book takes the last REST book read for it, unflagged. */
  lemma {:induction false} UnflaggedTakesTheRestBook(books: Books, rest: seq<RestBook>, i: nat)
    requires i < |rest| && forall k :: i < k < |rest| ==> rest[k].token != rest[i].token
    requires rest[i].token in books ==> !books[rest[i].token].synchronized
    ensures rest[i].token in ReconcileAll(books, rest)
    ensures var r := rest[i];
      ReconcileAll(books, rest)[r.token] == Book(r.token, r.bids, r.asks, r.tick, r.hash, r.timestamp, false)
    ensures rest[i].token !in MismatchedTokens(books, rest)
  {
    var n := |rest| - 1;
    if i < n {
      UnflaggedTakesTheRestBook(books, rest[..n], i);
    } else {
      UnflaggedStays(books, rest[..n], rest[i].token);
    }
  }

  lemma {:induction false} UnflaggedStays(books: Books, rest: seq<RestBook>, t: string)
    requires t in books ==> !books[t].synchronized
    ensures t in ReconcileAll(books, rest) ==> !ReconcileAll(books, rest)[t].synchronized
    ensures t !in MismatchedTokens(books, rest)
  {
    if |rest| > 0 {
      UnflaggedStays(books, rest[..|rest| - 1], t);
    }
  }

  lemma MismatchStays(s: Stream, m: Move)
    requires Filed(s.books) && Enabled(s, m) && s.mismatch
    ensures Next(s, m).mismatch || (m == RestRequestsReset && Next(s, m).reset)
  {}

  lemma {:induction false} MismatchIsAnswered(states: seq<Stream>, moves: seq<Move>, i: nat, j: nat) returns (c: nat)
    requires StreamRun(states, moves) && i < j < |states| && states[i].mismatch && !states[j].mismatch
    ensures i <= c < j && moves[c] == RestRequestsReset && states[c + 1].reset
    ensures forall k :: i <= k < c ==> !moves[k].RestReads?
    decreases j - i
  {
    assert Leads(states, moves, i);
    MismatchStays(states[i], moves[i]);
    if states[i + 1].mismatch {
      c := MismatchIsAnswered(states, moves, i + 1, j);
    } else {
      c := i;
    }
  }

  /**
    A REST read that contradicts a flagged book takes its flag away, and before the
    reconciliation reads again it asks for a new stream.
   */
  lemma MismatchLeadsToReset(states: seq<Stream>, moves: seq<Move>, i: nat, j: nat, t: string) returns (c: nat)
    requires StreamRun(states, moves) && i + 1 < j < |states| && moves[i].RestReads?
    requires t in states[i].books && states[i].books[t].synchronized
      && AnyContradicts(states[i].books[t], moves[i].rest)
    requires !states[j].mismatch
    ensures t in states[i + 1].books && !states[i + 1].books[t].synchronized
    ensures i < c < j && moves[c] == RestRequestsReset && states[c + 1].reset
    ensures forall k :: i < k < c ==> !moves[k].RestReads?
  {
    assert Leads(states, moves, i);
    RestVerdict(states[i].books, moves[i].rest, t);
    c := MismatchIsAnswered(states, moves, i + 1, j);
  }

  // --- which events are applied -------------------------------------------

  /** How often the stream was restarted. */
  function Restarts(moves: seq<Move>): nat {
    if |moves| == 0 then 0
    else Restarts(moves[..|moves| - 1]) + if moves[|moves| - 1].StreamRestarts? then 1 else 0
  }

  /** A new stream was asked for, and the stream has not been restarted since. */
  predicate NewStreamAwaited(before: bool, moves: seq<Move>) {
    if |moves| == 0 then before
    else
      var m := moves[|moves| - 1];
      if m.RequestsReset? || m.RestRequestsReset? then true
      else if m.StreamRestarts? then false
      else NewStreamAwaited(before, moves[..|moves| - 1])
  }

  lemma MoveCountsStreams(s: Stream, m: Move)
    requires Filed(s.books) && Enabled(s, m)
    ensures Next(s, m).generation == s.generation + if m.StreamRestarts? then 1 else 0
    ensures Next(s, m).reset == if m.RequestsReset? || m.RestRequestsReset? then true
      else if m.StreamRestarts? then false else s.reset
  {}

  lemma {:induction false} StreamsAreCounted(states: seq<Stream>, moves: seq<Move>, i: nat)
    requires StreamRun(states, moves) && i < |states|
    ensures states[i].generation == states[0].generation + Restarts(moves[..i])
    ensures states[i].reset == NewStreamAwaited(states[0].reset, moves[..i])
  {
    if i > 0 {
      StreamsAreCounted(states, moves, i - 1);
      assert Leads(states, moves, i - 1);
      MoveCountsStreams(states[i - 1], moves[i - 1]);
      assert moves[..i][..i - 1] == moves[..i - 1];
    }
  }

  lemma MoveApplies(s: Stream, m: Move)
    requires Filed(s.books) && Enabled(s, m)
    ensures Next(s, m).applied ==
      if m.Takes? && m.from == s.generation && !s.reset && UpdateBooks(s.books, m.event).Ok? then s.applied + [m.event]
      else s.applied
  {}

  /**
    Over every run an event is applied exactly when the processor takes it from the stream
    that has been restarted as often as the run says, no new stream is awaited, and the
    books accept it.
   */
  lemma AppliesExactlyWhen(states: seq<Stream>, moves: seq<Move>, i: nat)
    requires StreamRun(states, moves) && i < |moves|
    ensures Filed(states[i].books)
    ensures states[i + 1].applied ==
      if moves[i].Takes? && moves[i].from == states[0].generation + Restarts(moves[..i])
        && !NewStreamAwaited(states[0].reset, moves[..i]) && UpdateBooks(states[i].books, moves[i].event).Ok?
      then states[i].applied + [moves[i].event] else states[i].applied
  {
    StreamsAreCounted(states, moves, i);
    assert Leads(states, moves, i);
    MoveApplies(states[i], moves[i]);
  }

  // --- one stream generation ----------------------------------------------

  /**
    The generations of the events behind a token's ladders: its last snapshot and the batches
    that touched it since.
   */
  ghost function Sources(applied: seq<Event>, origins: seq<nat>, token: string): set<nat>
    requires |applied| == |origins|
  {
    if |applied| == 0 then {}
    else
      var n := |applied| - 1;
      var e, before := applied[n], Sources(applied[..n], origins[..n], token);
      if e.BookEvent? && e.token == token then {origins[n]}
      else if e.PriceChange? && e.changes.Some? && TouchesToken(e.changes.value, token) then before + {origins[n]}
      else before
  }

  /** A book flagged synchronised stands on events of the current generation only. */
  ghost predicate Current(s: Stream) {
    && |s.applied| == |s.origins|
    && forall t :: t in s.books && s.books[t].synchronized ==> Sources(s.applied, s.origins, t) == {s.generation}
  }

  lemma SourcesGrow(applied: seq<Event>, origins: seq<nat>, e: Event, from: nat, token: string)
    requires |applied| == |origins|
    ensures Sources(applied + [e], origins + [from], token) ==
      if e.BookEvent? && e.token == token then {from}
      else if e.PriceChange? && e.changes.Some? && TouchesToken(e.changes.value, token) then
        Sources(applied, origins, token) + {from}
      else Sources(applied, origins, token)
  {
    assert (applied + [e])[..|applied|] == applied && (origins + [from])[..|origins|] == origins;
  }

  /** An accepted event that is not a snapshot flags no book that was not flagged. */
  lemma FlagsComeFromSnapshots(books: Books, e: Event, t: string)
    requires Filed(books) && UpdateBooks(books, e).Ok?
    ensures var stored := Store(books, UpdateBooks(books, e).value);
      t in stored && stored[t].synchronized ==> (e.BookEvent? && e.token == t) || (t in books && books[t].synchronized)
  {
    var updated := UpdateBooks(books, e).value;
    var stored := Store(books, updated);
    if t in stored {
      StoreAt(books, updated, t);
      if e.PriceChange? {
        if i :| 0 <= i < |updated| && updated[i].token == t && stored[t] == updated[i] {
          BatchMade(books, e.changes.value, e.timestamp, i);
        }
      }
    }
  }

  /** A batch is accepted only if every book it touches is flagged. */
  lemma TouchedIsSynchronized(books: Books, changes: seq<RawChange>, timestamp: Option<int>, t: string)
    requires Filed(books) && UpdateBooks(books, PriceChange(Some(changes), timestamp)).Ok? && TouchesToken(changes, t)
    ensures t in books && books[t].synchronized
  {
    BatchIsAMapUpdate(books, changes, timestamp);
    var s := if TouchesSide(changes, t, Buy) then Buy else Sell;
    assert TouchesSide(changes, t, s);
    var c :| c in changes && OnSide(c, t, s);
    assert ValidChange(books, c);
  }

  lemma ApplicationKeepsCurrent(s: Stream, e: Event)
    requires StreamInv(s) && Current(s) && UpdateBooks(s.books, e).Ok?
    ensures Current(Application(s, e, s.generation))
  {
    var next := Application(s, e, s.generation);
    forall t | t in next.books && next.books[t].synchronized
      ensures Sources(next.applied, next.origins, t) == {s.generation}
    {
      FlagsComeFromSnapshots(s.books, e, t);
      SourcesGrow(s.applied, s.origins, e, s.generation, t);
      if e.PriceChange? && TouchesToken(e.changes.value, t) {
        TouchedIsSynchronized(s.books, e.changes.value, e.timestamp, t);
      }
    }
  }

  lemma {:induction false} RestSynchronizesNone(books: Books, rest: seq<RestBook>, t: string)
    requires Filed(books) && t in ReconcileAll(books, rest) && ReconcileAll(books, rest)[t].synchronized
    ensures t in books && books[t].synchronized
  {
    if |rest| > 0 {
      RestSynchronizesNone(books, rest[..|rest| - 1], t);
    }
  }

  lemma MoveKeepsCurrent(s: Stream, m: Move)
    requires StreamInv(s) && Current(s) && Enabled(s, m)
    ensures Current(Next(s, m))
  {
    match m
    case Takes(event, from) =>
      if Passes(s, from) && UpdateBooks(s.books, event).Ok? {
        ApplicationKeepsCurrent(s, event);
      }
    case RestReads(rest) =>
      forall t | t in ReconcileAll(s.books, rest) && ReconcileAll(s.books, rest)[t].synchronized
        ensures t in s.books && s.books[t].synchronized
      {
        RestSynchronizesNone(s.books, rest, t);
      }
    case _ =>
  }

  lemma {:induction false} RunKeepsCurrent(states: seq<Stream>, moves: seq<Move>, i: nat)
    requires StreamRun(states, moves) && i < |states|
    ensures Current(states[i])
  {
    if i > 0 {
      RunKeepsCurrent(states, moves, i - 1);
      RunKeepsReplay(states, moves, i - 1);
      assert Leads(states, moves, i - 1);
      MoveKeepsCurrent(states[i - 1], moves[i - 1]);
    }
  }

  /**
    In every reachable state, across any restarts: the snapshot behind a synchronised book
    and every batch folded into it since came from the current stream.
   */
  lemma SynchronizedIsOneGeneration(states: seq<Stream>, moves: seq<Move>, i: nat, t: string)
    requires StreamRun(states, moves) && i < |states| && t in states[i].books && states[i].books[t].synchronized
    ensures |states[i].applied| == |states[i].origins|
    ensures Sources(states[i].applied, states[i].origins, t) == {states[i].generation}
  {
    RunKeepsCurrent(states, moves, i);
  }
}

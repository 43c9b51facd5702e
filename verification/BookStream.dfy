/**
  Market-stream events applied to the books: full snapshots, batches of price
  changes and tick-size changes. A batch is atomic: it is validated as a whole
  when it is committed.
 */
module BookStream {
  import opened Results
  import opened DepthWalk
  import opened EntryPlan
  import opened BookLadder

  datatype Book = Book(
    token: string, bids: seq<BookLevel>, asks: seq<BookLevel>, tick: Option<real>, hash: string, timestamp: Option<int>,
    synchronized: bool)

  type Books = map<string, Book>

  /** What a text field of a snapshot reads as. */
  datatype Reading = Unreadable | NotANumber | Infinite(negative: bool) | Finite(value: real)

  datatype RawLevel = RawLevel(price: Reading, size: Reading)

  /** A number of a price change that does not parse, or is not finite, is None. */
  datatype RawChange =
    | NotAnObject
    | Change(token: string, side: Option<Side>, price: Option<real>, size: Option<real>, hash: string)

  datatype Event =
    | BookEvent(token: string, bids: seq<RawLevel>, asks: seq<RawLevel>, tick: Option<real>, hash: string,
        timestamp: Option<int>)
    | PriceChange(changes: Option<seq<RawChange>>, timestamp: Option<int>)
    | TickSizeChange(token: string, tick: Option<real>, timestamp: Option<int>)
    | OtherEvent

  function SideOf(b: Book, side: Side): seq<BookLevel> {
    if side.Buy? then b.bids else b.asks
  }

  // --- snapshots ----------------------------------------------------------

  predicate NotPositive(r: Reading) {
    (r.Finite? && r.value <= 0.0) || (r.Infinite? && r.negative)
  }

  /** An unreadable or not positive level is skipped; the size is not looked at when the price is not positive. */
  predicate Skipped(l: RawLevel) {
    || l.price.Unreadable? || l.size.Unreadable?
    || NotPositive(l.price) || (!l.price.NotANumber? && NotPositive(l.size))
  }

  /** Comparing with NaN raises, and so does a level made of an infinite number. */
  predicate Raises(l: RawLevel) {
    !Skipped(l) && !(l.price.Finite? && l.size.Finite?)
  }

  predicate AnyRaises(raw: seq<RawLevel>) {
    exists l :: l in raw && Raises(l)
  }

  function Parsed(raw: seq<RawLevel>): seq<BookLevel> {
    if |raw| == 0 then []
    else
      var l := raw[0];
      if Skipped(l) || Raises(l) then Parsed(raw[1..])
      else [BookLevel(l.price.value, l.size.value)] + Parsed(raw[1..])
  }

  function Levels(raw: seq<RawLevel>, side: Side): seq<BookLevel> {
    SideSorted(Parsed(raw), side)
  }

  predicate ValidLevels(levels: seq<BookLevel>) {
    forall l :: l in levels ==> 0.0 < l.price < 1.0 && l.size > 0.0
  }

  predicate Crossed(b: Book) {
    BestBid(b.bids).Some? && BestAsk(b.asks).Some? && BestBid(b.bids).value >= BestAsk(b.asks).value
  }

  predicate ValidBook(b: Book) {
    ValidLevels(b.bids) && ValidLevels(b.asks) && !Crossed(b)
  }

  function SnapshotBook(books: Books, e: Event): Book
    requires e.BookEvent?
  {
    Book(e.token, Levels(e.bids, Buy), Levels(e.asks, Sell),
         if e.tick.Some? then e.tick else if e.token in books then books[e.token].tick else None,
         e.hash, e.timestamp, true)
  }

  // --- price changes ------------------------------------------------------

  type SideKey = (string, Side)

  /** The dictionaries one batch has copied and edited so far, and the hashes of the tokens it touched. */
  datatype Edits = Edits(sides: map<SideKey, seq<BookLevel>>, hashes: map<string, string>, order: seq<string>)

  const NO_EDITS := Edits(map[], map[], [])

  predicate ValidChange(books: Books, c: RawChange) {
    && c.Change?
    && c.token != "" && c.token in books && books[c.token].synchronized
    && c.price.Some? && c.size.Some? && 0.0 < c.price.value < 1.0 && c.size.value >= 0.0
    && c.side.Some?
  }

  function Edited(entries: seq<BookLevel>, c: RawChange): seq<BookLevel>
    requires c.Change? && c.price.Some? && c.size.Some?
  {
    if c.size.value == 0.0 then Pop(entries, c.price.value) else Put(entries, c.price.value, c.size.value)
  }

  function EditOne(books: Books, e: Edits, c: RawChange): Edits
    requires ValidChange(books, c)
  {
    var key := (c.token, c.side.value);
    var entries := if key in e.sides then e.sides[key] else DictOf(SideOf(books[c.token], c.side.value));
    Edits(e.sides[key := Edited(entries, c)],
          e.hashes[c.token := if c.hash != "" then c.hash else books[c.token].hash],
          if c.token in e.hashes then e.order else e.order + [c.token])
  }

  function EditAll(books: Books, changes: seq<RawChange>): Result<Edits> {
    if |changes| == 0 then Ok(NO_EDITS)
    else
      match EditAll(books, changes[..|changes| - 1])
      case Err(reason) => Err(reason)
      case Ok(e) =>
        var c := changes[|changes| - 1];
        if ValidChange(books, c) then Ok(EditOne(books, e, c)) else Err("invalid price change")
  }

  function Committed(b: Book, e: Edits, timestamp: Option<int>): Book
    requires b.token in e.hashes
  {
    b.(hash := e.hashes[b.token], timestamp := timestamp,
       bids := if (b.token, Buy) in e.sides then SideSorted(e.sides[(b.token, Buy)], Buy) else b.bids,
       asks := if (b.token, Sell) in e.sides then SideSorted(e.sides[(b.token, Sell)], Sell) else b.asks)
  }

  /** Every book filed under its own token. */
  predicate Filed(books: Books) {
    forall t :: t in books ==> books[t].token == t
  }

  ghost predicate Tracks(books: Books, e: Edits) {
    && (forall t :: t in e.order <==> t in e.hashes)
    && (forall t :: t in e.hashes ==> t in books && books[t].synchronized)
    && (forall k :: k in e.sides ==> k.0 in e.hashes)
    && (forall i, j :: 0 <= i < j < |e.order| ==> e.order[i] != e.order[j])
  }

  lemma {:induction false} EditsTrack(books: Books, changes: seq<RawChange>)
    ensures EditAll(books, changes).Ok? ==> Tracks(books, EditAll(books, changes).value)
  {
    if |changes| > 0 {
      EditsTrack(books, changes[..|changes| - 1]);
    }
  }

  /** The touched books after the batch, in the order they were first touched. */
  function CommitAll(books: Books, e: Edits, timestamp: Option<int>): (r: seq<Book>)
    requires Filed(books) && Tracks(books, e)
    ensures |r| == |e.order| && forall i :: 0 <= i < |r| ==>
      e.order[i] in e.hashes && r[i] == Committed(books[e.order[i]], e, timestamp)
  {
    seq(|e.order|, i requires 0 <= i < |e.order| => Committed(books[e.order[i]], e, timestamp))
  }

  predicate AllValid(made: seq<Book>) {
    forall i :: 0 <= i < |made| ==> ValidBook(made[i])
  }

  function Validated(made: seq<Book>): Result<seq<Book>> {
    if AllValid(made) then Ok(made) else Err("market stream produced an invalid or crossed order book")
  }

  function Committing(books: Books, e: Edits, timestamp: Option<int>): Result<seq<Book>>
    requires Filed(books) && Tracks(books, e)
  {
    Validated(CommitAll(books, e, timestamp))
  }

  // --- events -------------------------------------------------------------

  /** The one failure that is not a protocol error: it stops trading, and asks for no new stream. */
  const NOT_FINITE := "a level of the snapshot is not a finite number"

  function UpdateBooks(books: Books, event: Event): Result<seq<Book>>
    requires Filed(books)
  {
    match event
    case BookEvent(token, _, _, _, _, _) =>
      if token == "" then Err("market book event has no token id")
      else if AnyRaises(event.bids) || AnyRaises(event.asks) then Err(NOT_FINITE)
      else if ValidBook(SnapshotBook(books, event)) then Ok([SnapshotBook(books, event)])
      else Err("market stream produced an invalid or crossed order book")
    case PriceChange(changes, timestamp) =>
      if changes.None? then Err("price-change event has no changes")
      else
        (match EditAll(books, changes.value)
         case Err(reason) => Err(reason)
         case Ok(e) =>
           EditsTrack(books, changes.value);
           Committing(books, e, timestamp))
    case TickSizeChange(token, tick, timestamp) =>
      if token !in books || tick.None? || tick.value <= 0.0
        then Err("tick-size change cannot be applied to the current book")
      else Ok([books[token].(tick := tick, timestamp := timestamp)])
    case OtherEvent => Ok([])
  }

  function Store(books: Books, updated: seq<Book>): Books {
    if |updated| == 0 then books
    else Store(books, updated[..|updated| - 1])[updated[|updated| - 1].token := updated[|updated| - 1]]
  }

  method ParseLevels(raw: seq<RawLevel>) returns (r: Result<seq<BookLevel>>)
    ensures r == if AnyRaises(raw) then Err(NOT_FINITE) else Ok(Parsed(raw))
  {
    var levels := [];
    for i := 0 to |raw|
      invariant forall k :: 0 <= k < i ==> !Raises(raw[k])
      invariant levels + Parsed(raw[i..]) == Parsed(raw)
    {
      var l := raw[i];
      assert raw[i..][1..] == raw[i + 1..];
      if l.price.Unreadable? || l.size.Unreadable? || NotPositive(l.price)
        || (!l.price.NotANumber? && NotPositive(l.size))
      {
        continue;
      }
      if !(l.price.Finite? && l.size.Finite?) {
        assert Raises(raw[i]);
        return Err(NOT_FINITE);
      }
      levels := levels + [BookLevel(l.price.value, l.size.value)];
    }
    assert raw[|raw|..] == [] && levels + [] == levels;
    r := Ok(levels);
  }

  method TakeSnapshot(books: Books, event: Event) returns (r: Result<seq<Book>>)
    requires Filed(books) && event.BookEvent?
    ensures r == UpdateBooks(books, event)
  {
    if event.token == "" {
      return Err("market book event has no token id");
    }
    var bids := ParseLevels(event.bids);
    var asks := ParseLevels(event.asks);
    if bids.Err? || asks.Err? {
      return Err(NOT_FINITE);
    }
    var tick :=
      if event.tick.Some? then event.tick else if event.token in books then books[event.token].tick else None;
    var book :=
      Book(event.token, SideSorted(bids.value, Buy), SideSorted(asks.value, Sell), tick, event.hash, event.timestamp,
          true);
    if !ValidBook(book) {
      return Err("market stream produced an invalid or crossed order book");
    }
    r := Ok([book]);
  }

  /** update_books_from_stream_event: a failure returns no book. */
  method UpdateBooksFromStreamEvent(books: Books, event: Event) returns (r: Result<seq<Book>>)
    requires Filed(books)
    ensures r == UpdateBooks(books, event)
  {
    match event
    case BookEvent(_, _, _, _, _, _) =>
      r := TakeSnapshot(books, event);
    case PriceChange(changes, timestamp) =>
      if changes.None? {
        return Err("price-change event has no changes");
      }
      var edits := EditChanges(books, changes.value);
      if edits.Err? {
        return Err(edits.reason);
      }
      EditsTrack(books, changes.value);
      r := CommitEdits(books, edits.value, timestamp);
    case TickSizeChange(token, tick, timestamp) =>
      if token !in books || tick.None? || tick.value <= 0.0 {
        return Err("tick-size change cannot be applied to the current book");
      }
      return Ok([books[token].(tick := tick, timestamp := timestamp)]);
    case OtherEvent =>
      return Ok([]);
  }

  lemma {:induction false} PrefixFails(books: Books, changes: seq<RawChange>, n: nat)
    requires n <= |changes| && EditAll(books, changes[..n]).Err?
    ensures EditAll(books, changes) == EditAll(books, changes[..n])
    decreases |changes| - n
  {
    if n < |changes| {
      assert changes[..n + 1][..n] == changes[..n];
      PrefixFails(books, changes, n + 1);
    } else {
      assert changes[..n] == changes;
    }
  }

  method EditChanges(books: Books, changes: seq<RawChange>) returns (r: Result<Edits>)
    ensures r == EditAll(books, changes)
  {
    var e := NO_EDITS;
    for i := 0 to |changes|
      invariant EditAll(books, changes[..i]) == Ok(e)
    {
      var c := changes[i];
      assert changes[..i + 1][..i] == changes[..i];
      if !ValidChange(books, c) {
        PrefixFails(books, changes, i + 1);
        return Err("invalid price change");
      }
      var key := (c.token, c.side.value);
      var entries := if key in e.sides then e.sides[key] else DictOf(SideOf(books[c.token], c.side.value));
      var edited := if c.size.value == 0.0 then Pop(entries, c.price.value)
        else Put(entries, c.price.value, c.size.value);
      var order := if c.token in e.hashes then e.order else e.order + [c.token];
      e := Edits(e.sides[key := edited], e.hashes[c.token := if c.hash != "" then c.hash else books[c.token].hash],
          order);
    }
    assert changes[..|changes|] == changes;
    r := Ok(e);
  }

  /** `made` lists the books the batch makes. */
  ghost predicate Makes(books: Books, e: Edits, timestamp: Option<int>, made: seq<Book>)
    requires Filed(books) && Tracks(books, e)
  {
    |made| == |e.order| && forall i :: 0 <= i < |made| ==> made[i] == Committed(books[e.order[i]], e, timestamp)
  }

  /** The book at one place of the batch. */
  method CommitOne(books: Books, e: Edits, timestamp: Option<int>, i: nat, ghost made: seq<Book>) returns (b: Book)
    requires Filed(books) && Tracks(books, e) && i < |e.order| && Makes(books, e, timestamp, made)
    ensures b == made[i]
  {
    b := Committed(books[e.order[i]], e, timestamp);
  }

  /** The first `n` books are valid. */
  ghost predicate ValidUpTo(made: seq<Book>, n: nat)
    requires n <= |made|
  {
    n == 0 || (ValidUpTo(made, n - 1) && ValidBook(made[n - 1]))
  }

  lemma {:induction false} ValidUpToAll(made: seq<Book>, n: nat)
    requires n <= |made| && ValidUpTo(made, n)
    ensures AllValid(made[..n]) && made[..|made|] == made
  {
    if n > 0 {
      ValidUpToAll(made, n - 1);
      assert forall k :: 0 <= k < n - 1 ==> made[..n][k] == made[..n - 1][k];
    }
  }

  lemma OneInvalid(made: seq<Book>, i: nat)
    requires i < |made| && !ValidBook(made[i])
    ensures !AllValid(made)
  {}

  method CommitLoop(books: Books, e: Edits, timestamp: Option<int>, ghost made: seq<Book>)
    returns (r: Result<seq<Book>>)
    requires Filed(books) && Tracks(books, e) && Makes(books, e, timestamp, made)
    ensures r == Validated(made)
  {
    var updated := [];
    for i := 0 to |e.order|
      invariant updated == made[..i] && ValidUpTo(made, i)
    {
      var b := CommitOne(books, e, timestamp, i, made);
      if !ValidBook(b) {
        OneInvalid(made, i);
        return Err("market stream produced an invalid or crossed order book");
      }
      assert made[..i + 1] == made[..i] + [made[i]];
      updated := updated + [b];
    }
    ValidUpToAll(made, |made|);
    r := Ok(updated);
  }

  method CommitEdits(books: Books, e: Edits, timestamp: Option<int>) returns (r: Result<seq<Book>>)
    requires Filed(books) && Tracks(books, e)
    ensures r == Committing(books, e, timestamp)
  {
    r := CommitLoop(books, e, timestamp, CommitAll(books, e, timestamp));
  }

  // --- a batch is a map update --------------------------------------------

  predicate OnSide(c: RawChange, token: string, side: Side) {
    c.Change? && c.token == token && c.side == Some(side) && c.price.Some? && c.size.Some?
  }

  predicate TouchesSide(changes: seq<RawChange>, token: string, side: Side) {
    exists c :: c in changes && OnSide(c, token, side)
  }

  /** The map of one side after the changes, left to right: the last write wins and size zero deletes. */
  function Replayed(m: map<real, real>, changes: seq<RawChange>, token: string, side: Side): map<real, real> {
    if |changes| == 0 then m
    else
      var c, before := changes[|changes| - 1], Replayed(m, changes[..|changes| - 1], token, side);
      if !OnSide(c, token, side) then before
      else if c.size.value == 0.0 then before - {c.price.value}
      else before[c.price.value := c.size.value]
  }

  /** The dictionary of one side after the changes. */
  function EditedDict(levels: seq<BookLevel>, changes: seq<RawChange>, token: string, side: Side): seq<BookLevel> {
    if |changes| == 0 then DictOf(levels)
    else
      var c, before := changes[|changes| - 1], EditedDict(levels, changes[..|changes| - 1], token, side);
      if OnSide(c, token, side) then Edited(before, c) else before
  }

  /** The ladder of one side after the changes; a side no change touches stays as it is. */
  function EditedSide(levels: seq<BookLevel>, changes: seq<RawChange>, token: string, side: Side): seq<BookLevel> {
    if TouchesSide(changes, token, side) then SideSorted(EditedDict(levels, changes, token, side), side) else levels
  }

  lemma {:induction false} EditedDictIsReplayed(levels: seq<BookLevel>, changes: seq<RawChange>, token: string,
      side: Side)
    ensures Distinct(EditedDict(levels, changes, token, side))
    ensures AsMap(EditedDict(levels, changes, token, side)) == Replayed(AsMap(levels), changes, token, side)
  {
    if |changes| == 0 {
      DictOfIsTheMap(levels);
    } else {
      var c, before := changes[|changes| - 1], changes[..|changes| - 1];
      EditedDictIsReplayed(levels, before, token, side);
      if OnSide(c, token, side) {
        PutIsUpdate(EditedDict(levels, before, token, side), c.price.value, c.size.value);
        PopIsRemoval(EditedDict(levels, before, token, side), c.price.value);
      }
    }
  }

  /** One side of a committed batch: strictly best price first, and the old map with the changes applied in order. */
  lemma EditedSideIsReplayed(levels: seq<BookLevel>, changes: seq<RawChange>, token: string, side: Side)
    ensures TouchesSide(changes, token, side) ==> BestFirst(EditedSide(levels, changes, token, side), side)
    ensures AsMap(EditedSide(levels, changes, token, side)) == Replayed(AsMap(levels), changes, token, side)
  {
    if TouchesSide(changes, token, side) {
      EditedDictIsReplayed(levels, changes, token, side);
      LadderIsTheMap(EditedDict(levels, changes, token, side), side);
    } else {
      UntouchedStays(AsMap(levels), changes, token, side);
    }
  }

  lemma {:induction false} UntouchedStays(m: map<real, real>, changes: seq<RawChange>, token: string, side: Side)
    requires !TouchesSide(changes, token, side)
    ensures Replayed(m, changes, token, side) == m
  {
    if |changes| > 0 {
      assert changes[|changes| - 1] in changes;
      assert forall c :: c in changes[..|changes| - 1] ==> c in changes;
      UntouchedStays(m, changes[..|changes| - 1], token, side);
    }
  }

  /** The edits of a batch: each touched side is its edited dictionary, and each touched token is listed once. */
  ghost predicate EditsAre(books: Books, changes: seq<RawChange>, e: Edits) {
    && (forall t, s :: (t, s) in e.sides <==> TouchesSide(changes, t, s))
    && (forall t, s :: (t, s) in e.sides ==>
      t in books && e.sides[(t, s)] == EditedDict(SideOf(books[t], s), changes, t, s))
    && (forall t :: t in e.hashes <==> TouchesSide(changes, t, Buy) || TouchesSide(changes, t, Sell))
  }

  lemma TouchesOneMore(changes: seq<RawChange>, c: RawChange, token: string, side: Side)
    ensures TouchesSide(changes + [c], token, side) <==> TouchesSide(changes, token, side) || OnSide(c, token, side)
  {
    assert forall d :: d in changes + [c] <==> d in changes || d == c;
  }

  lemma {:induction false} UntouchedDict(levels: seq<BookLevel>, changes: seq<RawChange>, token: string, side: Side)
    requires !TouchesSide(changes, token, side)
    ensures EditedDict(levels, changes, token, side) == DictOf(levels)
  {
    if |changes| > 0 {
      assert changes[|changes| - 1] in changes;
      assert forall c :: c in changes[..|changes| - 1] ==> c in changes;
      UntouchedDict(levels, changes[..|changes| - 1], token, side);
    }
  }

  lemma EditOneSide(books: Books, before: seq<RawChange>, e: Edits, c: RawChange, t: string, s: Side)
    requires EditsAre(books, before, e) && ValidChange(books, c) && (t, s) in EditOne(books, e, c).sides
    ensures t in books && EditOne(books, e, c).sides[(t, s)] == EditedDict(SideOf(books[t], s), before + [c], t, s)
  {
    assert (before + [c])[..|before|] == before;
    if OnSide(c, t, s) && (t, s) !in e.sides {
      UntouchedDict(SideOf(books[t], s), before, t, s);
    }
  }

  lemma EditOneIs(books: Books, before: seq<RawChange>, e: Edits, c: RawChange)
    requires EditsAre(books, before, e) && ValidChange(books, c)
    ensures EditsAre(books, before + [c], EditOne(books, e, c))
  {
    var changes, next := before + [c], EditOne(books, e, c);
    forall t, s ensures TouchesSide(changes, t, s) <==> TouchesSide(before, t, s) || OnSide(c, t, s) {
      TouchesOneMore(before, c, t, s);
    }
    forall t, s | (t, s) in next.sides
      ensures t in books && next.sides[(t, s)] == EditedDict(SideOf(books[t], s), changes, t, s)
    {
      EditOneSide(books, before, e, c, t, s);
    }
  }

  lemma {:induction false} EditAllIs(books: Books, changes: seq<RawChange>)
    ensures EditAll(books, changes).Ok? <==> forall c :: c in changes ==> ValidChange(books, c)
    ensures EditAll(books, changes).Ok? ==> EditsAre(books, changes, EditAll(books, changes).value)
  {
    if |changes| > 0 {
      var before, c := changes[..|changes| - 1], changes[|changes| - 1];
      EditAllIs(books, before);
      assert before + [c] == changes;
      assert forall d :: d in changes <==> d in before || d == c;
      if EditAll(books, changes).Ok? {
        EditOneIs(books, before, EditAll(books, before).value, c);
      }
    }
  }

  /** The book a valid batch makes of one it touches. */
  ghost predicate BatchMakes(old': Book, changes: seq<RawChange>, b: Book) {
    && b.token == old'.token && b.synchronized == old'.synchronized && b.tick == old'.tick
    && forall s :: SideOf(b, s) == EditedSide(SideOf(old', s), changes, b.token, s)
  }

  lemma CommittedSide(books: Books, changes: seq<RawChange>, e: Edits, timestamp: Option<int>, t: string, s: Side)
    requires Filed(books) && EditsAre(books, changes, e) && t in e.hashes && t in books
    ensures SideOf(Committed(books[t], e, timestamp), s) == EditedSide(SideOf(books[t], s), changes, t, s)
  {
    assert (t, s) in e.sides <==> TouchesSide(changes, t, s);
  }

  lemma CommittedMakes(books: Books, changes: seq<RawChange>, e: Edits, timestamp: Option<int>, t: string)
    requires Filed(books) && EditsAre(books, changes, e) && t in e.hashes && t in books
    ensures BatchMakes(books[t], changes, Committed(books[t], e, timestamp))
  {
    CommittedSide(books, changes, e, timestamp, t, Buy);
    CommittedSide(books, changes, e, timestamp, t, Sell);
  }

  /** What is promised of one book a batch made. */
  ghost predicate MapUpdate(books: Books, changes: seq<RawChange>, b: Book) {
    && b.token in books && b.synchronized && ValidBook(b)
    && forall s :: SideUpdate(SideOf(books[b.token], s), SideOf(b, s), changes, b.token, s)
  }

  /**
    One side of it: the price-to-size map with the changes applied in order, best price
    first where a change touched it and as it was where none did.
   */
  ghost predicate SideUpdate(before: seq<BookLevel>, after: seq<BookLevel>, changes: seq<RawChange>, token: string,
      side: Side)
  {
    && AsMap(after) == Replayed(AsMap(before), changes, token, side)
    && (if TouchesSide(changes, token, side) then BestFirst(after, side) else after == before)
  }

  lemma MadeIsAMapUpdate(books: Books, changes: seq<RawChange>, b: Book)
    requires b.token in books && books[b.token].synchronized && ValidBook(b) && BatchMakes(books[b.token], changes, b)
    ensures MapUpdate(books, changes, b)
  {
    forall s ensures SideUpdate(SideOf(books[b.token], s), SideOf(b, s), changes, b.token, s) {
      EditedSideIsReplayed(SideOf(books[b.token], s), changes, b.token, s);
    }
  }

  ghost predicate TouchesToken(changes: seq<RawChange>, token: string) {
    TouchesSide(changes, token, Buy) || TouchesSide(changes, token, Sell)
  }

  /**
    A batch of price changes either fails as a whole, and then some element is invalid or
    the books it would make are not all valid, or makes exactly one book of each token it
    names: uncrossed, with prices in (0, 1) and positive sizes, and every side a map update.
   */
  lemma BatchIsAMapUpdate(books: Books, changes: seq<RawChange>, timestamp: Option<int>)
    requires Filed(books)
    ensures var r := UpdateBooks(books, PriceChange(Some(changes), timestamp));
      r.Ok? ==>
        && (forall c :: c in changes ==> ValidChange(books, c))
        && (forall i :: 0 <= i < |r.value| ==>
          MapUpdate(books, changes, r.value[i]) && TouchesToken(changes, r.value[i].token))
        && (forall i, j :: 0 <= i < j < |r.value| ==> r.value[i].token != r.value[j].token)
        && (forall t :: TouchesToken(changes, t) ==> exists i :: 0 <= i < |r.value| && r.value[i].token == t)
  {
    var r := UpdateBooks(books, PriceChange(Some(changes), timestamp));
    if r.Ok? {
      var e := EditAll(books, changes).value;
      EditAllIs(books, changes);
      EditsTrack(books, changes);
      forall i | 0 <= i < |r.value| ensures MapUpdate(books, changes, r.value[i]) && r.value[i].token == e.order[i] {
        CommittedMakes(books, changes, e, timestamp, e.order[i]);
        MadeIsAMapUpdate(books, changes, r.value[i]);
      }
      forall t | TouchesToken(changes, t) ensures exists i :: 0 <= i < |r.value| && r.value[i].token == t {
        assert t in e.order;
        var i :| 0 <= i < |e.order| && e.order[i] == t;
        assert r.value[i].token == t;
      }
    }
  }

  /** Every book the batch would make of one it touches is valid. */
  ghost predicate MakesValid(books: Books, changes: seq<RawChange>) {
    forall t, b :: t in books && TouchesToken(changes, t) && BatchMakes(books[t], changes, b) ==> ValidBook(b)
  }

  lemma ValidBatchIsAccepted(books: Books, changes: seq<RawChange>, timestamp: Option<int>)
    requires Filed(books) && (forall c :: c in changes ==> ValidChange(books, c)) && MakesValid(books, changes)
    ensures UpdateBooks(books, PriceChange(Some(changes), timestamp)).Ok?
  {
    EditAllIs(books, changes);
    EditsTrack(books, changes);
    var e := EditAll(books, changes).value;
    var made := CommitAll(books, e, timestamp);
    forall i | 0 <= i < |made| ensures ValidBook(made[i]) {
      CommittedMakes(books, changes, e, timestamp, e.order[i]);
      assert TouchesToken(changes, e.order[i]);
    }
  }

  lemma AcceptedBatchIsValid(books: Books, changes: seq<RawChange>, timestamp: Option<int>)
    requires Filed(books) && UpdateBooks(books, PriceChange(Some(changes), timestamp)).Ok?
    ensures MakesValid(books, changes)
  {
    EditAllIs(books, changes);
    EditsTrack(books, changes);
    var e := EditAll(books, changes).value;
    assert AllValid(CommitAll(books, e, timestamp));
    forall t, b | t in books && TouchesToken(changes, t) && BatchMakes(books[t], changes, b) ensures ValidBook(b) {
      CommittedIsValid(books, e, timestamp, t);
      CommittedMakes(books, changes, e, timestamp, t);
      SameSidesSameValidity(Committed(books[t], e, timestamp), b);
    }
  }

  lemma CommittedIsValid(books: Books, e: Edits, timestamp: Option<int>, t: string)
    requires Filed(books) && Tracks(books, e) && AllValid(CommitAll(books, e, timestamp)) && t in books && t in e.hashes
    ensures ValidBook(Committed(books[t], e, timestamp))
  {
    var i :| 0 <= i < |e.order| && e.order[i] == t;
    assert CommitAll(books, e, timestamp)[i] == Committed(books[t], e, timestamp);
  }

  lemma SameSidesSameValidity(a: Book, b: Book)
    requires ValidBook(a) && forall s :: SideOf(a, s) == SideOf(b, s)
    ensures ValidBook(b)
  {
    assert a.bids == SideOf(a, Buy) == SideOf(b, Buy) && a.asks == SideOf(a, Sell) == SideOf(b, Sell);
  }

  /** A price inside (0, 1) and a size that is not negative, on a side of a flagged book. */
  predicate Applicable(books: Books, c: RawChange) {
    && c.Change? && c.price.Some? && c.size.Some? && c.side.Some?
    && c.price.value > 0.0 && c.price.value < 1.0 && c.size.value >= 0.0
    && c.token != "" && c.token in books && books[c.token].synchronized
  }

  /** The batch is accepted exactly when every element is applicable and every book it would make is valid. */
  lemma BatchIsAcceptedExactlyWhen(books: Books, changes: seq<RawChange>, timestamp: Option<int>)
    requires Filed(books)
    ensures UpdateBooks(books, PriceChange(Some(changes), timestamp)).Ok?
      <==> (forall c :: c in changes ==> Applicable(books, c)) && MakesValid(books, changes)
  {
    forall c ensures ValidChange(books, c) <==> Applicable(books, c) {}
    if UpdateBooks(books, PriceChange(Some(changes), timestamp)).Ok? {
      EditAllIs(books, changes);
      AcceptedBatchIsValid(books, changes, timestamp);
    } else if (forall c :: c in changes ==> ValidChange(books, c)) && MakesValid(books, changes) {
      ValidBatchIsAccepted(books, changes, timestamp);
    }
  }

  // --- what else an event carries -----------------------------------------

  /** The hash of a book after the changes: that of the last one on its token, or its own where that names none. */
  function HashAfter(hash: string, changes: seq<RawChange>, token: string): string {
    if |changes| == 0 then hash
    else
      var c := changes[|changes| - 1];
      if !(c.Change? && c.token == token) then HashAfter(hash, changes[..|changes| - 1], token)
      else if c.hash != "" then c.hash
      else hash
  }

  lemma {:induction false} EditsCarryHashes(books: Books, changes: seq<RawChange>, t: string)
    requires EditAll(books, changes).Ok? && t in books
    ensures var e := EditAll(books, changes).value;
      if t in e.hashes then e.hashes[t] == HashAfter(books[t].hash, changes, t)
      else HashAfter(books[t].hash, changes, t) == books[t].hash
  {
    if |changes| > 0 {
      EditsCarryHashes(books, changes[..|changes| - 1], t);
    }
  }

  /** A batch stamps every book it makes with its time and the last hash, and leaves the tick. */
  lemma BatchStampsItsBooks(books: Books, changes: seq<RawChange>, timestamp: Option<int>)
    requires Filed(books)
    ensures var r := UpdateBooks(books, PriceChange(Some(changes), timestamp));
      r.Ok? ==> forall b :: b in r.value ==>
        && b.token in books && b.timestamp == timestamp && b.tick == books[b.token].tick
        && b.hash == HashAfter(books[b.token].hash, changes, b.token)
  {
    var r := UpdateBooks(books, PriceChange(Some(changes), timestamp));
    if r.Ok? {
      var e := EditAll(books, changes).value;
      EditsTrack(books, changes);
      forall b | b in r.value
        ensures b.token in books && b.timestamp == timestamp && b.tick == books[b.token].tick
        ensures b.hash == HashAfter(books[b.token].hash, changes, b.token)
      {
        var i :| 0 <= i < |r.value| && r.value[i] == b;
        EditsCarryHashes(books, changes, e.order[i]);
      }
    }
  }

  /** A tick-size change is applied to a known book exactly when the tick is positive, and leaves the rest of it. */
  lemma TickChangeIsApplied(books: Books, token: string, tick: Option<real>, timestamp: Option<int>)
    requires Filed(books)
    ensures var r := UpdateBooks(books, TickSizeChange(token, tick, timestamp));
      && (r.Ok? <==> token in books && tick.Some? && tick.value > 0.0)
      && (r.Ok? ==>
        && |r.value| == 1 && r.value[0].tick == tick && r.value[0].timestamp == timestamp
        && r.value[0] == books[token].(tick := r.value[0].tick, timestamp := r.value[0].timestamp))
  {}
}

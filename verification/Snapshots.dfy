/**
  What a full snapshot of the market stream leaves in the books, told from its raw
  entries alone.
 */
module Snapshots {
  import opened Results
  import opened DepthWalk
  import opened EntryPlan
  import opened BookLadder
  import opened BookStream

  // --- the levels that are kept -------------------------------------------

  /** A raw entry whose price and size are finite and positive. */
  predicate Usable(l: RawLevel) {
    l.price.Finite? && l.size.Finite? && l.price.value > 0.0 && l.size.value > 0.0
  }

  lemma UsableIsKept(l: RawLevel)
    ensures Usable(l) <==> !Skipped(l) && !Raises(l)
  {}

  /** The places of the usable entries, in order. */
  function Places(raw: seq<RawLevel>): (r: seq<nat>)
    ensures forall k :: 0 <= k < |r| ==> r[k] < |raw| && Usable(raw[r[k]])
    ensures forall j, k :: 0 <= j < k < |r| ==> r[j] < r[k]
    ensures forall i :: 0 <= i < |raw| && Usable(raw[i]) ==> i in r
  {
    if |raw| == 0 then []
    else
      var n := |raw| - 1;
      var before := Places(raw[..n]);
      assert forall k :: 0 <= k < |before| ==> raw[..n][before[k]] == raw[before[k]];
      if Usable(raw[n]) then before + [n] else before
  }

  lemma {:induction false} ParsedAppend(raw: seq<RawLevel>, l: RawLevel)
    ensures Parsed(raw + [l]) == Parsed(raw) + Parsed([l])
  {
    if |raw| > 0 {
      assert (raw + [l])[1..] == raw[1..] + [l];
      ParsedAppend(raw[1..], l);
    } else {
      assert raw + [l] == [l];
    }
  }

  lemma {:induction false} ParsedOne(l: RawLevel)
    ensures Parsed([l]) == if Usable(l) then [BookLevel(l.price.value, l.size.value)] else []
  {
    UsableIsKept(l);
    assert Parsed([l][1..]) == [];
  }

  lemma {:induction false} ParsedLast(raw: seq<RawLevel>)
    requires |raw| > 0
    ensures var n := |raw| - 1;
      Parsed(raw) == Parsed(raw[..n])
        + (if Usable(raw[n]) then [BookLevel(raw[n].price.value, raw[n].size.value)] else [])
  {
    var n := |raw| - 1;
    assert raw == raw[..n] + [raw[n]];
    ParsedAppend(raw[..n], raw[n]);
    ParsedOne(raw[n]);
  }

  /** Level `k` that is kept is the usable entry at place `k`, with its own price and its own size. */
  lemma {:induction false} KeptInOrder(raw: seq<RawLevel>)
    ensures |Parsed(raw)| == |Places(raw)|
    ensures forall k :: 0 <= k < |Parsed(raw)| ==>
      var l := raw[Places(raw)[k]];
      Parsed(raw)[k].price == l.price.value && Parsed(raw)[k].size == l.size.value
  {
    if |raw| > 0 {
      var n := |raw| - 1;
      KeptInOrder(raw[..n]);
      ParsedLast(raw);
    }
  }

  /** Price to size over the usable entries, the last of a price standing. */
  function RawMap(raw: seq<RawLevel>): map<real, real> {
    if |raw| == 0 then map[]
    else
      var n, before := |raw| - 1, RawMap(raw[..|raw| - 1]);
      if Usable(raw[n]) then before[raw[n].price.value := raw[n].size.value] else before
  }

  lemma {:induction false} ParsedIsTheRawMap(raw: seq<RawLevel>)
    ensures AsMap(Parsed(raw)) == RawMap(raw)
  {
    if |raw| > 0 {
      var n := |raw| - 1;
      ParsedIsTheRawMap(raw[..n]);
      ParsedLast(raw);
      if Usable(raw[n]) {
        AsMapAppend(Parsed(raw[..n]), BookLevel(raw[n].price.value, raw[n].size.value));
      } else {
        assert Parsed(raw) == Parsed(raw[..n]);
      }
    }
  }

  /** The usable entries as levels, in no order. */
  function RawLevels(raw: seq<RawLevel>): multiset<BookLevel> {
    if |raw| == 0 then multiset{}
    else
      var n := |raw| - 1;
      RawLevels(raw[..n])
        + (if Usable(raw[n]) then multiset{BookLevel(raw[n].price.value, raw[n].size.value)} else multiset{})
  }

  lemma {:induction false} ParsedAreTheRawLevels(raw: seq<RawLevel>)
    ensures multiset(Parsed(raw)) == RawLevels(raw)
  {
    if |raw| > 0 {
      ParsedAreTheRawLevels(raw[..|raw| - 1]);
      ParsedLast(raw);
    }
  }

  /**
    A rendered side of a snapshot is a permutation of the usable entries, each with its own
    price and size, best price first; read as a map the last entry of a price stands.
   */
  lemma RenderedSide(raw: seq<RawLevel>, side: Side)
    ensures multiset(Levels(raw, side)) == RawLevels(raw)
    ensures BestFirstWeakly(Levels(raw, side), side)
    ensures AsMap(Levels(raw, side)) == RawMap(raw)
  {
    SideSortedKeepsLevels(Parsed(raw), side);
    ParsedAreTheRawLevels(raw);
    ParsedIsTheRawMap(raw);
  }

  // --- the snapshot as a whole --------------------------------------------

  lemma {:induction false} RawLevelsAre(raw: seq<RawLevel>, l: BookLevel)
    ensures l in RawLevels(raw) <==>
      exists i :: 0 <= i < |raw| && Usable(raw[i]) && raw[i].price.value == l.price && raw[i].size.value == l.size
  {
    if |raw| > 0 {
      RawLevelsAre(raw[..|raw| - 1], l);
    }
  }

  lemma RenderedLevel(raw: seq<RawLevel>, side: Side, i: nat)
    requires i < |raw| && Usable(raw[i])
    ensures BookLevel(raw[i].price.value, raw[i].size.value) in Levels(raw, side)
  {
    var l := BookLevel(raw[i].price.value, raw[i].size.value);
    RenderedSide(raw, side);
    RawLevelsAre(raw, l);
    assert l in multiset(Levels(raw, side));
  }

  lemma LevelIsRaw(raw: seq<RawLevel>, side: Side, l: BookLevel) returns (i: nat)
    requires l in Levels(raw, side)
    ensures i < |raw| && Usable(raw[i]) && raw[i].price.value == l.price && raw[i].size.value == l.size
  {
    RenderedSide(raw, side);
    assert l in multiset(Levels(raw, side));
    RawLevelsAre(raw, l);
    i :| 0 <= i < |raw| && Usable(raw[i]) && raw[i].price.value == l.price && raw[i].size.value == l.size;
  }

  /** Every usable entry has a price below one. */
  ghost predicate PricesBelowOne(raw: seq<RawLevel>) {
    forall i :: 0 <= i < |raw| && Usable(raw[i]) ==> raw[i].price.value < 1.0
  }

  /** Every usable bid is below every usable ask. */
  ghost predicate Uncrossed(bids: seq<RawLevel>, asks: seq<RawLevel>) {
    forall i, j :: 0 <= i < |bids| && 0 <= j < |asks| && Usable(bids[i]) && Usable(asks[j]) ==>
      bids[i].price.value < asks[j].price.value
  }

  lemma ValidSide(raw: seq<RawLevel>, side: Side)
    ensures ValidLevels(Levels(raw, side)) <==> PricesBelowOne(raw)
  {
    forall l | l in Levels(raw, side)
      ensures l.size > 0.0 && l.price > 0.0 && (PricesBelowOne(raw) ==> l.price < 1.0)
    {
      var i := LevelIsRaw(raw, side, l);
    }
    forall i | 0 <= i < |raw| && Usable(raw[i])
      ensures BookLevel(raw[i].price.value, raw[i].size.value) in Levels(raw, side)
    {
      RenderedLevel(raw, side, i);
    }
  }

  lemma CrossedSides(b: Book, bids: seq<RawLevel>, asks: seq<RawLevel>)
    requires b.bids == Levels(bids, Buy) && b.asks == Levels(asks, Sell)
    ensures Crossed(b) <==> !Uncrossed(bids, asks)
  {
    if Crossed(b) {
      var bid :| bid in b.bids && bid.price == BestBid(b.bids).value;
      var ask :| ask in b.asks && ask.price == BestAsk(b.asks).value;
      var i := LevelIsRaw(bids, Buy, bid);
      var j := LevelIsRaw(asks, Sell, ask);
      assert !(bids[i].price.value < asks[j].price.value);
    }
    if !Uncrossed(bids, asks) {
      var i, j :| 0 <= i < |bids| && 0 <= j < |asks| && Usable(bids[i]) && Usable(asks[j])
        && bids[i].price.value >= asks[j].price.value;
      RenderedLevel(bids, Buy, i);
      RenderedLevel(asks, Sell, j);
    }
  }

  /** A level that no comparison can place: not a number, or infinite beside a figure that is not negative or zero. */
  ghost predicate Incomparable(l: RawLevel) {
    && !l.price.Unreadable? && !l.size.Unreadable?
    && (l.price.NotANumber?
        || (l.size.NotANumber? && !NotPositive(l.price))
        || (l.price == Infinite(false) && !NotPositive(l.size))
        || (l.size == Infinite(false) && !NotPositive(l.price)))
  }

  ghost predicate Comparable(raw: seq<RawLevel>) {
    forall l :: l in raw ==> !Incomparable(l)
  }

  lemma NoneRaises(raw: seq<RawLevel>)
    ensures AnyRaises(raw) <==> !Comparable(raw)
  {
    forall l ensures Raises(l) <==> Incomparable(l) {}
  }

  /**
    A snapshot is accepted exactly when it names a token, every entry can be compared with
    zero, every usable price is below one and every usable bid is below every usable ask.
   */
  lemma SnapshotIsAcceptedExactlyWhen(books: Books, e: Event)
    requires Filed(books) && e.BookEvent?
    ensures UpdateBooks(books, e).Ok? <==>
      && e.token != ""
      && Comparable(e.bids) && Comparable(e.asks)
      && PricesBelowOne(e.bids) && PricesBelowOne(e.asks) && Uncrossed(e.bids, e.asks)
  {
    NoneRaises(e.bids);
    NoneRaises(e.asks);
    ValidSide(e.bids, Buy);
    ValidSide(e.asks, Sell);
    CrossedSides(SnapshotBook(books, e), e.bids, e.asks);
  }

  /** The one book of an accepted snapshot is flagged, and each side holds the usable entries, best price first. */
  lemma SnapshotHoldsItsEntries(books: Books, e: Event)
    requires Filed(books) && e.BookEvent? && UpdateBooks(books, e).Ok?
    ensures var made := UpdateBooks(books, e).value;
      && |made| == 1
      && made[0].token == e.token && made[0].synchronized
      && made[0].hash == e.hash && made[0].timestamp == e.timestamp
      && made[0].tick ==
        (if e.tick.Some? then e.tick else if e.token in books then books[e.token].tick else None)
      && multiset(made[0].bids) == RawLevels(e.bids) && BestFirstWeakly(made[0].bids, Buy)
      && multiset(made[0].asks) == RawLevels(e.asks) && BestFirstWeakly(made[0].asks, Sell)
  {
    RenderedSide(e.bids, Buy);
    RenderedSide(e.asks, Sell);
  }
}

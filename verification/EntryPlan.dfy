/**
  The hedge entry plan: a marketable limit at the lowest ask, or up to exactly
  one tick above it, and what it says about the emergency walk.
 */
module EntryPlan {
  import opened Results
  import opened Amounts
  import opened DepthWalk

  datatype OrderBook = OrderBook(bids: seq<BookLevel>, asks: seq<BookLevel>, tick: Option<real>)

  datatype HedgeEntryPlan = HedgeEntryPlan(priceCap: Option<real>, available: real, depth: DepthCost)

  function BestBid(bids: seq<BookLevel>): (r: Option<real>)
    ensures r.None? <==> |bids| == 0
    ensures r.Some? ==> (exists l :: l in bids && l.price == r.value) && forall l :: l in bids ==> l.price <= r.value
  {
    if |bids| == 0 then None
    else
      var rest := BestBid(bids[1..]);
      assert forall l :: l in bids <==> l == bids[0] || l in bids[1..];
      if rest.None? || bids[0].price > rest.value then Some(bids[0].price) else rest
  }

  function BestAsk(asks: seq<BookLevel>): (r: Option<real>)
    ensures r.None? <==> |asks| == 0
    ensures r.Some? ==> (exists l :: l in asks && l.price == r.value) && forall l :: l in asks ==> l.price >= r.value
  {
    if |asks| == 0 then None
    else
      var rest := BestAsk(asks[1..]);
      assert forall l :: l in asks <==> l == asks[0] || l in asks[1..];
      if rest.None? || asks[0].price < rest.value then Some(asks[0].price) else rest
  }

  /** The lowest ask, if a BUY limit there is positive, inside the cap and the book is not crossed. */
  function MarketableLimit(book: OrderBook, cap: real): Option<real> {
    var ask, bid := BestAsk(book.asks), BestBid(book.bids);
    if ask.None? || ask.value <= 0.0 || ask.value > cap then None
    else if bid.Some? && bid.value >= ask.value then None
    else ask
  }

  predicate WholeTicks(distance: real, tick: real)
    requires tick > 0.0
  {
    (distance / tick).Floor as real * tick == distance
  }

  predicate HasTick(book: OrderBook) {
    book.tick.Some? && book.tick.value > 0.0
  }

  /** Up to one tick above the lowest ask where that is allowed, never above the cap. */
  function Ceiling(book: OrderBook, lowest: real, cap: real, allowOneTick: bool): real {
    if allowOneTick && HasTick(book) then Min(cap, lowest + book.tick.value) else lowest
  }

  predicate EntersAt(book: OrderBook, level: BookLevel, lowest: real, ceiling: real) {
    && lowest <= level.price <= ceiling && level.size > 0.0
    && (level.price == lowest || (HasTick(book) && WholeTicks(level.price - lowest, book.tick.value)))
  }

  function EntryLevels(book: OrderBook, asks: seq<BookLevel>, lowest: real, ceiling: real): (r: seq<BookLevel>)
    ensures forall l :: l in r <==> l in asks && EntersAt(book, l, lowest, ceiling)
  {
    if |asks| == 0 then []
    else
      var rest := EntryLevels(book, asks[1..], lowest, ceiling);
      assert forall l :: l in asks <==> l == asks[0] || l in asks[1..];
      if EntersAt(book, asks[0], lowest, ceiling) then [asks[0]] + rest else rest
  }

  function PlanHedgeEntry(book: OrderBook, shares: real, cap: real, allowOneTick: bool): Result<HedgeEntryPlan> {
    if shares <= 0.0 then Err("requested shares must be positive")
    else
      match MarketableLimit(book, cap)
      case None => Ok(HedgeEntryPlan(None, 0.0, Walk([], shares, None)))
      case Some(lowest) =>
        var ceiling := Ceiling(book, lowest, cap, allowOneTick);
        var levels := EntryLevels(book, book.asks, lowest, ceiling);
        Ok(HedgeEntryPlan(Some(ceiling), SizeOf(levels), Walk(levels, shares, None)))
  }

  // --- the limit ----------------------------------------------------------

  lemma AtMostOneTick(distance: real, tick: real)
    requires tick > 0.0 && 0.0 <= distance <= tick && WholeTicks(distance, tick)
    ensures distance == 0.0 || distance == tick
  {
    var k := (distance / tick).Floor;
    assert 0.0 <= distance / tick <= 1.0;
    assert k == 0 || k == 1;
  }

  /**
    A plan's limit is the lowest ask or, where one tick is allowed, the lowest ask plus
    exactly one tick; it is positive, inside the cap, above every bid, and it is the
    price of a level on offer.
   */
  lemma LimitIsLowestAskOrOneTick(book: OrderBook, shares: real, cap: real, allowOneTick: bool)
    requires PlanHedgeEntry(book, shares, cap, allowOneTick).Ok?
    requires PlanHedgeEntry(book, shares, cap, allowOneTick).value.depth.worst.Some?
    ensures var plan := PlanHedgeEntry(book, shares, cap, allowOneTick).value;
      var limit, ask := plan.depth.worst.value, BestAsk(book.asks);
      && ask.Some? && 0.0 < ask.value <= limit <= cap
      && (limit == ask.value || (allowOneTick && HasTick(book) && limit == ask.value + book.tick.value))
      && (forall b :: b in book.bids ==> b.price < limit)
      && (exists l :: l in book.asks && l.price == limit && l.size > 0.0)
  {
    if MarketableLimit(book, cap).Some? {
      var lowest := MarketableLimit(book, cap).value;
      var ceiling := Ceiling(book, lowest, cap, allowOneTick);
      var levels := EntryLevels(book, book.asks, lowest, ceiling);
      var l := WorstIsOffered(levels, shares, None);
      if l.price != lowest {
        AtMostOneTick(l.price - lowest, book.tick.value);
      }
    } else {
      var l := WorstIsOffered([], shares, None);
    }
  }

  /** The worst price of a walk is the price of a level it could buy from. */
  lemma WorstIsOffered(levels: seq<BookLevel>, shares: real, cap: Option<real>) returns (l: BookLevel)
    requires shares > 0.0 && Walk(levels, shares, cap).worst.Some?
    ensures l in levels && l.price == Walk(levels, shares, cap).worst.value && Offered(l, cap) > 0.0
  {
    WalkBuysOffers(levels, shares, cap);
    var fills := Walk(levels, shares, cap).fills;
    assert fills[|fills| - 1] in fills;
    l :| l in levels && l.price == fills[|fills| - 1].price && Offered(l, cap) > 0.0;
  }

  // --- what a plan offers -------------------------------------------------

  /** Shares on offer at one price. */
  function DepthAt(asks: seq<BookLevel>, price: real): real {
    if |asks| == 0 then 0.0
    else DepthAt(asks[1..], price) + (if asks[0].price == price && asks[0].size > 0.0 then asks[0].size else 0.0)
  }

  /** The lowest ask, positive, inside the cap and above every bid. */
  ghost predicate Marketable(book: OrderBook, cap: real, lowest: real) {
    && (exists ask :: ask in book.asks && ask.price == lowest)
    && (forall ask :: ask in book.asks ==> lowest <= ask.price)
    && (forall bid :: bid in book.bids ==> bid.price < lowest)
    && 0.0 < lowest <= cap
  }

  lemma MarketableIsTheLimit(book: OrderBook, cap: real, lowest: real)
    ensures MarketableLimit(book, cap) == Some(lowest) <==> Marketable(book, cap, lowest)
  {}

  /** The level one tick up may be bought from. */
  predicate OneTickUp(book: OrderBook, lowest: real, cap: real, allowOneTick: bool) {
    allowOneTick && book.tick.Some? && book.tick.value > 0.0 && lowest + book.tick.value <= cap
  }

  function SecondDepth(book: OrderBook, asks: seq<BookLevel>, lowest: real, cap: real, allowOneTick: bool): real {
    if OneTickUp(book, lowest, cap, allowOneTick) then DepthAt(asks, lowest + book.tick.value) else 0.0
  }

  lemma OneTickIsWhole(tick: real)
    requires tick > 0.0
    ensures WholeTicks(tick, tick)
  {
    assert tick / tick == 1.0;
  }

  /** A level is entered at exactly when it offers something at the lowest ask or one allowed tick up. */
  lemma EnteredLevel(book: OrderBook, l: BookLevel, lowest: real, cap: real, allowOneTick: bool)
    requires lowest <= cap
    ensures EntersAt(book, l, lowest, Ceiling(book, lowest, cap, allowOneTick)) <==>
      l.size > 0.0
      && (l.price == lowest
          || (OneTickUp(book, lowest, cap, allowOneTick) && l.price == lowest + book.tick.value))
  {
    if HasTick(book) {
      OneTickIsWhole(book.tick.value);
      if allowOneTick && EntersAt(book, l, lowest, Ceiling(book, lowest, cap, true)) && l.price != lowest {
        AtMostOneTick(l.price - lowest, book.tick.value);
      }
    }
  }

  lemma {:induction false} EntryDepth(book: OrderBook, asks: seq<BookLevel>, lowest: real, cap: real,
      allowOneTick: bool)
    requires lowest <= cap
    ensures Depth(EntryLevels(book, asks, lowest, Ceiling(book, lowest, cap, allowOneTick)), None)
      == DepthAt(asks, lowest) + SecondDepth(book, asks, lowest, cap, allowOneTick)
  {
    if |asks| > 0 {
      var ceiling := Ceiling(book, lowest, cap, allowOneTick);
      EntryDepth(book, asks[1..], lowest, cap, allowOneTick);
      EnteredLevel(book, asks[0], lowest, cap, allowOneTick);
      var levels := EntryLevels(book, asks, lowest, ceiling);
      if EntersAt(book, asks[0], lowest, ceiling) {
        assert levels[1..] == EntryLevels(book, asks[1..], lowest, ceiling);
      }
    }
  }

  lemma {:induction false} DepthOfLonger(levels: seq<BookLevel>, l: BookLevel)
    ensures Depth(levels + [l], None) == Depth(levels, None) + Offered(l, None)
  {
    if |levels| > 0 {
      assert (levels + [l])[1..] == levels[1..] + [l];
      DepthOfLonger(levels[1..], l);
    } else {
      assert (levels + [l])[1..] == [];
    }
  }

  lemma {:induction false} SizeIsDepth(levels: seq<BookLevel>)
    requires forall l :: l in levels ==> l.size > 0.0
    ensures SizeOf(levels) == Depth(levels, None)
  {
    if |levels| > 0 {
      var n := |levels| - 1;
      SizeIsDepth(levels[..n]);
      DepthOfLonger(levels[..n], levels[n]);
      assert levels == levels[..n] + [levels[n]];
      assert levels[n] in levels;
    }
  }

  /** Bought up to `p`, the entry levels save what the lowest ask offers, times its distance to `p`. */
  lemma {:induction false} EntrySaving(book: OrderBook, asks: seq<BookLevel>, lowest: real, cap: real,
      allowOneTick: bool, p: real)
    requires lowest <= cap
    requires p == lowest || (OneTickUp(book, lowest, cap, allowOneTick) && p == lowest + book.tick.value)
    ensures Saving(EntryLevels(book, asks, lowest, Ceiling(book, lowest, cap, allowOneTick)), None, p)
      == Times(DepthAt(asks, lowest), p - lowest)
  {
    if |asks| == 0 {
      TimesNothing(p - lowest);
    } else {
      var ceiling := Ceiling(book, lowest, cap, allowOneTick);
      var levels := EntryLevels(book, asks, lowest, ceiling);
      EntrySaving(book, asks[1..], lowest, cap, allowOneTick, p);
      EnteredLevel(book, asks[0], lowest, cap, allowOneTick);
      if EntersAt(book, asks[0], lowest, ceiling) {
        assert levels[1..] == EntryLevels(book, asks[1..], lowest, ceiling);
        LevelSaves(DepthAt(asks[1..], lowest), asks[0], lowest, p);
      }
    }
  }

  lemma LevelSaves(rest: real, l: BookLevel, lowest: real, p: real)
    requires l.size > 0.0 && lowest <= p && (l.price == lowest || l.price >= p)
    ensures Times(Offered(l, None), Max(0.0, p - l.price)) + Times(rest, p - lowest)
      == Times(rest + (if l.price == lowest && l.size > 0.0 then l.size else 0.0), p - lowest)
  {
    if l.price == lowest {
      assert Max(0.0, p - l.price) == p - lowest;
    } else {
      assert Max(0.0, p - l.price) == 0.0;
      TimesNothing(l.size);
    }
  }

  /**
    A plan buys only at a marketable lowest ask, and one tick up where that is allowed and
    inside the cap: it offers exactly what the book offers there, under that price as its
    cap, and it is sufficient exactly when that covers the request.
   */
  lemma PlanIsSufficientExactlyWhen(book: OrderBook, shares: real, cap: real, allowOneTick: bool, lowest: real)
    requires shares > 0.0 && Marketable(book, cap, lowest)
    ensures PlanHedgeEntry(book, shares, cap, allowOneTick).Ok?
    ensures var plan := PlanHedgeEntry(book, shares, cap, allowOneTick).value;
      && plan.available == DepthAt(book.asks, lowest) + SecondDepth(book, book.asks, lowest, cap, allowOneTick)
      && plan.priceCap == Some(if !allowOneTick || book.tick.None? || book.tick.value <= 0.0 then lowest
        else Min(cap, lowest + book.tick.value))
      && plan.depth.filled == Min(shares, plan.available)
      && (plan.depth.sufficient <==> shares <= plan.available)
  {
    MarketableIsTheLimit(book, cap, lowest);
    var ceiling := Ceiling(book, lowest, cap, allowOneTick);
    var levels := EntryLevels(book, book.asks, lowest, ceiling);
    EntryDepth(book, book.asks, lowest, cap, allowOneTick);
    SizeIsDepth(levels);
    WalkFills(levels, shares, None);
  }

  /** What the walk of a plan costs at least, priced from `p`. */
  lemma PlanCostBound(levels: seq<BookLevel>, shares: real, p: real)
    requires shares > 0.0
    ensures var d := Walk(levels, shares, None);
      d.totalCost >= Times(d.filled, p) - Saving(levels, None, p)
  {
    WalkFills(levels, shares, None);
    WalkIsAnAllocation(levels, shares, None);
    AllocationBound(Sorted(levels), None, Takes(Sorted(levels), shares, None), p);
    SortedKeepsOffers(levels, None, p);
  }

  lemma SignOfFactor(x: real, y: real)
    requires y > 0.0 && Times(x, y) <= 0.0
    ensures x <= 0.0
  {}

  lemma SplitCost(filled: real, first: real, low: real, high: real, worst: real, cost: real)
    requires low < high && (worst == low || worst == high)
    requires cost == Times(filled, worst) - Times(first, worst - low)
    requires cost >= Times(filled, low) - Times(first, low - low)
    requires cost >= Times(filled, high) - Times(first, high - low)
    ensures if worst == low then filled <= first else first <= filled
    ensures cost == Times(Min(filled, first), low) + Times(filled - Min(filled, first), high)
  {
    if worst == low {
      assert Times(filled - first, high - low)
        == Times(filled, high) - Times(first, high - low) - (Times(filled, low) - Times(first, low - low));
      SignOfFactor(filled - first, high - low);
      TimesNothing(high);
    } else {
      assert Times(first - filled, high - low)
        == Times(filled, low) - Times(first, low - low) - (Times(filled, high) - Times(first, high - low));
      SignOfFactor(first - filled, high - low);
      assert cost == Times(first, low) + Times(filled - first, high);
    }
  }

  /** The entry levels with one tick up: what their walk costs, measured from either price. */
  lemma TwoLevelCost(book: OrderBook, shares: real, cap: real, lowest: real, levels: seq<BookLevel>)
    requires shares > 0.0 && OneTickUp(book, lowest, cap, true)
    requires levels == EntryLevels(book, book.asks, lowest, Ceiling(book, lowest, cap, true))
    ensures var d, first, high := Walk(levels, shares, None), DepthAt(book.asks, lowest), lowest + book.tick.value;
      && d.totalCost >= Times(d.filled, lowest) - Times(first, lowest - lowest)
      && d.totalCost >= Times(d.filled, high) - Times(first, high - lowest)
      && (d.worst == Some(lowest) || d.worst == Some(high) ==>
            d.totalCost == Times(d.filled, d.worst.value) - Times(first, d.worst.value - lowest))
  {
    var d, high := Walk(levels, shares, None), lowest + book.tick.value;
    EntrySaving(book, book.asks, lowest, cap, true, lowest);
    EntrySaving(book, book.asks, lowest, cap, true, high);
    PlanCostBound(levels, shares, lowest);
    PlanCostBound(levels, shares, high);
    if d.worst == Some(lowest) || d.worst == Some(high) {
      WalkCost(levels, shares, None, d.worst.value);
    }
  }

  /** A plan buys what the lowest ask offers first, and only the rest one tick up. */
  lemma PlanBuysTheLowestFirst(book: OrderBook, shares: real, cap: real, lowest: real)
    requires shares > 0.0 && Marketable(book, cap, lowest) && OneTickUp(book, lowest, cap, true)
    ensures PlanHedgeEntry(book, shares, cap, true).Ok?
    ensures var d := PlanHedgeEntry(book, shares, cap, true).value.depth;
      var first := Min(d.filled, DepthAt(book.asks, lowest));
      && d.totalCost == Times(first, lowest) + Times(d.filled - first, lowest + book.tick.value)
      && (d.filled > first ==> d.worst == Some(lowest + book.tick.value))
  {
    MarketableIsTheLimit(book, cap, lowest);
    var levels := EntryLevels(book, book.asks, lowest, Ceiling(book, lowest, cap, true));
    assert PlanHedgeEntry(book, shares, cap, true).value.depth == Walk(levels, shares, None);
    TwoLevelSplit(book, shares, cap, lowest, levels);
  }

  lemma TwoLevelSplit(book: OrderBook, shares: real, cap: real, lowest: real, levels: seq<BookLevel>)
    requires shares > 0.0 && OneTickUp(book, lowest, cap, true) && lowest <= cap
    requires levels == EntryLevels(book, book.asks, lowest, Ceiling(book, lowest, cap, true))
    ensures var d := Walk(levels, shares, None);
      var first := Min(d.filled, DepthAt(book.asks, lowest));
      && d.totalCost == Times(first, lowest) + Times(d.filled - first, lowest + book.tick.value)
      && (d.filled > first ==> d.worst == Some(lowest + book.tick.value))
  {
    var d, high := Walk(levels, shares, None), lowest + book.tick.value;
    TwoLevelCost(book, shares, cap, lowest, levels);
    if d.worst.Some? {
      var l := WorstIsOffered(levels, shares, None);
      EnteredLevel(book, l, lowest, cap, true);
      SplitCost(d.filled, DepthAt(book.asks, lowest), lowest, high, d.worst.value, d.totalCost);
    } else {
      WalkFills(levels, shares, None);
      DepthAtNotNegative(book.asks, lowest);
      assert d.fills == [];
      TimesNothing(lowest);
      TimesNothing(high);
    }
  }

  /** Where one tick up is not allowed, every share costs the lowest ask. */
  lemma PlanBuysAtTheLowest(book: OrderBook, shares: real, cap: real, allowOneTick: bool, lowest: real)
    requires shares > 0.0 && Marketable(book, cap, lowest) && !OneTickUp(book, lowest, cap, allowOneTick)
    ensures PlanHedgeEntry(book, shares, cap, allowOneTick).Ok?
    ensures var d := PlanHedgeEntry(book, shares, cap, allowOneTick).value.depth;
      d.totalCost == Times(d.filled, lowest)
  {
    MarketableIsTheLimit(book, cap, lowest);
    var levels := EntryLevels(book, book.asks, lowest, Ceiling(book, lowest, cap, allowOneTick));
    var d := Walk(levels, shares, None);
    WalkFills(levels, shares, None);
    EntrySaving(book, book.asks, lowest, cap, allowOneTick, lowest);
    TimesNothing(lowest);
    TimesNothing(DepthAt(book.asks, lowest));
    if d.worst.Some? {
      var l := WorstIsOffered(levels, shares, None);
      EnteredLevel(book, l, lowest, cap, allowOneTick);
      WalkCost(levels, shares, None, lowest);
    }
  }

  lemma {:induction false} DepthAtNotNegative(asks: seq<BookLevel>, price: real)
    ensures DepthAt(asks, price) >= 0.0
  {
    if |asks| > 0 {
      DepthAtNotNegative(asks[1..], price);
    }
  }

  lemma NoPlanWithoutALimit(book: OrderBook, shares: real, cap: real, allowOneTick: bool)
    requires shares > 0.0 && forall lowest :: !Marketable(book, cap, lowest)
    ensures var plan := PlanHedgeEntry(book, shares, cap, allowOneTick);
      && plan.Ok? && plan.value.priceCap.None? && plan.value.available == 0.0
      && plan.value.depth.filled == 0.0 && !plan.value.depth.sufficient
  {
    var limit := MarketableLimit(book, cap);
    if limit.Some? {
      MarketableIsTheLimit(book, cap, limit.value);
    }
    WalkFills([], shares, None);
  }

  // --- the emergency walk -------------------------------------------------

  lemma {:induction false} EntryOffersLess(book: OrderBook, asks: seq<BookLevel>, lowest: real, ceiling: real,
      emergency: real, p: real)
    requires ceiling <= emergency
    ensures Depth(EntryLevels(book, asks, lowest, ceiling), None) <= Depth(asks, Some(emergency))
    ensures Saving(EntryLevels(book, asks, lowest, ceiling), None, p) <= Saving(asks, Some(emergency), p)
  {
    if |asks| > 0 {
      EntryOffersLess(book, asks[1..], lowest, ceiling, emergency, p);
      var levels, rest := EntryLevels(book, asks, lowest, ceiling), EntryLevels(book, asks[1..], lowest, ceiling);
      SavingNotNegative(asks[0], Some(emergency), p);
      if EntersAt(book, asks[0], lowest, ceiling) {
        assert levels[1..] == rest;
      }
    }
  }

  lemma SavingNotNegative(l: BookLevel, cap: Option<real>, p: real)
    ensures Times(Offered(l, cap), Max(0.0, p - l.price)) >= 0.0
  {}

  /**
    When the entry plan fills the request and the hard cap is inside the emergency cap,
    the emergency walk fills it too and costs no more.
   */
  lemma EmergencyIsNoDearer(book: OrderBook, shares: real, cap: real, emergency: real, allowOneTick: bool)
    requires cap <= emergency && PlanHedgeEntry(book, shares, cap, allowOneTick).Ok?
    requires PlanHedgeEntry(book, shares, cap, allowOneTick).value.depth.sufficient
    ensures Walk(book.asks, shares, Some(emergency)).sufficient
    ensures Walk(book.asks, shares, Some(emergency)).totalCost
      <= PlanHedgeEntry(book, shares, cap, allowOneTick).value.depth.totalCost
  {
    var plan, walk := PlanHedgeEntry(book, shares, cap, allowOneTick).value, Walk(book.asks, shares, Some(emergency));
    if MarketableLimit(book, cap).None? {
      WalkFills([], shares, None);
      assert false;
    } else {
      var lowest := MarketableLimit(book, cap).value;
      var ceiling := Ceiling(book, lowest, cap, allowOneTick);
      var levels := EntryLevels(book, book.asks, lowest, ceiling);
      WalkFills(levels, shares, None);
      WalkFills(book.asks, shares, Some(emergency));
      EntryOffersLess(book, book.asks, lowest, ceiling, emergency, 0.0);
      var p := walk.worst.value;
      EntryOffersLess(book, book.asks, lowest, ceiling, emergency, p);
      WalkCost(book.asks, shares, Some(emergency), p);
      WalkIsAnAllocation(levels, shares, None);
      AllocationBound(Sorted(levels), None, Takes(Sorted(levels), shares, None), p);
      SortedKeepsOffers(levels, None, p);
    }
  }
}

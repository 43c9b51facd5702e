/**
  Walking the asks of a book for a number of shares: the cheapest way to buy
  them, and the entry plan that buys at the lowest ask or one tick above.
 */
module DepthWalk {
  import opened Results
  import opened Amounts

  datatype BookLevel = BookLevel(price: real, size: real)

  datatype DepthCost = DepthCost(
    requested: real, filled: real, totalCost: real, vwap: Option<real>, sufficient: bool, worst: Option<real>,
    fills: seq<BookLevel>)

  predicate Within(cap: Option<real>, price: real) {
    cap.None? || price <= cap.value
  }

  // --- sorting ------------------------------------------------------------

  predicate ByPrice(levels: seq<BookLevel>) {
    |levels| > 1 ==> levels[0].price <= levels[1].price && ByPrice(levels[1..])
  }

  function Insert(level: BookLevel, sorted: seq<BookLevel>): seq<BookLevel> {
    if |sorted| == 0 then [level]
    else if level.price <= sorted[0].price then [level] + sorted
    else [sorted[0]] + Insert(level, sorted[1..])
  }

  /** The levels in ascending price; levels of one price keep their order. */
  function Sorted(levels: seq<BookLevel>): seq<BookLevel> {
    if |levels| == 0 then [] else Insert(levels[0], Sorted(levels[1..]))
  }

  lemma {:induction false} InsertSorts(level: BookLevel, sorted: seq<BookLevel>)
    requires ByPrice(sorted)
    ensures ByPrice(Insert(level, sorted))
    ensures multiset(Insert(level, sorted)) == multiset{level} + multiset(sorted)
  {
    var r := Insert(level, sorted);
    if |sorted| > 0 {
      if level.price <= sorted[0].price {
        assert r[1..] == sorted;
      } else {
        InsertSorts(level, sorted[1..]);
        assert r[1..] == Insert(level, sorted[1..]);
        assert sorted == [sorted[0]] + sorted[1..];
      }
    }
  }

  lemma {:induction false} SortedSorts(levels: seq<BookLevel>)
    ensures ByPrice(Sorted(levels)) && multiset(Sorted(levels)) == multiset(levels)
  {
    if |levels| > 0 {
      SortedSorts(levels[1..]);
      InsertSorts(levels[0], Sorted(levels[1..]));
      assert levels == [levels[0]] + levels[1..];
    }
  }

  // --- the walk -----------------------------------------------------------

  function AddFill(fills: seq<BookLevel>, price: real, take: real): seq<BookLevel> {
    if |fills| > 0 && fills[|fills| - 1].price == price
    then fills[..|fills| - 1] + [BookLevel(price, fills[|fills| - 1].size + take)]
    else fills + [BookLevel(price, take)]
  }

  /** Fills after walking on over `sorted` with `remaining` shares still wanted. */
  function WalkFrom(sorted: seq<BookLevel>, remaining: real, cap: Option<real>, fills: seq<BookLevel>): seq<BookLevel>
    decreases |sorted|
  {
    if |sorted| == 0 || remaining == 0.0 || !Within(cap, sorted[0].price) then fills
    else
      var take := Min(remaining, sorted[0].size);
      if take <= 0.0 then WalkFrom(sorted[1..], remaining, cap, fills)
      else WalkFrom(sorted[1..], remaining - take, cap, AddFill(fills, sorted[0].price, take))
  }

  function SizeOf(fills: seq<BookLevel>): real {
    if |fills| == 0 then 0.0 else SizeOf(fills[..|fills| - 1]) + fills[|fills| - 1].size
  }

  function CostOf(fills: seq<BookLevel>): real {
    if |fills| == 0 then 0.0
      else CostOf(fills[..|fills| - 1]) + Times(fills[|fills| - 1].size, fills[|fills| - 1].price)
  }

  function LastPrice(fills: seq<BookLevel>): Option<real> {
    if |fills| == 0 then None else Some(fills[|fills| - 1].price)
  }

  function Vwap(cost: real, filled: real): Option<real> {
    if filled > 0.0 then Some(cost / filled) else None
  }

  function Walk(levels: seq<BookLevel>, shares: real, cap: Option<real>): DepthCost {
    var fills := WalkFrom(Sorted(levels), shares, cap, []);
    var filled, cost := SizeOf(fills), CostOf(fills);
    DepthCost(shares, filled, cost, Vwap(cost, filled), filled == shares, LastPrice(fills), fills)
  }

  // --- what a walk is worth -----------------------------------------------

  /** Shares a level offers inside the cap. */
  function Offered(l: BookLevel, cap: Option<real>): real {
    if Within(cap, l.price) && l.size > 0.0 then l.size else 0.0
  }

  function Depth(levels: seq<BookLevel>, cap: Option<real>): real {
    if |levels| == 0 then 0.0 else Offered(levels[0], cap) + Depth(levels[1..], cap)
  }

  /** What is saved by buying everything offered below price `p` instead of at `p`. */
  function Saving(levels: seq<BookLevel>, cap: Option<real>, p: real): real {
    if |levels| == 0 then 0.0
    else Times(Offered(levels[0], cap), Max(0.0, p - levels[0].price)) + Saving(levels[1..], cap, p)
  }

  predicate Ascending(fills: seq<BookLevel>) {
    forall i, j :: 0 <= i < j < |fills| ==> fills[i].price < fills[j].price
  }

  predicate PricedUpTo(fills: seq<BookLevel>, price: real) {
    |fills| > 0 ==> fills[|fills| - 1].price <= price
  }

  lemma AddFillAscends(fills: seq<BookLevel>, price: real, take: real)
    requires Ascending(fills) && PricedUpTo(fills, price)
    ensures Ascending(AddFill(fills, price, take)) && LastPrice(AddFill(fills, price, take)) == Some(price)
  {}

  lemma AddFillSizes(fills: seq<BookLevel>, price: real, take: real)
    ensures SizeOf(AddFill(fills, price, take)) == SizeOf(fills) + take
  {
    var added := AddFill(fills, price, take);
    if |fills| > 0 && fills[|fills| - 1].price == price {
      assert added[..|added| - 1] == fills[..|fills| - 1];
    } else {
      assert added[..|added| - 1] == fills;
    }
  }

  lemma AddFillCosts(fills: seq<BookLevel>, price: real, take: real)
    ensures CostOf(AddFill(fills, price, take)) == CostOf(fills) + Times(take, price)
  {
    var added := AddFill(fills, price, take);
    if |fills| > 0 && fills[|fills| - 1].price == price {
      assert added[..|added| - 1] == fills[..|fills| - 1];
      assert Times(fills[|fills| - 1].size + take, price) == Times(fills[|fills| - 1].size, price) + Times(take, price);
    } else {
      assert added[..|added| - 1] == fills;
    }
  }

  lemma {:induction false} NothingInside(sorted: seq<BookLevel>, cap: Option<real>, p: real)
    requires ByPrice(sorted) && |sorted| > 0 && !Within(cap, sorted[0].price)
    ensures Depth(sorted, cap) == 0.0 && Saving(sorted, cap, p) == 0.0
  {
    if |sorted| > 1 {
      NothingInside(sorted[1..], cap, p);
    }
  }

  lemma {:induction false} NothingSavedAbove(sorted: seq<BookLevel>, cap: Option<real>, p: real)
    requires ByPrice(sorted) && (|sorted| > 0 ==> p <= sorted[0].price)
    ensures Saving(sorted, cap, p) == 0.0
  {
    if |sorted| > 0 {
      NothingSavedAbove(sorted[1..], cap, p);
    }
  }

  lemma {:induction false} DepthNotNegative(levels: seq<BookLevel>, cap: Option<real>)
    ensures Depth(levels, cap) >= 0.0
  {
    if |levels| > 0 {
      DepthNotNegative(levels[1..], cap);
    }
  }

  /** The walk goes up in price. */
  lemma {:induction false} WalkFromAscends(sorted: seq<BookLevel>, remaining: real, cap: Option<real>,
      fills: seq<BookLevel>)
    requires ByPrice(sorted) && Ascending(fills)
    requires |sorted| > 0 ==> PricedUpTo(fills, sorted[0].price)
    ensures Ascending(WalkFrom(sorted, remaining, cap, fills))
    decreases |sorted|
  {
    if |sorted| > 0 && remaining != 0.0 && Within(cap, sorted[0].price) {
      var take := Min(remaining, sorted[0].size);
      if take <= 0.0 {
        WalkFromAscends(sorted[1..], remaining, cap, fills);
      } else {
        AddFillAscends(fills, sorted[0].price, take);
        WalkFromAscends(sorted[1..], remaining - take, cap, AddFill(fills, sorted[0].price, take));
      }
    }
  }

  lemma TakeThenRest(remaining: real, size: real, rest: real)
    requires remaining >= 0.0 && size > 0.0 && rest >= 0.0
    ensures Min(remaining, size + rest) == Min(remaining, size) + Min(remaining - Min(remaining, size), rest)
  {}

  /** It takes what is wanted or all there is. */
  lemma {:induction false} WalkFromFills(sorted: seq<BookLevel>, remaining: real, cap: Option<real>,
      fills: seq<BookLevel>)
    requires ByPrice(sorted) && remaining >= 0.0
    ensures SizeOf(WalkFrom(sorted, remaining, cap, fills)) == SizeOf(fills) + Min(remaining, Depth(sorted, cap))
    decreases |sorted|
  {
    DepthNotNegative(sorted, cap);
    if |sorted| == 0 || remaining == 0.0 {
    } else if !Within(cap, sorted[0].price) {
      NothingInside(sorted, cap, 0.0);
    } else if sorted[0].size <= 0.0 {
      WalkFromFills(sorted[1..], remaining, cap, fills);
    } else {
      var take := Min(remaining, sorted[0].size);
      AddFillSizes(fills, sorted[0].price, take);
      WalkFromFills(sorted[1..], remaining - take, cap, AddFill(fills, sorted[0].price, take));
      DepthNotNegative(sorted[1..], cap);
      TakeThenRest(remaining, sorted[0].size, Depth(sorted[1..], cap));
    }
  }

  /** What the fills cost less than the same shares all bought at price `p`. */
  function Below(fills: seq<BookLevel>, p: real): real {
    if |fills| == 0 then 0.0
    else Below(fills[..|fills| - 1], p) + Times(fills[|fills| - 1].size, p - fills[|fills| - 1].price)
  }

  lemma {:induction false} CostFromBelow(fills: seq<BookLevel>, p: real)
    ensures CostOf(fills) == Times(SizeOf(fills), p) - Below(fills, p)
  {
    if |fills| > 0 {
      CostFromBelow(fills[..|fills| - 1], p);
    }
  }

  lemma AddFillBelow(fills: seq<BookLevel>, price: real, take: real, p: real)
    ensures Below(AddFill(fills, price, take), p) == Below(fills, p) + Times(take, p - price)
  {
    var added := AddFill(fills, price, take);
    if |fills| > 0 && fills[|fills| - 1].price == price {
      assert added[..|added| - 1] == fills[..|fills| - 1];
      TimesAdds(fills[|fills| - 1].size, take, p - price);
    } else {
      assert added[..|added| - 1] == fills;
    }
  }

  lemma TakenBelow(take: real, size: real, p: real, q: real)
    requires p >= q && (take == size || p == q)
    ensures Times(take, p - q) == Times(size, Max(0.0, p - q))
  {
    if take == size {
      assert Max(0.0, p - q) == p - q;
    } else {
      assert p - q == 0.0;
      TimesNothing(take);
      TimesNothing(size);
    }
  }

  /** A level that is taken only in part is the last one. */
  lemma PartTakenIsLast(sorted: seq<BookLevel>, remaining: real, cap: Option<real>, fills: seq<BookLevel>, p: real)
    requires ByPrice(sorted) && remaining > 0.0 && Ascending(fills) && |sorted| > 0
      && PricedUpTo(fills, sorted[0].price)
    requires Within(cap, sorted[0].price) && sorted[0].size > 0.0
    requires LastPrice(WalkFrom(sorted, remaining, cap, fills)) == Some(p)
    ensures p >= sorted[0].price && (Min(remaining, sorted[0].size) == sorted[0].size || p == sorted[0].price)
  {
    var q, take := sorted[0].price, Min(remaining, sorted[0].size);
    AddFillAscends(fills, q, take);
    WalkFromKeepsPrices(sorted[1..], remaining - take, cap, AddFill(fills, q, take));
  }

  /** One level that is taken: whatever is walked after it, its saving is counted once. */
  lemma TakeSaves(sorted: seq<BookLevel>, cap: Option<real>, fills: seq<BookLevel>, take: real, p: real)
    requires |sorted| > 0 && Within(cap, sorted[0].price) && sorted[0].size > 0.0
    requires p >= sorted[0].price && (take == sorted[0].size || p == sorted[0].price)
    ensures Below(AddFill(fills, sorted[0].price, take), p) + Saving(sorted[1..], cap, p)
      == Below(fills, p) + Saving(sorted, cap, p)
  {
    AddFillBelow(fills, sorted[0].price, take, p);
    TakenBelow(take, sorted[0].size, p, sorted[0].price);
  }

  /** Going from `fills` to `result` saves `saved` against price `p`. */
  ghost predicate Saves(result: seq<BookLevel>, fills: seq<BookLevel>, p: real, saved: real) {
    Below(result, p) == Below(fills, p) + saved
  }

  lemma SavesAfterTake(sorted: seq<BookLevel>, cap: Option<real>, fills: seq<BookLevel>, take: real, p: real,
      result: seq<BookLevel>)
    requires |sorted| > 0 && Within(cap, sorted[0].price) && sorted[0].size > 0.0
    requires p >= sorted[0].price && (take == sorted[0].size || p == sorted[0].price)
    requires Saves(result, AddFill(fills, sorted[0].price, take), p, Saving(sorted[1..], cap, p))
    ensures Saves(result, fills, p, Saving(sorted, cap, p))
  {
    TakeSaves(sorted, cap, fills, take, p);
  }

  lemma SavesAfterSkip(sorted: seq<BookLevel>, cap: Option<real>, p: real)
    requires |sorted| > 0 && sorted[0].size <= 0.0
    ensures Saving(sorted, cap, p) == Saving(sorted[1..], cap, p)
  {}

  /** Walked to a last price `p`, the fills save everything that was offered below `p`. */
  lemma {:induction false} WalkFromSaves(sorted: seq<BookLevel>, remaining: real, cap: Option<real>,
      fills: seq<BookLevel>, p: real)
    requires ByPrice(sorted) && remaining >= 0.0 && Ascending(fills)
    requires |sorted| > 0 ==> PricedUpTo(fills, sorted[0].price)
    requires LastPrice(WalkFrom(sorted, remaining, cap, fills)) == Some(p)
    ensures Saves(WalkFrom(sorted, remaining, cap, fills), fills, p, Saving(sorted, cap, p))
    decreases |sorted|
  {
    if |sorted| == 0 {
    } else if remaining == 0.0 {
      NothingSavedAbove(sorted, cap, p);
    } else if !Within(cap, sorted[0].price) {
      NothingInside(sorted, cap, p);
    } else if sorted[0].size <= 0.0 {
      WalkFromSaves(sorted[1..], remaining, cap, fills, p);
      SavesAfterSkip(sorted, cap, p);
    } else {
      var take := Min(remaining, sorted[0].size);
      AddFillAscends(fills, sorted[0].price, take);
      PartTakenIsLast(sorted, remaining, cap, fills, p);
      WalkFromSaves(sorted[1..], remaining - take, cap, AddFill(fills, sorted[0].price, take), p);
      SavesAfterTake(sorted, cap, fills, take, p, WalkFrom(sorted, remaining, cap, fills));
    }
  }

  lemma {:induction false} WalkFromKeepsPrices(sorted: seq<BookLevel>, remaining: real, cap: Option<real>,
      fills: seq<BookLevel>)
    requires |fills| > 0 && ByPrice(sorted) && (|sorted| > 0 ==> fills[|fills| - 1].price <= sorted[0].price)
    ensures var r := WalkFrom(sorted, remaining, cap, fills); |r| > 0 && r[|r| - 1].price >= fills[|fills| - 1].price
    decreases |sorted|
  {
    if |sorted| == 0 || remaining == 0.0 || !Within(cap, sorted[0].price) {
    } else {
      var take := Min(remaining, sorted[0].size);
      if take <= 0.0 {
        WalkFromKeepsPrices(sorted[1..], remaining, cap, fills);
      } else {
        WalkFromKeepsPrices(sorted[1..], remaining - take, cap, AddFill(fills, sorted[0].price, take));
      }
    }
  }

  lemma {:induction false} InsertKeepsOffers(level: BookLevel, sorted: seq<BookLevel>, cap: Option<real>, p: real)
    ensures Depth(Insert(level, sorted), cap) == Offered(level, cap) + Depth(sorted, cap)
    ensures Saving(Insert(level, sorted), cap, p) == Saving([level], cap, p) + Saving(sorted, cap, p)
  {
    var r := Insert(level, sorted);
    if |sorted| > 0 {
      if level.price <= sorted[0].price {
        assert r[1..] == sorted;
      } else {
        InsertKeepsOffers(level, sorted[1..], cap, p);
        assert r[1..] == Insert(level, sorted[1..]);
      }
    }
  }

  lemma {:induction false} SortedKeepsOffers(levels: seq<BookLevel>, cap: Option<real>, p: real)
    ensures Depth(Sorted(levels), cap) == Depth(levels, cap) && Saving(Sorted(levels), cap, p) == Saving(levels, cap, p)
  {
    if |levels| > 0 {
      SortedKeepsOffers(levels[1..], cap, p);
      InsertKeepsOffers(levels[0], Sorted(levels[1..]), cap, p);
    }
  }

  // --- the walk is optimal ------------------------------------------------

  /** An allocation: how much to take of each level, out of what it offers inside the cap. */
  ghost predicate Allocates(levels: seq<BookLevel>, cap: Option<real>, takes: seq<real>) {
    && |takes| == |levels|
    && (forall i :: 0 <= i < |takes| ==> 0.0 <= takes[i] <= Offered(levels[i], cap))
  }

  function Taken(takes: seq<real>): real {
    if |takes| == 0 then 0.0 else takes[0] + Taken(takes[1..])
  }

  function Spent(levels: seq<BookLevel>, takes: seq<real>): real
    requires |takes| == |levels|
  {
    if |levels| == 0 then 0.0 else Times(takes[0], levels[0].price) + Spent(levels[1..], takes[1..])
  }

  lemma OneLevelBound(take: real, offered: real, q: real, p: real)
    requires 0.0 <= take <= offered
    ensures Times(take, q) >= Times(take, p) - Times(offered, Max(0.0, p - q))
  {
    if q < p {
      assert Max(0.0, p - q) == p - q;
      TimesGrows(take, offered, p - q);
      TimesDistributes(take, p, q);
    } else {
      assert Max(0.0, p - q) == 0.0;
      TimesNothing(offered);
      ProductNotNegative(take, q - p);
      TimesDistributes(take, q, p);
    }
  }

  /** No allocation saves more, against a common price `p`, than all that is offered below `p`. */
  lemma {:induction false} AllocationBound(levels: seq<BookLevel>, cap: Option<real>, takes: seq<real>, p: real)
    requires Allocates(levels, cap, takes)
    ensures Spent(levels, takes) >= Times(Taken(takes), p) - Saving(levels, cap, p)
  {
    if |levels| > 0 {
      assert takes[0] <= Offered(levels[0], cap);
      OneLevelBound(takes[0], Offered(levels[0], cap), levels[0].price, p);
      AllocationBound(levels[1..], cap, takes[1..], p);
      TimesAdds(takes[0], Taken(takes[1..]), p);
    }
  }

  /** The walk fills what is wanted or everything inside the cap, at strictly rising prices up to the worst. */
  lemma WalkFills(levels: seq<BookLevel>, shares: real, cap: Option<real>)
    requires shares > 0.0
    ensures var d := Walk(levels, shares, cap);
      && d.filled == Min(shares, Depth(levels, cap)) && 0.0 <= d.filled
      && (d.sufficient <==> shares <= Depth(levels, cap))
      && Ascending(d.fills) && SizeOf(d.fills) == d.filled && CostOf(d.fills) == d.totalCost
      && LastPrice(d.fills) == d.worst
  {
    SortedSorts(levels);
    SortedKeepsOffers(levels, cap, 0.0);
    DepthNotNegative(levels, cap);
    WalkFromAscends(Sorted(levels), shares, cap, []);
    WalkFromFills(Sorted(levels), shares, cap, []);
  }

  /** The average price is what one filled share costs, and unknown exactly when nothing is filled. */
  lemma WalkAverages(levels: seq<BookLevel>, shares: real, cap: Option<real>)
    requires shares > 0.0
    ensures var d := Walk(levels, shares, cap);
      && d.requested == shares
      && (d.vwap.Some? <==> d.filled > 0.0)
      && (d.vwap.Some? ==> Times(d.filled, d.vwap.value) == d.totalCost)
  {}

  /** Some level inside the cap offers shares at this price. */
  ghost predicate OfferedAt(levels: seq<BookLevel>, cap: Option<real>, price: real) {
    exists l :: l in levels && l.price == price && Offered(l, cap) > 0.0
  }

  lemma {:induction false} WalkFromBuysOffers(sorted: seq<BookLevel>, remaining: real, cap: Option<real>,
      fills: seq<BookLevel>, levels: seq<BookLevel>)
    requires forall l :: l in sorted ==> l in levels
    requires remaining >= 0.0 && forall f :: f in fills ==> f.size > 0.0 && OfferedAt(levels, cap, f.price)
    ensures forall f :: f in WalkFrom(sorted, remaining, cap, fills) ==> f.size > 0.0 && OfferedAt(levels, cap, f.price)
    decreases |sorted|
  {
    if |sorted| == 0 || remaining == 0.0 || !Within(cap, sorted[0].price) {
    } else {
      var take := Min(remaining, sorted[0].size);
      assert sorted[0] in levels;
      WalkFromBuysOffers(sorted[1..], remaining - Max(0.0, take), cap,
                         if take <= 0.0 then fills else AddFill(fills, sorted[0].price, take), levels);
    }
  }

  /** Every fill buys a positive size at a price some level offers inside the cap. */
  lemma WalkBuysOffers(levels: seq<BookLevel>, shares: real, cap: Option<real>)
    requires shares > 0.0
    ensures forall f :: f in Walk(levels, shares, cap).fills ==> f.size > 0.0 && OfferedAt(levels, cap, f.price)
  {
    SortedSorts(levels);
    assert forall l :: l in Sorted(levels) ==> l in multiset(Sorted(levels));
    WalkFromBuysOffers(Sorted(levels), shares, cap, [], levels);
  }

  /** Shares on offer at or below a price. */
  function OfferedUpTo(levels: seq<BookLevel>, price: real): real {
    if |levels| == 0 then 0.0
    else
      OfferedUpTo(levels[1..], price)
        + (if levels[0].price <= price && levels[0].size > 0.0 then levels[0].size else 0.0)
  }

  lemma {:induction false} DepthIsOffered(levels: seq<BookLevel>, cap: real)
    ensures Depth(levels, Some(cap)) == OfferedUpTo(levels, cap)
  {
    if |levels| > 0 {
      DepthIsOffered(levels[1..], cap);
    }
  }

  /** Under a cap the walk fills the request or all that is on offer up to the cap, and never pays more. */
  lemma WalkStaysInsideTheCap(levels: seq<BookLevel>, shares: real, cap: real)
    requires shares > 0.0
    ensures var d := Walk(levels, shares, Some(cap));
      && d.filled == Min(shares, OfferedUpTo(levels, cap))
      && (d.sufficient <==> shares <= OfferedUpTo(levels, cap))
      && (forall f :: f in d.fills ==> f.size > 0.0 && f.price <= cap)
      && (d.worst.Some? ==> d.worst.value <= cap)
  {
    DepthIsOffered(levels, cap);
    WalkFills(levels, shares, Some(cap));
    WalkBuysOffers(levels, shares, Some(cap));
    var fills := Walk(levels, shares, Some(cap)).fills;
    if |fills| > 0 {
      assert fills[|fills| - 1] in fills;
    }
  }

  lemma WalkCost(levels: seq<BookLevel>, shares: real, cap: Option<real>, p: real)
    requires shares > 0.0 && Walk(levels, shares, cap).worst == Some(p)
    ensures Walk(levels, shares, cap).totalCost == Times(Walk(levels, shares, cap).filled, p) - Saving(levels, cap, p)
  {
    SortedSorts(levels);
    SortedKeepsOffers(levels, cap, p);
    WalkFromSaves(Sorted(levels), shares, cap, [], p);
    CostFromBelow(Walk(levels, shares, cap).fills, p);
  }

  lemma {:induction false} NothingTaken(levels: seq<BookLevel>, cap: Option<real>, takes: seq<real>)
    requires Allocates(levels, cap, takes) && Taken(takes) == 0.0
    ensures Spent(levels, takes) == 0.0
  {
    if |levels| > 0 {
      TakenNotNegative(takes[1..]);
      NothingTaken(levels[1..], cap, takes[1..]);
    }
  }

  lemma {:induction false} TakenNotNegative(takes: seq<real>)
    requires forall i :: 0 <= i < |takes| ==> takes[i] >= 0.0
    ensures Taken(takes) >= 0.0
  {
    if |takes| > 0 {
      TakenNotNegative(takes[1..]);
    }
  }

  /** No way of taking the same number of shares from the levels inside the cap costs less than the walk. */
  lemma NoCheaperAllocation(levels: seq<BookLevel>, shares: real, cap: Option<real>, takes: seq<real>)
    requires shares > 0.0 && Allocates(levels, cap, takes) && Taken(takes) == Walk(levels, shares, cap).filled
    ensures Spent(levels, takes) >= Walk(levels, shares, cap).totalCost
  {
    var d := Walk(levels, shares, cap);
    match d.worst
    case Some(p) =>
      WalkCost(levels, shares, cap, p);
      AllocationBound(levels, cap, takes, p);
    case None =>
      assert d.fills == [];
      NothingTaken(levels, cap, takes);
  }

  /** What the walk takes of each level. */
  function Takes(sorted: seq<BookLevel>, remaining: real, cap: Option<real>): (r: seq<real>)
    ensures |r| == |sorted|
    decreases |sorted|
  {
    if |sorted| == 0 then []
    else if !Within(cap, sorted[0].price) then seq(|sorted|, i => 0.0)
    else
      var take := Max(0.0, Min(remaining, sorted[0].size));
      [take] + Takes(sorted[1..], remaining - take, cap)
  }

  lemma {:induction false} ZerosTakeNothing(levels: seq<BookLevel>, takes: seq<real>)
    requires |takes| == |levels| && forall i :: 0 <= i < |takes| ==> takes[i] == 0.0
    ensures Taken(takes) == 0.0 && Spent(levels, takes) == 0.0
  {
    if |levels| > 0 {
      ZerosTakeNothing(levels[1..], takes[1..]);
    }
  }

  lemma {:induction false} TakesAllocates(sorted: seq<BookLevel>, remaining: real, cap: Option<real>)
    requires remaining >= 0.0
    ensures Allocates(sorted, cap, Takes(sorted, remaining, cap))
    decreases |sorted|
  {
    if |sorted| > 0 && Within(cap, sorted[0].price) {
      var take := Max(0.0, Min(remaining, sorted[0].size));
      TakesAllocates(sorted[1..], remaining - take, cap);
    }
  }

  lemma {:induction false} NothingRemains(sorted: seq<BookLevel>, cap: Option<real>)
    ensures Taken(Takes(sorted, 0.0, cap)) == 0.0 && Spent(sorted, Takes(sorted, 0.0, cap)) == 0.0
  {
    if |sorted| > 0 {
      if Within(cap, sorted[0].price) {
        NothingRemains(sorted[1..], cap);
        assert Takes(sorted, 0.0, cap)[1..] == Takes(sorted[1..], 0.0, cap);
      } else {
        ZerosTakeNothing(sorted, Takes(sorted, 0.0, cap));
      }
    }
  }

  lemma TakenUnfolds(sorted: seq<BookLevel>, remaining: real, cap: Option<real>)
    requires |sorted| > 0 && Within(cap, sorted[0].price)
    ensures var take := Max(0.0, Min(remaining, sorted[0].size));
      Taken(Takes(sorted, remaining, cap)) == take + Taken(Takes(sorted[1..], remaining - take, cap))
  {
    var take := Max(0.0, Min(remaining, sorted[0].size));
    assert Takes(sorted, remaining, cap)[1..] == Takes(sorted[1..], remaining - take, cap);
  }

  lemma SpentUnfolds(sorted: seq<BookLevel>, remaining: real, cap: Option<real>)
    requires |sorted| > 0 && Within(cap, sorted[0].price)
    ensures var take := Max(0.0, Min(remaining, sorted[0].size));
      Spent(sorted, Takes(sorted, remaining, cap))
        == Times(take, sorted[0].price) + Spent(sorted[1..], Takes(sorted[1..], remaining - take, cap))
  {
    var take := Max(0.0, Min(remaining, sorted[0].size));
    assert Takes(sorted, remaining, cap)[1..] == Takes(sorted[1..], remaining - take, cap);
  }

  lemma {:induction false} TakesReachTheDepth(sorted: seq<BookLevel>, remaining: real, cap: Option<real>)
    requires ByPrice(sorted) && remaining >= 0.0
    ensures Taken(Takes(sorted, remaining, cap)) == Min(remaining, Depth(sorted, cap))
    decreases |sorted|
  {
    DepthNotNegative(sorted, cap);
    if |sorted| == 0 {
    } else if !Within(cap, sorted[0].price) {
      NothingInside(sorted, cap, 0.0);
      ZerosTakeNothing(sorted, Takes(sorted, remaining, cap));
    } else {
      var take := Max(0.0, Min(remaining, sorted[0].size));
      TakenUnfolds(sorted, remaining, cap);
      TakesReachTheDepth(sorted[1..], remaining - take, cap);
      DepthNotNegative(sorted[1..], cap);
      if sorted[0].size > 0.0 {
        TakeThenRest(remaining, sorted[0].size, Depth(sorted[1..], cap));
      }
    }
  }

  lemma {:induction false} TakesAreTheCosts(sorted: seq<BookLevel>, remaining: real, cap: Option<real>,
      fills: seq<BookLevel>)
    requires remaining >= 0.0
    ensures CostOf(WalkFrom(sorted, remaining, cap, fills))
      == CostOf(fills) + Spent(sorted, Takes(sorted, remaining, cap))
    decreases |sorted|
  {
    if |sorted| == 0 {
    } else if remaining == 0.0 {
      NothingRemains(sorted, cap);
    } else if !Within(cap, sorted[0].price) {
      ZerosTakeNothing(sorted, Takes(sorted, remaining, cap));
    } else {
      SpentUnfolds(sorted, remaining, cap);
      if sorted[0].size <= 0.0 {
        TakesAreTheCosts(sorted[1..], remaining, cap, fills);
        TimesNothing(sorted[0].price);
      } else {
        var take := Min(remaining, sorted[0].size);
        AddFillCosts(fills, sorted[0].price, take);
        TakesAreTheCosts(sorted[1..], remaining - take, cap, AddFill(fills, sorted[0].price, take));
      }
    }
  }

  /** The walk itself is such an allocation of the sorted levels. */
  lemma WalkIsAnAllocation(levels: seq<BookLevel>, shares: real, cap: Option<real>)
    requires shares > 0.0
    ensures var takes := Takes(Sorted(levels), shares, cap);
      && Allocates(Sorted(levels), cap, takes)
      && Taken(takes) == Walk(levels, shares, cap).filled
        && Spent(Sorted(levels), takes) == Walk(levels, shares, cap).totalCost
  {
    SortedSorts(levels);
    TakesAllocates(Sorted(levels), shares, cap);
    TakesReachTheDepth(Sorted(levels), shares, cap);
    WalkFromFills(Sorted(levels), shares, cap, []);
    TakesAreTheCosts(Sorted(levels), shares, cap, []);
  }

  // --- the loop -----------------------------------------------------------

  /** The loop has walked the first `i` levels and is still on its way to `goal`. */
  ghost predicate Underway(sorted: seq<BookLevel>, i: nat, remaining: real, cap: Option<real>, fills: seq<BookLevel>,
      goal: seq<BookLevel>)
  {
    && i <= |sorted| && remaining >= 0.0
    && ByPrice(sorted[i..]) && Ascending(fills)
    && (i < |sorted| ==> PricedUpTo(fills, sorted[i].price))
    && WalkFrom(sorted[i..], remaining, cap, fills) == goal
  }

  lemma UnderwayNext(sorted: seq<BookLevel>, i: nat, remaining: real, cap: Option<real>, fills: seq<BookLevel>,
      goal: seq<BookLevel>)
    requires Underway(sorted, i, remaining, cap, fills, goal)
    requires i < |sorted| && Within(cap, sorted[i].price) && remaining != 0.0
    ensures var take := Min(remaining, sorted[i].size);
      if take <= 0.0 then Underway(sorted, i + 1, remaining, cap, fills, goal)
      else Underway(sorted, i + 1, remaining - take, cap, AddFill(fills, sorted[i].price, take), goal)
  {
    assert sorted[i..][1..] == sorted[i + 1..];
    if Min(remaining, sorted[i].size) > 0.0 {
      AddFillAscends(fills, sorted[i].price, Min(remaining, sorted[i].size));
    }
  }

  /** The running sums agree with the fills. */
  ghost predicate Tallied(shares: real, remaining: real, total: real, worst: Option<real>, fills: seq<BookLevel>) {
    total == CostOf(fills) && shares - remaining == SizeOf(fills) && worst == LastPrice(fills)
  }

  lemma TalliedNext(shares: real, remaining: real, total: real, worst: Option<real>, fills: seq<BookLevel>, price: real,
      take: real)
    requires Tallied(shares, remaining, total, worst, fills)
    ensures Tallied(shares, remaining - take, total + Times(take, price), Some(price), AddFill(fills, price, take))
  {
    AddFillSizes(fills, price, take);
    AddFillCosts(fills, price, take);
  }

  lemma Arrives(levels: seq<BookLevel>, shares: real, cap: Option<real>, i: nat, remaining: real, total: real,
      worst: Option<real>, fills: seq<BookLevel>)
    requires Underway(Sorted(levels), i, remaining, cap, fills, WalkFrom(Sorted(levels), shares, cap, []))
    requires Tallied(shares, remaining, total, worst, fills)
    requires i == |Sorted(levels)| || !Within(cap, Sorted(levels)[i].price) || remaining == 0.0
    ensures Walk(levels, shares, cap)
      == DepthCost(shares, shares - remaining, total, Vwap(total, shares - remaining), remaining == 0.0, worst, fills)
  {
    assert WalkFrom(Sorted(levels)[i..], remaining, cap, fills) == fills;
  }

  /** walk_asks: raises on a request that is not positive. */
  method WalkAsks(levels: seq<BookLevel>, shares: real, cap: Option<real>) returns (r: Result<DepthCost>)
    ensures shares <= 0.0 ==> r.Err?
    ensures shares > 0.0 ==> r == Ok(Walk(levels, shares, cap))
  {
    if shares <= 0.0 {
      return Err("requested shares must be positive");
    }
    var sorted := Sorted(levels);
    var remaining, total, worst, fills := shares, 0.0, None, [];
    var i := 0;
    ghost var goal := WalkFrom(sorted, shares, cap, []);
    assert Underway(sorted, i, remaining, cap, fills, goal) by {
      SortedSorts(levels);
      assert sorted[0..] == sorted;
    }
    while i < |sorted| && Within(cap, sorted[i].price) && remaining != 0.0
      invariant Underway(sorted, i, remaining, cap, fills, goal)
      invariant Tallied(shares, remaining, total, worst, fills)
      decreases |sorted| - i
    {
      var level := sorted[i];
      var take := Min(remaining, level.size);
      UnderwayNext(sorted, i, remaining, cap, fills, goal);
      i := i + 1;
      if take <= 0.0 {
        continue;
      }
      TalliedNext(shares, remaining, total, worst, fills, level.price, take);
      total := total + Times(take, level.price);
      fills := AddFill(fills, level.price, take);
      remaining := remaining - take;
      worst := Some(level.price);
    }
    Arrives(levels, shares, cap, i, remaining, total, worst, fills);
    r := Ok(DepthCost(shares, shares - remaining, total, Vwap(total, shares - remaining), remaining == 0.0, worst,
        fills));
  }
}

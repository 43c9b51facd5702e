/**
  One side of an order book: a ladder of levels, the dictionary from price to
  size that deltas edit, and the sorted ladder that is made of it again.
 */
module BookLadder {
  import opened DepthWalk

  datatype Side = Buy | Sell

  /** Price to size; of several levels at one price the last stands. */
  function AsMap(levels: seq<BookLevel>): map<real, real> {
    if |levels| == 0 then map[] else map[levels[0].price := levels[0].size] + AsMap(levels[1..])
  }

  // --- the dictionary, in insertion order ---------------------------------

  predicate Distinct(entries: seq<BookLevel>) {
    |entries| > 0 ==> entries[0].price !in AsMap(entries[1..]) && Distinct(entries[1..])
  }

  function Put(entries: seq<BookLevel>, price: real, size: real): seq<BookLevel> {
    if |entries| == 0 then [BookLevel(price, size)]
    else if entries[0].price == price then [BookLevel(price, size)] + entries[1..]
    else [entries[0]] + Put(entries[1..], price, size)
  }

  function Pop(entries: seq<BookLevel>, price: real): seq<BookLevel> {
    if |entries| == 0 then []
    else if entries[0].price == price then entries[1..]
    else [entries[0]] + Pop(entries[1..], price)
  }

  function DictOf(levels: seq<BookLevel>): seq<BookLevel> {
    if |levels| == 0 then [] else var last := levels[|levels| - 1];
      Put(DictOf(levels[..|levels| - 1]), last.price, last.size)
  }

  lemma OtherKeyFirst(a: real, x: real, m: map<real, real>, p: real, s: real)
    requires a != p
    ensures map[a := x] + m[p := s] == (map[a := x] + m)[p := s]
  {}

  lemma {:induction false} PutIsUpdate(entries: seq<BookLevel>, price: real, size: real)
    requires Distinct(entries)
    ensures Distinct(Put(entries, price, size)) && AsMap(Put(entries, price, size)) == AsMap(entries)[price := size]
  {
    var put := Put(entries, price, size);
    if |entries| == 0 {
      assert put[1..] == [];
    } else if entries[0].price == price {
      assert put[1..] == entries[1..];
    } else {
      PutIsUpdate(entries[1..], price, size);
      OtherKeyFirst(entries[0].price, entries[0].size, AsMap(entries[1..]), price, size);
      assert put[1..] == Put(entries[1..], price, size);
    }
  }

  lemma {:induction false} PopIsRemoval(entries: seq<BookLevel>, price: real)
    requires Distinct(entries)
    ensures Distinct(Pop(entries, price)) && AsMap(Pop(entries, price)) == AsMap(entries) - {price}
  {
    if |entries| > 0 && entries[0].price != price {
      PopIsRemoval(entries[1..], price);
      assert Pop(entries, price)[1..] == Pop(entries[1..], price);
    }
  }

  lemma {:induction false} AsMapAppend(levels: seq<BookLevel>, l: BookLevel)
    ensures AsMap(levels + [l]) == AsMap(levels)[l.price := l.size]
  {
    if |levels| > 0 {
      AsMapAppend(levels[1..], l);
      assert (levels + [l])[1..] == levels[1..] + [l];
    } else {
      assert (levels + [l])[1..] == [];
    }
  }

  lemma {:induction false} DictOfIsTheMap(levels: seq<BookLevel>)
    ensures Distinct(DictOf(levels)) && AsMap(DictOf(levels)) == AsMap(levels)
  {
    if |levels| > 0 {
      var before, last := levels[..|levels| - 1], levels[|levels| - 1];
      DictOfIsTheMap(before);
      PutIsUpdate(DictOf(before), last.price, last.size);
      AsMapAppend(before, last);
      assert before + [last] == levels;
    }
  }

  // --- the ladder ---------------------------------------------------------

  function Reversed(levels: seq<BookLevel>): seq<BookLevel> {
    if |levels| == 0 then [] else Reversed(levels[1..]) + [levels[0]]
  }

  /** Best price first; levels of one price keep their order. */
  function SideSorted(levels: seq<BookLevel>, side: Side): seq<BookLevel> {
    if side.Sell? then Sorted(levels) else Reversed(Sorted(Reversed(levels)))
  }

  /** Strictly from the best price outwards: asks rise, bids fall. */
  predicate BestFirst(levels: seq<BookLevel>, side: Side) {
    forall i, j :: 0 <= i < j < |levels| ==>
      if side.Sell? then levels[i].price < levels[j].price else levels[i].price > levels[j].price
  }

  lemma {:induction false} InsertIsUpdate(l: BookLevel, sorted: seq<BookLevel>)
    requires Distinct(sorted) && l.price !in AsMap(sorted)
    ensures Distinct(Insert(l, sorted)) && AsMap(Insert(l, sorted)) == AsMap(sorted)[l.price := l.size]
  {
    var r := Insert(l, sorted);
    if |sorted| == 0 {
      assert r[1..] == [];
    } else if l.price <= sorted[0].price {
      assert r[1..] == sorted;
    } else {
      InsertIsUpdate(l, sorted[1..]);
      OtherKeyFirst(sorted[0].price, sorted[0].size, AsMap(sorted[1..]), l.price, l.size);
      assert r[1..] == Insert(l, sorted[1..]);
    }
  }

  lemma {:induction false} SortedIsTheMap(entries: seq<BookLevel>)
    requires Distinct(entries)
    ensures Distinct(Sorted(entries)) && AsMap(Sorted(entries)) == AsMap(entries)
  {
    if |entries| > 0 {
      SortedIsTheMap(entries[1..]);
      InsertIsUpdate(entries[0], Sorted(entries[1..]));
    }
  }

  lemma {:induction false} PricesAreKeys(levels: seq<BookLevel>)
    ensures forall l :: l in levels ==> l.price in AsMap(levels)
  {
    if |levels| > 0 {
      PricesAreKeys(levels[1..]);
      assert forall l :: l in levels ==> l == levels[0] || l in levels[1..];
    }
  }

  lemma {:induction false} DistinctAscends(sorted: seq<BookLevel>)
    requires ByPrice(sorted) && Distinct(sorted)
    ensures BestFirst(sorted, Sell)
  {
    if |sorted| > 1 {
      var tail := sorted[1..];
      DistinctAscends(tail);
      PricesAreKeys(tail);
      assert tail[0] in tail;
      assert sorted[0].price < tail[0].price;
      assert forall j :: 0 < j < |tail| ==> tail[0].price < tail[j].price;
      assert sorted == [sorted[0]] + tail;
    }
  }

  lemma {:induction false} AppendDistinct(entries: seq<BookLevel>, l: BookLevel)
    requires Distinct(entries) && l.price !in AsMap(entries)
    ensures Distinct(entries + [l])
  {
    if |entries| > 0 {
      AppendDistinct(entries[1..], l);
      AsMapAppend(entries[1..], l);
      assert (entries + [l])[1..] == entries[1..] + [l];
    }
  }

  lemma {:induction false} ReversedIsTheMap(entries: seq<BookLevel>)
    requires Distinct(entries)
    ensures Distinct(Reversed(entries)) && AsMap(Reversed(entries)) == AsMap(entries)
  {
    if |entries| > 0 {
      ReversedIsTheMap(entries[1..]);
      AppendDistinct(Reversed(entries[1..]), entries[0]);
      AsMapAppend(Reversed(entries[1..]), entries[0]);
    }
  }

  lemma {:induction false} ReversedAt(levels: seq<BookLevel>, i: nat)
    requires i < |levels|
    ensures |Reversed(levels)| == |levels| && Reversed(levels)[i] == levels[|levels| - 1 - i]
  {
    if |levels| > 1 {
      ReversedAt(levels[1..], if i < |levels| - 1 then i else 0);
    }
  }

  lemma ReversedDescends(levels: seq<BookLevel>)
    requires BestFirst(levels, Sell)
    ensures BestFirst(Reversed(levels), Buy)
  {
    if |levels| > 0 {
      ReversedAt(levels, 0);
      forall i | 0 <= i < |levels| ensures Reversed(levels)[i] == levels[|levels| - 1 - i] {
        ReversedAt(levels, i);
      }
    }
  }

  /** A dictionary rendered as a ladder runs strictly from its best price; read back it is the same map. */
  lemma LadderIsTheMap(entries: seq<BookLevel>, side: Side)
    requires Distinct(entries)
    ensures BestFirst(SideSorted(entries, side), side)
    ensures AsMap(SideSorted(entries, side)) == AsMap(entries)
  {
    if side.Sell? {
      SortedSorts(entries);
      SortedIsTheMap(entries);
      DistinctAscends(Sorted(entries));
    } else {
      ReversedIsTheMap(entries);
      SortedSorts(Reversed(entries));
      SortedIsTheMap(Reversed(entries));
      DistinctAscends(Sorted(Reversed(entries)));
      ReversedIsTheMap(Sorted(Reversed(entries)));
      ReversedDescends(Sorted(Reversed(entries)));
    }
  }

  // --- any levels, distinct or not ----------------------------------------

  /** From the best price outwards, where levels may share a price. */
  predicate BestFirstWeakly(levels: seq<BookLevel>, side: Side) {
    forall i, j :: 0 <= i < j < |levels| ==>
      if side.Sell? then levels[i].price <= levels[j].price else levels[i].price >= levels[j].price
  }

  lemma OtherKeysSwap(a: real, x: real, p: real, s: real, m: map<real, real>)
    requires a != p
    ensures map[a := x] + (map[p := s] + m) == map[p := s] + (map[a := x] + m)
    ensures m[a := x][p := s] == m[p := s][a := x]
  {}

  lemma {:induction false} InsertKeepsTheMap(l: BookLevel, sorted: seq<BookLevel>)
    ensures AsMap(Insert(l, sorted)) == map[l.price := l.size] + AsMap(sorted)
  {
    var r := Insert(l, sorted);
    if |sorted| == 0 {
      assert r[1..] == [];
    } else if l.price <= sorted[0].price {
      assert r[1..] == sorted;
    } else {
      assert r[1..] == Insert(l, sorted[1..]);
      InsertKeepsTheMap(l, sorted[1..]);
      OtherKeysSwap(l.price, l.size, sorted[0].price, sorted[0].size, AsMap(sorted[1..]));
    }
  }

  lemma {:induction false} InsertKeepsTheMapReversed(l: BookLevel, sorted: seq<BookLevel>)
    ensures AsMap(Reversed(Insert(l, sorted))) == AsMap(Reversed(sorted))[l.price := l.size]
  {
    var r := Insert(l, sorted);
    if |sorted| == 0 {
      AsMapAppend(Reversed(r[1..]), l);
    } else if l.price <= sorted[0].price {
      assert r[1..] == sorted;
      AsMapAppend(Reversed(sorted), l);
    } else {
      assert r[1..] == Insert(l, sorted[1..]);
      InsertKeepsTheMapReversed(l, sorted[1..]);
      AsMapAppend(Reversed(r[1..]), sorted[0]);
      AsMapAppend(Reversed(sorted[1..]), sorted[0]);
      OtherKeysSwap(l.price, l.size, sorted[0].price, sorted[0].size, AsMap(Reversed(sorted[1..])));
    }
  }

  lemma {:induction false} SortedKeepsTheMap(levels: seq<BookLevel>)
    ensures AsMap(Sorted(levels)) == AsMap(levels)
    ensures AsMap(Reversed(Sorted(levels))) == AsMap(Reversed(levels))
  {
    if |levels| > 0 {
      SortedKeepsTheMap(levels[1..]);
      InsertKeepsTheMap(levels[0], Sorted(levels[1..]));
      InsertKeepsTheMapReversed(levels[0], Sorted(levels[1..]));
      AsMapAppend(Reversed(levels[1..]), levels[0]);
    }
  }

  lemma {:induction false} ReversedAppend(levels: seq<BookLevel>, l: BookLevel)
    ensures Reversed(levels + [l]) == [l] + Reversed(levels)
  {
    if |levels| > 0 {
      ReversedAppend(levels[1..], l);
      assert (levels + [l])[1..] == levels[1..] + [l];
    }
  }

  lemma {:induction false} ReversedTwice(levels: seq<BookLevel>)
    ensures Reversed(Reversed(levels)) == levels && multiset(Reversed(levels)) == multiset(levels)
  {
    if |levels| > 0 {
      ReversedTwice(levels[1..]);
      ReversedAppend(Reversed(levels[1..]), levels[0]);
      assert levels == [levels[0]] + levels[1..];
    }
  }

  lemma {:induction false} ByPriceAscends(sorted: seq<BookLevel>)
    requires ByPrice(sorted)
    ensures BestFirstWeakly(sorted, Sell)
  {
    if |sorted| > 1 {
      ByPriceAscends(sorted[1..]);
      assert forall j :: 0 < j < |sorted| ==> sorted[j] == sorted[1..][j - 1];
    }
  }

  lemma ReversedDescendsWeakly(levels: seq<BookLevel>)
    requires BestFirstWeakly(levels, Sell)
    ensures BestFirstWeakly(Reversed(levels), Buy)
  {
    if |levels| > 0 {
      ReversedAt(levels, 0);
      forall i | 0 <= i < |levels| ensures Reversed(levels)[i] == levels[|levels| - 1 - i] {
        ReversedAt(levels, i);
      }
    }
  }

  /** A rendered side holds the very levels it is made of, best price first, and the last one of a price stands. */
  lemma SideSortedKeepsLevels(levels: seq<BookLevel>, side: Side)
    ensures multiset(SideSorted(levels, side)) == multiset(levels)
    ensures BestFirstWeakly(SideSorted(levels, side), side)
    ensures AsMap(SideSorted(levels, side)) == AsMap(levels)
  {
    if side.Sell? {
      SortedSorts(levels);
      ByPriceAscends(Sorted(levels));
      SortedKeepsTheMap(levels);
    } else {
      var reversed := Reversed(levels);
      ReversedTwice(levels);
      SortedSorts(reversed);
      ByPriceAscends(Sorted(reversed));
      ReversedDescendsWeakly(Sorted(reversed));
      SortedKeepsTheMap(reversed);
      ReversedTwice(Sorted(reversed));
    }
  }
}

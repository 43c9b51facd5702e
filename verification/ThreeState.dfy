/**
  The profit of one opportunity in its three approved outcomes: no change, a
  25 bp increase, and 50 bp or more.
 */
module ThreeState {
  import opened Results
  import opened Amounts
  import opened Rounding
  import opened DepthWalk
  import opened EntryPlan
  import opened Settlement

  const APPROVED_SCENARIOS := [0, 25, 50]

  datatype Leg = Inc25 | Inc50Plus

  function Payout(leg: Leg, move: int): real {
    if (leg.Inc25? && move == 25) || (leg.Inc50Plus? && move >= 50) then 1.0 else 0.0
  }

  /** What the scenarios share; fees are unknown when None. */
  datatype Terms = Terms(
    contracts: int, zqPrice: real, effr: real, cal: MeetingCalendar, q25: real, q50: real, commission: real,
        fees: Option<real>)

  datatype ScenarioPnl = ScenarioPnl(
    move: int, settlement: real, futuresPnl: real, inc25Pnl: real, inc50Pnl: real, gross: real, net: Option<real>)

  function ExplicitCosts(t: Terms): Option<real> {
    if t.fees.None? then None else Some(t.commission + t.fees.value)
  }

  function FuturesPnl(t: Terms, move: int): real {
    t.contracts as real * POINT_VALUE * (TheoreticalSettlement(t.effr, move as real, t.cal) - t.zqPrice)
  }

  function Scenario(t: Terms, cost25: real, cost50: real, move: int): ScenarioPnl {
    var inc25 := t.q25 * Payout(Inc25, move) - cost25;
    var inc50 := t.q50 * Payout(Inc50Plus, move) - cost50;
    var gross := FuturesPnl(t, move) + (inc25 + inc50);
    ScenarioPnl(move, TheoreticalSettlement(t.effr, move as real, t.cal), FuturesPnl(t, move), inc25, inc50, gross,
                if ExplicitCosts(t).Some? then Some(gross - ExplicitCosts(t).value) else None)
  }

  function Matrix(t: Terms, cost25: real, cost50: real): seq<ScenarioPnl> {
    [Scenario(t, cost25, cost50, 0), Scenario(t, cost25, cost50, 25), Scenario(t, cost25, cost50, 50)]
  }

  method ScenarioMatrix(t: Terms, cost25: real, cost50: real) returns (scenarios: seq<ScenarioPnl>)
    ensures scenarios == Matrix(t, cost25, cost50)
  {
    scenarios := [];
    for i := 0 to |APPROVED_SCENARIOS|
      invariant |scenarios| == i
      invariant forall k :: 0 <= k < i ==> scenarios[k] == Scenario(t, cost25, cost50, APPROVED_SCENARIOS[k])
    {
      scenarios := scenarios + [Scenario(t, cost25, cost50, APPROVED_SCENARIOS[i])];
    }
  }

  // --- sizing -------------------------------------------------------------

  datatype HedgeRatios = HedgeRatios(r25: real, r50: real)

  function OwnRatios(effr: real, cal: MeetingCalendar): HedgeRatios {
    HedgeRatios(HedgeSharesPerContract(25, effr, cal), HedgeSharesPerContract(50, effr, cal))
  }

  function SizedTerms(contracts: int, zqPrice: real, effr: real, cal: MeetingCalendar, ratios: HedgeRatios, prior: real,
      commission: real, fees: Option<real>): Terms
  {
    Terms(contracts, zqPrice, effr, cal, IncrementalHedgeShares(ratios.r25, prior, contracts as real),
          IncrementalHedgeShares(ratios.r50, prior, contracts as real), commission, fees)
  }

  /** Shares bought beyond the exact ratio, by rounding the whole hedge up once. */
  function OverHedge(ratio: real, filled: real): real {
    SharesFor(ratio, filled) - ratio * filled
  }

  lemma OverHedgeIsBelowOneCent(ratio: real, filled: real)
    ensures 0.0 <= OverHedge(ratio, filled) < 0.01
  {
    SharesForRoundsOnce(ratio, filled);
  }

  lemma FuturesLossIsTheRatio(t: Terms, move: int)
    requires t.cal.Valid() && move >= 0
    ensures FuturesPnl(t, 0) - FuturesPnl(t, move) == HedgeSharesPerContract(move, t.effr, t.cal) * t.contracts as real
  {
    SettlementFallsWithTheMove(t.effr, 0.0, move as real, t.cal);
    var s0, sm := TheoreticalSettlement(t.effr, 0.0, t.cal), TheoreticalSettlement(t.effr, move as real, t.cal);
    LossOfContracts(t.contracts as real, s0, sm, t.zqPrice);
  }

  lemma LossOfContracts(contracts: real, s0: real, sm: real, zq: real)
    ensures contracts * POINT_VALUE * (s0 - zq) - contracts * POINT_VALUE * (sm - zq)
      == (s0 - sm) * POINT_VALUE * contracts
  {}

  lemma OverHedgeOfFills(ratio: real, prior: real, contracts: real)
    ensures IncrementalHedgeShares(ratio, prior, contracts) - ratio * contracts
      == OverHedge(ratio, prior + contracts) - OverHedge(ratio, prior)
  {
    assert ratio * (prior + contracts) == ratio * prior + ratio * contracts;
  }

  /** One leg's payout beats the futures loss of its state by what rounding over-hedges. */
  lemma LegExceedsLoss(t: Terms, move: int, prior: real)
    requires t.cal.Valid() && move >= 0
    ensures var ratio, c := HedgeSharesPerContract(move, t.effr, t.cal), t.contracts as real;
      var excess := IncrementalHedgeShares(ratio, prior, c) - (FuturesPnl(t, 0) - FuturesPnl(t, move));
      excess == OverHedge(ratio, prior + c) - OverHedge(ratio, prior) && -0.01 < excess < 0.01
  {
    var ratio, c := HedgeSharesPerContract(move, t.effr, t.cal), t.contracts as real;
    FuturesLossIsTheRatio(t, move);
    OverHedgeOfFills(ratio, prior, c);
    OverHedgeIsBelowOneCent(ratio, prior);
    OverHedgeIsBelowOneCent(ratio, prior + c);
  }

  lemma NetDiffers(t: Terms, cost25: real, cost50: real)
    requires t.fees.Some?
    ensures var m := Matrix(t, cost25, cost50);
      && m[1].net.value - m[0].net.value == t.q25 - (FuturesPnl(t, 0) - FuturesPnl(t, 25))
      && m[2].net.value - m[0].net.value == t.q50 - (FuturesPnl(t, 0) - FuturesPnl(t, 50))
  {}

  /**
    With ratios from the same EFFR, each increase state beats the no-change state by
    exactly what rounding over-hedges: the difference of the cumulative over-hedge
    after and before these contracts, so never by a cent or more either way.
   */
  lemma StatesDifferByRounding(contracts: int, zqPrice: real, effr: real, cal: MeetingCalendar, prior: real,
      commission: real, fees: real, cost25: real, cost50: real)
    requires cal.Valid() && contracts > 0
    ensures var ratios := OwnRatios(effr, cal);
      var m := Matrix(SizedTerms(contracts, zqPrice, effr, cal, ratios, prior, commission, Some(fees)), cost25, cost50);
      && m[1].net.value - m[0].net.value
        == OverHedge(ratios.r25, prior + contracts as real) - OverHedge(ratios.r25, prior)
      && m[2].net.value - m[0].net.value
        == OverHedge(ratios.r50, prior + contracts as real) - OverHedge(ratios.r50, prior)
      && -0.01 < m[1].net.value - m[0].net.value < 0.01
      && -0.01 < m[2].net.value - m[0].net.value < 0.01
  {
    var t := SizedTerms(contracts, zqPrice, effr, cal, OwnRatios(effr, cal), prior, commission, Some(fees));
    LegExceedsLoss(t, 25, prior);
    LegExceedsLoss(t, 50, prior);
    NetDiffers(t, cost25, cost50);
  }

  function MinNet(scenarios: seq<ScenarioPnl>): Option<real>
    requires |scenarios| == 3
  {
    if scenarios[0].net.None? || scenarios[1].net.None? || scenarios[2].net.None? then None
    else Some(Min(scenarios[0].net.value, Min(scenarios[1].net.value, scenarios[2].net.value)))
  }

  /** A first batch earns its minimum in the no-change state, and under a cent more in either other state. */
  lemma NoChangeIsTheMinimum(contracts: int, zqPrice: real, effr: real, cal: MeetingCalendar, commission: real,
      fees: real, cost25: real, cost50: real)
    requires cal.Valid() && contracts > 0
    ensures var t := SizedTerms(contracts, zqPrice, effr, cal, OwnRatios(effr, cal), 0.0, commission, Some(fees));
      var m := Matrix(t, cost25, cost50);
      && MinNet(m) == m[0].net
      && 0.0 <= m[1].net.value - m[0].net.value < 0.01
      && 0.0 <= m[2].net.value - m[0].net.value < 0.01
  {
    StatesDifferByRounding(contracts, zqPrice, effr, cal, 0.0, commission, fees, cost25, cost50);
    var ratios := OwnRatios(effr, cal);
    SharesForNothing(ratios.r25);
    SharesForNothing(ratios.r50);
    OverHedgeIsBelowOneCent(ratios.r25, contracts as real);
    OverHedgeIsBelowOneCent(ratios.r50, contracts as real);
  }

  // --- the opportunity ----------------------------------------------------

  datatype Opportunity =
    | Unavailable(q25: real, q50: real)
    | Priced(passive: seq<ScenarioPnl>, emergency: seq<ScenarioPnl>,
             passiveMinimum: Option<real>, emergencyMinimum: Option<real>, minimum: Option<real>)

  function Priced3(t: Terms, entry25: DepthCost, entry50: DepthCost, depth25: DepthCost,
      depth50: DepthCost): Opportunity
  {
    var passive, emergency := Matrix(t, entry25.totalCost, entry50.totalCost),
        Matrix(t, depth25.totalCost, depth50.totalCost);
    var a, b := MinNet(passive), MinNet(emergency);
    Priced(passive, emergency, a, b, if a.Some? && b.Some? then Some(Min(a.value, b.value)) else None)
  }

  function ThreeStateOpportunity(t: Terms, ratios: HedgeRatios, book25: OrderBook, book50: OrderBook, postCap: real,
      emergencyCap: real): Result<Opportunity>
  {
    if t.contracts <= 0 then Err("contracts must be positive")
    else if ratios.r25 <= 0.0 || ratios.r50 <= 0.0 then Err("hedge ratios must be finite and positive")
    else
      match PlanHedgeEntry(book25, t.q25, postCap, false)
      case Err(e) => Err(e)
      case Ok(entry25) =>
        match PlanHedgeEntry(book50, t.q50, postCap, true)
        case Err(e) => Err(e)
        case Ok(entry50) =>
          var depth25, depth50 := Walk(book25.asks, t.q25, Some(emergencyCap)),
              Walk(book50.asks, t.q50, Some(emergencyCap));
          if !(entry25.depth.sufficient && depth25.sufficient && entry25.depth.worst.Some?)
             || !(entry50.depth.sufficient && depth50.sufficient && entry50.depth.worst.Some?)
          then Ok(Unavailable(t.q25, t.q50))
          else Ok(Priced3(t, entry25.depth, entry50.depth, depth25, depth50))
  }

  method BuildThreeStateOpportunity(contracts: int, zqPrice: real, effr: real, cal: MeetingCalendar,
      saved: Option<HedgeRatios>, prior: real,
    book25: OrderBook, book50: OrderBook, commission: real, fees: Option<real>, postCap: real, emergencyCap: real)
      returns (r: Result<Opportunity>)
    ensures var ratios := if saved.Some? then saved.value else OwnRatios(effr, cal);
      r == ThreeStateOpportunity(SizedTerms(contracts, zqPrice, effr, cal, ratios, prior, commission, fees), ratios,
          book25, book50, postCap, emergencyCap)
  {
    if contracts <= 0 {
      return Err("contracts must be positive");
    }
    var ratios := if saved.Some? then saved.value else OwnRatios(effr, cal);
    if ratios.r25 <= 0.0 || ratios.r50 <= 0.0 {
      return Err("hedge ratios must be finite and positive");
    }
    var t := SizedTerms(contracts, zqPrice, effr, cal, ratios, prior, commission, fees);
    var entry25 := PlanHedgeEntry(book25, t.q25, postCap, false);
    if entry25.Err? {
      return Err(entry25.reason);
    }
    var entry50 := PlanHedgeEntry(book50, t.q50, postCap, true);
    if entry50.Err? {
      return Err(entry50.reason);
    }
    var depth25 := WalkAsks(book25.asks, t.q25, Some(emergencyCap));
    var depth50 := WalkAsks(book50.asks, t.q50, Some(emergencyCap));
    var cost25, cost50 := entry25.value.depth, entry50.value.depth;
    if !(cost25.sufficient && depth25.value.sufficient && cost25.worst.Some?)
       || !(cost50.sufficient && depth50.value.sufficient && cost50.worst.Some?) {
      return Ok(Unavailable(t.q25, t.q50));
    }
    var passive := ScenarioMatrix(t, cost25.totalCost, cost50.totalCost);
    var emergency := ScenarioMatrix(t, depth25.value.totalCost, depth50.value.totalCost);
    var a, b := MinNet(passive), MinNet(emergency);
    r := Ok(Priced(passive, emergency, a, b, if a.Some? && b.Some? then Some(Min(a.value, b.value)) else None));
  }

  lemma CheaperEarnsMore(t: Terms, a25: real, a50: real, b25: real, b50: real)
    requires b25 <= a25 && b50 <= a50 && t.fees.Some?
    ensures MinNet(Matrix(t, a25, a50)).Some? && MinNet(Matrix(t, b25, b50)).Some?
    ensures MinNet(Matrix(t, a25, a50)).value <= MinNet(Matrix(t, b25, b50)).value
  {}

  /**
    With the hard cap inside the emergency cap, an opportunity is refused for depth only
    by its entry plans, and the minimum profit it reports is the passive one.
   */
  lemma MinimumIsPassive(t: Terms, ratios: HedgeRatios, book25: OrderBook, book50: OrderBook, postCap: real,
      emergencyCap: real)
    requires postCap <= emergencyCap && t.contracts > 0 && ratios.r25 > 0.0 && ratios.r50 > 0.0 && t.q25 > 0.0
      && t.q50 > 0.0
    ensures var o := ThreeStateOpportunity(t, ratios, book25, book50, postCap, emergencyCap);
      && o.Ok?
      && (o.value.Priced? <==> PlanHedgeEntry(book25, t.q25, postCap, false).value.depth.sufficient
                               && PlanHedgeEntry(book50, t.q50, postCap, true).value.depth.sufficient)
      && (o.value.Priced? ==> o.value.minimum == o.value.passiveMinimum)
  {
    var entry25, entry50 := PlanHedgeEntry(book25, t.q25, postCap, false).value.depth,
        PlanHedgeEntry(book50, t.q50, postCap, true).value.depth;
    if entry25.sufficient && entry50.sufficient {
      EmergencyIsNoDearer(book25, t.q25, postCap, emergencyCap, false);
      EmergencyIsNoDearer(book50, t.q50, postCap, emergencyCap, true);
      SufficientHasALimit(book25, t.q25, postCap, false);
      SufficientHasALimit(book50, t.q50, postCap, true);
      if t.fees.Some? {
        CheaperEarnsMore(t, entry25.totalCost, entry50.totalCost,
                         Walk(book25.asks, t.q25, Some(emergencyCap)).totalCost,
                             Walk(book50.asks, t.q50, Some(emergencyCap)).totalCost);
      }
    }
  }

  lemma SufficientHasALimit(book: OrderBook, shares: real, cap: real, allowOneTick: bool)
    requires PlanHedgeEntry(book, shares, cap, allowOneTick).Ok?
    requires PlanHedgeEntry(book, shares, cap, allowOneTick).value.depth.sufficient
    ensures PlanHedgeEntry(book, shares, cap, allowOneTick).value.depth.worst.Some?
  {
    var d := PlanHedgeEntry(book, shares, cap, allowOneTick).value.depth;
    if d.fills == [] {
      assert SizeOf(d.fills) == 0.0;
    }
  }

  /**
    An opportunity is refused outright exactly for a count, ratio or size that is not
    positive; otherwise it is priced exactly when both entry plans suffice and the asks up
    to the emergency cap cover both legs.
   */
  lemma PricedExactlyWhen(t: Terms, ratios: HedgeRatios, book25: OrderBook, book50: OrderBook, postCap: real,
      emergencyCap: real)
    ensures var o := ThreeStateOpportunity(t, ratios, book25, book50, postCap, emergencyCap);
      && (o.Ok? <==> t.contracts > 0 && ratios.r25 > 0.0 && ratios.r50 > 0.0 && t.q25 > 0.0 && t.q50 > 0.0)
      && (o.Ok? ==>
        && PlanHedgeEntry(book25, t.q25, postCap, false).Ok? && PlanHedgeEntry(book50, t.q50, postCap, true).Ok?
        && (o.value.Priced? <==>
          && PlanHedgeEntry(book25, t.q25, postCap, false).value.depth.sufficient
          && PlanHedgeEntry(book50, t.q50, postCap, true).value.depth.sufficient
          && t.q25 <= Depth(book25.asks, Some(emergencyCap)) && t.q50 <= Depth(book50.asks, Some(emergencyCap))))
  {
    var plan25, plan50 := PlanHedgeEntry(book25, t.q25, postCap, false), PlanHedgeEntry(book50, t.q50, postCap, true);
    if t.q25 > 0.0 && t.q50 > 0.0 {
      WalkFills(book25.asks, t.q25, Some(emergencyCap));
      WalkFills(book50.asks, t.q50, Some(emergencyCap));
      if plan25.value.depth.sufficient {
        SufficientHasALimit(book25, t.q25, postCap, false);
      }
      if plan50.value.depth.sufficient {
        SufficientHasALimit(book50, t.q50, postCap, true);
      }
    }
  }

  // --- what each input is worth -------------------------------------------

  /** Two matrices whose net results differ by `d` in every state. */
  predicate ShiftedBy(a: seq<ScenarioPnl>, b: seq<ScenarioPnl>, d: real) {
    && |a| == |b| == 3
    && forall i :: 0 <= i < 3 ==> a[i].net.Some? && b[i].net.Some? && b[i].net.value == a[i].net.value + d
  }

  /** How far one scenario's net result lies from another's, `futures` apart in the futures. */
  lemma NetMoves(t: Terms, u: Terms, a25: real, a50: real, b25: real, b50: real, move: int, futures: real)
    requires t.fees.Some? && u.fees.Some? && FuturesPnl(u, move) == FuturesPnl(t, move) + futures
    ensures var a, b := Scenario(t, a25, a50, move).net, Scenario(u, b25, b50, move).net;
      && a.Some? && b.Some?
      && b.value == a.value + futures - (b25 - a25) - (b50 - a50)
        - (u.commission - t.commission) - (u.fees.value - t.fees.value)
        + (if move == 25 then u.q25 - t.q25 else 0.0) + (if move >= 50 then u.q50 - t.q50 else 0.0)
  {}

  lemma MatrixMoves(t: Terms, u: Terms, a25: real, a50: real, b25: real, b50: real, futures: real, d: real)
    requires t.fees.Some? && u.fees.Some? && u.q25 == t.q25 && u.q50 == t.q50
    requires forall i :: 0 <= i < 3 ==>
      FuturesPnl(u, APPROVED_SCENARIOS[i]) == FuturesPnl(t, APPROVED_SCENARIOS[i]) + futures
    requires d == futures - (b25 - a25) - (b50 - a50) - (u.commission - t.commission) - (u.fees.value - t.fees.value)
    ensures ShiftedBy(Matrix(t, a25, a50), Matrix(u, b25, b50), d)
  {
    assert APPROVED_SCENARIOS[0] == 0 && APPROVED_SCENARIOS[1] == 25 && APPROVED_SCENARIOS[2] == 50;
    NetMoves(t, u, a25, a50, b25, b50, 0, futures);
    NetMoves(t, u, a25, a50, b25, b50, 25, futures);
    NetMoves(t, u, a25, a50, b25, b50, 50, futures);
  }

  /** One more dollar of commission or of fees costs one dollar in every state. */
  lemma ExplicitCostsCostThemselves(t: Terms, cost25: real, cost50: real, commission: real, fees: real)
    requires t.fees.Some?
    ensures ShiftedBy(Matrix(t, cost25, cost50),
        Matrix(t.(commission := t.commission + commission, fees := Some(t.fees.value + fees)), cost25, cost50),
        -(commission + fees))
  {
    var u := t.(commission := t.commission + commission, fees := Some(t.fees.value + fees));
    forall i | 0 <= i < 3 ensures FuturesPnl(u, APPROVED_SCENARIOS[i]) == FuturesPnl(t, APPROVED_SCENARIOS[i]) {
      SameFutures(t, u, APPROVED_SCENARIOS[i]);
    }
    MatrixMoves(t, u, cost25, cost50, cost25, cost50, 0.0, -(commission + fees));
  }

  /** One more dollar for either hedge costs one dollar in every state, its own and the others. */
  lemma HedgesCostThemselves(t: Terms, cost25: real, cost50: real, more25: real, more50: real)
    requires t.fees.Some?
    ensures ShiftedBy(Matrix(t, cost25, cost50), Matrix(t, cost25 + more25, cost50 + more50), -(more25 + more50))
  {
    MatrixMoves(t, t, cost25, cost50, cost25 + more25, cost50 + more50, 0.0, -(more25 + more50));
  }

  /** The futures result is that of the same contracts, bought at the same price. */
  lemma SameFutures(t: Terms, u: Terms, move: int)
    requires u.contracts == t.contracts && u.zqPrice == t.zqPrice && u.effr == t.effr && u.cal == t.cal
    ensures FuturesPnl(u, move) == FuturesPnl(t, move)
  {}

  lemma FuturesPriceMoves(t: Terms, u: Terms, move: int)
    requires u.contracts == t.contracts && u.effr == t.effr && u.cal == t.cal
    ensures FuturesPnl(u, move) == FuturesPnl(t, move) - t.contracts as real * 4167.0 * (u.zqPrice - t.zqPrice)
  {
    PriceMoves(t.contracts as real, TheoreticalSettlement(t.effr, move as real, t.cal), t.zqPrice, u.zqPrice);
  }

  lemma PriceMoves(contracts: real, settlement: real, before: real, after: real)
    ensures contracts * POINT_VALUE * (settlement - after)
      == contracts * POINT_VALUE * (settlement - before) - contracts * 4167.0 * (after - before)
  {}

  /** A dearer futures entry costs the contracts times the point value times the rise, in every state. */
  lemma DearerEntryCostsThePoints(t: Terms, cost25: real, cost50: real, rise: real)
    requires t.fees.Some?
    ensures ShiftedBy(Matrix(t, cost25, cost50), Matrix(t.(zqPrice := t.zqPrice + rise), cost25, cost50),
        -(t.contracts as real * 4167.0 * rise))
  {
    var u := t.(zqPrice := t.zqPrice + rise);
    var futures := -(t.contracts as real * 4167.0 * rise);
    forall i | 0 <= i < 3
      ensures FuturesPnl(u, APPROVED_SCENARIOS[i]) == FuturesPnl(t, APPROVED_SCENARIOS[i]) + futures
    {
      FuturesPriceMoves(t, u, APPROVED_SCENARIOS[i]);
    }
    MatrixMoves(t, u, cost25, cost50, cost25, cost50, futures, futures);
  }

  /** More shares of a leg pay a dollar each in the state of the leg and nothing in the others. */
  lemma SharesPayInTheirState(t: Terms, cost25: real, cost50: real, more25: real, more50: real, i: nat)
    requires i < 3 && t.fees.Some?
    ensures var a, b := Matrix(t, cost25, cost50)[i].net,
          Matrix(t.(q25 := t.q25 + more25, q50 := t.q50 + more50), cost25, cost50)[i].net;
      && a.Some? && b.Some?
      && b.value == a.value + (if i == 0 then 0.0 else if i == 1 then more25 else more50)
  {
    var u := t.(q25 := t.q25 + more25, q50 := t.q50 + more50);
    var move := APPROVED_SCENARIOS[i];
    SameFutures(t, u, move);
    NetMoves(t, u, cost25, cost50, cost25, cost50, move, 0.0);
  }

  lemma FlatFutures(t: Terms, move: int)
    requires t.zqPrice == TheoreticalSettlement(t.effr, move as real, t.cal)
    ensures FuturesPnl(t, move) == 0.0
  {
    TimesNothing(t.contracts as real * POINT_VALUE);
  }

  /**
    The anchor: without shares and costs, futures that settle where they were bought earn
    nothing, whatever their number.
   */
  lemma FlatTradeEarnsNothing(t: Terms, i: nat)
    requires i < 3 && t.q25 == t.q50 == t.commission == 0.0 && t.fees == Some(0.0)
    requires t.zqPrice == TheoreticalSettlement(t.effr, APPROVED_SCENARIOS[i] as real, t.cal)
    ensures Matrix(t, 0.0, 0.0)[i].net == Some(0.0)
  {
    FlatFutures(t, APPROVED_SCENARIOS[i]);
  }

  /** Net is gross less the explicit costs, and unknown exactly when the fees are; the legs add up to gross. */
  lemma NetIsGrossLessCosts(t: Terms, cost25: real, cost50: real, i: nat)
    requires i < 3
    ensures var s := Matrix(t, cost25, cost50)[i];
      && s.move == APPROVED_SCENARIOS[i]
      && s.settlement == TheoreticalSettlement(t.effr, s.move as real, t.cal)
      && s.gross == s.futuresPnl + s.inc25Pnl + s.inc50Pnl
      && s.net == (if t.fees.None? then None else Some(s.gross - t.commission - t.fees.value))
  {}

  // --- what the reported minimum is worth ---------------------------------

  /** The terms of the same trade at another commission, fee and futures price. */
  ghost predicate SameTrade(t: Terms, u: Terms) {
    u == t.(commission := u.commission, fees := u.fees, zqPrice := u.zqPrice)
  }

  /** What the second trade costs more: commission, fees, and the point value of every contract per point of entry. */
  function Dearer(t: Terms, u: Terms): real
    requires t.fees.Some? && u.fees.Some?
  {
    (u.commission - t.commission) + (u.fees.value - t.fees.value)
      + t.contracts as real * 4167.0 * (u.zqPrice - t.zqPrice)
  }

  /** Each reported minimum of the second is lower by `d`. */
  predicate FallsBy(a: Opportunity, b: Opportunity, d: real) {
    && a.Priced? && b.Priced?
    && a.minimum.Some? && b.minimum == Some(a.minimum.value - d)
    && a.passiveMinimum.Some? && b.passiveMinimum == Some(a.passiveMinimum.value - d)
    && a.emergencyMinimum.Some? && b.emergencyMinimum == Some(a.emergencyMinimum.value - d)
  }

  /** The least of three net results: one of them, and none is lower. */
  lemma MinNetIsTheLeast(m: seq<ScenarioPnl>)
    requires |m| == 3 && m[0].net.Some? && m[1].net.Some? && m[2].net.Some?
    ensures MinNet(m).Some? && (MinNet(m) == m[0].net || MinNet(m) == m[1].net || MinNet(m) == m[2].net)
    ensures forall i :: 0 <= i < 3 ==> MinNet(m).value <= m[i].net.value
  {}

  /** The reported minimum is the least net result of both matrices, and unknown exactly when the fees are. */
  lemma MinimumIsTheLeastNet(t: Terms, ratios: HedgeRatios, book25: OrderBook, book50: OrderBook, postCap: real,
      emergencyCap: real)
    requires var o := ThreeStateOpportunity(t, ratios, book25, book50, postCap, emergencyCap);
      o.Ok? && o.value.Priced?
    ensures var o := ThreeStateOpportunity(t, ratios, book25, book50, postCap, emergencyCap).value;
      && |o.passive| == 3 && |o.emergency| == 3
      && (o.minimum.None? <==> t.fees.None?)
      && (o.minimum.Some? ==>
            && (forall s :: s in o.passive || s in o.emergency ==> s.net.Some? && o.minimum.value <= s.net.value)
            && (exists s :: (s in o.passive || s in o.emergency) && s.net == o.minimum))
  {
    PricedIsTheLeast(t, PlanHedgeEntry(book25, t.q25, postCap, false).value.depth,
        PlanHedgeEntry(book50, t.q50, postCap, true).value.depth, Walk(book25.asks, t.q25, Some(emergencyCap)),
        Walk(book50.asks, t.q50, Some(emergencyCap)));
  }

  lemma LeastOfBoth(a: seq<ScenarioPnl>, b: seq<ScenarioPnl>)
    requires |a| == |b| == 3 && forall i :: 0 <= i < 3 ==> a[i].net.Some? && b[i].net.Some?
    ensures MinNet(a).Some? && MinNet(b).Some?
    ensures var least := Some(Min(MinNet(a).value, MinNet(b).value));
      && (forall s :: s in a || s in b ==> s.net.Some? && least.value <= s.net.value)
      && (exists s :: (s in a || s in b) && s.net == least)
  {
    MinNetIsTheLeast(a);
    MinNetIsTheLeast(b);
    var m := if MinNet(a).value <= MinNet(b).value then a else b;
    var i := if MinNet(m) == m[0].net then 0 else if MinNet(m) == m[1].net then 1 else 2;
    assert m[i] in m;
  }

  lemma PricedIsTheLeast(t: Terms, entry25: DepthCost, entry50: DepthCost, depth25: DepthCost, depth50: DepthCost)
    ensures var o := Priced3(t, entry25, entry50, depth25, depth50);
      && (o.minimum.None? <==> t.fees.None?)
      && (o.minimum.Some? ==>
            && (forall s :: s in o.passive || s in o.emergency ==> s.net.Some? && o.minimum.value <= s.net.value)
            && (exists s :: (s in o.passive || s in o.emergency) && s.net == o.minimum))
  {
    if t.fees.Some? {
      LeastOfBoth(Matrix(t, entry25.totalCost, entry50.totalCost), Matrix(t, depth25.totalCost, depth50.totalCost));
    }
  }

  /** The leg results of one matrix: a dollar a share in the state of the leg, less what that leg costs. */
  predicate LegsEarn(m: seq<ScenarioPnl>, t: Terms, cost25: real, cost50: real) {
    && |m| == 3
    && m[0].inc25Pnl == -cost25 && m[1].inc25Pnl == t.q25 - cost25 && m[2].inc25Pnl == -cost25
    && m[0].inc50Pnl == -cost50 && m[1].inc50Pnl == -cost50 && m[2].inc50Pnl == t.q50 - cost50
  }

  lemma MatrixLegsEarn(t: Terms, cost25: real, cost50: real)
    ensures LegsEarn(Matrix(t, cost25, cost50), t, cost25, cost50)
  {}

  /** The passive matrix charges each leg its entry plan, the emergency matrix its walk up to the emergency cap. */
  lemma LegsCarryTheirOwnCosts(t: Terms, ratios: HedgeRatios, book25: OrderBook, book50: OrderBook, postCap: real,
      emergencyCap: real)
    requires var o := ThreeStateOpportunity(t, ratios, book25, book50, postCap, emergencyCap);
      o.Ok? && o.value.Priced?
    ensures PlanHedgeEntry(book25, t.q25, postCap, false).Ok? && PlanHedgeEntry(book50, t.q50, postCap, true).Ok?
    ensures var o := ThreeStateOpportunity(t, ratios, book25, book50, postCap, emergencyCap).value;
      && LegsEarn(o.passive, t, PlanHedgeEntry(book25, t.q25, postCap, false).value.depth.totalCost,
          PlanHedgeEntry(book50, t.q50, postCap, true).value.depth.totalCost)
      && LegsEarn(o.emergency, t, Walk(book25.asks, t.q25, Some(emergencyCap)).totalCost,
          Walk(book50.asks, t.q50, Some(emergencyCap)).totalCost)
  {
    MatrixLegsEarn(t, PlanHedgeEntry(book25, t.q25, postCap, false).value.depth.totalCost,
        PlanHedgeEntry(book50, t.q50, postCap, true).value.depth.totalCost);
    MatrixLegsEarn(t, Walk(book25.asks, t.q25, Some(emergencyCap)).totalCost,
        Walk(book50.asks, t.q50, Some(emergencyCap)).totalCost);
  }

  lemma MinNetShifts(a: seq<ScenarioPnl>, b: seq<ScenarioPnl>, d: real)
    requires ShiftedBy(a, b, d)
    ensures MinNet(a).Some? && MinNet(b).Some? && MinNet(b).value == MinNet(a).value + d
  {}

  lemma OpportunityShifts(t: Terms, u: Terms, entry25: DepthCost, entry50: DepthCost, depth25: DepthCost,
      depth50: DepthCost, d: real)
    requires ShiftedBy(Matrix(t, entry25.totalCost, entry50.totalCost),
        Matrix(u, entry25.totalCost, entry50.totalCost), d)
    requires ShiftedBy(Matrix(t, depth25.totalCost, depth50.totalCost),
        Matrix(u, depth25.totalCost, depth50.totalCost), d)
    ensures FallsBy(Priced3(t, entry25, entry50, depth25, depth50), Priced3(u, entry25, entry50, depth25, depth50), -d)
  {
    MinNetShifts(Matrix(t, entry25.totalCost, entry50.totalCost), Matrix(u, entry25.totalCost, entry50.totalCost), d);
    MinNetShifts(Matrix(t, depth25.totalCost, depth50.totalCost), Matrix(u, depth25.totalCost, depth50.totalCost), d);
  }

  lemma MatrixFalls(t: Terms, u: Terms, cost25: real, cost50: real)
    requires SameTrade(t, u) && t.fees.Some? && u.fees.Some?
    ensures ShiftedBy(Matrix(t, cost25, cost50), Matrix(u, cost25, cost50), -Dearer(t, u))
  {
    var futures := -(t.contracts as real * 4167.0 * (u.zqPrice - t.zqPrice));
    forall i | 0 <= i < 3
      ensures FuturesPnl(u, APPROVED_SCENARIOS[i]) == FuturesPnl(t, APPROVED_SCENARIOS[i]) + futures
    {
      FuturesPriceMoves(t, u, APPROVED_SCENARIOS[i]);
    }
    MatrixMoves(t, u, cost25, cost50, cost25, cost50, futures, -Dearer(t, u));
  }

  /** Through books, plans and matrices the reported minima fall by what the trade costs more, to the dollar. */
  lemma MinimumFallsByTheCosts(t: Terms, u: Terms, ratios: HedgeRatios, book25: OrderBook, book50: OrderBook,
      postCap: real, emergencyCap: real)
    requires SameTrade(t, u) && t.fees.Some? && u.fees.Some?
    requires var o := ThreeStateOpportunity(t, ratios, book25, book50, postCap, emergencyCap);
      o.Ok? && o.value.Priced?
    ensures var a := ThreeStateOpportunity(t, ratios, book25, book50, postCap, emergencyCap).value;
      var b := ThreeStateOpportunity(u, ratios, book25, book50, postCap, emergencyCap);
      && b.Ok? && b.value.Priced? && FallsBy(a, b.value, Dearer(t, u))
  {
    var entry25, entry50 := PlanHedgeEntry(book25, t.q25, postCap, false).value.depth,
        PlanHedgeEntry(book50, t.q50, postCap, true).value.depth;
    var depth25, depth50 := Walk(book25.asks, t.q25, Some(emergencyCap)), Walk(book50.asks, t.q50, Some(emergencyCap));
    PricedFalls(t, u, entry25, entry50, depth25, depth50);
  }

  lemma PricedFalls(t: Terms, u: Terms, entry25: DepthCost, entry50: DepthCost, depth25: DepthCost,
      depth50: DepthCost)
    requires SameTrade(t, u) && t.fees.Some? && u.fees.Some?
    ensures FallsBy(Priced3(t, entry25, entry50, depth25, depth50), Priced3(u, entry25, entry50, depth25, depth50),
        Dearer(t, u))
  {
    MatrixFalls(t, u, entry25.totalCost, entry50.totalCost);
    MatrixFalls(t, u, depth25.totalCost, depth50.totalCost);
    OpportunityShifts(t, u, entry25, entry50, depth25, depth50, -Dearer(t, u));
  }
}

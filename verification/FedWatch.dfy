/**
  The FedWatch reference: the rate after the target meeting, inferred backwards
  from a later month without a meeting, and the two-outcome distribution of a move.
 */
module FedWatch {
  import opened Results
  import opened Settlement

  // --- contract months ----------------------------------------------------

  datatype Month = Month(year: int, number: int) {
    predicate Valid() { 1 <= number <= 12 }

    function Index(): int { 12 * year + number - 1 }
  }

  function NextContractMonth(m: Month): (r: Month)
    requires m.Valid()
    ensures r.Valid() && r.Index() == m.Index() + 1
  {
    Month(m.year + (if m.number == 12 then 1 else 0), m.number % 12 + 1)
  }

  lemma SameIndexSameMonth(a: Month, b: Month)
    requires a.Valid() && b.Valid() && a.Index() == b.Index()
    ensures a == b
  {}

  function MonthsAfter(target: Month, n: nat): (r: seq<Month>)
    requires target.Valid()
    ensures |r| == n
    decreases n
  {
    if n == 0 then [] else var next := NextContractMonth(target); [next] + MonthsAfter(next, n - 1)
  }

  lemma {:induction false} MonthsAfterLast(target: Month, n: nat)
    requires target.Valid()
    ensures MonthsAfter(target, n + 1)[..n] == MonthsAfter(target, n)
    ensures MonthsAfter(target, n + 1)[n].Valid() && MonthsAfter(target, n + 1)[n].Index() == target.Index() + n + 1
    decreases n
  {
    var next := NextContractMonth(target);
    if n > 0 {
      MonthsAfterLast(next, n - 1);
      assert MonthsAfter(target, n + 1)[..n] == [next] + MonthsAfter(next, n)[..n - 1];
    }
  }

  /** The months between target and anchor, the anchor left out. */
  function Between(target: Month, anchor: Month): seq<Month>
    requires target.Valid() && anchor.Index() > target.Index()
  {
    MonthsAfter(target, anchor.Index() - target.Index() - 1)
  }

  /** Lists the months after `target` up to and including `anchor`; it stops there. */
  method MonthsThrough(target: Month, anchor: Month) returns (months: seq<Month>)
    requires target.Valid() && anchor.Valid() && anchor.Index() > target.Index()
    ensures months == Between(target, anchor) + [anchor]
  {
    months := [];
    var month := NextContractMonth(target);
    while month.Index() <= anchor.Index()
      invariant month.Valid() && month.Index() == target.Index() + 1 + |months|
      invariant months == MonthsAfter(target, |months|) && |months| <= anchor.Index() - target.Index()
      decreases anchor.Index() - month.Index()
    {
      MonthsAfterLast(target, |months|);
      SameIndexSameMonth(month, MonthsAfter(target, |months| + 1)[|months|]);
      months := months + [month];
      month := NextContractMonth(month);
    }
    var n := |months| - 1;
    MonthsAfterLast(target, n);
    SameIndexSameMonth(months[n], anchor);
  }

  // --- the recursion ------------------------------------------------------

  /** Effective day of the one rate change configured in a month. */
  type Changes = map<Month, int>

  function IntervalOf(m: Month, day: int): MeetingCalendar {
    MeetingCalendar(m.year, m.number, day)
  }

  /** The rate before a month, given its average and the rate after it. */
  function RateBefore(m: Month, average: real, after: real, changes: Changes): real
    requires m in changes ==> changes[m] != 1
  {
    if m in changes then
      var interval := IntervalOf(m, changes[m]);
      (interval.TotalDays() as real * average - interval.DaysAfter() as real * after) / interval.DaysBefore() as real
    else average
  }

  predicate Quoted(months: seq<Month>, prices: map<Month, real>) {
    forall m :: m in months ==> m in prices
  }

  predicate AfterFirstDay(changes: Changes) {
    forall m :: m in changes ==> changes[m] >= 2
  }

  predicate ValidChanges(months: seq<Month>, changes: Changes) {
    AfterFirstDay(changes) && forall m :: m in changes ==> m in months
  }

  /** Working back over the months: the rate before the first of them. */
  function PostRate(months: seq<Month>, rates: map<Month, real>, changes: Changes, anchorRate: real): real
    requires Quoted(months, rates)
    requires AfterFirstDay(changes)
  {
    if |months| == 0 then anchorRate
    else RateBefore(months[0], rates[months[0]], PostRate(months[1..], rates, changes, anchorRate), changes)
  }

  /**
    A path of rates generates the quotes: `path[i]` rules at the start of month `i`; a month
    with a change averages the rates around it, and any other month keeps its rate.
   */
  ghost predicate Generates(path: seq<real>, months: seq<Month>, rates: map<Month, real>, changes: Changes)
    requires Quoted(months, rates)
  {
    && |path| == |months| + 1
    && (forall i :: 0 <= i < |months| ==> MonthGenerated(path[i], path[i + 1], months[i], rates[months[i]], changes))
  }

  predicate MonthGenerated(before: real, after: real, m: Month, average: real, changes: Changes) {
    if m in changes then
      var interval := IntervalOf(m, changes[m]);
      average == (interval.DaysBefore() as real * before
        + interval.DaysAfter() as real * after) / interval.TotalDays() as real
    else average == before && after == before
  }

  lemma OneMonthInverts(before: real, after: real, m: Month, average: real, changes: Changes)
    requires m in changes ==> changes[m] >= 2
    requires MonthGenerated(before, after, m, average, changes)
    ensures RateBefore(m, average, after, changes) == before
  {
    if m in changes {
      var interval := IntervalOf(m, changes[m]);
      Unmix(interval.DaysBefore() as real, interval.DaysAfter() as real, interval.TotalDays() as real, before, after);
    }
  }

  lemma Unmix(b: real, a: real, total: real, before: real, after: real)
    requires b > 0.0 && total > 0.0
    ensures (total * ((b * before + a * after) / total) - a * after) / b == before
  {
    var sum := b * before + a * after;
    assert total * (sum / total) == sum;
    assert (b * before) / b == before;
  }

  /** The backward recursion inverts the forward model: it returns the rate the path started from. */
  lemma {:induction false} PostRateInverts(path: seq<real>, months: seq<Month>, rates: map<Month, real>,
      changes: Changes)
    requires Quoted(months, rates)
    requires AfterFirstDay(changes)
    requires Generates(path, months, rates, changes)
    ensures PostRate(months, rates, changes, path[|months|]) == path[0]
  {
    if |months| > 0 {
      assert Generates(path[1..], months[1..], rates, changes);
      PostRateInverts(path[1..], months[1..], rates, changes);
      OneMonthInverts(path[0], path[1], months[0], rates[months[0]], changes);
    }
  }

  // --- two adjacent outcomes ----------------------------------------------

  datatype Bucket = Dec50Plus | Dec25 | NoChange | Inc25 | Inc50Plus

  function BucketForMove(move: int): Bucket {
    if move <= -50 then Dec50Plus
    else if move == -25 then Dec25
    else if move == 0 then NoChange
    else if move == 25 then Inc25
    else Inc50Plus
  }

  function MoveOf(b: Bucket): real {
    match b
    case Dec50Plus => -50.0
    case Dec25 => -25.0
    case NoChange => 0.0
    case Inc25 => 25.0
    case Inc50Plus => 50.0
  }

  datatype Adjacent = Adjacent(lower: int, lowerProbability: real, upper: int, upperProbability: real)

  function AdjacentOutcomes(expected: real): Option<Adjacent> {
    if expected < -50.0 || expected > 50.0 then None
    else
      var lower := if expected == 50.0 then 25 else (expected / 25.0).Floor * 25;
      var p := (expected - lower as real) / 25.0;
      Some(Adjacent(lower, 1.0 - p, lower + 25, p))
  }

  /** The probability a bucket gets: that of the neighbouring outcomes that fall into it. */
  function BucketProbability(outcomes: Option<Adjacent>, b: Bucket): real {
    match outcomes
    case None => 0.0
    case Some(a) =>
      (if BucketForMove(a.lower) == b then a.lowerProbability else 0.0)
      + (if BucketForMove(a.upper) == b then a.upperProbability else 0.0)
  }

  /** Over all five buckets. */
  function TotalProbability(outcomes: Option<Adjacent>): real {
    BucketProbability(outcomes, Dec50Plus) + BucketProbability(outcomes, Dec25) + BucketProbability(outcomes, NoChange)
    + BucketProbability(outcomes, Inc25) + BucketProbability(outcomes, Inc50Plus)
  }

  /**
    Inside the modelled range the two outcomes are neighbouring buckets whose probabilities add
    to one and whose mean is the move.
   */
  lemma AdjacentOutcomesAreADistribution(expected: real)
    ensures AdjacentOutcomes(expected).Some? <==> -50.0 <= expected <= 50.0
    ensures AdjacentOutcomes(expected).Some? ==>
      var a := AdjacentOutcomes(expected).value;
      && 0.0 <= a.lowerProbability <= 1.0 && 0.0 <= a.upperProbability <= 1.0
      && a.lowerProbability + a.upperProbability == 1.0
      && MoveOf(BucketForMove(a.lower)) == a.lower as real && MoveOf(BucketForMove(a.upper)) == a.upper as real
      && TotalProbability(Some(a)) == 1.0
      && a.lowerProbability * MoveOf(BucketForMove(a.lower)) + a.upperProbability * MoveOf(BucketForMove(a.upper))
        == expected
  {
    if -50.0 <= expected <= 50.0 {
      var k := (expected / 25.0).Floor;
      assert -2 <= k <= 2;
      assert k == 2 ==> expected == 50.0;
      var a := AdjacentOutcomes(expected).value;
      assert a.lower in {-50, -25, 0, 25};
    }
  }

  // --- the diagnostic -----------------------------------------------------

  datatype Diagnostic =
    | AwaitingQuotes
    | Inferred(endRate: real, expectedMove: real, residual: real, outcomes: Option<Adjacent>)

  function ImpliedAverage(price: real): real { 100.0 - price }

  function Rates(prices: map<Month, real>): map<Month, real> {
    map m | m in prices :: ImpliedAverage(prices[m])
  }

  datatype EffectiveDate = EffectiveDate(month: Month, day: int)

  /** The dates by month; a repeated month leaves fewer entries than dates. */
  function ChangesOf(dates: seq<EffectiveDate>): Changes {
    if |dates| == 0 then map[]
    else ChangesOf(dates[..|dates| - 1])[dates[|dates| - 1].month := dates[|dates| - 1].day]
  }

  function Diagnose(end: real, effr: real, targetRate: real, cal: MeetingCalendar): Diagnostic {
    var modeled := (cal.DaysBefore() as real * effr + cal.DaysAfter() as real * end) / cal.TotalDays() as real;
    Inferred(end, (end - effr) * 100.0, (targetRate - modeled) * 100.0, AdjacentOutcomes((end - effr) * 100.0))
  }

  /** Works backwards over the months between, from the anchor's rate. */
  method BackOut(between: seq<Month>, rates: map<Month, real>, changes: Changes, anchorRate: real) returns (post: real)
    requires Quoted(between, rates) && AfterFirstDay(changes)
    ensures post == PostRate(between, rates, changes, anchorRate)
  {
    post := anchorRate;
    var i := |between|;
    while i > 0
      invariant 0 <= i <= |between|
      invariant Quoted(between[i..], rates) && post == PostRate(between[i..], rates, changes, anchorRate)
    {
      i := i - 1;
      assert between[i..][1..] == between[i + 1..];
      post := RateBefore(between[i], rates[between[i]], post, changes);
    }
    assert between[0..] == between;
  }

  /** The outcome for an anchor that follows the target. */
  function Reference(prices: map<Month, real>, effr: real, cal: MeetingCalendar, anchor: Month,
      dates: seq<EffectiveDate>): Result<Diagnostic>
    requires cal.Valid() && anchor.Valid()
  {
    var target, changes, rates := Month(cal.year, cal.month), ChangesOf(dates), Rates(prices);
    if anchor.Index() <= target.Index() then Err("FedWatch anchor must follow the target month")
    else
      var between := Between(target, anchor);
      if target !in prices || !Quoted(between + [anchor], prices) then Ok(AwaitingQuotes)
      else
        if |changes| != |dates| || !(forall m :: m in changes ==> m in between)
          then Err("invalid intervening calendar or non-meeting anchor")
      else if !AfterFirstDay(changes) then Err("meeting calendar requires pre-decision and post-decision days")
      else
        assert anchor in between + [anchor];
        assert Quoted(between, rates) by { assert forall m :: m in between ==> m in between + [anchor]; }
        Ok(Diagnose(PostRate(between, rates, changes, rates[anchor]), effr, rates[target], cal))
  }

  /**
    fedwatch_reference: raises on an anchor that does not follow, a repeated or misplaced
    change, or a change on day one.
   */
  method FedWatchReference(prices: map<Month, real>, effr: real, cal: MeetingCalendar, anchor: Month,
      dates: seq<EffectiveDate>)
    returns (r: Result<Diagnostic>)
    requires cal.Valid() && anchor.Valid()
    ensures r == Reference(prices, effr, cal, anchor, dates)
  {
    var rates, target := Rates(prices), Month(cal.year, cal.month);
    if anchor.Index() <= target.Index() {
      return Err("FedWatch anchor must follow the target month");
    }
    var months := MonthsThrough(target, anchor);
    if target !in rates || !Quoted(months, rates) {
      return Ok(AwaitingQuotes);
    }
    var changes := ChangesOf(dates);
    var between := months[..|months| - 1];
    assert between == Between(target, anchor);
    if |changes| != |dates| || !(forall m :: m in changes ==> m in between) {
      return Err("invalid intervening calendar or non-meeting anchor");
    }
    if !AfterFirstDay(changes) {
      return Err("meeting calendar requires pre-decision and post-decision days");
    }
    assert anchor in months;
    assert Quoted(between, rates) by { assert forall m :: m in between ==> m in months; }
    var post := BackOut(between, rates, changes, rates[anchor]);
    r := Ok(Diagnose(post, effr, rates[target], cal));
  }

  lemma AverageOfEnd(effr: real, end: real, cal: MeetingCalendar)
    requires cal.Valid()
    ensures AverageRate(effr, (end - effr) * 100.0, cal)
      == (cal.DaysBefore() as real * effr + cal.DaysAfter() as real * end) / cal.TotalDays() as real
  {
    assert effr + (end - effr) * 100.0 / 100.0 == end;
  }

  /**
    Quotes generated by any rate path, over any number of months and any valid set of
    mid-month changes, give back exactly the rate after the target meeting.
   */
  lemma {:induction false} ReferenceFindsThePostRate(path: seq<real>, effr: real, prices: map<Month, real>,
      cal: MeetingCalendar, anchor: Month, dates: seq<EffectiveDate>)
    requires cal.Valid() && anchor.Valid() && anchor.Index() > Month(cal.year, cal.month).Index()
    requires var between := Between(Month(cal.year, cal.month), anchor);
      && Month(cal.year, cal.month) in prices && anchor in prices && Quoted(between, prices)
        && Quoted(between, Rates(prices))
      && |ChangesOf(dates)| == |dates| && ValidChanges(between, ChangesOf(dates))
      && Generates(path, between, Rates(prices), ChangesOf(dates))
      && ImpliedAverage(prices[anchor]) == path[|between|]
    requires ImpliedAverage(prices[Month(cal.year, cal.month)]) == AverageRate(effr, (path[0] - effr) * 100.0, cal)
    ensures var move := (path[0] - effr) * 100.0;
      Reference(prices, effr, cal, anchor, dates) == Ok(Inferred(path[0], move, 0.0, AdjacentOutcomes(move)))
  {
    var between, changes := Between(Month(cal.year, cal.month), anchor), ChangesOf(dates);
    assert Reference(prices, effr, cal, anchor, dates)
      == Ok(Diagnose(PostRate(between, Rates(prices), changes, Rates(prices)[anchor]), effr,
          Rates(prices)[Month(cal.year, cal.month)], cal)) by
      {
      assert Quoted(between + [anchor], prices);
    }
    PostRateInverts(path, between, Rates(prices), changes);
    ExactDiagnosis(effr, path[0], cal);
  }

  lemma ExactDiagnosis(effr: real, end: real, cal: MeetingCalendar)
    requires cal.Valid()
    ensures var move := (end - effr) * 100.0;
      Diagnose(end, effr, AverageRate(effr, move, cal), cal) == Inferred(end, move, 0.0, AdjacentOutcomes(move))
  {
    AverageOfEnd(effr, end, cal);
  }

  lemma DiagnosisOfAnyTarget(end: real, effr: real, targetRate: real, cal: MeetingCalendar)
    requires cal.Valid()
    ensures var d := Diagnose(end, effr, targetRate, cal);
      && d.endRate == end && d.expectedMove == (end - effr) * 100.0
      && d.residual == (targetRate - AverageRate(effr, (end - effr) * 100.0, cal)) * 100.0
      && d.outcomes == AdjacentOutcomes((end - effr) * 100.0)
  {
    AverageOfEnd(effr, end, cal);
  }

  /** The result, when there is one, diagnoses the quoted average of the target month. */
  lemma ReferenceDiagnoses(prices: map<Month, real>, effr: real, cal: MeetingCalendar, anchor: Month,
      dates: seq<EffectiveDate>) returns (end: real)
    requires cal.Valid() && anchor.Valid()
    requires Reference(prices, effr, cal, anchor, dates).Ok?
      && Reference(prices, effr, cal, anchor, dates).value.Inferred?
    ensures Month(cal.year, cal.month) in prices
    ensures Reference(prices, effr, cal, anchor, dates)
      == Ok(Diagnose(end, effr, 100.0 - prices[Month(cal.year, cal.month)], cal))
  {
    var target, changes, rates := Month(cal.year, cal.month), ChangesOf(dates), Rates(prices);
    var between := Between(target, anchor);
    assert target in prices && anchor in between + [anchor] && AfterFirstDay(changes);
    assert Quoted(between, rates) by {
      assert forall m :: m in between ==> m in between + [anchor];
    }
    end := PostRate(between, rates, changes, rates[anchor]);
    assert rates[target] == 100.0 - prices[target];
  }

  /**
    Whatever the quotes, the residual is what the target month's quoted average exceeds the
    average of the inferred path by, in basis points: zero exactly when they agree, and a
    point more of target price lowers it by one hundred.
   */
  lemma ResidualIsTheMisfit(prices: map<Month, real>, effr: real, cal: MeetingCalendar, anchor: Month,
      dates: seq<EffectiveDate>)
    requires cal.Valid() && anchor.Valid()
    requires Reference(prices, effr, cal, anchor, dates).Ok?
      && Reference(prices, effr, cal, anchor, dates).value.Inferred?
    ensures Month(cal.year, cal.month) in prices
    ensures var d := Reference(prices, effr, cal, anchor, dates).value;
      && d.expectedMove == (d.endRate - effr) * 100.0
      && d.residual == (100.0 - prices[Month(cal.year, cal.month)] - AverageRate(effr, d.expectedMove, cal)) * 100.0
      && d.outcomes == AdjacentOutcomes(d.expectedMove)
  {
    var end := ReferenceDiagnoses(prices, effr, cal, anchor, dates);
    DiagnosisOfAnyTarget(end, effr, 100.0 - prices[Month(cal.year, cal.month)], cal);
  }

  /** Some month from `first` to `last` has no quote. */
  ghost predicate SomeUnquoted(prices: map<Month, real>, first: Month, last: Month) {
    exists m: Month :: m.Valid() && first.Index() <= m.Index() <= last.Index() && m !in prices
  }

  lemma {:induction false} MonthsAfterAre(target: Month, n: nat, m: Month)
    requires target.Valid()
    ensures m in MonthsAfter(target, n) <==> m.Valid() && target.Index() < m.Index() <= target.Index() + n
    decreases n
  {
    if n > 0 {
      var next := NextContractMonth(target);
      MonthsAfterAre(next, n - 1, m);
      if m.Valid() && m.Index() == next.Index() {
        SameIndexSameMonth(m, next);
      }
    }
  }

  lemma MonthIsListed(target: Month, anchor: Month, m: Month)
    requires target.Valid() && anchor.Valid() && anchor.Index() > target.Index()
    ensures m.Valid() && target.Index() <= m.Index() <= anchor.Index()
      <==> m == target || m in Between(target, anchor) + [anchor]
  {
    MonthsAfterAre(target, anchor.Index() - target.Index() - 1, m);
    if m.Valid() && m.Index() == target.Index() {
      SameIndexSameMonth(m, target);
    }
    if m.Valid() && m.Index() == anchor.Index() {
      SameIndexSameMonth(m, anchor);
    }
  }

  lemma UnquotedIsFound(prices: map<Month, real>, target: Month, anchor: Month)
    requires target.Valid() && anchor.Valid() && anchor.Index() > target.Index()
    ensures SomeUnquoted(prices, target, anchor) <==>
      target !in prices || !Quoted(Between(target, anchor) + [anchor], prices)
  {
    if SomeUnquoted(prices, target, anchor) {
      var m: Month :| m.Valid() && target.Index() <= m.Index() <= anchor.Index() && m !in prices;
      MonthIsListed(target, anchor, m);
    }
    if target !in prices || !Quoted(Between(target, anchor) + [anchor], prices) {
      var m :| (m == target || m in Between(target, anchor) + [anchor]) && m !in prices;
      MonthIsListed(target, anchor, m);
    }
  }

  // --- which calendars are refused ----------------------------------------

  predicate DistinctMonths(dates: seq<EffectiveDate>) {
    forall i, j :: 0 <= i < j < |dates| ==> dates[i].month != dates[j].month
  }

  /** Each month has one date, strictly between target and anchor, after its first day. */
  predicate Orderly(dates: seq<EffectiveDate>, target: Month, anchor: Month) {
    && DistinctMonths(dates)
    && forall d :: d in dates ==>
      d.month.Valid() && target.Index() < d.month.Index() < anchor.Index() && d.day >= 2
  }

  ghost predicate Dated(dates: seq<EffectiveDate>, m: Month) {
    exists d :: d in dates && d.month == m
  }

  lemma {:induction false} ChangedMonthsAreDated(dates: seq<EffectiveDate>, m: Month)
    ensures m in ChangesOf(dates) <==> Dated(dates, m)
  {
    if |dates| > 0 {
      ChangedMonthsAreDated(dates[..|dates| - 1], m);
      assert forall d :: d in dates <==> d in dates[..|dates| - 1] || d == dates[|dates| - 1];
    }
  }

  lemma KeyCounts(changes: Changes, m: Month, day: int)
    ensures |changes[m := day]| == |changes| + if m in changes then 0 else 1
  {
    if m in changes {
      assert changes[m := day].Keys == changes.Keys;
    } else {
      assert changes[m := day].Keys == changes.Keys + {m};
    }
    assert |changes[m := day].Keys| == |changes[m := day]| && |changes.Keys| == |changes|;
  }

  lemma DistinctLast(dates: seq<EffectiveDate>)
    requires |dates| > 0
    ensures DistinctMonths(dates) <==>
      DistinctMonths(dates[..|dates| - 1]) && !Dated(dates[..|dates| - 1], dates[|dates| - 1].month)
  {
    var before, last := dates[..|dates| - 1], dates[|dates| - 1];
    if DistinctMonths(dates) {
      forall d | d in before ensures d.month != last.month {
        var i :| 0 <= i < |before| && before[i] == d;
        assert dates[i] == d;
      }
    }
    if DistinctMonths(before) && !Dated(before, last.month) {
      forall i, j | 0 <= i < j < |dates| ensures dates[i].month != dates[j].month {
        assert before[i] in before && (j < |before| ==> before[i].month != before[j].month);
      }
    }
  }

  lemma {:induction false} ChangesCountTheMonths(dates: seq<EffectiveDate>)
    ensures |ChangesOf(dates)| <= |dates|
    ensures |ChangesOf(dates)| == |dates| <==> DistinctMonths(dates)
  {
    if |dates| > 0 {
      var before, last := dates[..|dates| - 1], dates[|dates| - 1];
      ChangesCountTheMonths(before);
      KeyCounts(ChangesOf(before), last.month, last.day);
      ChangedMonthsAreDated(before, last.month);
      DistinctLast(dates);
    }
  }

  lemma {:induction false} DistinctDatesStand(dates: seq<EffectiveDate>, d: EffectiveDate)
    requires DistinctMonths(dates) && d in dates
    ensures d.month in ChangesOf(dates) && ChangesOf(dates)[d.month] == d.day
  {
    var before, last := dates[..|dates| - 1], dates[|dates| - 1];
    DistinctLast(dates);
    if d != last {
      DistinctDatesStand(before, d);
    }
  }

  lemma BetweenIsStrict(target: Month, anchor: Month, m: Month)
    requires target.Valid() && anchor.Index() > target.Index()
    ensures m in Between(target, anchor) <==> m.Valid() && target.Index() < m.Index() < anchor.Index()
  {
    MonthsAfterAre(target, anchor.Index() - target.Index() - 1, m);
  }

  lemma OrderlyIsAccepted(dates: seq<EffectiveDate>, target: Month, anchor: Month)
    requires target.Valid() && anchor.Index() > target.Index()
    ensures Orderly(dates, target, anchor) <==>
      |ChangesOf(dates)| == |dates| && ValidChanges(Between(target, anchor), ChangesOf(dates))
  {
    ChangesCountTheMonths(dates);
    if DistinctMonths(dates) {
      forall d | d in dates
        ensures d.month in ChangesOf(dates) && ChangesOf(dates)[d.month] == d.day
        ensures d.month in Between(target, anchor)
          <==> d.month.Valid() && target.Index() < d.month.Index() < anchor.Index()
      {
        DistinctDatesStand(dates, d);
        BetweenIsStrict(target, anchor, d.month);
      }
      forall m | m in ChangesOf(dates) ensures Dated(dates, m) {
        ChangedMonthsAreDated(dates, m);
      }
    }
  }

  /**
    A result is inferred exactly when the anchor follows the target, every month has its
    quote, and the calendar is orderly; with every quote there, any other calendar is refused.
   */
  lemma InfersExactlyWhen(prices: map<Month, real>, effr: real, cal: MeetingCalendar, anchor: Month,
      dates: seq<EffectiveDate>)
    requires cal.Valid() && anchor.Valid()
    ensures var r, target := Reference(prices, effr, cal, anchor, dates), Month(cal.year, cal.month);
      if anchor.Index() <= target.Index() then r.Err?
      else if SomeUnquoted(prices, target, anchor) then r == Ok(AwaitingQuotes)
      else if !Orderly(dates, target, anchor) then r.Err?
      else r.Ok? && r.value.Inferred?
  {
    var target := Month(cal.year, cal.month);
    if anchor.Index() > target.Index() {
      UnquotedIsFound(prices, target, anchor);
      OrderlyIsAccepted(dates, target, anchor);
    }
  }
}

/**
  The meeting month, the CME cash settlement of its ZQ contract (CME Rule 22103),
  and the hedge shares one contract needs.
 */
module Settlement {
  import opened Amounts

  // --- the meeting month --------------------------------------------------

  predicate LeapYear(year: int) {
    year % 4 == 0 && (year % 100 != 0 || year % 400 == 0)
  }

  function DaysIn(year: int, month: int): (r: int)
    ensures 28 <= r <= 31
  {
    if month == 2 then (if LeapYear(year) then 29 else 28)
    else if month in {4, 6, 9, 11} then 30
    else 31
  }

  /** February has 29 days in the years divisible by 4, those divisible by 100 but not by 400 aside. */
  lemma FebruaryDays(year: int)
    ensures DaysIn(year, 2) == if year % 4 != 0 then 28 else if year % 100 != 0 then 29 else if year % 400 != 0 then 28
      else 29
  {}

  /** The other months have 337 days. */
  lemma YearAddsUp(year: int)
    ensures DaysIn(year, 1) + DaysIn(year, 3) + DaysIn(year, 4) + DaysIn(year, 5) + DaysIn(year, 6) + DaysIn(year, 7)
      + DaysIn(year, 8) + DaysIn(year, 9) + DaysIn(year, 10) + DaysIn(year, 11) + DaysIn(year, 12) == 337
  {}

  /** A contract month and the day its new rate takes effect: a day after the first. */
  datatype MeetingCalendar = MeetingCalendar(year: int, month: int, day: int) {
    predicate Valid() {
      1 <= year <= 9999 && 1 <= month <= 12 && 2 <= day <= DaysIn(year, month)
    }

    function DaysBefore(): int { day - 1 }

    function TotalDays(): int { DaysIn(year, month) }

    function DaysAfter(): int { TotalDays() - DaysBefore() }
  }

  // --- settlement ---------------------------------------------------------

  const INCREMENT := 0.001
  const POINT_VALUE := 4167.0
  const FULL_MONTH_BP_VALUE := 41.67

  /** Monthly average rate in percent when the rate moves by `move` basis points on the effective day. */
  function AverageRate(effr: real, move: real, cal: MeetingCalendar): real {
    (cal.DaysBefore() as real * effr + cal.DaysAfter() as real * (effr + move / 100.0)) / cal.TotalDays() as real
  }

  function Increments(rate: real): int {
    (rate / INCREMENT + 0.5).Floor
  }

  function RoundedRate(rate: real): real {
    Increments(rate) as real * INCREMENT
  }

  function TheoreticalSettlement(effr: real, move: real, cal: MeetingCalendar): real {
    100.0 - RoundedRate(AverageRate(effr, move, cal))
  }

  /** The average rate is the starting rate plus the move weighted by the days after it. */
  function WeightedMove(move: real, cal: MeetingCalendar): real {
    move * cal.DaysAfter() as real / cal.TotalDays() as real / 100.0
  }

  lemma AverageIsWeighted(effr: real, move: real, cal: MeetingCalendar)
    requires cal.Valid()
    ensures AverageRate(effr, move, cal) == effr + WeightedMove(move, cal)
  {
    var before, after, total := cal.DaysBefore() as real, cal.DaysAfter() as real, cal.TotalDays() as real;
    assert before * effr + after * (effr + move / 100.0) == total * effr + after * (move / 100.0);
    assert (total * effr + after * (move / 100.0)) / total == effr + after * (move / 100.0) / total;
    assert after * (move / 100.0) / total == move * after / total / 100.0;
  }

  /** The rate of a day: the old one before the effective day, the moved one from it on. */
  function RateOn(effr: real, move: real, cal: MeetingCalendar, day: int): real {
    if day < cal.day then effr else effr + move / 100.0
  }

  /** Added up over the first `n` days of the month. */
  function DailyRates(effr: real, move: real, cal: MeetingCalendar, n: nat): real {
    if n == 0 then 0.0 else DailyRates(effr, move, cal, n - 1) + RateOn(effr, move, cal, n)
  }

  lemma {:induction false} DailyRatesAdd(effr: real, move: real, cal: MeetingCalendar, n: nat)
    requires cal.day >= 1
    ensures DailyRates(effr, move, cal, n) == if n < cal.day then Times(n as real, effr)
      else Times((cal.day - 1) as real, effr) + Times((n - cal.day + 1) as real, effr + move / 100.0)
  {
    if n == 0 {
      TimesNothing(effr);
    } else {
      DailyRatesAdd(effr, move, cal, n - 1);
      var before, after := n - 1, n - cal.day;
      if n < cal.day {
        OneMore(before as real, effr);
      } else {
        OneMore(after as real, effr + move / 100.0);
        TimesNothing(effr + move / 100.0);
      }
    }
  }

  lemma OneMore(n: real, x: real)
    ensures Times(n, x) + x == Times(n + 1.0, x)
  {}

  /** The average rate is the mean over the days of the month, the effective day already at the new rate. */
  lemma AverageIsTheDailyMean(effr: real, move: real, cal: MeetingCalendar)
    requires cal.Valid()
    ensures AverageRate(effr, move, cal)
      == DailyRates(effr, move, cal, DaysIn(cal.year, cal.month)) / DaysIn(cal.year, cal.month) as real
  {
    DailyRatesAdd(effr, move, cal, DaysIn(cal.year, cal.month));
  }

  /**
    Settlement is 100 less the average rate to the nearest 0.001: within 0.0005 of exact,
    and a tie rounds the rate up.
   */
  lemma SettlementIsNearest(effr: real, move: real, cal: MeetingCalendar)
    ensures -0.0005 < 100.0 - AverageRate(effr, move, cal) - TheoreticalSettlement(effr, move, cal) <= 0.0005
  {}

  /** It is the only whole number of increments that near. */
  lemma NearestIsUnique(effr: real, move: real, cal: MeetingCalendar, k: int)
    requires -0.0005 < k as real * INCREMENT - AverageRate(effr, move, cal) <= 0.0005
    ensures TheoreticalSettlement(effr, move, cal) == 100.0 - k as real * INCREMENT
  {
    var rate := AverageRate(effr, move, cal);
    assert k as real <= rate / INCREMENT + 0.5 < k as real + 1.0;
    assert Increments(rate) == k;
  }

  lemma WeightIsMonotone(lower: real, higher: real, cal: MeetingCalendar)
    requires cal.Valid() && lower <= higher
    ensures WeightedMove(lower, cal) <= WeightedMove(higher, cal)
  {
    var after, total := cal.DaysAfter() as real, cal.TotalDays() as real;
    TimesGrows(lower, higher, after);
    QuotientGrows(Times(lower, after), Times(higher, after), total);
    QuotientGrows(Times(lower, after) / total, Times(higher, after) / total, 100.0);
  }

  /** A larger move never raises the settlement. */
  lemma SettlementFallsWithTheMove(effr: real, lower: real, higher: real, cal: MeetingCalendar)
    requires cal.Valid() && lower <= higher
    ensures TheoreticalSettlement(effr, lower, cal) >= TheoreticalSettlement(effr, higher, cal)
  {
    AverageIsWeighted(effr, lower, cal);
    AverageIsWeighted(effr, higher, cal);
    WeightIsMonotone(lower, higher, cal);
    assert Increments(AverageRate(effr, lower, cal)) <= Increments(AverageRate(effr, higher, cal));
  }

  // --- hedge shares per contract ------------------------------------------

  function Abs(x: real): real { if x < 0.0 then -x else x }

  function HedgeSharesPerContract(move: int, effr: real, cal: MeetingCalendar): real {
    Abs(TheoreticalSettlement(effr, 0.0, cal) - TheoreticalSettlement(effr, move as real, cal)) * POINT_VALUE
  }

  function LegacyHedgeSharesPerContract(move: int, cal: MeetingCalendar): real {
    Abs(move as real) * cal.DaysAfter() as real * FULL_MONTH_BP_VALUE / cal.TotalDays() as real
  }

  /** The unrounded settlement difference, in increments of 0.001. */
  function ExactIncrements(move: int, cal: MeetingCalendar): real {
    WeightedMove(move as real, cal) / INCREMENT
  }

  const ONE_INCREMENT := 4.167

  lemma LegacyIsExact(move: int, cal: MeetingCalendar)
    requires cal.Valid() && move >= 0
    ensures LegacyHedgeSharesPerContract(move, cal) == ExactIncrements(move, cal) * ONE_INCREMENT
  {
    var after, total := cal.DaysAfter() as real, cal.TotalDays() as real;
    var x := move as real * after;
    assert x * FULL_MONTH_BP_VALUE / total == x / total * FULL_MONTH_BP_VALUE;
  }

  /** The two roundings differ by the exact number of increments, rounded down or up. */
  lemma RoundedDifference(move: int, effr: real, cal: MeetingCalendar) returns (n: int)
    requires cal.Valid() && move >= 0
    ensures n == Increments(AverageRate(effr, move as real, cal)) - Increments(AverageRate(effr, 0.0, cal))
    ensures n == ExactIncrements(move, cal).Floor
      || (n == ExactIncrements(move, cal).Floor + 1
        && ExactIncrements(move, cal) > ExactIncrements(move, cal).Floor as real)
    ensures HedgeSharesPerContract(move, effr, cal) == n as real * ONE_INCREMENT
  {
    AverageIsWeighted(effr, move as real, cal);
    AverageIsWeighted(effr, 0.0, cal);
    WeightIsMonotone(0.0, move as real, cal);
    var x, d := effr / INCREMENT + 0.5, ExactIncrements(move, cal);
    assert AverageRate(effr, move as real, cal) / INCREMENT + 0.5 == x + d;
    assert AverageRate(effr, 0.0, cal) / INCREMENT + 0.5 == x;
    n := (x + d).Floor - x.Floor;
    SettlementFallsWithTheMove(effr, 0.0, move as real, cal);
  }

  /**
    Whatever the EFFR, a positive move needs one of two sizes, 4.167 shares apart, and
    each lies strictly within 4.167 of the continuous size; a move of a whole number of
    increments needs exactly the continuous size.
   */
  lemma RatioTakesTwoValues(move: int, effr: real, cal: MeetingCalendar)
    requires cal.Valid() && move >= 0
    ensures var low := ExactIncrements(move, cal).Floor as real * ONE_INCREMENT;
      var ratio, legacy := HedgeSharesPerContract(move, effr, cal), LegacyHedgeSharesPerContract(move, cal);
      && (ratio == low || ratio == low + ONE_INCREMENT)
      && -ONE_INCREMENT < ratio - legacy < ONE_INCREMENT
      && (legacy == low ==> ratio == legacy)
  {
    LegacyIsExact(move, cal);
    var n := RoundedDifference(move, effr, cal);
  }

  lemma ShareOfTheMonth(x: real, total: real)
    requires x >= 25.0 && 0.0 < total <= 31.0
    ensures x / total >= 25.0 / 31.0
  {
    var q := x / total;
    assert q >= 0.0 && Times(total, q) == x;
    TimesGrows(total, 31.0, q);
  }

  /** The approved moves always move the settlement, so sizing never refuses a ratio of zero. */
  lemma RatioIsPositive(move: int, effr: real, cal: MeetingCalendar)
    requires cal.Valid() && move >= 25
    ensures HedgeSharesPerContract(move, effr, cal) >= 8.0 * ONE_INCREMENT
  {
    var after, total := cal.DaysAfter() as real, cal.TotalDays() as real;
    TimesGrows(1.0, after, move as real);
    ShareOfTheMonth(move as real * after, total);
    assert ExactIncrements(move, cal) >= 8.0;
    var n := RoundedDifference(move, effr, cal);
  }
}

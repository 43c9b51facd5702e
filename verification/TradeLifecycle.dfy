/**
  One venue trade as its status reports arrive: delayed, repeated, in any order.
 */
module TradeLifecycle {

  datatype TradeStatus = Matched | Mined | Retrying | Confirmed | Failed | Conflict | Unranked(text: string)

  /** Progress rank; a status the venue vocabulary does not name ranks zero. */
  function Rank(s: TradeStatus): nat {
    match s
    case Matched => 1
    case Mined => 2
    case Retrying => 2
    case Confirmed => 3
    case Failed => 4
    case Conflict => 0
    case Unranked(_) => 0
  }

  /** Two final outcomes that cannot both be true, or a conflict already on record. */
  predicate Contradicts(previous: TradeStatus, report: TradeStatus) {
    previous.Conflict? || (previous.Confirmed? && report.Failed?) || (previous.Failed? && report.Confirmed?)
  }

  /** The stored status after one more report for a recorded execution. */
  function NextStatus(previous: TradeStatus, report: TradeStatus): TradeStatus {
    if Contradicts(previous, report) then
      Conflict
    else if previous == report || Rank(previous) > Rank(report) then
      previous
    else
      report
  }

  /** How an execution counts towards its obligation. */
  datatype Standing = Counted | Dropped | Waiting

  function StandingOf(s: TradeStatus): Standing {
    if s.Confirmed? then Counted else if s.Failed? then Dropped else Waiting
  }

  /** The stored status after a whole history; the first report is stored as it is. */
  function Fold(reports: seq<TradeStatus>): TradeStatus
    requires |reports| > 0
  {
    if |reports| == 1 then reports[0]
    else NextStatus(Fold(reports[..|reports| - 1]), reports[|reports| - 1])
  }

  ghost predicate AllUnranked(reports: seq<TradeStatus>) {
    forall i :: 0 <= i < |reports| ==> Rank(reports[i]) == 0
  }

  /**
    A report carrying the ledger's own internal marker, before any status the
    venue vocabulary ranks, is stored and never leaves.
   */
  ghost predicate Poisoned(reports: seq<TradeStatus>) {
    |reports| > 0 &&
    var n := |reports| - 1;
    Poisoned(reports[..n]) || (reports[n].Conflict? && AllUnranked(reports[..n]))
  }

  function Expected(confirmed: bool, failed: bool): Standing {
    if confirmed && !failed then Counted else if failed && !confirmed then Dropped else Waiting
  }

  /** What is known of the stored status after a history that is not poisoned. */
  ghost predicate Settled(reports: seq<TradeStatus>, s: TradeStatus) {
    && (s.Confirmed? <==> Confirmed in reports && Failed !in reports)
    && (s.Failed? <==> Failed in reports && Confirmed !in reports)
    && (s.Conflict? <==> Confirmed in reports && Failed in reports)
    && (Rank(s) == 0 && !s.Conflict? <==> AllUnranked(reports))
  }

  lemma {:induction false} FoldSettles(reports: seq<TradeStatus>)
    requires |reports| > 0
    ensures if Poisoned(reports) then Fold(reports).Conflict? else Settled(reports, Fold(reports))
  {
    var n := |reports| - 1;
    if n > 0 {
      FoldSettles(reports[..n]);
      assert reports == reports[..n] + [reports[n]];
      assert AllUnranked(reports) <==> AllUnranked(reports[..n]) && Rank(reports[n]) == 0;
    } else {
      assert !Poisoned(reports[..n]);
    }
  }

  /**
    The shares are counted exactly when CONFIRMED was reported and FAILED was not,
    dropped exactly when FAILED was and CONFIRMED was not, and wait otherwise, in
    whatever order and however often the reports came. A poisoned history waits.
   */
  lemma StandingDependsOnlyOnWhatWasReported(reports: seq<TradeStatus>)
    requires |reports| > 0
    ensures StandingOf(Fold(reports)) == if Poisoned(reports) then Waiting
      else Expected(Confirmed in reports, Failed in reports)
  {
    FoldSettles(reports);
  }

  /** The exact failing family: a final outcome is misread only when it arrives after such a marker. */
  lemma OutcomeIsReadExactlyUnlessPoisoned(reports: seq<TradeStatus>)
    requires |reports| > 0 && (Confirmed in reports) != (Failed in reports)
    ensures StandingOf(Fold(reports)) == Expected(Confirmed in reports, Failed in reports) <==> !Poisoned(reports)
  {
    FoldSettles(reports);
  }

  lemma AMarkerFromTheVenueSticks()
    ensures StandingOf(Fold([Conflict, Confirmed])) == Waiting
  {
    var reports := [Conflict, Confirmed];
    assert reports[..1][..0] == [];
    assert Poisoned(reports[..1]);
    FoldSettles(reports);
  }

  lemma {:induction false} WithoutMarkerNotPoisoned(reports: seq<TradeStatus>)
    requires Conflict !in reports
    ensures !Poisoned(reports)
  {
    if |reports| > 0 {
      assert forall s :: s in reports[..|reports| - 1] ==> s in reports;
      WithoutMarkerNotPoisoned(reports[..|reports| - 1]);
    }
  }

  /** Two histories with the same reports, in different order or multiplicity, count alike. */
  lemma OrderAndDuplicationDoNotMatter(a: seq<TradeStatus>, b: seq<TradeStatus>)
    requires |a| > 0 && |b| > 0
    requires forall s :: s in a <==> s in b
    requires Conflict !in a
    ensures StandingOf(Fold(a)) == StandingOf(Fold(b))
  {
    WithoutMarkerNotPoisoned(a);
    WithoutMarkerNotPoisoned(b);
    FoldSettles(a);
    FoldSettles(b);
  }

  /** The last of the reports that none outranks. */
  ghost predicate LatestOfTheHighest(reports: seq<TradeStatus>, i: nat) {
    && i < |reports|
    && (forall k :: 0 <= k < |reports| ==> Rank(reports[k]) <= Rank(reports[i]))
    && (forall k :: i < k < |reports| ==> Rank(reports[k]) < Rank(reports[i]) || reports[k] == reports[i])
  }

  /** A history without contradiction is stored as the latest of its highest reports. */
  lemma {:induction false} FoldIsTheLatestOfTheHighest(reports: seq<TradeStatus>) returns (i: nat)
    requires |reports| > 0 && Conflict !in reports && !(Confirmed in reports && Failed in reports)
    ensures LatestOfTheHighest(reports, i) && Fold(reports) == reports[i]
  {
    var n := |reports| - 1;
    i := n;
    if n > 0 {
      var before := reports[..n];
      assert forall s :: s in before ==> s in reports;
      i := FoldIsTheLatestOfTheHighest(before);
      assert forall k :: 0 <= k < n ==> reports[k] == before[k];
      assert reports[i] in reports && reports[n] in reports;
      if Rank(reports[i]) <= Rank(reports[n]) && reports[i] != reports[n] {
        i := n;
      }
    }
  }
}

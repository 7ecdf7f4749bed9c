/** The forward deterioration endpoint: five three-valued conditions and the rule "at least two of five"
    (the endpoint shared by backend/finrisk/sec_bulk.py and scripts/review_numeric_labels_b.py). */
module ForwardEndpoint {
  import opened Wrappers
  import opened Ordering

  /** A timestamp: its text, by which lists are sorted, and the instant the text denotes. */
  datatype Stamp = Stamp(text: string, instant: int)

  datatype Facts = Facts(
    revenue: Option<real>,
    netIncome: Option<real>,
    operatingCashFlow: Option<real>,
    totalDebt: Option<real>,
    totalAssets: Option<real>)

  /** A feature observation with its own filing's availability, its information cutoff and the end of its outcome window. */
  datatype Observation = Observation(
    observationId: string, ticker: string, fiscalYear: int, available: Stamp, cutoff: int, windowEnd: int, accession: string,
    facts: Facts)

  /** An annual filing usable as an outcome. */
  datatype Annual = Annual(
    observationId: string, ticker: string, fiscalYear: int, available: Stamp, accession: string, facts: Facts)

  /** A filing period with its reported free cash flow. */
  datatype Period = Period(ticker: string, available: Stamp, accession: string, freeCashFlow: Option<real>)

  datatype Status = VERIFIED | REQUIRES_HUMAN_REVIEW | INSUFFICIENT_DATA

  datatype Tri = TRUE | FALSE | UNKNOWN

  datatype Conditions = Conditions(
    revenueDecline: Tri, incomeToLoss: Tri, ocfDeterioration: Tri, debtToAssetsIncrease: Tri, twoPeriodNegativeFcf: Tri)
  {
    function AsSeq(): (s: seq<Tri>)
      ensures |s| == 5
    {
      [revenueDecline, incomeToLoss, ocfDeterioration, debtToAssetsIncrease, twoPeriodNegativeFcf]
    }
  }

  datatype Code =
    | REVENUE_DECLINE_10PCT
    | POSITIVE_INCOME_TO_LOSS
    | OCF_DECLINE_OR_NEGATIVE
    | DEBT_TO_ASSETS_INCREASE_10PP
    | FCF_NEGATIVE_TWO_SUBSEQUENT_PERIODS

  predicate InWindow(current: Observation, instant: int) {
    current.cutoff < instant <= current.windowEnd
  }

  predicate AnnualLe(a: Annual, b: Annual) {
    StringLe(a.available.text, b.available.text)
  }

  predicate PeriodLe(a: Period, b: Period) {
    StringLe(a.available.text, b.available.text)
  }

  function Abs(x: real): real {
    if x < 0.0 then -x else x
  }

  /** A base value that supports a relative change, and a later value, fell by at least `threshold`. */
  predicate Declined(now: Option<real>, next: Option<real>, threshold: real) {
    && now.Some? && now.value != 0.0 && next.Some?
    && (next.value - now.value) / Abs(now.value) <= -threshold
  }

  // ----- what the five conditions mean

  function Holds(known: bool, fact: bool): Tri {
    if !known then UNKNOWN else if fact then TRUE else FALSE
  }

  function RevenueDecline(now: Facts, next: Facts): Tri {
    Holds(now.revenue.Some? && now.revenue.value != 0.0 && next.revenue.Some?, Declined(now.revenue, next.revenue, 0.10))
  }

  function IncomeToLoss(now: Facts, next: Facts): Tri {
    var known := now.netIncome.Some? && next.netIncome.Some?;
    Holds(known, known && now.netIncome.value > 0.0 >= next.netIncome.value)
  }

  function OcfDeterioration(now: Facts, next: Facts): Tri {
    var a, b := now.operatingCashFlow, next.operatingCashFlow;
    var known := a.Some? && b.Some?;
    Holds(known, known && (Declined(a, b, 0.25) || a.value >= 0.0 > b.value))
  }

  function DebtToAssetsIncrease(now: Facts, next: Facts): Tri {
    var known := now.totalDebt.Some? && next.totalDebt.Some? && now.totalAssets.Some? && next.totalAssets.Some?
      && now.totalAssets.value != 0.0 && next.totalAssets.value != 0.0;
    Holds(known, known
      && next.totalDebt.value / next.totalAssets.value - now.totalDebt.value / now.totalAssets.value >= 0.10)
  }

  /** Both of the first two filing periods after the cutoff report a negative free cash flow. */
  function TwoPeriodNegativeFcf(reports: seq<Period>): Tri {
    var known := |reports| == 2 && reports[0].freeCashFlow.Some? && reports[1].freeCashFlow.Some?;
    Holds(known, known && reports[0].freeCashFlow.value < 0.0 && reports[1].freeCashFlow.value < 0.0)
  }

  function ConditionsOf(now: Facts, next: Facts, reports: seq<Period>): Conditions {
    Conditions(RevenueDecline(now, next), IncomeToLoss(now, next), OcfDeterioration(now, next),
               DebtToAssetsIncrease(now, next), TwoPeriodNegativeFcf(reports))
  }

  // ----- the rule

  function CountOf(s: seq<Tri>, t: Tri): nat {
    if s == [] then 0 else (if s[0] == t then 1 else 0) + CountOf(s[1..], t)
  }

  datatype Verdict = Verdict(deteriorated: Option<nat>, status: Status)

  /** `true_count` and the unknown conditions decide label and status. */
  function Rule(conditions: seq<Tri>): Verdict {
    var trues, unknowns := CountOf(conditions, TRUE), CountOf(conditions, UNKNOWN);
    if trues >= 2 || trues + unknowns < 2 then Verdict(Some(if trues >= 2 then 1 else 0), VERIFIED)
    else Verdict(None, REQUIRES_HUMAN_REVIEW)
  }

  /** A way the conditions could turn out once every unknown is settled. */
  ghost predicate Resolves(outcome: seq<bool>, conditions: seq<Tri>) {
    && |outcome| == |conditions|
    && forall i | 0 <= i < |outcome| ::
        (conditions[i] == TRUE ==> outcome[i]) && (conditions[i] == FALSE ==> !outcome[i])
  }

  function Trues(outcome: seq<bool>): nat {
    if outcome == [] then 0 else (if outcome[0] then 1 else 0) + Trues(outcome[1..])
  }

  lemma {:induction false} ResolutionBounds(outcome: seq<bool>, conditions: seq<Tri>)
    requires Resolves(outcome, conditions)
    ensures CountOf(conditions, TRUE) <= Trues(outcome) <= CountOf(conditions, TRUE) + CountOf(conditions, UNKNOWN)
  {
    if outcome != [] {
      ResolutionBounds(outcome[1..], conditions[1..]);
    }
  }

  /** The resolution that settles every unknown the same way. */
  function Settle(conditions: seq<Tri>, unknown: bool): (outcome: seq<bool>)
    ensures |outcome| == |conditions|
    ensures forall i | 0 <= i < |outcome| :: outcome[i] == (conditions[i] == TRUE || (conditions[i] == UNKNOWN && unknown))
  {
    seq(|conditions|, i requires 0 <= i < |conditions| => conditions[i] == TRUE || (conditions[i] == UNKNOWN && unknown))
  }

  lemma {:induction false} SettleCounts(conditions: seq<Tri>, unknown: bool)
    ensures Trues(Settle(conditions, unknown))
      == CountOf(conditions, TRUE) + (if unknown then CountOf(conditions, UNKNOWN) else 0)
  {
    if conditions != [] {
      SettleCounts(conditions[1..], unknown);
      assert Settle(conditions, unknown)[1..] == Settle(conditions[1..], unknown);
    }
  }

  /** The rule is exact: a label is verified precisely when every resolution of the unknown conditions
      agrees on whether two of them are true, and it is then that common answer; review is asked for
      precisely when the resolutions disagree. */
  lemma RuleIsExact(conditions: seq<Tri>)
    ensures Rule(conditions) == Verdict(Some(1), VERIFIED) <==>
      forall outcome | Resolves(outcome, conditions) :: Trues(outcome) >= 2
    ensures Rule(conditions) == Verdict(Some(0), VERIFIED) <==>
      forall outcome | Resolves(outcome, conditions) :: Trues(outcome) < 2
    ensures Rule(conditions) == Verdict(None, REQUIRES_HUMAN_REVIEW) <==>
      && (exists outcome :: Resolves(outcome, conditions) && Trues(outcome) >= 2)
      && (exists outcome :: Resolves(outcome, conditions) && Trues(outcome) < 2)
  {
    var low, high := Settle(conditions, false), Settle(conditions, true);
    SettleCounts(conditions, false);
    SettleCounts(conditions, true);
    assert Resolves(low, conditions) && Resolves(high, conditions);
    forall outcome | Resolves(outcome, conditions)
      ensures Trues(low) <= Trues(outcome) <= Trues(high)
    {
      ResolutionBounds(outcome, conditions);
    }
  }

  // ----- filling in missing data

  predicate Fills(a: Option<real>, b: Option<real>) {
    a.Some? ==> b == a
  }

  /** `b` has every value `a` has, and possibly more. */
  predicate FactsFill(a: Facts, b: Facts) {
    && Fills(a.revenue, b.revenue)
    && Fills(a.netIncome, b.netIncome)
    && Fills(a.operatingCashFlow, b.operatingCashFlow)
    && Fills(a.totalDebt, b.totalDebt)
    && Fills(a.totalAssets, b.totalAssets)
  }

  predicate PeriodFill(a: Period, b: Period) {
    b == a.(freeCashFlow := b.freeCashFlow) && Fills(a.freeCashFlow, b.freeCashFlow)
  }

  predicate AnnualFill(a: Annual, b: Annual) {
    b == a.(facts := b.facts) && FactsFill(a.facts, b.facts)
  }

  predicate ObservationFill(a: Observation, b: Observation) {
    b == a.(facts := b.facts) && FactsFill(a.facts, b.facts)
  }

  ghost predicate Sharpens(a: seq<Tri>, b: seq<Tri>) {
    |a| == |b| && forall i | 0 <= i < |a| :: a[i] != UNKNOWN ==> b[i] == a[i]
  }

  lemma {:induction false} SharperCounts(a: seq<Tri>, b: seq<Tri>)
    requires Sharpens(a, b)
    ensures CountOf(a, TRUE) <= CountOf(b, TRUE)
    ensures CountOf(b, TRUE) + CountOf(b, UNKNOWN) <= CountOf(a, TRUE) + CountOf(a, UNKNOWN)
  {
    if a != [] {
      SharperCounts(a[1..], b[1..]);
    }
  }

  lemma VerifiedStays(a: seq<Tri>, b: seq<Tri>)
    requires Sharpens(a, b) && Rule(a).status == VERIFIED
    ensures Rule(b) == Rule(a)
  {
    SharperCounts(a, b);
  }

  /** More data only settles conditions that were unknown. */
  lemma FillingSharpens(now: Facts, now': Facts, next: Facts, next': Facts, reports: seq<Period>, reports': seq<Period>)
    requires FactsFill(now, now') && FactsFill(next, next') && Related(reports, reports', PeriodFill)
    ensures Sharpens(ConditionsOf(now, next, reports).AsSeq(), ConditionsOf(now', next', reports').AsSeq())
  {
    if |reports| == 2 {
      assert PeriodFill(reports[0], reports'[0]) && PeriodFill(reports[1], reports'[1]);
    }
  }
}

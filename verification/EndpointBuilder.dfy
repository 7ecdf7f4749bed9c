/** The label builder (backend/finrisk/sec_bulk.py, `build_deterioration_labels`). */
module EndpointBuilder {
  import opened Wrappers
  import opened Ordering
  import opened Grouping
  import opened ForwardEndpoint

  datatype NoOutcomeCode = TRUE_NO_ELIGIBLE_OUTCOME | RIGHT_CENSORED_DATA_HORIZON | OTHER

  datatype Basis =
    | Outcome(source: string, available: Stamp, reasons: seq<Code>, availableComponents: nat,
              fcfSources: seq<string>, conditions: Conditions)
    | NoOutcome(code: NoOutcomeCode, nextAvailable: Option<Stamp>)

  datatype Label = Label(observationId: string, ticker: string, deteriorated: Option<nat>, status: Status, basis: Basis)

  function ObservationTicker(o: Observation): string { o.ticker }

  function AnnualTicker(a: Annual): string { a.ticker }

  predicate YearLe(a: Annual, b: Annual) {
    a.fiscalYear <= b.fiscalYear
  }

  predicate LabelLe(a: Label, b: Label) {
    StringLe(a.observationId, b.observationId)
  }

  // ----- selection of evidence

  lemma TickerKey(k: string)
    ensures forall a: Annual :: HasKey(AnnualTicker, k)(a) <==> a.ticker == k
  {
    forall a: Annual ensures HasKey(AnnualTicker, k)(a) <==> a.ticker == k {
      HasKeyAt(AnnualTicker, k, a);
      assert AnnualTicker(a) == a.ticker;
    }
  }

  /** The company's annual filings for the following fiscal year. */
  function NextAnnual(current: Observation): Annual -> bool {
    (a: Annual) => a.ticker == current.ticker && a.fiscalYear == current.fiscalYear + 1
  }

  function NextYear(current: Observation): Annual -> bool {
    (a: Annual) => a.fiscalYear == current.fiscalYear + 1
  }

  function AfterCutoff(current: Observation): Annual -> bool {
    (a: Annual) => a.ticker == current.ticker && a.fiscalYear == current.fiscalYear + 1 && a.available.instant > current.cutoff
  }

  function ForwardReport(current: Observation): Period -> bool {
    (p: Period) => p.ticker == current.ticker && InWindow(current, p.available.instant)
  }

  function Candidates(current: Observation, annuals: seq<Annual>): seq<Annual> {
    Filter(annuals, NextAnnual(current))
  }

  /** `min` keeps the first of equal entries, as a stable sort does. */
  function Earliest(candidates: seq<Annual>): Annual
    requires candidates != []
  {
    SortPermutes(candidates, AnnualLe);
    SortBy(candidates, AnnualLe)[0]
  }

  function FirstTwo(s: seq<Period>): seq<Period> {
    if |s| <= 2 then s else s[..2]
  }

  function Reports(current: Observation, periods: seq<Period>): seq<Period> {
    FirstTwo(SortBy(Filter(periods, ForwardReport(current)), PeriodLe))
  }

  function Accessions(periods: seq<Period>): seq<string> {
    seq(|periods|, i requires 0 <= i < |periods| => periods[i].accession)
  }

  /** The builder takes the earliest filing of the next fiscal year and then checks the window. */
  function Future(current: Observation, annuals: seq<Annual>): Option<Annual> {
    var candidates := Candidates(current, annuals);
    if candidates == [] then None
    else
      var future := Earliest(candidates);
      if InWindow(current, future.available.instant) then Some(future) else None
  }

  // ----- the label an observation must get

  function Present(now: Option<real>, next: Option<real>): nat {
    if now.Some? && next.Some? then 1 else 0
  }

  function Components(now: Facts, next: Facts): nat {
    Present(now.revenue, next.revenue) + Present(now.netIncome, next.netIncome)
    + Present(now.operatingCashFlow, next.operatingCashFlow) + Present(now.totalAssets, next.totalAssets)
    + Present(now.totalDebt, next.totalDebt)
  }

  function CodeIf(t: Tri, code: Code): seq<Code> {
    if t == TRUE then [code] else []
  }

  /** The codes of the conditions that hold. */
  function Reasons(c: Conditions): seq<Code> {
    CodeIf(c.revenueDecline, REVENUE_DECLINE_10PCT) + CodeIf(c.incomeToLoss, POSITIVE_INCOME_TO_LOSS)
    + CodeIf(c.ocfDeterioration, OCF_DECLINE_OR_NEGATIVE) + CodeIf(c.debtToAssetsIncrease, DEBT_TO_ASSETS_INCREASE_10PP)
    + CodeIf(c.twoPeriodNegativeFcf, FCF_NEGATIVE_TWO_SUBSEQUENT_PERIODS)
  }

  function OutcomeLabel(current: Observation, future: Annual, reports: seq<Period>): Label {
    var conditions := ConditionsOf(current.facts, future.facts, reports);
    var verdict := Rule(conditions.AsSeq());
    Label(current.observationId, current.ticker, verdict.deteriorated, verdict.status,
          Outcome(future.observationId, future.available, Reasons(conditions), Components(current.facts, future.facts),
                  Accessions(reports), conditions))
  }

  /** Why there is no label: the later filings of the next fiscal year and the data horizon decide. */
  function NoOutcomeLabel(current: Observation, annuals: seq<Annual>, horizon: Option<int>): Label {
    var later := SortBy(Filter(annuals, AfterCutoff(current)), AnnualLe);
    var code :=
      if later != [] && later[0].available.instant > current.windowEnd then TRUE_NO_ELIGIBLE_OUTCOME
      else if later == [] && (horizon.None? || horizon.value < current.windowEnd) then RIGHT_CENSORED_DATA_HORIZON
      else if later == [] then TRUE_NO_ELIGIBLE_OUTCOME
      else OTHER;
    Label(current.observationId, current.ticker, None, INSUFFICIENT_DATA,
          NoOutcome(code, if later == [] then None else Some(later[0].available)))
  }

  function LabelFor(annuals: seq<Annual>, periods: seq<Period>, horizon: Option<int>, current: Observation): Label {
    var future := Future(current, annuals);
    if future.Some? then OutcomeLabel(current, future.value, Reports(current, periods))
    else NoOutcomeLabel(current, annuals, horizon)
  }

  function Labeller(annuals: seq<Annual>, periods: seq<Period>, horizon: Option<int>): Observation -> Label {
    (current: Observation) => LabelFor(annuals, periods, horizon, current)
  }

  // ----- one observation, step by step

  function Decided(codes: set<Code>, code: Code, known: bool): Tri {
    if code in codes then TRUE else if known then FALSE else UNKNOWN
  }

  lemma CodesOfReasons(c: Conditions)
    ensures REVENUE_DECLINE_10PCT in Reasons(c) <==> c.revenueDecline == TRUE
    ensures POSITIVE_INCOME_TO_LOSS in Reasons(c) <==> c.incomeToLoss == TRUE
    ensures OCF_DECLINE_OR_NEGATIVE in Reasons(c) <==> c.ocfDeterioration == TRUE
    ensures DEBT_TO_ASSETS_INCREASE_10PP in Reasons(c) <==> c.debtToAssetsIncrease == TRUE
    ensures FCF_NEGATIVE_TWO_SUBSEQUENT_PERIODS in Reasons(c) <==> c.twoPeriodNegativeFcf == TRUE
  {
  }

  predicate LeverageKnown(now: Facts, next: Facts) {
    && now.totalDebt.Some? && next.totalDebt.Some? && now.totalAssets.Some? && next.totalAssets.Some?
    && now.totalAssets.value != 0.0 && next.totalAssets.value != 0.0
  }

  /** The reasons are appended one condition at a time. */
  method CollectReasons(now: Facts, next: Facts, reports: seq<Period>) returns (reasons: seq<Code>, fcf: Tri)
    ensures reasons == Reasons(ConditionsOf(now, next, reports))
    ensures fcf == TwoPeriodNegativeFcf(reports)
  {
    ghost var c := ConditionsOf(now, next, reports);
    reasons := [];
    if Declined(now.revenue, next.revenue, 0.10) {
      reasons := reasons + [REVENUE_DECLINE_10PCT];
    }
    ghost var r1 := CodeIf(c.revenueDecline, REVENUE_DECLINE_10PCT);
    assert reasons == r1;
    if now.netIncome.Some? && next.netIncome.Some? && now.netIncome.value > 0.0 >= next.netIncome.value {
      reasons := reasons + [POSITIVE_INCOME_TO_LOSS];
    }
    ghost var r2 := r1 + CodeIf(c.incomeToLoss, POSITIVE_INCOME_TO_LOSS);
    assert reasons == r2;
    var turnsNegative := now.operatingCashFlow.Some? && next.operatingCashFlow.Some?
      && now.operatingCashFlow.value >= 0.0 > next.operatingCashFlow.value;
    if Declined(now.operatingCashFlow, next.operatingCashFlow, 0.25) || turnsNegative {
      reasons := reasons + [OCF_DECLINE_OR_NEGATIVE];
    }
    ghost var r3 := r2 + CodeIf(c.ocfDeterioration, OCF_DECLINE_OR_NEGATIVE);
    assert reasons == r3;
    if LeverageKnown(now, next)
      && next.totalDebt.value / next.totalAssets.value - now.totalDebt.value / now.totalAssets.value >= 0.10 {
      reasons := reasons + [DEBT_TO_ASSETS_INCREASE_10PP];
    }
    ghost var r4 := r3 + CodeIf(c.debtToAssetsIncrease, DEBT_TO_ASSETS_INCREASE_10PP);
    assert reasons == r4;
    fcf := UNKNOWN;
    if |reports| == 2 && reports[0].freeCashFlow.Some? && reports[1].freeCashFlow.Some? {
      if reports[0].freeCashFlow.value < 0.0 && reports[1].freeCashFlow.value < 0.0 {
        fcf := TRUE;
        reasons := reasons + [FCF_NEGATIVE_TWO_SUBSEQUENT_PERIODS];
      } else {
        fcf := FALSE;
      }
    }
  }

  /** The statuses are read off the collected codes, the label off the statuses. */
  method Assess(current: Observation, future: Annual, reports: seq<Period>) returns (r: Label)
    ensures r == OutcomeLabel(current, future, reports)
  {
    var now, next := current.facts, future.facts;
    var reasons, fcf := CollectReasons(now, next, reports);
    CodesOfReasons(ConditionsOf(now, next, reports));
    var codes := set code | code in reasons;
    var conditions := Conditions(
      Decided(codes, REVENUE_DECLINE_10PCT, now.revenue.Some? && now.revenue.value != 0.0 && next.revenue.Some?),
      Decided(codes, POSITIVE_INCOME_TO_LOSS, now.netIncome.Some? && next.netIncome.Some?),
      Decided(codes, OCF_DECLINE_OR_NEGATIVE, now.operatingCashFlow.Some? && next.operatingCashFlow.Some?),
      Decided(codes, DEBT_TO_ASSETS_INCREASE_10PP, LeverageKnown(now, next)),
      fcf);
    assert conditions == ConditionsOf(now, next, reports);
    var verdict := Rule(conditions.AsSeq());
    r := Label(current.observationId, current.ticker, verdict.deteriorated, verdict.status,
               Outcome(future.observationId, future.available, reasons, Components(now, next), Accessions(reports), conditions));
  }

  // ----- the two passes

  function HasFuture(annuals: seq<Annual>): Observation -> bool {
    (current: Observation) => Future(current, annuals).Some?
  }

  function NotIn(ids: set<string>): Observation -> bool {
    (current: Observation) => current.observationId !in ids
  }

  function Explainer(annuals: seq<Annual>, horizon: Option<int>): Observation -> Label {
    (current: Observation) => NoOutcomeLabel(current, annuals, horizon)
  }

  /** Pass one: a label for each observation that has a future filing. */
  function FirstPass(observations: seq<Observation>, annuals: seq<Annual>, periods: seq<Period>, horizon: Option<int>): seq<Label> {
    Map(Labeller(annuals, periods, horizon), Filter(observations, HasFuture(annuals)))
  }

  /** Pass two: a label for each observation whose id pass one did not label. */
  function SecondPass(observations: seq<Observation>, annuals: seq<Annual>, horizon: Option<int>, labelled: set<string>): seq<Label> {
    Map(Explainer(annuals, horizon), Filter(observations, NotIn(labelled)))
  }

  /** Pass one visits the observations company by company. */
  function ByCompany(observations: seq<Observation>): seq<Observation> {
    Grouped(FirstKeys(observations, ObservationTicker), observations, ObservationTicker)
  }

  function LabelIds(labels: seq<Label>): set<string> {
    set l | l in labels :: l.observationId
  }

  function AllLabels(observations: seq<Observation>, annuals: seq<Annual>, periods: seq<Period>, horizon: Option<int>): seq<Label> {
    var first := FirstPass(ByCompany(observations), annuals, periods, horizon);
    SortBy(first + SecondPass(observations, annuals, horizon, LabelIds(first)), LabelLe)
  }

  /** One more row under a filter and a map. */
  lemma PassStep<A, B>(s: seq<A>, i: nat, p: A -> bool, f: A -> B)
    requires i < |s|
    ensures Map(f, Filter(s[..i + 1], p)) == Map(f, Filter(s[..i], p)) + if p(s[i]) then [f(s[i])] else []
  {
    assert s[..i + 1] == s[..i] + [s[i]];
    FilterConcat(s[..i], [s[i]], p);
    assert [s[i]][1..] == [];
    MapConcat(f, Filter(s[..i], p), Filter([s[i]], p));
  }

  /** Sorting a company's filings by year and picking one year keeps their input order. */
  lemma CandidatesOfCompany(current: Observation, annuals: seq<Annual>)
    ensures Filter(SortBy(Filter(annuals, HasKey(AnnualTicker, current.ticker)), YearLe), NextYear(current))
      == Candidates(current, annuals)
  {
    var company := Filter(annuals, HasKey(AnnualTicker, current.ticker));
    TickerKey(current.ticker);
    SortFilter(company, YearLe, NextYear(current));
    FilterTwice(annuals, HasKey(AnnualTicker, current.ticker), NextYear(current), NextAnnual(current));
    FilterMembers(annuals, NextAnnual(current));
    SortOfEquals(Candidates(current, annuals), YearLe);
  }

  lemma LaterOfCompany(current: Observation, annuals: seq<Annual>)
    ensures Filter(Filter(annuals, HasKey(AnnualTicker, current.ticker)), AfterCutoff(current))
      == Filter(annuals, AfterCutoff(current))
  {
    TickerKey(current.ticker);
    FilterTwice(annuals, HasKey(AnnualTicker, current.ticker), AfterCutoff(current), AfterCutoff(current));
  }

  /** One iteration of pass one. */
  method LabelForward(current: Observation, outcomes: seq<Annual>, ghost annuals: seq<Annual>, periods: seq<Period>,
                      ghost horizon: Option<int>) returns (r: Option<Label>)
    requires outcomes == SortBy(Filter(annuals, HasKey(AnnualTicker, current.ticker)), YearLe)
    ensures r == if HasFuture(annuals)(current) then Some(LabelFor(annuals, periods, horizon, current)) else None
  {
    var candidates := Filter(outcomes, NextYear(current));
    CandidatesOfCompany(current, annuals);
    if candidates == [] {
      return None;
    }
    var future := Earliest(candidates);
    if !(current.cutoff < future.available.instant <= current.windowEnd) {
      return None;
    }
    var assessed := Assess(current, future, Reports(current, periods));
    r := Some(assessed);
  }

  /** One iteration of pass two. */
  method Explain(current: Observation, company: seq<Annual>, ghost annuals: seq<Annual>, horizon: Option<int>) returns (r: Label)
    requires company == Filter(annuals, HasKey(AnnualTicker, current.ticker))
    ensures r == NoOutcomeLabel(current, annuals, horizon)
  {
    LaterOfCompany(current, annuals);
    var later := SortBy(Filter(company, AfterCutoff(current)), AnnualLe);
    var code := OTHER;
    if later != [] && later[0].available.instant > current.windowEnd {
      code := TRUE_NO_ELIGIBLE_OUTCOME;
    } else if later == [] && (horizon.None? || horizon.value < current.windowEnd) {
      code := RIGHT_CENSORED_DATA_HORIZON;
    } else if later == [] {
      code := TRUE_NO_ELIGIBLE_OUTCOME;
    }
    r := Label(current.observationId, current.ticker, None, INSUFFICIENT_DATA,
               NoOutcome(code, if later == [] then None else Some(later[0].available)));
  }

  /** The inner loop of pass one, over one company's observations. */
  method LabelCompany(rows: seq<Observation>, ticker: string, company: seq<Annual>, ghost observations: seq<Observation>,
                      ghost annuals: seq<Annual>, periods: seq<Period>, ghost horizon: Option<int>) returns (labels: seq<Label>)
    requires company == Filter(annuals, HasKey(AnnualTicker, ticker))
    requires rows == Filter(observations, HasKey(ObservationTicker, ticker))
    ensures labels == FirstPass(rows, annuals, periods, horizon)
  {
    labels := [];
    CompanyRows(observations, ticker);
    var outcomes := SortBy(company, YearLe);
    for i := 0 to |rows|
      invariant labels == FirstPass(rows[..i], annuals, periods, horizon)
    {
      var found := LabelForward(rows[i], outcomes, annuals, periods, horizon);
      PassStep(rows, i, HasFuture(annuals), Labeller(annuals, periods, horizon));
      if found.Some? {
        labels := labels + [found.value];
      }
    }
    assert rows[..|rows|] == rows;
  }

  /** What the companies from `i` on contribute to pass one. */
  ghost function CompaniesFrom(tickers: seq<string>, i: nat, observations: seq<Observation>, annuals: seq<Annual>,
                               periods: seq<Period>, horizon: Option<int>): seq<Label>
    requires i <= |tickers|
  {
    FirstPass(Grouped(tickers[i..], observations, ObservationTicker), annuals, periods, horizon)
  }

  lemma CompaniesEnds(tickers: seq<string>, observations: seq<Observation>, annuals: seq<Annual>,
                      periods: seq<Period>, horizon: Option<int>)
    ensures CompaniesFrom(tickers, 0, observations, annuals, periods, horizon)
      == FirstPass(Grouped(tickers, observations, ObservationTicker), annuals, periods, horizon)
    ensures CompaniesFrom(tickers, |tickers|, observations, annuals, periods, horizon) == []
  {
    assert tickers[0..] == tickers && tickers[|tickers|..] == [];
  }

  lemma CompanyStep(tickers: seq<string>, i: nat, observations: seq<Observation>, annuals: seq<Annual>, periods: seq<Period>,
                    horizon: Option<int>)
    requires i < |tickers|
    ensures CompaniesFrom(tickers, i, observations, annuals, periods, horizon)
      == FirstPass(Filter(observations, HasKey(ObservationTicker, tickers[i])), annuals, periods, horizon)
        + CompaniesFrom(tickers, i + 1, observations, annuals, periods, horizon)
  {
    var rest := Grouped(tickers[i + 1..], observations, ObservationTicker);
    var rows := Filter(observations, HasKey(ObservationTicker, tickers[i]));
    assert tickers[i..][0] == tickers[i] && tickers[i..][1..] == tickers[i + 1..];
    FilterConcat(rows, rest, HasFuture(annuals));
    MapConcat(Labeller(annuals, periods, horizon), Filter(rows, HasFuture(annuals)), Filter(rest, HasFuture(annuals)));
  }

  lemma CompanyRows(observations: seq<Observation>, ticker: string)
    ensures var rows := Filter(observations, HasKey(ObservationTicker, ticker));
      forall i | 0 <= i < |rows| :: rows[i].ticker == ticker
  {
    var rows := Filter(observations, HasKey(ObservationTicker, ticker));
    forall i | 0 <= i < |rows| ensures rows[i].ticker == ticker {
      FilterMember(observations, HasKey(ObservationTicker, ticker), rows[i]);
    }
  }

  /** The loop over companies. */
  method LabelCompanies(tickers: seq<string>, features: map<string, seq<Observation>>, ghost observations: seq<Observation>,
                        byTicker: map<string, seq<Annual>>, ghost annuals: seq<Annual>, periods: seq<Period>,
                        ghost horizon: Option<int>) returns (labels: seq<Label>)
    requires forall k :: GroupAt(features, k) == Filter(observations, HasKey(ObservationTicker, k))
    requires forall k :: GroupAt(byTicker, k) == Filter(annuals, HasKey(AnnualTicker, k))
    ensures labels == CompaniesFrom(tickers, 0, observations, annuals, periods, horizon)
  {
    labels := [];
    ghost var all := CompaniesFrom(tickers, 0, observations, annuals, periods, horizon);
    ghost var rest := all;
    CompaniesEnds(tickers, observations, annuals, periods, horizon);
    for i := 0 to |tickers|
      invariant rest == CompaniesFrom(tickers, i, observations, annuals, periods, horizon)
      invariant labels + rest == all
    {
      CompanyStep(tickers, i, observations, annuals, periods, horizon);
      var more := LabelCompany(GroupAt(features, tickers[i]), tickers[i], GroupAt(byTicker, tickers[i]),
                               observations, annuals, periods, horizon);
      ghost var next := CompaniesFrom(tickers, i + 1, observations, annuals, periods, horizon);
      assert rest == more + next;
      assert labels + (more + next) == labels + more + next;
      rest := next;
      labels := labels + more;
    }
  }

  /** The loop of pass two. */
  method LabelRest(observations: seq<Observation>, byTicker: map<string, seq<Annual>>, ghost annuals: seq<Annual>,
                   horizon: Option<int>, labelled: set<string>) returns (labels: seq<Label>)
    requires forall k :: GroupAt(byTicker, k) == Filter(annuals, HasKey(AnnualTicker, k))
    ensures labels == SecondPass(observations, annuals, horizon, labelled)
  {
    labels := [];
    for i := 0 to |observations|
      invariant labels == SecondPass(observations[..i], annuals, horizon, labelled)
    {
      PassStep(observations, i, NotIn(labelled), Explainer(annuals, horizon));
      if observations[i].observationId !in labelled {
        var explained := Explain(observations[i], GroupAt(byTicker, observations[i].ticker), annuals, horizon);
        labels := labels + [explained];
      }
    }
    assert observations[..|observations|] == observations;
  }

  /** An observation read as an annual outcome. */
  function AsOutcome(o: Observation): Annual {
    Annual(o.observationId, o.ticker, o.fiscalYear, o.available, o.accession, o.facts)
  }

  /** Without annual outcomes of their own, the observations are each other's outcomes. */
  function OutcomeRows(observations: seq<Observation>, annualOutcomes: Option<seq<Annual>>): seq<Annual> {
    if annualOutcomes.Some? then annualOutcomes.value else Map(AsOutcome, observations)
  }

  method BuildDeteriorationLabels(observations: seq<Observation>, periods: seq<Period>, annualOutcomes: Option<seq<Annual>>,
                                  horizon: Option<int>)
    returns (labels: seq<Label>)
    ensures labels == AllLabels(observations, OutcomeRows(observations, annualOutcomes), periods, horizon)
  {
    var annuals := OutcomeRows(observations, annualOutcomes);
    var _, byTicker := GroupBy(annuals, AnnualTicker);
    var tickers, features := GroupBy(observations, ObservationTicker);
    var first := LabelCompanies(tickers, features, observations, byTicker, annuals, periods, horizon);
    CompaniesEnds(tickers, observations, annuals, periods, horizon);
    var rest := LabelRest(observations, byTicker, annuals, horizon, LabelIds(first));
    labels := SortBy(first + rest, LabelLe);
  }
}

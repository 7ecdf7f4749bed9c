/** The independent second implementation (scripts/review_numeric_labels_b.py, `review_packet`) and
    exactly when it agrees with the builder. */
module EndpointReviewer {
  import opened Wrappers
  import opened Ordering
  import opened Grouping
  import opened ForwardEndpoint
  import opened EndpointBuilder

  /** The evidence handed to the reviewer: the observation and the whole same-company pools. */
  datatype Packet = Packet(current: Observation, annualPool: seq<Annual>, periodPool: seq<Period>)

  datatype Review =
    | Reviewed(deteriorated: Option<nat>, status: Status, reasons: seq<Code>, evidence: seq<string>,
               fcfVerified: bool, conditions: Conditions)
    | NoEvidence

  function PeriodTicker(p: Period): string { p.ticker }

  /** `prepare_numeric_reviewer_packets`: every row of the same company, without a direction filter. */
  function PacketFor(current: Observation, annuals: seq<Annual>, periods: seq<Period>): Packet {
    Packet(current, Filter(annuals, HasKey(AnnualTicker, current.ticker)), Filter(periods, HasKey(PeriodTicker, current.ticker)))
  }

  function NextYearInWindow(current: Observation): Annual -> bool {
    (a: Annual) => a.fiscalYear == current.fiscalYear + 1 && InWindow(current, a.available.instant)
  }

  function PeriodInWindow(current: Observation): Period -> bool {
    (p: Period) => InWindow(current, p.available.instant)
  }

  function AnnualInWindow(current: Observation): Annual -> bool {
    (a: Annual) => InWindow(current, a.available.instant)
  }

  /** The reviewer keeps the filings inside the window and then takes the earliest. */
  function ReviewerFuture(packet: Packet): Option<Annual> {
    var annuals := SortBy(Filter(packet.annualPool, NextYearInWindow(packet.current)), AnnualLe);
    if annuals == [] then None else Some(annuals[0])
  }

  function ReviewerReports(packet: Packet): seq<Period> {
    FirstTwo(SortBy(Filter(packet.periodPool, PeriodInWindow(packet.current)), PeriodLe))
  }

  function Resolved(reports: seq<Period>): bool {
    |reports| == 2 && reports[0].freeCashFlow.Some? && reports[1].freeCashFlow.Some?
  }

  function ReviewOf(current: Observation, future: Annual, reports: seq<Period>): Review {
    var conditions := ConditionsOf(current.facts, future.facts, reports);
    var verdict := Rule(conditions.AsSeq());
    Reviewed(verdict.deteriorated, verdict.status, Reasons(conditions),
             [current.accession, future.accession] + Accessions(reports), Resolved(reports), conditions)
  }

  function PacketReview(packet: Packet): Review {
    var future := ReviewerFuture(packet);
    if future.None? then NoEvidence else ReviewOf(packet.current, future.value, ReviewerReports(packet))
  }

  method ReviewPacket(packet: Packet) returns (r: Review)
    ensures r == PacketReview(packet)
  {
    var annuals := SortBy(Filter(packet.annualPool, NextYearInWindow(packet.current)), AnnualLe);
    if annuals == [] {
      return NoEvidence;
    }
    var future := annuals[0];
    var now, next := packet.current.facts, future.facts;
    var reports := ReviewerReports(packet);
    var reasons, fcf := CollectReasons(now, next, reports);
    CodesOfReasons(ConditionsOf(now, next, reports));
    var codes := set code | code in reasons;
    var conditions := Conditions(
      Decided(codes, REVENUE_DECLINE_10PCT, now.revenue.Some? && now.revenue.value != 0.0 && next.revenue.Some?),
      Decided(codes, POSITIVE_INCOME_TO_LOSS, now.netIncome.Some? && next.netIncome.Some?),
      Decided(codes, OCF_DECLINE_OR_NEGATIVE, now.operatingCashFlow.Some? && next.operatingCashFlow.Some?),
      Decided(codes, DEBT_TO_ASSETS_INCREASE_10PP, LeverageKnown(now, next)),
      Holds(Resolved(reports), fcf == TRUE));
    assert conditions == ConditionsOf(now, next, reports);
    var verdict := Rule(conditions.AsSeq());
    r := Reviewed(verdict.deteriorated, verdict.status, reasons,
                  [packet.current.accession, future.accession] + Accessions(reports), Resolved(reports), conditions);
  }

  // ----- agreement

  function ReviewStatus(r: Review): Status {
    if r.NoEvidence? then INSUFFICIENT_DATA else r.status
  }

  function ReviewLabel(r: Review): Option<nat> {
    if r.NoEvidence? then None else r.deteriorated
  }

  /** Same label, same status, and the same five condition statuses where either side has them. */
  ghost predicate Agree(l: Label, r: Review) {
    && l.deteriorated == ReviewLabel(r)
    && l.status == ReviewStatus(r)
    && (l.basis.Outcome? <==> r.Reviewed?)
    && (l.basis.Outcome? ==> l.basis.conditions == r.conditions && l.basis.reasons == r.reasons)
  }

  /** Some filing of the next fiscal year is inside the window, but an earlier one is outside it. */
  predicate Shadowed(current: Observation, annuals: seq<Annual>) {
    var candidates := Candidates(current, annuals);
    && (exists a | a in candidates :: InWindow(current, a.available.instant))
    && !InWindow(current, Earliest(candidates).available.instant)
  }

  lemma SameReports(current: Observation, annuals: seq<Annual>, periods: seq<Period>)
    ensures ReviewerReports(PacketFor(current, annuals, periods)) == Reports(current, periods)
  {
    var mine, inside, both := HasKey(PeriodTicker, current.ticker), PeriodInWindow(current), ForwardReport(current);
    forall p | p in periods ensures both(p) <==> mine(p) && inside(p) {
      HasKeyAt(PeriodTicker, current.ticker, p);
      assert PeriodTicker(p) == p.ticker;
    }
    FilterTwice(periods, mine, inside, both);
  }

  /** The reviewer's list is the builder's candidate list in time order, restricted to the window. */
  lemma ReviewerList(current: Observation, annuals: seq<Annual>, periods: seq<Period>)
    ensures SortBy(Filter(PacketFor(current, annuals, periods).annualPool, NextYearInWindow(current)), AnnualLe)
      == Filter(SortBy(Candidates(current, annuals), AnnualLe), AnnualInWindow(current))
  {
    AnnualOrder();
    TickerKey(current.ticker);
    FilterTwice(annuals, HasKey(AnnualTicker, current.ticker), NextYearInWindow(current), InBoth(current));
    FilterTwice(annuals, NextAnnual(current), AnnualInWindow(current), InBoth(current));
    SortFilter(Candidates(current, annuals), AnnualLe, AnnualInWindow(current));
  }

  function InBoth(current: Observation): Annual -> bool {
    (a: Annual) =>
      a.ticker == current.ticker && a.fiscalYear == current.fiscalYear + 1 && InWindow(current, a.available.instant)
  }

  lemma AnnualOrder()
    ensures TotalPreorder(AnnualLe)
  {
    StringOrder();
  }

  /** Both pick the same filing unless the earliest one is outside the window and shadows a later one;
      then the builder finds none and the reviewer finds one. */
  lemma SameFuture(current: Observation, annuals: seq<Annual>, periods: seq<Period>)
    ensures var packet := PacketFor(current, annuals, periods);
      if Shadowed(current, annuals) then Future(current, annuals).None? && ReviewerFuture(packet).Some?
      else Future(current, annuals) == ReviewerFuture(packet)
  {
    var candidates := Candidates(current, annuals);
    var ordered := SortBy(candidates, AnnualLe);
    SortPermutes(candidates, AnnualLe);
    SameMembers(candidates, ordered);
    ReviewerList(current, annuals, periods);
    var list := Filter(ordered, AnnualInWindow(current));
    FilterMembers(ordered, AnnualInWindow(current));
    if list != [] {
      assert list[0] in list;
      FilterMember(ordered, AnnualInWindow(current), list[0]);
      assert list[0] in candidates;
    }
    if exists a | a in candidates :: InWindow(current, a.available.instant) {
      var a :| a in candidates && InWindow(current, a.available.instant);
      FilterMember(ordered, AnnualInWindow(current), a);
      assert a in list;
    }
  }

  /** The two implementations agree on an observation if and only if its earliest next-year filing does
      not shadow a later one inside the window. Where they differ, the builder reports insufficient data
      and the reviewer does not. */
  lemma AgreementIsExact(current: Observation, annuals: seq<Annual>, periods: seq<Period>, horizon: Option<int>)
    ensures Agree(LabelFor(annuals, periods, horizon, current), PacketReview(PacketFor(current, annuals, periods)))
      <==> !Shadowed(current, annuals)
    ensures Shadowed(current, annuals) ==>
      && LabelFor(annuals, periods, horizon, current).status == INSUFFICIENT_DATA
      && PacketReview(PacketFor(current, annuals, periods)).Reviewed?
  {
    SameFuture(current, annuals, periods);
    SameReports(current, annuals, periods);
  }

  /** At most one annual outcome per company and fiscal year. */
  ghost predicate UniqueAnnuals(annuals: seq<Annual>) {
    forall i, j | 0 <= i < j < |annuals| ::
      !(annuals[i].ticker == annuals[j].ticker && annuals[i].fiscalYear == annuals[j].fiscalYear)
  }

  lemma UniqueNeverShadows(current: Observation, annuals: seq<Annual>)
    requires UniqueAnnuals(annuals)
    ensures !Shadowed(current, annuals)
  {
    var candidates := Candidates(current, annuals);
    if candidates != [] {
      SortPermutes(candidates, AnnualLe);
      SameMembers(candidates, SortBy(candidates, AnnualLe));
      var first := Earliest(candidates);
      assert first in SortBy(candidates, AnnualLe);
      forall a | a in candidates ensures a == first {
        FilterMember(annuals, NextAnnual(current), a);
        FilterMember(annuals, NextAnnual(current), first);
        var i :| 0 <= i < |annuals| && annuals[i] == a;
        var j :| 0 <= j < |annuals| && annuals[j] == first;
      }
    }
  }

  /** With the uniqueness of the outcome corpus, builder and reviewer agree on every observation. */
  lemma ImplementationsAgree(current: Observation, annuals: seq<Annual>, periods: seq<Period>, horizon: Option<int>)
    requires UniqueAnnuals(annuals)
    ensures Agree(LabelFor(annuals, periods, horizon, current), PacketReview(PacketFor(current, annuals, periods)))
  {
    UniqueNeverShadows(current, annuals);
    AgreementIsExact(current, annuals, periods, horizon);
  }

  /** Sorting these timestamps as texts sorts them in time. */
  ghost predicate TextIsTime(annuals: seq<Annual>) {
    forall a, b | a in annuals && b in annuals :: AnnualLe(a, b) <==> a.available.instant <= b.available.instant
  }

  predicate SomeInWindow(current: Observation, annuals: seq<Annual>) {
    exists a | a in Candidates(current, annuals) :: InWindow(current, a.available.instant)
  }

  /** The candidates available after the cutoff, in time order. */
  function Later(current: Observation, annuals: seq<Annual>): seq<Annual> {
    SortBy(Filter(annuals, AfterCutoff(current)), AnnualLe)
  }

  lemma LaterMembers(current: Observation, annuals: seq<Annual>, a: Annual)
    ensures a in Later(current, annuals) <==> a in Candidates(current, annuals) && a.available.instant > current.cutoff
    ensures a in Later(current, annuals) ==> a in annuals
  {
    var afterwards := Filter(annuals, AfterCutoff(current));
    SortPermutes(afterwards, AnnualLe);
    SameMembers(afterwards, Later(current, annuals));
    FilterMember(annuals, AfterCutoff(current), a);
    FilterMember(annuals, NextAnnual(current), a);
  }

  /** The first of them is the earliest. */
  lemma LaterFirst(current: Observation, annuals: seq<Annual>, a: Annual)
    requires TextIsTime(annuals) && a in Later(current, annuals)
    ensures Later(current, annuals)[0].available.instant <= a.available.instant
  {
    var later := Later(current, annuals);
    AnnualOrder();
    SortSorts(Filter(annuals, AfterCutoff(current)), AnnualLe);
    var i :| 0 <= i < |later| && later[i] == a;
    LaterMembers(current, annuals, a);
    LaterMembers(current, annuals, later[0]);
    assert i == 0 || AnnualLe(later[0], later[i]);
  }

  /** The earliest filing after the cutoff is inside the window if any candidate is. */
  lemma EarliestLater(current: Observation, annuals: seq<Annual>)
    requires TextIsTime(annuals)
    ensures var later := Later(current, annuals);
      (later != [] && later[0].available.instant <= current.windowEnd) <==> SomeInWindow(current, annuals)
  {
    var later := Later(current, annuals);
    if SomeInWindow(current, annuals) {
      var a :| a in Candidates(current, annuals) && InWindow(current, a.available.instant);
      LaterMembers(current, annuals, a);
      LaterFirst(current, annuals, a);
    } else if later != [] {
      LaterMembers(current, annuals, later[0]);
    }
  }

  /** Some filing of the next fiscal year becomes available only after the window. */
  predicate SomeAfterWindow(current: Observation, annuals: seq<Annual>) {
    exists a | a in Candidates(current, annuals) ::
      a.available.instant > current.cutoff && a.available.instant > current.windowEnd
  }

  predicate HorizonReaches(current: Observation, horizon: Option<int>) {
    horizon.Some? && horizon.value >= current.windowEnd
  }

  lemma LaterExists(current: Observation, annuals: seq<Annual>)
    ensures Later(current, annuals) != [] <==> SomeInWindow(current, annuals) || SomeAfterWindow(current, annuals)
  {
    var later := Later(current, annuals);
    if later != [] {
      LaterMembers(current, annuals, later[0]);
    }
    if a :| a in Candidates(current, annuals) && a.available.instant > current.cutoff {
      LaterMembers(current, annuals, a);
    }
  }

  lemma EarliestIsCandidate(current: Observation, annuals: seq<Annual>)
    ensures Candidates(current, annuals) != [] ==> Earliest(Candidates(current, annuals)) in Candidates(current, annuals)
  {
    var candidates := Candidates(current, annuals);
    if candidates != [] {
      SortPermutes(candidates, AnnualLe);
      SameMembers(candidates, SortBy(candidates, AnnualLe));
      assert Earliest(candidates) in SortBy(candidates, AnnualLe);
    }
  }

  lemma NoOutcomeWhen(current: Observation, annuals: seq<Annual>, periods: seq<Period>, horizon: Option<int>)
    ensures LabelFor(annuals, periods, horizon, current).basis.NoOutcome?
      <==> !SomeInWindow(current, annuals) || Shadowed(current, annuals)
  {
    EarliestIsCandidate(current, annuals);
  }

  /** When timestamps sort as their instants do, the three reason codes say why there is no label: the window is missed
      by every filing of the next year, while one comes later or the data reach its end; the same, but nothing comes
      later and the data end before it; or the earliest such filing shadows one inside the window, which is exactly where
      the two implementations disagree. */
  lemma CodesExplained(current: Observation, annuals: seq<Annual>, periods: seq<Period>, horizon: Option<int>)
    requires TextIsTime(annuals) && LabelFor(annuals, periods, horizon, current).basis.NoOutcome?
    ensures var code := LabelFor(annuals, periods, horizon, current).basis.code;
      && (code == TRUE_NO_ELIGIBLE_OUTCOME <==>
            !SomeInWindow(current, annuals) && (SomeAfterWindow(current, annuals) || HorizonReaches(current, horizon)))
      && (code == RIGHT_CENSORED_DATA_HORIZON <==>
            !SomeInWindow(current, annuals) && !SomeAfterWindow(current, annuals) && !HorizonReaches(current, horizon))
      && (code == OTHER <==> Shadowed(current, annuals))
  {
    EarliestLater(current, annuals);
    LaterExists(current, annuals);
    NoOutcomeWhen(current, annuals, periods, horizon);
    CodeOf(current, annuals, horizon);
  }

  lemma CodeOf(current: Observation, annuals: seq<Annual>, horizon: Option<int>)
    ensures var code, later := NoOutcomeLabel(current, annuals, horizon).basis.code, Later(current, annuals);
      && (code == OTHER <==> later != [] && later[0].available.instant <= current.windowEnd)
      && (code == RIGHT_CENSORED_DATA_HORIZON <==> later == [] && !HorizonReaches(current, horizon))
  {
  }

  /** The builder's reason code OTHER marks exactly the observations on which the two implementations disagree. */
  lemma OtherMarksDisagreement(current: Observation, annuals: seq<Annual>, periods: seq<Period>, horizon: Option<int>)
    requires TextIsTime(annuals)
    ensures var l := LabelFor(annuals, periods, horizon, current);
      l.basis.NoOutcome? && l.basis.code == OTHER <==> Shadowed(current, annuals)
  {
    NoOutcomeWhen(current, annuals, periods, horizon);
    EarliestLater(current, annuals);
    CodeOf(current, annuals, horizon);
  }
}

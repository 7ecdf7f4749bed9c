/** What the two passes amount to, what more data can change, and the guards of `build_outcomes`
    (backend/finrisk/sec_bulk.py and backend/finrisk/e4_outcomes.py). */
module EndpointOutcomes {
  import opened Wrappers
  import opened Ordering
  import opened Grouping
  import opened ForwardEndpoint
  import opened EndpointBuilder

  function ObservationId(o: Observation): string { o.observationId }

  function LabelId(l: Label): string { l.observationId }

  // ----- one label per observation

  lemma CompanyOrderPermutes(observations: seq<Observation>)
    ensures multiset(ByCompany(observations)) == multiset(observations)
  {
    var keys := FirstKeys(observations, ObservationTicker);
    FirstKeysCover(observations, ObservationTicker);
    forall o | o in observations ensures ObservationTicker(o) in keys {
      var i :| 0 <= i < |observations| && observations[i] == o;
      assert ObservationTicker(observations[i]) == ObservationTicker(o);
    }
    GroupedPermutes(keys, observations, ObservationTicker);
  }

  /** An id determines its observation. */
  lemma SameId(observations: seq<Observation>, a: Observation, b: Observation)
    requires Distinct(Map(ObservationId, observations))
    requires a in observations && b in observations && a.observationId == b.observationId
    ensures a == b
  {
    var i :| 0 <= i < |observations| && observations[i] == a;
    var j :| 0 <= j < |observations| && observations[j] == b;
    var ids := Map(ObservationId, observations);
    DistinctPick(ids, i, j);
  }

  /** Pass one labels exactly the ids of the observations with a future filing. */
  /** The observation behind a labelled id. */
  lemma LabelledBy(kept: seq<Observation>, annuals: seq<Annual>, periods: seq<Period>, horizon: Option<int>, id: string)
    returns (o: Observation)
    requires id in LabelIds(Map(Labeller(annuals, periods, horizon), kept))
    ensures o in kept && o.observationId == id
  {
    var first := Map(Labeller(annuals, periods, horizon), kept);
    var l :| l in first && l.observationId == id;
    var i :| 0 <= i < |first| && first[i] == l;
    o := kept[i];
    assert first[i].observationId == o.observationId;
  }

  lemma LabelledIds(observations: seq<Observation>, annuals: seq<Annual>, periods: seq<Period>, horizon: Option<int>)
    requires Distinct(Map(ObservationId, observations))
    ensures var labelled := LabelIds(FirstPass(ByCompany(observations), annuals, periods, horizon));
      forall o | o in observations :: NotIn(labelled)(o) <==> !HasFuture(annuals)(o)
  {
    var company := ByCompany(observations);
    CompanyOrderPermutes(observations);
    SameMembers(company, observations);
    var kept := Filter(company, HasFuture(annuals));
    var first := Map(Labeller(annuals, periods, horizon), kept);
    forall o | o in observations ensures NotIn(LabelIds(first))(o) <==> !HasFuture(annuals)(o) {
      FilterMember(company, HasFuture(annuals), o);
      if o in kept {
        var i :| 0 <= i < |kept| && kept[i] == o;
        assert first[i] in first && first[i].observationId == o.observationId;
      }
      if o.observationId in LabelIds(first) {
        var k := LabelledBy(kept, annuals, periods, horizon, o.observationId);
        FilterMember(company, HasFuture(annuals), k);
        SameId(observations, k, o);
      }
    }
  }

  lemma {:induction false} MapSame<A, B>(f: A -> B, g: A -> B, s: seq<A>)
    requires forall x | x in s :: f(x) == g(x)
    ensures Map(f, s) == Map(g, s)
  {
    forall i | 0 <= i < |s| ensures Map(f, s)[i] == Map(g, s)[i] {
      assert s[i] in s;
    }
  }

  function NoFuture(annuals: seq<Annual>): Observation -> bool {
    (o: Observation) => Future(o, annuals).None?
  }

  lemma SecondPassLabels(observations: seq<Observation>, annuals: seq<Annual>, periods: seq<Period>, horizon: Option<int>)
    requires Distinct(Map(ObservationId, observations))
    ensures SecondPass(observations, annuals, horizon, LabelIds(FirstPass(ByCompany(observations), annuals, periods, horizon)))
      == Map(Labeller(annuals, periods, horizon), Filter(observations, NoFuture(annuals)))
  {
    var labelled := LabelIds(FirstPass(ByCompany(observations), annuals, periods, horizon));
    LabelledIds(observations, annuals, periods, horizon);
    FilterSame(observations, NotIn(labelled), NoFuture(annuals));
    var rest := Filter(observations, NoFuture(annuals));
    forall o | o in rest ensures Explainer(annuals, horizon)(o) == Labeller(annuals, periods, horizon)(o) {
      FilterMember(observations, NoFuture(annuals), o);
    }
    MapSame(Explainer(annuals, horizon), Labeller(annuals, periods, horizon), rest);
  }

  lemma LabelOrder()
    ensures TotalPreorder(LabelLe)
  {
    StringOrder();
  }

  lemma LabelsTold(observations: seq<Observation>, f: Observation -> Label)
    requires Distinct(Map(ObservationId, observations))
    requires forall o | o in observations :: f(o).observationId == o.observationId
    ensures Antisymmetric(Map(f, observations), LabelLe)
  {
    var labels := Map(f, observations);
    forall a, b | a in labels && b in labels && LabelLe(a, b) && LabelLe(b, a) ensures a == b {
      StringLeAntisymmetric(a.observationId, b.observationId);
      var i :| 0 <= i < |labels| && labels[i] == a;
      var j :| 0 <= j < |labels| && labels[j] == b;
      assert observations[i] in observations && observations[j] in observations;
      SameId(observations, observations[i], observations[j]);
    }
  }

  /** The multiset of labels of the two passes. */
  lemma PassesPartition(observations: seq<Observation>, annuals: seq<Annual>, periods: seq<Period>, horizon: Option<int>)
    requires Distinct(Map(ObservationId, observations))
    ensures var first := FirstPass(ByCompany(observations), annuals, periods, horizon);
      multiset(first + SecondPass(observations, annuals, horizon, LabelIds(first)))
        == multiset(Map(Labeller(annuals, periods, horizon), observations))
  {
    var f := Labeller(annuals, periods, horizon);
    var kept := Filter(ByCompany(observations), HasFuture(annuals));
    var rest := Filter(observations, NoFuture(annuals));
    SecondPassLabels(observations, annuals, periods, horizon);
    CompanyOrderPermutes(observations);
    FilterPermutes(ByCompany(observations), observations, HasFuture(annuals));
    FilterSplit(observations, HasFuture(annuals), NoFuture(annuals));
    MapConcat(f, kept, rest);
    assert multiset(kept + rest) == multiset(observations);
    MapPermutes(f, kept + rest, observations);
  }

  /** For distinct observation ids the two passes together give each observation exactly the label it
      must get, sorted by id. */
  lemma OneLabelEach(observations: seq<Observation>, annuals: seq<Annual>, periods: seq<Period>, horizon: Option<int>)
    requires Distinct(Map(ObservationId, observations))
    ensures AllLabels(observations, annuals, periods, horizon)
      == SortBy(Map(Labeller(annuals, periods, horizon), observations), LabelLe)
  {
    var f := Labeller(annuals, periods, horizon);
    var first := FirstPass(ByCompany(observations), annuals, periods, horizon);
    var all := first + SecondPass(observations, annuals, horizon, LabelIds(first));
    PassesPartition(observations, annuals, periods, horizon);
    forall o | o in observations ensures f(o).observationId == o.observationId {
    }
    LabelsTold(observations, f);
    LabelOrder();
    SortIgnoresOrder(Map(f, observations), all, LabelLe);
  }

  /** Each observation id carries exactly one label. */
  lemma OneLabelPerId(observations: seq<Observation>, annuals: seq<Annual>, periods: seq<Period>, horizon: Option<int>)
    requires Distinct(Map(ObservationId, observations))
    ensures multiset(Map(LabelId, AllLabels(observations, annuals, periods, horizon))) == multiset(Map(ObservationId, observations))
  {
    var labels := Map(Labeller(annuals, periods, horizon), observations);
    OneLabelEach(observations, annuals, periods, horizon);
    SortPermutes(labels, LabelLe);
    MapPermutes(LabelId, SortBy(labels, LabelLe), labels);
    assert Map(LabelId, labels) == Map(ObservationId, observations);
  }

  // ----- more data never changes a verified label

  lemma FillKeepsOrder()
    ensures OrderBlind(AnnualFill, AnnualLe)
    ensures OrderBlind(PeriodFill, PeriodLe)
  {
  }

  lemma FutureFills(current: Observation, current': Observation, annuals: seq<Annual>, annuals': seq<Annual>)
    requires ObservationFill(current, current') && Related(annuals, annuals', AnnualFill)
    ensures var a, b := Future(current, annuals), Future(current', annuals');
      a.Some? == b.Some? && (a.Some? ==> AnnualFill(a.value, b.value))
  {
    FillKeepsOrder();
    FilterRelated(annuals, annuals', AnnualFill, NextAnnual(current), NextAnnual(current'));
    var c, c' := Candidates(current, annuals), Candidates(current', annuals');
    SortRelated(c, c', AnnualFill, AnnualLe);
    SortPermutes(c, AnnualLe);
    SortPermutes(c', AnnualLe);
    if c != [] {
      assert AnnualFill(SortBy(c, AnnualLe)[0], SortBy(c', AnnualLe)[0]);
    }
  }

  lemma ReportsFill(current: Observation, current': Observation, periods: seq<Period>, periods': seq<Period>)
    requires ObservationFill(current, current') && Related(periods, periods', PeriodFill)
    ensures Related(Reports(current, periods), Reports(current', periods'), PeriodFill)
  {
    FillKeepsOrder();
    FilterRelated(periods, periods', PeriodFill, ForwardReport(current), ForwardReport(current'));
    SortRelated(Filter(periods, ForwardReport(current)), Filter(periods', ForwardReport(current')), PeriodFill, PeriodLe);
  }

  /** Filling in any missing fact of the observation or of any filing, and any missing free cash flow,
      never changes a verified label. */
  lemma VerifiedLabelsAreFinal(current: Observation, current': Observation, annuals: seq<Annual>, annuals': seq<Annual>,
                               periods: seq<Period>, periods': seq<Period>, horizon: Option<int>)
    requires ObservationFill(current, current')
    requires Related(annuals, annuals', AnnualFill) && Related(periods, periods', PeriodFill)
    requires LabelFor(annuals, periods, horizon, current).status == VERIFIED
    ensures var before, after := LabelFor(annuals, periods, horizon, current), LabelFor(annuals', periods', horizon, current');
      after.status == VERIFIED && after.deteriorated == before.deteriorated
  {
    FutureFills(current, current', annuals, annuals');
    ReportsFill(current, current', periods, periods');
    var future, future' := Future(current, annuals).value, Future(current', annuals').value;
    var reports, reports' := Reports(current, periods), Reports(current', periods');
    FillingSharpens(current.facts, current'.facts, future.facts, future'.facts, reports, reports');
    VerifiedStays(ConditionsOf(current.facts, future.facts, reports).AsSeq(),
                  ConditionsOf(current'.facts, future'.facts, reports').AsSeq());
  }

  // ----- build_outcomes

  datatype OutcomeError = MissingArchives | LoadFailed | UnknownObservation | OutsideWindow | NotBinary

  /** What loading the archives under an identity mapping yields, or that it raises. */
  datatype Loaded = Loaded(annuals: seq<Annual>, periods: seq<Period>) | Unreadable

  /** The guards on a label: its outcome is inside the window, and only a verified label is binary. */
  predicate PassesWindow(l: Label, o: Observation) {
    l.basis.Outcome? ==> InWindow(o, l.basis.available.instant)
  }

  predicate PassesBinary(l: Label) {
    l.status != VERIFIED ==> l.deteriorated.None?
  }

  lemma LabelPassesGuards(annuals: seq<Annual>, periods: seq<Period>, horizon: Option<int>, current: Observation)
    ensures var l := LabelFor(annuals, periods, horizon, current);
      PassesWindow(l, current) && PassesBinary(l)
  {
  }

  /** `feature_by_id[...]`: of several observations with the id, the last. */
  function FeatureOf(features: seq<Observation>, id: string): Option<Observation> {
    if features == [] then None
    else if features[|features| - 1].observationId == id then Some(features[|features| - 1])
    else FeatureOf(features[..|features| - 1], id)
  }

  lemma {:induction false} FindsFeature(features: seq<Observation>, o: Observation)
    requires o in features && Distinct(Map(ObservationId, features))
    ensures FeatureOf(features, o.observationId) == Some(o)
  {
    var last := |features| - 1;
    if features[last].observationId == o.observationId {
      SameId(features, features[last], o);
    } else {
      var i :| 0 <= i < |features| && features[i] == o;
      assert features[..last][i] == o;
      assert forall j | 0 <= j < last :: Map(ObservationId, features[..last])[j] == Map(ObservationId, features)[j];
      FindsFeature(features[..last], o);
    }
  }

  /** Every label of the builder belongs to an observation and passes its guards. */
  lemma LabelsPassGuards(features: seq<Observation>, annuals: seq<Annual>, periods: seq<Period>, horizon: Option<int>, l: Label)
    requires Distinct(Map(ObservationId, features)) && l in AllLabels(features, annuals, periods, horizon)
    ensures FeatureOf(features, l.observationId).Some?
    ensures PassesWindow(l, FeatureOf(features, l.observationId).value) && PassesBinary(l)
  {
    var i := LabelOrigin(features, annuals, periods, horizon, l);
    LabelPassesGuards(annuals, periods, horizon, features[i]);
    FindsFeature(features, features[i]);
  }

  lemma LabelOrigin(features: seq<Observation>, annuals: seq<Annual>, periods: seq<Period>, horizon: Option<int>, l: Label)
    returns (i: nat)
    requires Distinct(Map(ObservationId, features)) && l in AllLabels(features, annuals, periods, horizon)
    ensures i < |features| && l == LabelFor(annuals, periods, horizon, features[i])
  {
    var labels := Map(Labeller(annuals, periods, horizon), features);
    OneLabelEach(features, annuals, periods, horizon);
    SortPermutes(labels, LabelLe);
    SameMembers(labels, SortBy(labels, LabelLe));
    i :| 0 <= i < |features| && labels[i] == l;
  }

  function CountStatus(labels: seq<Label>, status: Status): nat {
    if labels == [] then 0
    else (if labels[|labels| - 1].status == status then 1 else 0) + CountStatus(labels[..|labels| - 1], status)
  }

  /** The module state of `sec_bulk` that `build_outcomes` swaps and restores. */
  class SecBulk {
    var frozenCiks: map<string, string>

    constructor (ciks: map<string, string>)
      ensures frozenCiks == ciks
    {
      frozenCiks := ciks;
    }

    /** The archives are read under the mapping of the features, and the module's own mapping is back in
        place on every exit. For distinct observation ids the guards never raise: the only failures left
        are archives that are absent or unreadable. */
    method BuildOutcomes(features: seq<Observation>, ciks: map<string, string>, archivesPresent: bool,
                         load: map<string, string> -> Loaded, horizon: int)
      returns (r: Result<seq<Label>, OutcomeError>, counts: map<Status, nat>)
      modifies this
      ensures frozenCiks == old(frozenCiks)
      ensures r.Failure? && r.error == MissingArchives <==> !archivesPresent
      ensures r.Failure? && r.error == LoadFailed <==> archivesPresent && load(ciks).Unreadable?
      ensures Distinct(Map(ObservationId, features)) && archivesPresent && load(ciks).Loaded? ==>
        && r.Success?
        && r.value == SortBy(Map(Labeller(load(ciks).annuals, load(ciks).periods, Some(horizon)), features), LabelLe)
        && (forall s | s in counts :: counts[s] == CountStatus(r.value, s) > 0)
        && (forall l | l in r.value :: l.status in counts)
    {
      counts := map[];
      if !archivesPresent {
        return Failure(MissingArchives), counts;
      }
      var originalMapping := frozenCiks;
      frozenCiks := ciks;
      var loaded := load(frozenCiks);
      if loaded.Unreadable? {
        frozenCiks := originalMapping;
        return Failure(LoadFailed), counts;
      }
      var labels := BuildDeteriorationLabels(features, loaded.periods, Some(loaded.annuals), Some(horizon));
      frozenCiks := originalMapping;
      var failed := CheckGuards(features, labels, loaded.annuals, loaded.periods, Some(horizon));
      if failed.Some? {
        return Failure(failed.value), counts;
      }
      labels := SortBy(labels, LabelLe);
      counts := CountStatuses(labels);
      if Distinct(Map(ObservationId, features)) {
        OneLabelEach(features, loaded.annuals, loaded.periods, Some(horizon));
        SortTwice(Map(Labeller(loaded.annuals, loaded.periods, Some(horizon)), features));
      }
      r := Success(labels);
    }
  }

  lemma SortTwice(labels: seq<Label>)
    ensures SortBy(SortBy(labels, LabelLe), LabelLe) == SortBy(labels, LabelLe)
  {
    LabelOrder();
    SortSorts(labels, LabelLe);
    SortedStays(SortBy(labels, LabelLe));
  }

  lemma {:induction false} SortedStays(labels: seq<Label>)
    requires Sorted(labels, LabelLe)
    ensures SortBy(labels, LabelLe) == labels
  {
    if labels != [] {
      SortedStays(labels[1..]);
    }
  }

  method CheckGuards(features: seq<Observation>, labels: seq<Label>, ghost annuals: seq<Annual>, ghost periods: seq<Period>,
                     ghost horizon: Option<int>) returns (failed: Option<OutcomeError>)
    requires labels == AllLabels(features, annuals, periods, horizon)
    ensures Distinct(Map(ObservationId, features)) ==> failed.None?
    ensures failed.Some? ==> failed.value !in {MissingArchives, LoadFailed}
  {
    for i := 0 to |labels| {
      var feature := FeatureOf(features, labels[i].observationId);
      if Distinct(Map(ObservationId, features)) {
        LabelsPassGuards(features, annuals, periods, horizon, labels[i]);
      }
      if feature.None? {
        return Some(UnknownObservation);
      }
      if !PassesWindow(labels[i], feature.value) {
        return Some(OutsideWindow);
      }
      if !PassesBinary(labels[i]) {
        return Some(NotBinary);
      }
    }
    failed := None;
  }

  method CountStatuses(labels: seq<Label>) returns (counts: map<Status, nat>)
    ensures forall s | s in counts :: counts[s] == CountStatus(labels, s) > 0
    ensures forall l | l in labels :: l.status in counts
  {
    counts := map[];
    for i := 0 to |labels|
      invariant forall s | s in counts :: counts[s] == CountStatus(labels[..i], s) > 0
      invariant forall s | s !in counts :: CountStatus(labels[..i], s) == 0
      invariant forall j | 0 <= j < i :: labels[j].status in counts
    {
      var status := labels[i].status;
      assert labels[..i + 1][..i] == labels[..i];
      counts := counts[status := (if status in counts then counts[status] else 0) + 1];
    }
    assert labels[..|labels|] == labels;
  }
}

/** The label-only pool of annual outcomes (backend/finrisk/sec_bulk.py, `build_annual_outcome_corpus`
    with `build_numeric_corpus`): one original filing per company and fiscal year. */
module AnnualCorpus {
  import opened Wrappers
  import opened Ordering
  import opened Grouping
  import opened ForwardEndpoint
  import opened EndpointBuilder
  import opened EndpointReviewer
  import AgentBatches

  /** A 10-K submission of a frozen company: its fiscal year as the archive spells it, when it was filed,
      and the facts and availability read from it. */
  datatype Filing = Filing(ticker: string, fiscalYear: string, filed: string, accepted: string, accession: string,
                           available: Stamp, facts: Facts)

  type CorpusKey = (string, string)

  function KeyText(f: Filing): CorpusKey { (f.ticker, f.fiscalYear) }

  /** `int(fiscal_year)` of a text of decimal digits. */
  function Year(text: string): int { AgentBatches.Value(text) }

  predicate FiledLe(a: Filing, b: Filing) {
    if a.filed == b.filed then StringLe(a.accepted, b.accepted) else StringLe(a.filed, b.filed)
  }

  /** The plan: the keys of the filings, each once, in order of first appearance. */
  function PlannedKeys(filings: seq<Filing>): seq<CorpusKey> {
    FirstKeys(filings, KeyText)
  }

  /** Every planned key has a filing. */
  lemma PlannedFilings(filings: seq<Filing>, i: nat)
    requires i < |PlannedKeys(filings)|
    ensures Filter(filings, HasKey(KeyText, PlannedKeys(filings)[i])) != []
  {
    var key := PlannedKeys(filings)[i];
    FirstKeysCover(filings, KeyText);
    assert key in PlannedKeys(filings);
    var j :| 0 <= j < |filings| && KeyText(filings[j]) == key;
    FilterMember(filings, HasKey(KeyText, key), filings[j]);
  }

  /** The original filing of a key: the first one filed. */
  function Original(filings: seq<Filing>, key: CorpusKey): Filing
    requires Filter(filings, HasKey(KeyText, key)) != []
  {
    SortPermutes(Filter(filings, HasKey(KeyText, key)), FiledLe);
    SortBy(Filter(filings, HasKey(KeyText, key)), FiledLe)[0]
  }

  function Record(filing: Filing): Annual {
    Annual(filing.ticker + "-" + filing.fiscalYear, filing.ticker, Year(filing.fiscalYear), filing.available,
           filing.accession, filing.facts)
  }

  /** The records in the order of the plan. */
  function Planned(filings: seq<Filing>): seq<Annual> {
    var keys := PlannedKeys(filings);
    seq(|keys|, i requires 0 <= i < |keys| => PlannedFilings(filings, i); Record(Original(filings, keys[i])))
  }

  predicate CorpusLe(a: Annual, b: Annual) {
    if a.ticker == b.ticker then a.fiscalYear <= b.fiscalYear else StringLe(a.ticker, b.ticker)
  }

  /** The records by company and fiscal year. */
  function Corpus(filings: seq<Filing>): seq<Annual> {
    SortBy(Planned(filings), CorpusLe)
  }

  /** The first filing of a key's group. */
  method FirstFiled(filings: seq<Filing>, wanted: seq<CorpusKey>, groups: map<CorpusKey, seq<Filing>>, i: nat)
    returns (original: Filing)
    requires IsGrouping(filings, KeyText, wanted, groups) && i < |wanted|
    ensures Record(original) == Planned(filings)[i]
  {
    var key := wanted[i];
    PlannedFilings(filings, i);
    var group := GroupAt(groups, key);
    SortPermutes(group, FiledLe);
    original := SortBy(group, FiledLe)[0];
  }

  method BuildAnnualOutcomeCorpus(filings: seq<Filing>) returns (annuals: seq<Annual>)
    ensures annuals == Corpus(filings)
  {
    var wanted, groups := GroupBy(filings, KeyText);
    ghost var planned := Planned(filings);
    annuals := [];
    for i := 0 to |wanted|
      invariant annuals == planned[..i]
    {
      var original := FirstFiled(filings, wanted, groups, i);
      assert planned[..i + 1] == planned[..i] + [planned[i]];
      annuals := annuals + [Record(original)];
    }
    assert planned[..|wanted|] == planned;
    annuals := SortBy(annuals, CorpusLe);
  }

  lemma OriginalHasKey(filings: seq<Filing>, key: CorpusKey)
    requires Filter(filings, HasKey(KeyText, key)) != []
    ensures KeyText(Original(filings, key)) == key && Original(filings, key) in filings
  {
    var matching := Filter(filings, HasKey(KeyText, key));
    SortPermutes(matching, FiledLe);
    SameMembers(matching, SortBy(matching, FiledLe));
    assert Original(filings, key) in SortBy(matching, FiledLe);
    FilterMember(filings, HasKey(KeyText, key), Original(filings, key));
  }

  /** No company spells one fiscal year in two ways (such as "2024" and "02024"). */
  ghost predicate OneSpelling(filings: seq<Filing>) {
    forall f, g | f in filings && g in filings && f.ticker == g.ticker && Year(f.fiscalYear) == Year(g.fiscalYear) ::
      f.fiscalYear == g.fiscalYear
  }

  lemma PlannedAt(filings: seq<Filing>, i: nat)
    requires i < |PlannedKeys(filings)|
    ensures var key, a := PlannedKeys(filings)[i], Planned(filings)[i];
      && a.ticker == key.0 && a.fiscalYear == Year(key.1)
      && exists f | f in filings :: KeyText(f) == key
  {
    var key := PlannedKeys(filings)[i];
    PlannedFilings(filings, i);
    OriginalHasKey(filings, key);
  }

  lemma OneSpellingIsUnique(filings: seq<Filing>)
    requires OneSpelling(filings)
    ensures UniqueAnnuals(Planned(filings))
  {
    var keys, planned := PlannedKeys(filings), Planned(filings);
    FirstKeysCover(filings, KeyText);
    forall i, j | 0 <= i < j < |planned|
      ensures !(planned[i].ticker == planned[j].ticker && planned[i].fiscalYear == planned[j].fiscalYear)
    {
      PlannedAt(filings, i);
      PlannedAt(filings, j);
      var f :| f in filings && KeyText(f) == keys[i];
      var g :| g in filings && KeyText(g) == keys[j];
      assert keys[i] != keys[j];
    }
  }

  lemma TwoSpellingsCollide(filings: seq<Filing>, f: Filing, g: Filing)
    requires f in filings && g in filings && f.ticker == g.ticker
    requires Year(f.fiscalYear) == Year(g.fiscalYear) && f.fiscalYear != g.fiscalYear
    ensures !UniqueAnnuals(Planned(filings))
  {
    var i := FiledIn(filings, f);
    var j := FiledIn(filings, g);
    SameYearTwice(Planned(filings), i, j);
  }

  lemma SameYearTwice(annuals: seq<Annual>, i: nat, j: nat)
    requires i < |annuals| && j < |annuals| && i != j
    requires annuals[i].ticker == annuals[j].ticker && annuals[i].fiscalYear == annuals[j].fiscalYear
    ensures !UniqueAnnuals(annuals)
  {
    assert i < j || j < i;
  }

  /** The annual outcome of a filing's key. */
  lemma FiledIn(filings: seq<Filing>, f: Filing) returns (i: nat)
    requires f in filings
    ensures i < |Planned(filings)| && PlannedKeys(filings)[i] == KeyText(f)
    ensures Planned(filings)[i].ticker == f.ticker && Planned(filings)[i].fiscalYear == Year(f.fiscalYear)
  {
    var keys := PlannedKeys(filings);
    FirstKeysCover(filings, KeyText);
    var k :| 0 <= k < |filings| && filings[k] == f;
    assert KeyText(filings[k]) in keys;
    i :| 0 <= i < |keys| && keys[i] == KeyText(f);
    PlannedAt(filings, i);
  }

  function CompanyYear(a: Annual): (string, int) { (a.ticker, a.fiscalYear) }

  lemma UniqueIsDistinct(annuals: seq<Annual>)
    ensures UniqueAnnuals(annuals) <==> Distinct(Map(CompanyYear, annuals))
  {
    var keys := Map(CompanyYear, annuals);
    assert forall i | 0 <= i < |annuals| :: keys[i] == (annuals[i].ticker, annuals[i].fiscalYear);
  }

  /** Sorting the corpus makes no difference to its uniqueness. */
  lemma SortedIsUnique(filings: seq<Filing>)
    ensures UniqueAnnuals(Corpus(filings)) <==> UniqueAnnuals(Planned(filings))
  {
    var planned, corpus := Planned(filings), Corpus(filings);
    SortPermutes(planned, CorpusLe);
    MapPermutes(CompanyYear, planned, corpus);
    DistinctPermutes(Map(CompanyYear, planned), Map(CompanyYear, corpus));
    UniqueIsDistinct(planned);
    UniqueIsDistinct(corpus);
  }

  /** The corpus holds at most one annual outcome per company and fiscal year if and only if no company's
      fiscal year comes in two spellings: the plan is keyed by the text, the records by its number. */
  lemma CorpusUniqueness(filings: seq<Filing>)
    ensures UniqueAnnuals(Corpus(filings)) <==> OneSpelling(filings)
  {
    SortedIsUnique(filings);
    if OneSpelling(filings) {
      OneSpellingIsUnique(filings);
    } else {
      var f, g :| f in filings && g in filings && f.ticker == g.ticker && Year(f.fiscalYear) == Year(g.fiscalYear)
        && f.fiscalYear != g.fiscalYear;
      TwoSpellingsCollide(filings, f, g);
    }
  }

  /** From filings to agreement: on a corpus built from filings with one spelling per year, builder and
      reviewer agree on every observation. */
  lemma CorpusMakesThemAgree(filings: seq<Filing>, current: Observation, periods: seq<Period>, horizon: Option<int>)
    requires OneSpelling(filings)
    ensures Agree(LabelFor(Corpus(filings), periods, horizon, current),
                  PacketReview(PacketFor(current, Corpus(filings), periods)))
  {
    CorpusUniqueness(filings);
    ImplementationsAgree(current, Corpus(filings), periods, horizon);
  }

  const NO_FACTS := Facts(None, None, None, None, None)

  /** Two spellings of one year make the two implementations disagree: the filing made first is available
      at the cutoff already, the other one inside the window. */
  lemma TwoSpellingsDisagree(horizon: Option<int>)
    ensures var year := AgentBatches.Decimal(2025);
      var filings := [
        Filing("T", year, "20250101", "", "A", Stamp("a", 10), NO_FACTS),
        Filing("T", "0" + year, "20250201", "", "B", Stamp("b", 20), NO_FACTS)];
      var current := Observation("T-2024", "T", 2024, Stamp("a", 10), 10, 30, "C", NO_FACTS);
      !Agree(LabelFor(Corpus(filings), [], horizon, current), PacketReview(PacketFor(current, Corpus(filings), [])))
  {
    var year := AgentBatches.Decimal(2025);
    AgentBatches.DecimalRoundTrip(2025);
    AgentBatches.LeadingZero(year);
    var f := Filing("T", year, "20250101", "", "A", Stamp("a", 10), NO_FACTS);
    var g := Filing("T", "0" + year, "20250201", "", "B", Stamp("b", 20), NO_FACTS);
    var current := Observation("T-2024", "T", 2024, Stamp("a", 10), 10, 30, "C", NO_FACTS);
    assert |"0" + year| != |year|;
    TwoInCorpus(f, g);
    ShadowedPair(current, Record(f), Record(g), horizon);
  }

  lemma TwoInCorpus(f: Filing, g: Filing)
    requires KeyText(f) != KeyText(g) && f.ticker == g.ticker && Year(f.fiscalYear) == Year(g.fiscalYear)
    ensures Corpus([f, g]) == [Record(f), Record(g)]
  {
    TwoRecords(f, g);
    SortOfEquals([Record(f), Record(g)], CorpusLe);
  }

  lemma ShadowedPair(current: Observation, a: Annual, b: Annual, horizon: Option<int>)
    requires NextAnnual(current)(a) && NextAnnual(current)(b) && AnnualLe(a, b)
    requires !InWindow(current, a.available.instant) && InWindow(current, b.available.instant)
    ensures !Agree(LabelFor([a, b], [], horizon, current), PacketReview(PacketFor(current, [a, b], [])))
  {
    TwoCandidates(current, a, b);
    AgreementIsExact(current, [a, b], [], horizon);
  }

  lemma TwoRecords(f: Filing, g: Filing)
    requires KeyText(f) != KeyText(g)
    ensures Planned([f, g]) == [Record(f), Record(g)]
  {
    var filings := [f, g];
    assert filings[..1] == [f] && [f][..0] == [];
    assert PlannedKeys([]) == [] && PlannedKeys([f]) == [KeyText(f)];
    assert PlannedKeys(filings) == [KeyText(f), KeyText(g)];
    PlannedFilings(filings, 0);
    PlannedFilings(filings, 1);
    OriginalHasKey(filings, KeyText(f));
    OriginalHasKey(filings, KeyText(g));
    assert Original(filings, KeyText(f)) == f && Original(filings, KeyText(g)) == g;
  }

  lemma TwoCandidates(current: Observation, a: Annual, b: Annual)
    requires NextAnnual(current)(a) && NextAnnual(current)(b) && AnnualLe(a, b)
    requires !InWindow(current, a.available.instant) && InWindow(current, b.available.instant)
    ensures Shadowed(current, [a, b])
  {
    assert [a, b][1..] == [b] && [b][1..] == [];
    assert Filter([b], NextAnnual(current)) == [b];
    assert Candidates(current, [a, b]) == [a] + [b];
    assert SortBy([b], AnnualLe) == [b];
    assert SortBy([a] + [b], AnnualLe) == [a, b] by {
      assert ([a] + [b])[1..] == [b];
    }
    assert b in Candidates(current, [a, b]);
  }
}

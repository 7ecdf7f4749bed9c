/** Standalone-period free cash flow out of year-to-date facts (backend/finrisk/sec_bulk.py,
    `build_reported_fcf_periods_v2`). */
module StandaloneFcf {
  import opened Wrappers
  import opened Ordering
  import opened Grouping
  import opened AgentBatches

  /** A reported fact: its value and the number of quarters it covers (0 without provenance). */
  datatype Fact = Fact(value: Option<real>, quarters: int)

  datatype Record = Record(ticker: string, fiscalYear: Option<nat>, periodEnd: string, cashFlow: Fact, capex: Fact)

  /** A copy of the record with its standalone values. */
  datatype Period = Period(record: Record, cashFlow: Option<real>, capex: Option<real>, freeCashFlow: Option<real>)

  // ----- one field along an issuer-year

  predicate YearToDate(f: Fact) {
    f.value.Some? && 1 <= f.quarters <= 3
  }

  function Standalone(f: Fact, previous: Option<real>): Option<real> {
    if f.value == None then None
    else if f.quarters == 1 || f.quarters == 4 then f.value
    else if (f.quarters == 2 || f.quarters == 3) && previous.Some? then Some(f.value.value - previous.value)
    else None
  }

  function Remember(f: Fact, previous: Option<real>): Option<real> {
    if YearToDate(f) then f.value else previous
  }

  /** The last year-to-date value of a stretch of facts. */
  function LastYtd(facts: seq<Fact>): Option<real> {
    if facts == [] then None else Remember(facts[|facts| - 1], LastYtd(facts[..|facts| - 1]))
  }

  function CashFlowOf(r: Record): Fact { r.cashFlow }

  function CapexOf(r: Record): Fact { r.capex }

  function Difference(a: Option<real>, b: Option<real>): Option<real> {
    if a.Some? && b.Some? then Some(a.value - b.value) else None
  }

  /** Row `i` of an issuer-year. */
  function PeriodAt(rows: seq<Record>, i: nat): Period
    requires i < |rows|
  {
    var cashFlow := Standalone(rows[i].cashFlow, LastYtd(Map(CashFlowOf, rows[..i])));
    var capex := Standalone(rows[i].capex, LastYtd(Map(CapexOf, rows[..i])));
    Period(rows[i], cashFlow, capex, Difference(cashFlow, capex))
  }

  function Periods(rows: seq<Record>): (r: seq<Period>)
    ensures |r| == |rows|
  {
    seq(|rows|, i requires 0 <= i < |rows| => PeriodAt(rows, i))
  }

  // ----- the program

  predicate PeriodLe(a: Record, b: Record) {
    StringLe(a.periodEnd, b.periodEnd)
  }

  predicate OutputLe(a: Period, b: Period) {
    if a.record.ticker == b.record.ticker then StringLe(a.record.periodEnd, b.record.periodEnd)
    else StringLe(a.record.ticker, b.record.ticker)
  }

  function Dated(r: Record): bool { r.fiscalYear.Some? }

  function Year(r: Record): nat { if r.fiscalYear.Some? then r.fiscalYear.value else 0 }

  /** The pair `(ticker, str(fiscal_year))` as one text. */
  function IssuerYear(r: Record): string {
    Decimal(Year(r)) + "/" + r.ticker
  }

  function Converted(keys: seq<string>, dated: seq<Record>): seq<Period> {
    if keys == [] then []
    else Periods(SortBy(Filter(dated, HasKey(IssuerYear, keys[0])), PeriodLe)) + Converted(keys[1..], dated)
  }

  function StandalonePeriods(records: seq<Record>): seq<Period> {
    var dated := Filter(records, Dated);
    SortBy(Converted(FirstKeys(dated, IssuerYear), dated), OutputLe)
  }

  lemma RowsGrow(rows: seq<Record>, i: nat, field: Record -> Fact)
    requires i < |rows|
    ensures LastYtd(Map(field, rows[..i + 1])) == Remember(field(rows[i]), LastYtd(Map(field, rows[..i])))
  {
    var all := Map(field, rows[..i + 1]);
    assert all[..|all| - 1] == Map(field, rows[..i]);
  }

  /** The rows of one issuer-year, with `previous_ytd` carried along for each field. */
  method ConvertYear(rows: seq<Record>) returns (output: seq<Period>)
    ensures output == Periods(rows)
  {
    output := [];
    var previousCashFlow: Option<real>, previousCapex: Option<real> := None, None;
    for i := 0 to |rows|
      invariant |output| == i && forall k | 0 <= k < i :: output[k] == PeriodAt(rows, k)
      invariant previousCashFlow == LastYtd(Map(CashFlowOf, rows[..i]))
      invariant previousCapex == LastYtd(Map(CapexOf, rows[..i]))
    {
      var row := rows[i];
      RowsGrow(rows, i, CashFlowOf);
      RowsGrow(rows, i, CapexOf);
      var cashFlow := Standalone(row.cashFlow, previousCashFlow);
      previousCashFlow := Remember(row.cashFlow, previousCashFlow);
      var capex := Standalone(row.capex, previousCapex);
      previousCapex := Remember(row.capex, previousCapex);
      output := output + [Period(row, cashFlow, capex, Difference(cashFlow, capex))];
    }
  }

  lemma {:induction false} ConvertedConcat(a: seq<string>, b: seq<string>, dated: seq<Record>)
    ensures Converted(a + b, dated) == Converted(a, dated) + Converted(b, dated)
  {
    if a == [] {
      assert a + b == b;
    } else {
      assert (a + b)[1..] == a[1..] + b;
      ConvertedConcat(a[1..], b, dated);
    }
  }

  lemma ConvertedSnoc(keys: seq<string>, i: nat, dated: seq<Record>)
    requires i < |keys|
    ensures Converted(keys[..i + 1], dated)
      == Converted(keys[..i], dated) + Periods(SortBy(Filter(dated, HasKey(IssuerYear, keys[i])), PeriodLe))
  {
    assert keys[..i + 1] == keys[..i] + [keys[i]] && [keys[i]][1..] == [];
    ConvertedConcat(keys[..i], [keys[i]], dated);
  }

  method BuildPeriods(records: seq<Record>) returns (output: seq<Period>)
    ensures output == StandalonePeriods(records)
  {
    var dated := Filter(records, Dated);
    var keys, groups := GroupBy(dated, IssuerYear);
    output := [];
    for i := 0 to |keys|
      invariant output == Converted(keys[..i], dated)
    {
      ConvertedSnoc(keys, i, dated);
      assert GroupAt(groups, keys[i]) == groups[keys[i]];
      var year := ConvertYear(SortBy(groups[keys[i]], PeriodLe));
      output := output + year;
    }
    assert keys[..|keys|] == keys;
    output := SortBy(output, OutputLe);
  }

  // ----- every dated record once

  function RecordOf(p: Period): Record { p.record }

  lemma PeriodsKeepRecords(rows: seq<Record>)
    ensures Map(RecordOf, Periods(rows)) == rows
  {
  }

  lemma {:induction false} ConvertedKeepsRecords(keys: seq<string>, dated: seq<Record>)
    ensures multiset(Map(RecordOf, Converted(keys, dated))) == multiset(Grouped(keys, dated, IssuerYear))
  {
    if keys != [] {
      var group := Filter(dated, HasKey(IssuerYear, keys[0]));
      var rows := SortBy(group, PeriodLe);
      ConvertedKeepsRecords(keys[1..], dated);
      PeriodsKeepRecords(rows);
      SortPermutes(group, PeriodLe);
      MapConcat(RecordOf, Periods(rows), Converted(keys[1..], dated));
    }
  }

  /** Every record with a fiscal year appears exactly once, and no other. */
  lemma EachRecordOnce(records: seq<Record>)
    ensures multiset(Map(RecordOf, StandalonePeriods(records))) == multiset(Filter(records, Dated))
  {
    var dated := Filter(records, Dated);
    var keys := FirstKeys(dated, IssuerYear);
    FirstKeysCover(dated, IssuerYear);
    forall x | x in dated ensures IssuerYear(x) in keys {
      var i :| 0 <= i < |dated| && dated[i] == x;
      assert IssuerYear(dated[i]) == IssuerYear(x);
    }
    GroupedPermutes(keys, dated, IssuerYear);
    ConvertedKeepsRecords(keys, dated);
    SortPermutes(Converted(keys, dated), OutputLe);
    MapPermutes(RecordOf, Converted(keys, dated), StandalonePeriods(records));
  }

  lemma {:induction false} NoSlash(n: nat)
    ensures forall i | 0 <= i < |Decimal(n)| :: Decimal(n)[i] != '/'
  {
    if n >= 10 {
      NoSlash(n / 10);
    }
  }

  lemma NotInside(s: string, n: nat, front: string)
    requires n < |s| && s[n] == '/' && front <= s
    requires forall i | 0 <= i < |front| :: front[i] != '/'
    ensures |front| <= n
  {
  }

  lemma SplitAtSlash(a: string, x: string, b: string, y: string)
    requires a + "/" + x == b + "/" + y
    requires forall i | 0 <= i < |a| :: a[i] != '/'
    requires forall i | 0 <= i < |b| :: b[i] != '/'
    ensures a == b && x == y
  {
    var s := a + "/" + x;
    NotInside(s, |a|, b);
    NotInside(s, |b|, a);
    assert s[..|a|] == a && s[..|b|] == b;
    assert s[|a| + 1..] == x && s[|b| + 1..] == y;
  }

  /** The text separates the same records as the pair. */
  lemma IssuerYearInjective(a: Record, b: Record)
    requires IssuerYear(a) == IssuerYear(b)
    ensures a.ticker == b.ticker && Year(a) == Year(b)
  {
    NoSlash(Year(a));
    NoSlash(Year(b));
    SplitAtSlash(Decimal(Year(a)), a.ticker, Decimal(Year(b)), b.ticker);
    DecimalRoundTrip(Year(a));
    DecimalRoundTrip(Year(b));
  }

  // ----- telescoping

  /** The standalone value of fact `i`, given all facts of the year before it. */
  function StandaloneAt(facts: seq<Fact>, i: nat): Option<real>
    requires i < |facts|
  {
    Standalone(facts[i], LastYtd(facts[..i]))
  }

  function OrZero(v: Option<real>): real {
    if v.Some? then v.value else 0.0
  }

  /** The known standalone values of facts `start` to `end - 1`, added up. */
  function SumStandalone(facts: seq<Fact>, start: nat, end: nat): real
    requires start <= end <= |facts|
    decreases end
  {
    if start == end then 0.0 else SumStandalone(facts, start, end - 1) + OrZero(StandaloneAt(facts, end - 1))
  }

  /** Facts that continue a year: unknown, or year-to-date over two or three quarters. */
  predicate Continues(f: Fact) {
    f.value == None || f.quarters == 2 || f.quarters == 3
  }

  lemma LastYtdSnoc(facts: seq<Fact>, i: nat)
    requires i < |facts|
    ensures LastYtd(facts[..i + 1]) == Remember(facts[i], LastYtd(facts[..i]))
  {
    assert facts[..i + 1][..i] == facts[..i];
  }

  /** After a known year-to-date value, the standalone values of any stretch add up to what the year-to-date
      value grew by, whatever is unknown in between. */
  lemma {:induction false} Telescopes(facts: seq<Fact>, start: nat, end: nat)
    requires start < end <= |facts| && YearToDate(facts[start])
    requires forall k | start < k < end :: Continues(facts[k])
    ensures LastYtd(facts[..end]).Some?
    ensures SumStandalone(facts, start + 1, end) == LastYtd(facts[..end]).value - facts[start].value.value
    decreases end
  {
    LastYtdSnoc(facts, end - 1);
    if end > start + 1 {
      Telescopes(facts, start, end - 1);
    }
  }

  /** With the first quarter present the sum is the year-to-date value itself. */
  lemma SumsToYearToDate(facts: seq<Fact>, start: nat, end: nat)
    requires start < end <= |facts| && YearToDate(facts[start]) && facts[start].quarters == 1
    requires forall k | start < k < end :: Continues(facts[k])
    ensures LastYtd(facts[..end]).Some? && SumStandalone(facts, start, end) == LastYtd(facts[..end]).value
  {
    Telescopes(facts, start, end);
    SumSplits(facts, start, end);
  }

  lemma {:induction false} SumSplits(facts: seq<Fact>, start: nat, end: nat)
    requires start < end <= |facts|
    ensures SumStandalone(facts, start, end) == OrZero(StandaloneAt(facts, start)) + SumStandalone(facts, start + 1, end)
    decreases end
  {
    if end > start + 1 {
      SumSplits(facts, start, end - 1);
    }
  }

  // ----- which quarters a standalone value covers

  /** The cash flow of the first `n` quarters, given each quarter's. */
  function Flow(quarter: int -> real, n: int): real {
    if n <= 0 then 0.0 else Flow(quarter, n - 1) + quarter(n)
  }

  /** Every year-to-date fact reports its quarters' true flow. */
  predicate Truthful(facts: seq<Fact>, quarter: int -> real) {
    forall i | 0 <= i < |facts| && YearToDate(facts[i]) :: facts[i].value.value == Flow(quarter, facts[i].quarters)
  }

  /** The quarters covered by the last year-to-date fact; 0 when there is none. */
  function LastQuarters(facts: seq<Fact>): int {
    if facts == [] then 0
    else if YearToDate(facts[|facts| - 1]) then facts[|facts| - 1].quarters
    else LastQuarters(facts[..|facts| - 1])
  }

  lemma {:induction false} LastIsTrue(facts: seq<Fact>, quarter: int -> real)
    requires Truthful(facts, quarter)
    ensures 0 <= LastQuarters(facts) <= 3
    ensures LastYtd(facts).Some? <==> LastQuarters(facts) > 0
    ensures LastYtd(facts).Some? ==> LastYtd(facts).value == Flow(quarter, LastQuarters(facts))
  {
    if facts != [] {
      assert Truthful(facts[..|facts| - 1], quarter);
      LastIsTrue(facts[..|facts| - 1], quarter);
    }
  }

  /** A standalone value is the flow since the last year-to-date fact, however many quarters that is. */
  lemma CoversSinceLast(facts: seq<Fact>, quarter: int -> real, i: nat)
    requires Truthful(facts, quarter) && i < |facts| && YearToDate(facts[i])
    requires facts[i].quarters == 1 ==> LastQuarters(facts[..i]) == 0
    ensures var before := LastQuarters(facts[..i]);
      && 0 <= before <= 3
      && (StandaloneAt(facts, i).Some? <==> facts[i].quarters == 1 || before > 0)
      && (StandaloneAt(facts, i).Some? ==>
            StandaloneAt(facts, i).value == Flow(quarter, facts[i].quarters) - Flow(quarter, before))
  {
    assert Truthful(facts[..i], quarter);
    LastIsTrue(facts[..i], quarter);
  }

  // ----- when that is a single quarter

  /** Later year-to-date facts of the year cover more quarters. */
  ghost predicate Increasing(facts: seq<Fact>) {
    forall j, k | 0 <= j < k < |facts| && YearToDate(facts[j]) && YearToDate(facts[k]) :: facts[j].quarters < facts[k].quarters
  }

  predicate NoGap(facts: seq<Fact>, i: nat)
    requires i < |facts|
  {
    LastQuarters(facts[..i]) + 1 == facts[i].quarters
  }

  ghost predicate Covered(facts: seq<Fact>, n: int) {
    exists j :: 0 <= j < |facts| && YearToDate(facts[j]) && facts[j].quarters == n
  }

  /** The flow of `n` quarters in a course that reports the facts; what no fact pins is `fill`. */
  ghost function Reached(facts: seq<Fact>, n: int, fill: real): real {
    if n <= 0 then 0.0
    else if Covered(facts, n) then
      var j :| 0 <= j < |facts| && YearToDate(facts[j]) && facts[j].quarters == n;
      facts[j].value.value
    else fill
  }

  ghost function Course(facts: seq<Fact>, fill: real): int -> real {
    (n: int) => Reached(facts, n, fill) - Reached(facts, n - 1, fill)
  }

  lemma {:induction false} CourseFlow(facts: seq<Fact>, fill: real, n: nat)
    ensures Flow(Course(facts, fill), n) == Reached(facts, n, fill)
  {
    if n > 0 {
      CourseFlow(facts, fill, n - 1);
    }
  }

  lemma CourseTruthful(facts: seq<Fact>, fill: real)
    requires Increasing(facts)
    ensures Truthful(facts, Course(facts, fill))
  {
    forall i | 0 <= i < |facts| && YearToDate(facts[i])
      ensures facts[i].value.value == Flow(Course(facts, fill), facts[i].quarters)
    {
      CourseFlow(facts, fill, facts[i].quarters);
      assert Covered(facts, facts[i].quarters);
      var j :| 0 <= j < |facts| && YearToDate(facts[j]) && facts[j].quarters == facts[i].quarters
        && Reached(facts, facts[i].quarters, fill) == facts[j].value.value;
      assert j == i;
    }
  }

  lemma {:induction false} LastAt(facts: seq<Fact>) returns (j: nat)
    requires LastQuarters(facts) > 0
    ensures j < |facts| && YearToDate(facts[j]) && facts[j].quarters == LastQuarters(facts)
    ensures forall k | j < k < |facts| :: !YearToDate(facts[k])
  {
    j := |facts| - 1;
    if !YearToDate(facts[j]) {
      j := LastAt(facts[..j]);
    }
  }

  /** Before a known fact of an increasing year fewer quarters were covered, and none in between later. */
  lemma LastIsLess(facts: seq<Fact>, i: nat, n: int)
    requires Increasing(facts) && i < |facts| && YearToDate(facts[i])
    ensures 0 <= LastQuarters(facts[..i]) < facts[i].quarters
    ensures 0 < LastQuarters(facts[..i]) < n < facts[i].quarters ==> !Covered(facts, n)
  {
    CourseTruthful(facts, 0.0);
    assert Truthful(facts[..i], Course(facts, 0.0));
    LastIsTrue(facts[..i], Course(facts, 0.0));
    if LastQuarters(facts[..i]) > 0 {
      var j := LastAt(facts[..i]);
      assert facts[..i][j] == facts[j];
      forall k | 0 <= k < |facts| && YearToDate(facts[k])
        ensures facts[k].quarters <= LastQuarters(facts[..i]) || facts[k].quarters >= facts[i].quarters
      {
        if k < i {
          assert facts[..i][k] == facts[k] && k <= j;
        }
      }
    }
  }

  /** Over a gap, the last quarter's own flow can be anything. */
  lemma GapIsFree(facts: seq<Fact>, i: nat, fill: real)
    requires Increasing(facts) && i < |facts| && YearToDate(facts[i])
    requires LastQuarters(facts[..i]) > 0 && !NoGap(facts, i)
    ensures Truthful(facts, Course(facts, fill))
    ensures Course(facts, fill)(facts[i].quarters) == facts[i].value.value - fill
  {
    var now := facts[i].quarters;
    CourseTruthful(facts, fill);
    CourseFlow(facts, fill, now);
    LastIsLess(facts, i, now - 1);
  }

  lemma SingleQuarter(facts: seq<Fact>, quarter: int -> real, i: nat)
    requires Increasing(facts) && i < |facts| && YearToDate(facts[i]) && NoGap(facts, i) && Truthful(facts, quarter)
    ensures StandaloneAt(facts, i) == Some(quarter(facts[i].quarters))
  {
    CoversSinceLast(facts, quarter, i);
  }

  lemma NothingBefore(facts: seq<Fact>, i: nat)
    requires Increasing(facts) && i < |facts| && YearToDate(facts[i]) && !NoGap(facts, i)
    ensures StandaloneAt(facts, i).Some? <==> LastQuarters(facts[..i]) > 0
  {
    CourseTruthful(facts, 0.0);
    LastIsLess(facts, i, 0);
    CoversSinceLast(facts, Course(facts, 0.0), i);
  }

  /** A standalone value is the last quarter's own flow, in every course of the year that the facts are true of,
      exactly when no quarter was skipped since the last year-to-date fact. */
  lemma SingleQuarterIffNoGap(facts: seq<Fact>, i: nat)
    requires Increasing(facts) && i < |facts| && YearToDate(facts[i])
    ensures (forall quarter: int -> real | Truthful(facts, quarter) :: StandaloneAt(facts, i) == Some(quarter(facts[i].quarters)))
      <==> NoGap(facts, i)
  {
    if NoGap(facts, i) {
      forall quarter: int -> real | Truthful(facts, quarter) ensures StandaloneAt(facts, i) == Some(quarter(facts[i].quarters)) {
        SingleQuarter(facts, quarter, i);
      }
    } else {
      NothingBefore(facts, i);
      CourseTruthful(facts, 0.0);
      if LastQuarters(facts[..i]) > 0 {
        var fill := facts[i].value.value - StandaloneAt(facts, i).value + 1.0;
        GapIsFree(facts, i, fill);
        assert StandaloneAt(facts, i) != Some(Course(facts, fill)(facts[i].quarters));
      }
    }
  }

  // ----- the free cash flow

  /** In every course of the year the free cash flow of row `i` is the last quarter's own, field by field. */
  ghost predicate SingleQuarterNet(rows: seq<Record>, i: nat)
    requires i < |rows|
  {
    forall flow: int -> real, spend: int -> real
      | Truthful(Map(CashFlowOf, rows), flow) && Truthful(Map(CapexOf, rows), spend)
      :: PeriodAt(rows, i).freeCashFlow == Some(flow(rows[i].cashFlow.quarters) - spend(rows[i].capex.quarters))
  }

  lemma FieldAt(rows: seq<Record>, i: nat, field: Record -> Fact)
    requires i < |rows|
    ensures Map(field, rows)[i] == field(rows[i]) && Map(field, rows)[..i] == Map(field, rows[..i])
    ensures StandaloneAt(Map(field, rows), i) == Standalone(field(rows[i]), LastYtd(Map(field, rows[..i])))
  {
  }

  lemma NetAt(rows: seq<Record>, i: nat)
    requires i < |rows|
    ensures PeriodAt(rows, i).freeCashFlow
      == Difference(StandaloneAt(Map(CashFlowOf, rows), i), StandaloneAt(Map(CapexOf, rows), i))
    ensures Map(CashFlowOf, rows)[i] == rows[i].cashFlow && Map(CapexOf, rows)[i] == rows[i].capex
  {
    FieldAt(rows, i, CashFlowOf);
    FieldAt(rows, i, CapexOf);
  }

  /** Over a gap, some course misses a given value, unless there is no standalone value at all. */
  lemma GapMisses(facts: seq<Fact>, i: nat, wrong: real) returns (quarter: int -> real)
    requires Increasing(facts) && i < |facts| && YearToDate(facts[i]) && !NoGap(facts, i)
    ensures Truthful(facts, quarter) && (StandaloneAt(facts, i).Some? ==> quarter(facts[i].quarters) != wrong)
  {
    NothingBefore(facts, i);
    var fill := facts[i].value.value - wrong + 1.0;
    CourseTruthful(facts, fill);
    quarter := Course(facts, fill);
    if LastQuarters(facts[..i]) > 0 {
      GapIsFree(facts, i, fill);
    }
  }

  lemma CashFlowGap(rows: seq<Record>, i: nat)
    requires i < |rows| && YearToDate(rows[i].cashFlow)
    requires Increasing(Map(CashFlowOf, rows)) && Increasing(Map(CapexOf, rows)) && !NoGap(Map(CashFlowOf, rows), i)
    ensures !SingleQuarterNet(rows, i)
  {
    NetAt(rows, i);
    var net := PeriodAt(rows, i).freeCashFlow;
    var spend := Course(Map(CapexOf, rows), 0.0);
    CourseTruthful(Map(CapexOf, rows), 0.0);
    var spent := spend(rows[i].capex.quarters);
    var flow := GapMisses(Map(CashFlowOf, rows), i, OrZero(net) + spent);
    var flowed := flow(rows[i].cashFlow.quarters);
    assert net != Some(flowed - spent);
  }

  lemma CapexGap(rows: seq<Record>, i: nat)
    requires i < |rows| && YearToDate(rows[i].capex)
    requires Increasing(Map(CashFlowOf, rows)) && Increasing(Map(CapexOf, rows)) && !NoGap(Map(CapexOf, rows), i)
    ensures !SingleQuarterNet(rows, i)
  {
    NetAt(rows, i);
    var net := PeriodAt(rows, i).freeCashFlow;
    var flow := Course(Map(CashFlowOf, rows), 0.0);
    CourseTruthful(Map(CashFlowOf, rows), 0.0);
    var flowed := flow(rows[i].cashFlow.quarters);
    var spend := GapMisses(Map(CapexOf, rows), i, flowed - OrZero(net));
    var spent := spend(rows[i].capex.quarters);
    assert net != Some(flowed - spent);
  }

  lemma NoGapsNet(rows: seq<Record>, i: nat)
    requires i < |rows| && YearToDate(rows[i].cashFlow) && YearToDate(rows[i].capex)
    requires Increasing(Map(CashFlowOf, rows)) && Increasing(Map(CapexOf, rows))
    requires NoGap(Map(CashFlowOf, rows), i) && NoGap(Map(CapexOf, rows), i)
    ensures SingleQuarterNet(rows, i)
  {
    NetAt(rows, i);
    forall flow: int -> real, spend: int -> real
      | Truthful(Map(CashFlowOf, rows), flow) && Truthful(Map(CapexOf, rows), spend)
      ensures PeriodAt(rows, i).freeCashFlow == Some(flow(rows[i].cashFlow.quarters) - spend(rows[i].capex.quarters))
    {
      SingleQuarter(Map(CashFlowOf, rows), flow, i);
      SingleQuarter(Map(CapexOf, rows), spend, i);
    }
  }

  /** The reported free cash flow is one quarter's, in every course of the year, exactly when neither field skipped one. */
  lemma FreeCashFlowIffNoGaps(rows: seq<Record>, i: nat)
    requires i < |rows| && YearToDate(rows[i].cashFlow) && YearToDate(rows[i].capex)
    requires Increasing(Map(CashFlowOf, rows)) && Increasing(Map(CapexOf, rows))
    ensures SingleQuarterNet(rows, i) <==> NoGap(Map(CashFlowOf, rows), i) && NoGap(Map(CapexOf, rows), i)
  {
    if !NoGap(Map(CashFlowOf, rows), i) {
      CashFlowGap(rows, i);
    } else if !NoGap(Map(CapexOf, rows), i) {
      CapexGap(rows, i);
    } else {
      NoGapsNet(rows, i);
    }
  }

  // ----- one span for both fields

  /** A year of the same reports with other amounts. */
  predicate SameShape(a: Fact, b: Fact) {
    a.quarters == b.quarters && (a.value.Some? <==> b.value.Some?)
  }

  /** The rows report these courses of cash flow and capital expenditure. */
  ghost predicate Reports(rows: seq<Record>, flow: int -> real, spend: int -> real) {
    Truthful(Map(CashFlowOf, rows), flow) && Truthful(Map(CapexOf, rows), spend)
  }

  ghost predicate SameReports(rows: seq<Record>, others: seq<Record>) {
    && |rows| == |others|
    && forall k | 0 <= k < |rows| :: SameShape(rows[k].cashFlow, others[k].cashFlow) && SameShape(rows[k].capex, others[k].capex)
  }

  function Net(flow: int -> real, spend: int -> real, n: int): real {
    Flow(flow, n) - Flow(spend, n)
  }

  /** Whatever the amounts, the free cash flow of row `i` is the net flow from quarter `start` to quarter `now`. */
  ghost predicate NetSince(rows: seq<Record>, i: nat, start: nat, now: int)
    requires i < |rows|
  {
    forall others: seq<Record>, flow: int -> real, spend: int -> real
      | SameReports(rows, others) && Reports(others, flow, spend)
      :: PeriodAt(others, i).freeCashFlow == Some(Net(flow, spend, now) - Net(flow, spend, start))
  }

  function Report(f: Fact, quarter: int -> real): Fact {
    Fact(if f.value.None? then None else Some(Flow(quarter, f.quarters)), f.quarters)
  }

  function ReportRow(r: Record, flow: int -> real, spend: int -> real): Record {
    r.(cashFlow := Report(r.cashFlow, flow), capex := Report(r.capex, spend))
  }

  function ReportRows(rows: seq<Record>, flow: int -> real, spend: int -> real): (r: seq<Record>)
    ensures |r| == |rows|
  {
    seq(|rows|, k requires 0 <= k < |rows| => ReportRow(rows[k], flow, spend))
  }

  lemma ReportedRows(rows: seq<Record>, flow: int -> real, spend: int -> real)
    ensures SameReports(rows, ReportRows(rows, flow, spend)) && Reports(ReportRows(rows, flow, spend), flow, spend)
  {
  }

  lemma {:induction false} ShapeFixesLast(a: seq<Fact>, b: seq<Fact>)
    requires |a| == |b| && forall k | 0 <= k < |a| :: SameShape(a[k], b[k])
    ensures LastQuarters(a) == LastQuarters(b)
  {
    if a != [] {
      ShapeFixesLast(a[..|a| - 1], b[..|b| - 1]);
    }
  }

  /** What the free cash flow is in a course, from where each field was last reported. */
  lemma NetOf(rows: seq<Record>, others: seq<Record>, flow: int -> real, spend: int -> real, i: nat)
    requires SameReports(rows, others) && Reports(others, flow, spend)
    requires i < |rows| && YearToDate(rows[i].cashFlow) && YearToDate(rows[i].capex)
    requires rows[i].cashFlow.quarters == rows[i].capex.quarters
    requires LastQuarters(Map(CashFlowOf, rows)[..i]) > 0 && LastQuarters(Map(CapexOf, rows)[..i]) > 0
    requires rows[i].cashFlow.quarters > 1
    ensures PeriodAt(others, i).freeCashFlow == Some(Net(flow, spend, rows[i].cashFlow.quarters)
      - (Flow(flow, LastQuarters(Map(CashFlowOf, rows)[..i])) - Flow(spend, LastQuarters(Map(CapexOf, rows)[..i]))))
  {
    NetAt(others, i);
    SameFacts(rows, others);
    FieldSinceLast(Map(CashFlowOf, rows), Map(CashFlowOf, others), flow, i);
    FieldSinceLast(Map(CapexOf, rows), Map(CapexOf, others), spend, i);
  }

  ghost predicate AllSameShape(facts: seq<Fact>, others: seq<Fact>) {
    |facts| == |others| && forall k | 0 <= k < |facts| :: SameShape(facts[k], others[k])
  }

  lemma SameFacts(rows: seq<Record>, others: seq<Record>)
    requires SameReports(rows, others)
    ensures AllSameShape(Map(CashFlowOf, rows), Map(CashFlowOf, others))
    ensures AllSameShape(Map(CapexOf, rows), Map(CapexOf, others))
  {
  }

  lemma FieldSinceLast(facts: seq<Fact>, others: seq<Fact>, quarter: int -> real, i: nat)
    requires AllSameShape(facts, others)
    requires Truthful(others, quarter) && i < |facts| && YearToDate(facts[i]) && facts[i].quarters > 1
    requires LastQuarters(facts[..i]) > 0
    ensures StandaloneAt(others, i) == Some(Flow(quarter, facts[i].quarters) - Flow(quarter, LastQuarters(facts[..i])))
  {
    ShapeFixesLast(facts[..i], others[..i]);
    CoversSinceLast(others, quarter, i);
  }

  function Even(): int -> real { (q: int) => 1.0 }

  function Idle(): int -> real { (q: int) => 0.0 }

  lemma {:induction false} FlowOfEven(n: nat)
    ensures Flow(Even(), n) == n as real && Flow(Idle(), n) == 0.0
  {
    if n > 0 {
      FlowOfEven(n - 1);
    }
  }

  /** Whatever the amounts, the two fields of a free cash flow cover one common span exactly when both were last
      reported at the same quarter. */
  lemma CommonSpanIffSameStart(rows: seq<Record>, i: nat)
    requires i < |rows| && YearToDate(rows[i].cashFlow) && YearToDate(rows[i].capex)
    requires rows[i].cashFlow.quarters == rows[i].capex.quarters && rows[i].cashFlow.quarters > 1
    requires LastQuarters(Map(CashFlowOf, rows)[..i]) > 0 && LastQuarters(Map(CapexOf, rows)[..i]) > 0
    ensures (exists start: nat :: NetSince(rows, i, start, rows[i].cashFlow.quarters))
      <==> LastQuarters(Map(CashFlowOf, rows)[..i]) == LastQuarters(Map(CapexOf, rows)[..i])
  {
    var flows, spends := LastQuarters(Map(CashFlowOf, rows)[..i]), LastQuarters(Map(CapexOf, rows)[..i]);
    var now := rows[i].cashFlow.quarters;
    if flows == spends {
      forall others: seq<Record>, flow: int -> real, spend: int -> real
        | SameReports(rows, others) && Reports(others, flow, spend)
        ensures PeriodAt(others, i).freeCashFlow == Some(Net(flow, spend, now) - Net(flow, spend, flows))
      {
        NetOf(rows, others, flow, spend, i);
      }
      assert NetSince(rows, i, flows, now);
    } else if exists start: nat :: NetSince(rows, i, start, now) {
      var start: nat :| NetSince(rows, i, start, now);
      StartOfCourse(rows, i, start, Even(), Idle());
      StartOfCourse(rows, i, start, Idle(), Even());
      FlowOfEven(start);
      FlowOfEven(flows);
      FlowOfEven(spends);
      assert false;
    }
  }

  lemma StartOfCourse(rows: seq<Record>, i: nat, start: nat, flow: int -> real, spend: int -> real)
    requires i < |rows| && YearToDate(rows[i].cashFlow) && YearToDate(rows[i].capex)
    requires rows[i].cashFlow.quarters == rows[i].capex.quarters && rows[i].cashFlow.quarters > 1
    requires LastQuarters(Map(CashFlowOf, rows)[..i]) > 0 && LastQuarters(Map(CapexOf, rows)[..i]) > 0
    requires NetSince(rows, i, start, rows[i].cashFlow.quarters)
    ensures Net(flow, spend, start)
      == Flow(flow, LastQuarters(Map(CashFlowOf, rows)[..i])) - Flow(spend, LastQuarters(Map(CapexOf, rows)[..i]))
  {
    ReportedRows(rows, flow, spend);
    NetOf(rows, ReportRows(rows, flow, spend), flow, spend, i);
  }

  /** Second-quarter cash flow missing, second-quarter capital expenditure present: the third row subtracts one quarter
      of capital expenditure from two quarters of cash flow. */
  lemma MixedSpan()
    ensures var rows := [
        Record("A", Some(2024), "2024-03-31", Fact(Some(10.0), 1), Fact(Some(1.0), 1)),
        Record("A", Some(2024), "2024-06-30", Fact(None, 0), Fact(Some(2.0), 2)),
        Record("A", Some(2024), "2024-09-30", Fact(Some(30.0), 3), Fact(Some(3.0), 3))];
      && PeriodAt(rows, 2).freeCashFlow == Some(19.0)
      && Reports(rows, q => 10.0, Even())
  {
    var rows := [
      Record("A", Some(2024), "2024-03-31", Fact(Some(10.0), 1), Fact(Some(1.0), 1)),
      Record("A", Some(2024), "2024-06-30", Fact(None, 0), Fact(Some(2.0), 2)),
      Record("A", Some(2024), "2024-09-30", Fact(Some(30.0), 3), Fact(Some(3.0), 3))];
    RowsGrow(rows, 0, CashFlowOf);
    RowsGrow(rows, 1, CashFlowOf);
    RowsGrow(rows, 0, CapexOf);
    RowsGrow(rows, 1, CapexOf);
    assert rows[..0] == [] && rows[0].cashFlow == Fact(Some(10.0), 1) && rows[1].capex == Fact(Some(2.0), 2);
    FlowOfEven(3);
    FlowOfEven(2);
    FlowOfEven(1);
  }

  // ----- a period reported twice

  lemma {:induction false} NothingBetween(facts: seq<Fact>, j: nat, i: nat)
    requires j < i <= |facts| && YearToDate(facts[j])
    requires forall k | j < k < i :: !YearToDate(facts[k])
    ensures LastYtd(facts[..i]) == facts[j].value
    decreases i
  {
    LastYtdSnoc(facts, i - 1);
    if i > j + 1 {
      NothingBetween(facts, j, i - 1);
    }
  }

  /** A period reported twice, as an original and its amendment, is not told apart: the second time a first quarter is
      counted again, and a longer period yields 0. */
  lemma RepeatedPeriodYieldsZero(facts: seq<Fact>, j: nat, i: nat)
    requires j < i < |facts| && YearToDate(facts[j]) && facts[i] == facts[j]
    requires forall k | j < k < i :: !YearToDate(facts[k])
    ensures StandaloneAt(facts, i) == if facts[i].quarters == 1 then facts[i].value else Some(0.0)
  {
    NothingBetween(facts, j, i);
  }

  /** The free cash flow of an amended half-year or nine-month filing that repeats both values is 0. */
  lemma RepeatedFilingHasNoFlow(rows: seq<Record>, i: nat)
    requires 0 < i < |rows| && rows[i].cashFlow == rows[i - 1].cashFlow && rows[i].capex == rows[i - 1].capex
    requires YearToDate(rows[i].cashFlow) && YearToDate(rows[i].capex)
    requires rows[i].cashFlow.quarters > 1 && rows[i].capex.quarters > 1
    ensures PeriodAt(rows, i).freeCashFlow == Some(0.0)
  {
    NetAt(rows, i);
    RepeatedPeriodYieldsZero(Map(CashFlowOf, rows), i - 1, i);
    RepeatedPeriodYieldsZero(Map(CapexOf, rows), i - 1, i);
  }
}

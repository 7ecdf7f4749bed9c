/** Running a manifest and rebuilding its predictions from the raw log alone
    (backend/finrisk/e4_agent.py, `run_agent` and `replay_frozen_agent`). */
module AgentReplay {
  import opened Wrappers
  import opened Ordering
  import opened AgentBatches
  import opened AgentExecution
  import opened AgentConservation

  // ----- predictions

  datatype Prediction = Prediction(
    observationId: string,
    companyId: string,
    representation: Representation,
    score: Option<real>,
    decision: Option<nat>,
    coverage: real,
    abstained: bool,
    reasonCodes: seq<string>,
    summary: string,
    inputHash: Digest,
    configHash: string)

  type Key = (Representation, string)

  /** What is known about one case of one representation: its answer, or none if it failed. */
  datatype Entry = Entry(representation: Representation, caseId: string, answer: Option<AgentCase>)

  const BLANK_ROW: Row := Row("", "", "", "", "")

  /** `by_case[case_id]`: of several rows with the id, the last. */
  function Source(rows: seq<Row>, caseId: string): Row {
    if rows == [] then BLANK_ROW
    else if rows[|rows| - 1].companyId == caseId then rows[|rows| - 1]
    else Source(rows[..|rows| - 1], caseId)
  }

  function RoundHalfEven(x: real): int {
    var floor := x.Floor;
    var rest := x - floor as real;
    if rest < 0.5 || (rest == 0.5 && floor % 2 == 0) then floor else floor + 1
  }

  /** `round(x, 10)` */
  function Round10(x: real): real {
    RoundHalfEven(x * 10000000000.0) as real / 10000000000.0
  }

  function Decision(score: real): nat {
    if score >= 0.5 then 1 else 0
  }

  function Abstention(source: Row, companyId: string, e: Entry, config: string): Prediction {
    Prediction(source.observationId, companyId, e.representation, None, None, 0.0, true, ["AGENT_FAILED"], "",
               PacketDigest(PacketOf(source, e.representation)), config)
  }

  /** The prediction the run writes: the decision is taken on the unrounded score. */
  function RunPrediction(rows: seq<Row>, config: string, e: Entry): Prediction {
    var source := Source(rows, e.caseId);
    match e.answer
    case None => Abstention(source, source.companyId, e, config)
    case Some(c) =>
      Prediction(source.observationId, source.companyId, e.representation, Some(Round10(c.riskScore)),
                 Some(Decision(c.riskScore)), 1.0, false, c.reasonCodes, c.summary,
                 PacketDigest(PacketOf(source, e.representation)), config)
  }

  /** The prediction the replay writes: the decision is taken on the rounded score. */
  function ReplayPrediction(rows: seq<Row>, config: string, e: Entry): Prediction {
    var source := Source(rows, e.caseId);
    match e.answer
    case None => Abstention(source, e.caseId, e, config)
    case Some(c) =>
      var score := Round10(c.riskScore);
      Prediction(source.observationId, e.caseId, e.representation, Some(score), Some(Decision(score)), 1.0, false,
                 c.reasonCodes, c.summary, PacketDigest(PacketOf(source, e.representation)), config)
  }

  function Runner(rows: seq<Row>, config: string): Entry -> Prediction {
    e => RunPrediction(rows, config, e)
  }

  function Replayer(rows: seq<Row>, config: string): Entry -> Prediction {
    e => ReplayPrediction(rows, config, e)
  }

  predicate PredictionLe(a: Prediction, b: Prediction) {
    if a.observationId == b.observationId then StringLe(Name(a.representation), Name(b.representation))
    else StringLe(a.observationId, b.observationId)
  }

  // ----- the run

  datatype RunEntry = RunEntry(batchId: string, records: seq<Record>)

  datatype FailureEntry = FailureEntry(caseId: string, error: string, batchId: string, representation: Representation)

  datatype RawLog = RawLog(runs: seq<RunEntry>, failures: seq<FailureEntry>, predictionCount: nat)

  datatype Results = AllDone(results: seq<BatchResult>) | Stopped(error: RunError)

  datatype AgentRun = Completed(predictions: seq<Prediction>, raw: RawLog) | Interrupted(error: RunError)

  /** A batch as `make_batches` builds it. */
  predicate Consistent(batch: Batch) {
    batch.packets != [] && batch.caseIds == CaseIds(batch.packets)
  }

  /** The batches in turn, threading the number of the next transport call. */
  function ExecuteAll(batches: seq<Batch>, transport: Transport, k: nat): (r: Results)
    requires forall i | 0 <= i < |batches| :: Consistent(batches[i])
    ensures r.AllDone? ==> |r.results| == |batches|
  {
    if batches == [] then AllDone([])
    else
      assert Consistent(batches[0]);
      match Execute(batches[0].representation, batches[0].packets, transport, k)
      case Raised(error, _) => Stopped(error)
      case Done(result, calls) =>
        match ExecuteAll(batches[1..], transport, calls)
        case Stopped(error) => Stopped(error)
        case AllDone(results) => AllDone([result] + results)
  }

  function Answers(representation: Representation, cases: seq<AgentCase>): (r: seq<Entry>)
    ensures |r| == |cases|
    ensures forall i | 0 <= i < |cases| :: r[i] == Entry(representation, cases[i].caseId, Some(cases[i]))
  {
    seq(|cases|, i requires 0 <= i < |cases| => Entry(representation, cases[i].caseId, Some(cases[i])))
  }

  function Failed(representation: Representation, failures: seq<CaseFailure>): (r: seq<Entry>)
    ensures |r| == |failures|
    ensures forall i | 0 <= i < |failures| :: r[i] == Entry(representation, failures[i].caseId, None)
  {
    seq(|failures|, i requires 0 <= i < |failures| => Entry(representation, failures[i].caseId, None))
  }

  function FailureEntries(batch: Batch, failures: seq<CaseFailure>): seq<FailureEntry> {
    seq(|failures|, i requires 0 <= i < |failures| =>
      FailureEntry(failures[i].caseId, failures[i].error, batch.batchId, batch.representation))
  }

  function LogRuns(batches: seq<Batch>, results: seq<BatchResult>): seq<RunEntry>
    requires |batches| == |results|
  {
    if batches == [] then []
    else [RunEntry(batches[0].batchId, results[0].raw)] + LogRuns(batches[1..], results[1..])
  }

  function LogFailures(batches: seq<Batch>, results: seq<BatchResult>): seq<FailureEntry>
    requires |batches| == |results|
  {
    if batches == [] then []
    else FailureEntries(batches[0], results[0].failures) + LogFailures(batches[1..], results[1..])
  }

  /** Per batch, its answers and then its failures: the order in which the run appends predictions. */
  function RunEntries(batches: seq<Batch>, results: seq<BatchResult>): seq<Entry>
    requires |batches| == |results|
  {
    if batches == [] then []
    else
      Answers(batches[0].representation, results[0].cases) + Failed(batches[0].representation, results[0].failures)
      + RunEntries(batches[1..], results[1..])
  }

  function RunPredictions(rows: seq<Row>, config: string, batches: seq<Batch>, results: seq<BatchResult>): seq<Prediction>
    requires |batches| == |results|
  {
    SortBy(Map(Runner(rows, config), RunEntries(batches, results)), PredictionLe)
  }

  function LogOf(batches: seq<Batch>, results: seq<BatchResult>): RawLog
    requires |batches| == |results|
  {
    RawLog(LogRuns(batches, results), LogFailures(batches, results), |RunEntries(batches, results)|)
  }

  predicate HasRow(rows: seq<Row>, caseId: string) {
    exists i | 0 <= i < |rows| :: rows[i].companyId == caseId
  }

  predicate AllKnown(rows: seq<Row>, ids: seq<string>) {
    forall i | 0 <= i < |ids| :: HasRow(rows, ids[i])
  }

  predicate EveryIdKnown(rows: seq<Row>, batches: seq<Batch>) {
    forall i | 0 <= i < |batches| :: AllKnown(rows, batches[i].caseIds)
  }

  /** The batches that are executed at all: up to the first with a case id that no row has, whose lookup raises. */
  function Served(rows: seq<Row>, batches: seq<Batch>): (s: seq<Batch>)
    ensures s <= batches
    ensures s == [] <==> batches == []
  {
    if batches == [] then []
    else [batches[0]] + if AllKnown(rows, batches[0].caseIds) then Served(rows, batches[1..]) else []
  }

  lemma {:induction false} ServedAll(rows: seq<Row>, batches: seq<Batch>)
    requires EveryIdKnown(rows, batches)
    ensures Served(rows, batches) == batches
  {
    if batches != [] {
      assert AllKnown(rows, batches[0].caseIds);
      assert forall i | 0 <= i < |batches[1..]| :: batches[1..][i] == batches[i + 1];
      ServedAll(rows, batches[1..]);
    }
  }

  /** The outcome of running a manifest; a case id without a row raises once its batch is done. */
  function Ran(rows: seq<Row>, batches: seq<Batch>, config: string, transport: Transport): AgentRun
    requires forall i | 0 <= i < |batches| :: Consistent(batches[i])
  {
    match ExecuteAll(Served(rows, batches), transport, 0)
    case Stopped(error) => Interrupted(error)
    case AllDone(results) =>
      if !EveryIdKnown(rows, batches) then Interrupted(Escaped("KeyError"))
      else
        ServedAll(rows, batches);
        Completed(RunPredictions(rows, config, batches, results), LogOf(batches, results))
  }

  /** Answers and failures of a batch name its own case ids. */
  predicate ResultKnown(rows: seq<Row>, result: BatchResult) {
    && (forall i | 0 <= i < |result.cases| :: HasRow(rows, result.cases[i].caseId))
    && (forall i | 0 <= i < |result.failures| :: HasRow(rows, result.failures[i].caseId))
  }

  lemma KnownPermutes(rows: seq<Row>, a: seq<string>, b: seq<string>)
    requires multiset(a) == multiset(b) && AllKnown(rows, b)
    ensures AllKnown(rows, a)
  {
    SameMembers(a, b);
    forall i | 0 <= i < |a| ensures HasRow(rows, a[i]) {
      assert a[i] in b;
    }
  }

  lemma KnownNames(rows: seq<Row>, result: BatchResult)
    ensures ResultKnown(rows, result) <==> AllKnown(rows, Map(CaseIdOf, result.cases) + Map(FailedIdOf, result.failures))
  {
    var cases, failed := Map(CaseIdOf, result.cases), Map(FailedIdOf, result.failures);
    var names := cases + failed;
    assert forall i | 0 <= i < |result.cases| :: names[i] == result.cases[i].caseId;
    assert forall i | 0 <= i < |result.failures| :: names[|cases| + i] == result.failures[i].caseId;
    if ResultKnown(rows, result) {
      forall i | 0 <= i < |names| ensures HasRow(rows, names[i]) {
        if i < |cases| {
          assert names[i] == result.cases[i].caseId;
        } else {
          assert names[i] == result.failures[i - |cases|].caseId;
        }
      }
    }
  }

  lemma ResultNamesBatch(rows: seq<Row>, batch: Batch, transport: Transport, k: nat)
    requires Consistent(batch) && Execute(batch.representation, batch.packets, transport, k).Done?
    ensures ResultKnown(rows, Execute(batch.representation, batch.packets, transport, k).result)
      <==> AllKnown(rows, batch.caseIds)
  {
    var result := Execute(batch.representation, batch.packets, transport, k).result;
    Conservation(batch.representation, batch.packets, transport, k);
    var names := Map(CaseIdOf, result.cases) + Map(FailedIdOf, result.failures);
    assert multiset(names) == multiset(batch.caseIds);
    KnownNames(rows, result);
    if AllKnown(rows, batch.caseIds) {
      KnownPermutes(rows, names, batch.caseIds);
    } else if AllKnown(rows, names) {
      KnownPermutes(rows, batch.caseIds, names);
    }
  }

  lemma PrefixGrows<T>(s: seq<T>, all: seq<T>, i: nat, tail: seq<T>)
    requires i < |all| && s == all[..i] + ([all[i]] + tail)
    ensures i < |s| && s[i] == all[i] && s == all[..i + 1] + tail
  {
  }

  lemma ServedFrom(rows: seq<Row>, batches: seq<Batch>, i: nat, known: bool)
    requires i < |batches| && known == AllKnown(rows, batches[i].caseIds)
    ensures Served(rows, batches[i..]) == [batches[i]] + if known then Served(rows, batches[i + 1..]) else []
  {
    assert batches[i..][0] == batches[i] && batches[i..][1..] == batches[i + 1..];
  }

  lemma ServedNext(rows: seq<Row>, batches: seq<Batch>, i: nat, known: bool)
    requires i < |batches| && Served(rows, batches) == batches[..i] + Served(rows, batches[i..])
    requires known == AllKnown(rows, batches[i].caseIds)
    ensures i < |Served(rows, batches)| && Served(rows, batches)[i] == batches[i]
    ensures Served(rows, batches) == batches[..i + 1] + if known then Served(rows, batches[i + 1..]) else []
  {
    ServedFrom(rows, batches, i, known);
    PrefixGrows(Served(rows, batches), batches, i, if known then Served(rows, batches[i + 1..]) else []);
  }

  /** The run after `i` batches, `k` transport calls made. */
  ghost predicate Running(rows: seq<Row>, config: string, batches: seq<Batch>, transport: Transport, i: nat, k: nat,
                          results: seq<BatchResult>, predictions: seq<Prediction>, runs: seq<RunEntry>, failures: seq<FailureEntry>)
    requires forall j | 0 <= j < |batches| :: Consistent(batches[j])
  {
    var served := Served(rows, batches);
    && |results| == i <= |served|
    && served == batches[..i] + Served(rows, batches[i..])
    && EveryIdKnown(rows, batches[..i])
    && ExecuteAll(served, transport, 0) == Resumed(results, ExecuteAll(served[i..], transport, k))
    && (ExecuteAll(served, transport, 0).AllDone? ==>
          Logged(rows, config, served, ExecuteAll(served, transport, 0).results, i, predictions, runs, failures))
  }

  lemma RunStarts(rows: seq<Row>, config: string, batches: seq<Batch>, transport: Transport)
    requires forall j | 0 <= j < |batches| :: Consistent(batches[j])
    ensures Running(rows, config, batches, transport, 0, 0, [], [], [], [])
  {
    var served := Served(rows, batches);
    assert batches[..0] == [] && batches[0..] == batches && served[0..] == served;
    var all := ExecuteAll(served, transport, 0);
    if all.AllDone? {
      assert [] + all.results == all.results && all.results[0..] == all.results;
      StartsLogged(rows, config, served, all.results);
    }
  }

  lemma StartsLogged(rows: seq<Row>, config: string, batches: seq<Batch>, results: seq<BatchResult>)
    requires |batches| == |results|
    ensures Logged(rows, config, batches, results, 0, [], [], [])
  {
    assert batches[0..] == batches && results[0..] == results;
  }

  /** The next batch raises, meets an unknown case id, or is added. */
  lemma RunStep(rows: seq<Row>, config: string, batches: seq<Batch>, transport: Transport, i: nat, k: nat,
                results: seq<BatchResult>, predictions: seq<Prediction>, runs: seq<RunEntry>, failures: seq<FailureEntry>, outcome: Run)
    requires forall j | 0 <= j < |batches| :: Consistent(batches[j])
    requires i < |batches| && Running(rows, config, batches, transport, i, k, results, predictions, runs, failures)
    requires outcome == Execute(batches[i].representation, batches[i].packets, transport, k)
    ensures outcome.Raised? ==> Ran(rows, batches, config, transport) == Interrupted(outcome.error)
    ensures outcome.Done? && !ResultKnown(rows, outcome.result) ==>
      Ran(rows, batches, config, transport) == Interrupted(Escaped("KeyError"))
    ensures outcome.Done? && ResultKnown(rows, outcome.result) ==>
      var batch, result := batches[i], outcome.result;
      Running(rows, config, batches, transport, i + 1, outcome.calls, results + [result],
        predictions + Map(Runner(rows, config), Answers(batch.representation, result.cases))
          + Map(Runner(rows, config), Failed(batch.representation, result.failures)),
        runs + [RunEntry(batch.batchId, result.raw)],
        failures + FailureEntries(batch, result.failures))
  {
    var served := Served(rows, batches);
    var known := AllKnown(rows, batches[i].caseIds);
    ServedNext(rows, batches, i, known);
    ResumeStep(served, i, transport, k, results);
    if outcome.Done? {
      ResultNamesBatch(rows, batches[i], transport, k);
      if known {
        StepKeepsRunning(rows, config, batches, transport, i, k, results, predictions, runs, failures, outcome);
      } else {
        assert served[i + 1..] == [];
        assert results + [outcome.result] + [] == results + [outcome.result];
      }
    }
  }

  lemma StepKeepsRunning(rows: seq<Row>, config: string, batches: seq<Batch>, transport: Transport, i: nat, k: nat,
                         results: seq<BatchResult>, predictions: seq<Prediction>, runs: seq<RunEntry>,
                         failures: seq<FailureEntry>, outcome: Run)
    requires forall j | 0 <= j < |batches| :: Consistent(batches[j])
    requires i < |batches| && Running(rows, config, batches, transport, i, k, results, predictions, runs, failures)
    requires outcome == Execute(batches[i].representation, batches[i].packets, transport, k) && outcome.Done?
    requires AllKnown(rows, batches[i].caseIds)
    ensures var batch, result := batches[i], outcome.result;
      Running(rows, config, batches, transport, i + 1, outcome.calls, results + [result],
        predictions + Map(Runner(rows, config), Answers(batch.representation, result.cases))
          + Map(Runner(rows, config), Failed(batch.representation, result.failures)),
        runs + [RunEntry(batch.batchId, result.raw)],
        failures + FailureEntries(batch, result.failures))
  {
    var served := Served(rows, batches);
    ServedNext(rows, batches, i, true);
    ResumeStep(served, i, transport, k, results);
    KnownPrefix(rows, batches, i);
    var all := ExecuteAll(served, transport, 0);
    if all.AllDone? {
      assert all.results[i] == outcome.result;
      LogStep(rows, config, served, all.results, i, predictions, runs, failures);
    }
  }

  lemma KnownPrefix(rows: seq<Row>, batches: seq<Batch>, i: nat)
    requires i < |batches| && EveryIdKnown(rows, batches[..i]) && AllKnown(rows, batches[i].caseIds)
    ensures EveryIdKnown(rows, batches[..i + 1])
  {
    var shorter, longer := batches[..i], batches[..i + 1];
    forall j | 0 <= j < |longer| ensures AllKnown(rows, longer[j].caseIds) {
      if j < i {
        assert shorter[j] == longer[j];
      }
    }
  }

  method RunAgent(rows: seq<Row>, batches: seq<Batch>, config: string, transport: Transport) returns (run: AgentRun)
    requires forall i | 0 <= i < |batches| :: Consistent(batches[i])
    ensures run == Ran(rows, batches, config, transport)
  {
    var predictions: seq<Prediction> := [];
    var runs: seq<RunEntry> := [];
    var failures: seq<FailureEntry> := [];
    var k := 0;
    ghost var results: seq<BatchResult> := [];
    RunStarts(rows, config, batches, transport);
    for i := 0 to |batches|
      invariant Running(rows, config, batches, transport, i, k, results, predictions, runs, failures)
    {
      var batch := batches[i];
      assert Consistent(batch);
      var outcome := ExecuteBatch(batch, transport, k);
      RunStep(rows, config, batches, transport, i, k, results, predictions, runs, failures, outcome);
      if outcome.Raised? {
        return Interrupted(outcome.error);
      }
      var result := outcome.result;
      if !ResultKnown(rows, result) {
        return Interrupted(Escaped("KeyError"));
      }
      runs := runs + [RunEntry(batch.batchId, result.raw)];
      failures := failures + FailureEntries(batch, result.failures);
      predictions := predictions + Map(Runner(rows, config), Answers(batch.representation, result.cases))
        + Map(Runner(rows, config), Failed(batch.representation, result.failures));
      results := results + [result];
      k := outcome.calls;
    }
    RunEnds(rows, config, batches, transport, k, results, predictions, runs, failures);
    run := Completed(SortBy(predictions, PredictionLe), RawLog(runs, failures, |predictions|));
  }

  /** All batches done: the accumulators are the outcome. */
  lemma RunEnds(rows: seq<Row>, config: string, batches: seq<Batch>, transport: Transport, k: nat, results: seq<BatchResult>,
                predictions: seq<Prediction>, runs: seq<RunEntry>, failures: seq<FailureEntry>)
    requires forall i | 0 <= i < |batches| :: Consistent(batches[i])
    requires Running(rows, config, batches, transport, |batches|, k, results, predictions, runs, failures)
    ensures Ran(rows, batches, config, transport)
      == Completed(SortBy(predictions, PredictionLe), RawLog(runs, failures, |predictions|))
  {
    assert batches[..|batches|] == batches;
    ServedAll(rows, batches);
    assert batches[|batches|..] == [] && results[|batches|..] == [];
    assert results + [] == results;
    assert RunEntries([], []) == [] && LogRuns([], []) == [] && LogFailures([], []) == [];
    assert predictions + [] == predictions && runs + [] == runs && failures + [] == failures;
    assert Map(Runner(rows, config), []) == [];
    assert predictions == Map(Runner(rows, config), RunEntries(batches, results));
  }

  /** The results so far, continued by the outcome of the remaining batches. */
  ghost function Resumed(results: seq<BatchResult>, rest: Results): Results {
    match rest
    case Stopped(error) => Stopped(error)
    case AllDone(more) => AllDone(results + more)
  }

  lemma ResumeStep(batches: seq<Batch>, i: nat, transport: Transport, k: nat, results: seq<BatchResult>)
    requires i < |batches| && forall j | 0 <= j < |batches| :: Consistent(batches[j])
    ensures Consistent(batches[i])
    ensures var before := Resumed(results, ExecuteAll(batches[i..], transport, k));
      match Execute(batches[i].representation, batches[i].packets, transport, k)
      case Raised(error, _) => before == Stopped(error)
      case Done(result, calls) => before == Resumed(results + [result], ExecuteAll(batches[i + 1..], transport, calls))
  {
    var rest := batches[i..];
    assert Consistent(batches[i]);
    assert rest[0] == batches[i] && rest[1..] == batches[i + 1..];
    var outcome := Execute(rest[0].representation, rest[0].packets, transport, k);
    if outcome.Done? {
      var more := ExecuteAll(rest[1..], transport, outcome.calls);
      if more.AllDone? {
        assert results + ([outcome.result] + more.results) == results + [outcome.result] + more.results;
      }
    }
  }

  /** After `i` batches the accumulators hold everything but the contribution of the rest. */
  ghost predicate Logged(rows: seq<Row>, config: string, batches: seq<Batch>, results: seq<BatchResult>, i: nat,
                         predictions: seq<Prediction>, runs: seq<RunEntry>, failures: seq<FailureEntry>)
    requires |batches| == |results| && i <= |batches|
  {
    && predictions + Map(Runner(rows, config), RunEntries(batches[i..], results[i..]))
         == Map(Runner(rows, config), RunEntries(batches, results))
    && runs + LogRuns(batches[i..], results[i..]) == LogRuns(batches, results)
    && failures + LogFailures(batches[i..], results[i..]) == LogFailures(batches, results)
  }

  lemma LogStep(rows: seq<Row>, config: string, batches: seq<Batch>, results: seq<BatchResult>, i: nat,
                predictions: seq<Prediction>, runs: seq<RunEntry>, failures: seq<FailureEntry>)
    requires |batches| == |results| && i < |batches|
    requires Logged(rows, config, batches, results, i, predictions, runs, failures)
    ensures var batch, result := batches[i], results[i];
      Logged(rows, config, batches, results, i + 1,
        predictions + Map(Runner(rows, config), Answers(batch.representation, result.cases))
          + Map(Runner(rows, config), Failed(batch.representation, result.failures)),
        runs + [RunEntry(batch.batchId, result.raw)],
        failures + FailureEntries(batch, result.failures))
  {
    var batch, result := batches[i], results[i];
    assert batches[i..][1..] == batches[i + 1..] && results[i..][1..] == results[i + 1..];
    var answers, failed := Answers(batch.representation, result.cases), Failed(batch.representation, result.failures);
    var rest := RunEntries(batches[i + 1..], results[i + 1..]);
    MapConcat(Runner(rows, config), answers + failed, rest);
    MapConcat(Runner(rows, config), answers, failed);
  }
}

/** Rebuilding predictions from the frozen log (backend/finrisk/e4_agent.py, `replay_frozen_agent`). */
module FrozenReplay {
  import opened Wrappers
  import opened Ordering
  import opened AgentBatches
  import opened AgentExecution
  import opened AgentConservation
  import opened AgentReplay

  /** Which check of the replay raised. */
  datatype ReplayError =
    | UnknownBatch
    | UnreadableResponse
    | UnexpectedCaseId
    | RejectedResponse
    | DuplicateCase
    | SuccessfulAndFailed
    | IncompleteCoverage
    | UnknownCase

  type Recovered = Result<seq<Entry>, ReplayError>

  function KeyOf(e: Entry): Key {
    (e.representation, e.caseId)
  }

  function Keys(entries: seq<Entry>): seq<Key> {
    Map(KeyOf, entries)
  }

  /** `key in recovered`, with `recovered` as an insertion-ordered dictionary. */
  predicate Has(recovered: seq<Entry>, key: Key) {
    exists i | 0 <= i < |recovered| :: KeyOf(recovered[i]) == key
  }

  function AddAnswers(representation: Representation, cases: seq<AgentCase>, recovered: seq<Entry>): Recovered {
    if cases == [] then Success(recovered)
    else if Has(recovered, (representation, cases[0].caseId)) then Failure(DuplicateCase)
    else AddAnswers(representation, cases[1..], recovered + [Entry(representation, cases[0].caseId, Some(cases[0]))])
  }

  /** One stored response: its own ids must be non-empty and belong to the batch, and it must parse
      against the ids it lists. */
  function AddResponse(batch: Batch, content: Content, recovered: seq<Entry>): Recovered {
    if !ListsTexts(content) then Failure(UnreadableResponse)
    else
      var ids := ListedIds(content);
      if ids == [] || (exists id | id in ids :: id !in batch.caseIds) then Failure(UnexpectedCaseId)
      else
        match Parse(content, ids)
        case Parsed(cases) => AddAnswers(batch.representation, cases, recovered)
        case _ => Failure(RejectedResponse)
  }

  /** Records without a response are skipped; a schema-failed attempt does store one. */
  function AddRecord(batch: Batch, record: Record, recovered: seq<Entry>): Recovered {
    match record.body
    case Errored(_) => Success(recovered)
    case Accepted(response) => AddResponse(batch, response.content, recovered)
    case SchemaFailed(_, response) => AddResponse(batch, response.content, recovered)
  }

  function AddRecords(batch: Batch, records: seq<Record>, recovered: seq<Entry>): Recovered {
    if records == [] then Success(recovered)
    else
      match AddRecord(batch, records[0], recovered)
      case Failure(error) => Failure(error)
      case Success(more) => AddRecords(batch, records[1..], more)
  }

  /** `batches[batch_id]`: of several batches with the id, the last. */
  function FindBatch(batches: seq<Batch>, batchId: string): Option<Batch> {
    if batches == [] then None
    else if batches[|batches| - 1].batchId == batchId then Some(batches[|batches| - 1])
    else FindBatch(batches[..|batches| - 1], batchId)
  }

  function AddRuns(batches: seq<Batch>, runs: seq<RunEntry>, recovered: seq<Entry>): Recovered {
    if runs == [] then Success(recovered)
    else
      match FindBatch(batches, runs[0].batchId)
      case None => Failure(UnknownBatch)
      case Some(batch) =>
        match AddRecords(batch, runs[0].records, recovered)
        case Failure(error) => Failure(error)
        case Success(more) => AddRuns(batches, runs[1..], more)
  }

  function AddFailures(failures: seq<FailureEntry>, recovered: seq<Entry>): Recovered {
    if failures == [] then Success(recovered)
    else if Has(recovered, (failures[0].representation, failures[0].caseId)) then Failure(SuccessfulAndFailed)
    else AddFailures(failures[1..], recovered + [Entry(failures[0].representation, failures[0].caseId, None)])
  }

  function BatchKeys(batch: Batch): (keys: seq<Key>)
    ensures |keys| == |batch.caseIds|
    ensures forall i | 0 <= i < |keys| :: keys[i] == (batch.representation, batch.caseIds[i])
  {
    seq(|batch.caseIds|, i requires 0 <= i < |batch.caseIds| => (batch.representation, batch.caseIds[i]))
  }

  function ManifestKeys(batches: seq<Batch>): seq<Key> {
    if batches == [] then [] else BatchKeys(batches[0]) + ManifestKeys(batches[1..])
  }

  predicate Covers(recovered: seq<Entry>, batches: seq<Batch>) {
    (set key | key in Keys(recovered)) == (set key | key in ManifestKeys(batches))
  }

  function Recover(batches: seq<Batch>, raw: RawLog): Recovered {
    match AddRuns(batches, raw.runs, [])
    case Failure(error) => Failure(error)
    case Success(answered) =>
      match AddFailures(raw.failures, answered)
      case Failure(error) => Failure(error)
      case Success(recovered) => if Covers(recovered, batches) then Success(recovered) else Failure(IncompleteCoverage)
  }

  function Replay(rows: seq<Row>, batches: seq<Batch>, raw: RawLog, config: string): Result<seq<Prediction>, ReplayError> {
    match Recover(batches, raw)
    case Failure(error) => Failure(error)
    case Success(recovered) =>
      if !EntriesKnown(rows, recovered) then Failure(UnknownCase)
      else Success(SortBy(Map(Replayer(rows, config), recovered), PredictionLe))
  }

  predicate EntriesKnown(rows: seq<Row>, entries: seq<Entry>) {
    forall i | 0 <= i < |entries| :: HasRow(rows, entries[i].caseId)
  }

  /** The nested loops of the replay. */
  method ReplayFrozenAgent(rows: seq<Row>, batches: seq<Batch>, raw: RawLog, config: string)
    returns (r: Result<seq<Prediction>, ReplayError>)
    ensures r == Replay(rows, batches, raw, config)
  {
    var recovered: seq<Entry> := [];
    for i := 0 to |raw.runs|
      invariant AddRuns(batches, raw.runs, []) == AddRuns(batches, raw.runs[i..], recovered)
    {
      var run := raw.runs[i];
      assert raw.runs[i..][0] == run && raw.runs[i..][1..] == raw.runs[i + 1..];
      var found := FindBatch(batches, run.batchId);
      if found.None? {
        return Failure(UnknownBatch);
      }
      var added := ReplayRecords(found.value, run.records, recovered);
      if added.Failure? {
        return Failure(added.error);
      }
      recovered := added.value;
    }
    assert raw.runs[|raw.runs|..] == [];
    ghost var answered := recovered;
    for i := 0 to |raw.failures|
      invariant AddFailures(raw.failures, answered) == AddFailures(raw.failures[i..], recovered)
    {
      var failure := raw.failures[i];
      assert raw.failures[i..][0] == failure && raw.failures[i..][1..] == raw.failures[i + 1..];
      if Has(recovered, (failure.representation, failure.caseId)) {
        return Failure(SuccessfulAndFailed);
      }
      recovered := recovered + [Entry(failure.representation, failure.caseId, None)];
    }
    assert raw.failures[|raw.failures|..] == [];
    if !Covers(recovered, batches) {
      return Failure(IncompleteCoverage);
    }
    var predictions: seq<Prediction> := [];
    for i := 0 to |recovered|
      invariant predictions == Map(Replayer(rows, config), recovered[..i])
      invariant EntriesKnown(rows, recovered[..i])
    {
      if !HasRow(rows, recovered[i].caseId) {
        return Failure(UnknownCase);
      }
      predictions := predictions + [ReplayPrediction(rows, config, recovered[i])];
      assert recovered[..i + 1] == recovered[..i] + [recovered[i]];
    }
    assert recovered[..|recovered|] == recovered;
    r := Success(SortBy(predictions, PredictionLe));
  }

  method ReplayRecords(batch: Batch, records: seq<Record>, before: seq<Entry>) returns (r: Recovered)
    ensures r == AddRecords(batch, records, before)
  {
    var recovered := before;
    for i := 0 to |records|
      invariant AddRecords(batch, records, before) == AddRecords(batch, records[i..], recovered)
    {
      var record := records[i];
      assert records[i..][0] == record && records[i..][1..] == records[i + 1..];
      if record.body.Errored? {
        continue;
      }
      var content := record.body.response.content;
      if !ListsTexts(content) {
        return Failure(UnreadableResponse);
      }
      var ids := ListedIds(content);
      if ids == [] || exists id | id in ids :: id !in batch.caseIds {
        return Failure(UnexpectedCaseId);
      }
      var parsed := Parse(content, ids);
      if !parsed.Parsed? {
        return Failure(RejectedResponse);
      }
      var added := ReplayCases(batch.representation, parsed.cases, recovered);
      if added.Failure? {
        return added;
      }
      recovered := added.value;
    }
    assert records[|records|..] == [];
    r := Success(recovered);
  }

  method ReplayCases(representation: Representation, cases: seq<AgentCase>, before: seq<Entry>) returns (r: Recovered)
    ensures r == AddAnswers(representation, cases, before)
  {
    var recovered := before;
    for i := 0 to |cases|
      invariant AddAnswers(representation, cases, before) == AddAnswers(representation, cases[i..], recovered)
    {
      assert cases[i..][0] == cases[i] && cases[i..][1..] == cases[i + 1..];
      if Has(recovered, (representation, cases[i].caseId)) {
        return Failure(DuplicateCase);
      }
      recovered := recovered + [Entry(representation, cases[i].caseId, Some(cases[i]))];
    }
    assert cases[|cases|..] == [];
    r := Success(recovered);
  }
}

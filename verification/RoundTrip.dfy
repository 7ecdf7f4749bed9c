/** Replay undoes logging: exactly when the frozen log rebuilds the predictions of the run. */
module RoundTrip {
  import opened Wrappers
  import opened Ordering
  import opened AgentBatches
  import opened AgentExecution
  import opened AgentConservation
  import opened AgentReplay
  import opened FrozenReplay

  // ----- what every completed run leaves in the log

  /** An accepted record parses against its own ids and answers at least one case. */
  predicate SoundRecord(record: Record) {
    record.body.Accepted? ==>
      && ListsTexts(record.body.response.content)
      && ListedIds(record.body.response.content) != []
      && Parse(record.body.response.content, ListedIds(record.body.response.content)).Parsed?
  }

  lemma TrySound(attempt: nat, request: Request, reply: Reply)
    requires request.packets != []
    ensures var t := Try(attempt, request, reply); !t.Abort? ==> SoundRecord(t.record)
  {
    var t := Try(attempt, request, reply);
    if t.Accept? {
      ParseAgain(reply.response.content, CaseIds(request.packets));
      assert |multiset(ListedIds(reply.response.content))| == |CaseIds(request.packets)|;
    }
  }

  lemma {:induction false} LogSound(representation: Representation, packets: seq<Packet>, transport: Transport, k: nat)
    requires packets != [] && Execute(representation, packets, transport, k).Done?
    ensures forall r | r in Execute(representation, packets, transport, k).result.raw :: SoundRecord(r)
    decreases |packets|
  {
    var request := Request(representation, packets);
    TrySound(1, request, transport(k, request));
    TrySound(2, request, transport(k + 1, request));
    if |packets| > 1 && Try(1, request, transport(k, request)).Retry? && Try(2, request, transport(k + 1, request)).Retry? {
      var midpoint := (|packets| + 1) / 2;
      LogSound(representation, packets[..midpoint], transport, k + 2);
      var left := Execute(representation, packets[..midpoint], transport, k + 2);
      LogSound(representation, packets[midpoint..], transport, left.calls);
    }
  }

  ghost predicate Settled(batch: Batch, result: BatchResult) {
    && Consistent(batch)
    && Conserves(result, batch.packets)
    && forall r | r in result.raw :: SoundRecord(r)
  }

  ghost predicate AllSettled(batches: seq<Batch>, results: seq<BatchResult>) {
    |batches| == |results| && forall i | 0 <= i < |batches| :: Settled(batches[i], results[i])
  }

  lemma {:induction false} ExecuteAllSettles(batches: seq<Batch>, transport: Transport, k: nat)
    requires forall i | 0 <= i < |batches| :: Consistent(batches[i])
    requires ExecuteAll(batches, transport, k).AllDone?
    ensures AllSettled(batches, ExecuteAll(batches, transport, k).results)
  {
    if batches != [] {
      var head := batches[0];
      assert Consistent(head);
      var run := Execute(head.representation, head.packets, transport, k);
      Conservation(head.representation, head.packets, transport, k);
      LogSound(head.representation, head.packets, transport, k);
      ExecuteAllSettles(batches[1..], transport, run.calls);
    }
  }

  // ----- keys

  lemma AnswerKeys(representation: Representation, cases: seq<AgentCase>)
    ensures Keys(Answers(representation, cases)) == Map(Tag(representation), Map(CaseIdOf, cases))
  {
  }

  lemma FailedKeys(representation: Representation, failures: seq<CaseFailure>)
    ensures Keys(Failed(representation, failures)) == Map(Tag(representation), Map(FailedIdOf, failures))
  {
  }

  function Tag(representation: Representation): string -> Key {
    id => (representation, id)
  }

  /** The entries of a settled batch carry exactly the keys of the batch. */
  lemma SettledKeys(batch: Batch, result: BatchResult)
    requires Settled(batch, result)
    ensures multiset(Keys(Answers(batch.representation, result.cases) + Failed(batch.representation, result.failures)))
      == multiset(BatchKeys(batch))
  {
    var r := batch.representation;
    var ids := Map(CaseIdOf, result.cases) + Map(FailedIdOf, result.failures);
    AnswerKeys(r, result.cases);
    FailedKeys(r, result.failures);
    MapConcat(KeyOf, Answers(r, result.cases), Failed(r, result.failures));
    MapConcat(Tag(r), Map(CaseIdOf, result.cases), Map(FailedIdOf, result.failures));
    assert multiset(ids) == multiset(batch.caseIds);
    MapPermutes(Tag(r), ids, batch.caseIds);
    assert Map(Tag(r), batch.caseIds) == BatchKeys(batch);
  }

  lemma SettledTail(batches: seq<Batch>, results: seq<BatchResult>)
    requires AllSettled(batches, results) && batches != []
    ensures AllSettled(batches[1..], results[1..])
  {
    forall i | 0 <= i < |batches[1..]| ensures Settled(batches[1..][i], results[1..][i]) {
      assert Settled(batches[i + 1], results[i + 1]);
    }
  }

  lemma {:induction false} RunKeys(batches: seq<Batch>, results: seq<BatchResult>)
    requires AllSettled(batches, results)
    ensures multiset(Keys(RunEntries(batches, results))) == multiset(ManifestKeys(batches))
  {
    if batches != [] {
      assert Settled(batches[0], results[0]);
      SettledKeys(batches[0], results[0]);
      SettledTail(batches, results);
      RunKeys(batches[1..], results[1..]);
      var r := batches[0].representation;
      MapConcat(KeyOf, Answers(r, results[0].cases) + Failed(r, results[0].failures), RunEntries(batches[1..], results[1..]));
    }
  }

  // ----- the order in which the replay recovers entries

  function AllAnswers(batches: seq<Batch>, results: seq<BatchResult>): seq<Entry>
    requires |batches| == |results|
  {
    if batches == [] then []
    else Answers(batches[0].representation, results[0].cases) + AllAnswers(batches[1..], results[1..])
  }

  function AllFailed(batches: seq<Batch>, results: seq<BatchResult>): seq<Entry>
    requires |batches| == |results|
  {
    if batches == [] then []
    else Failed(batches[0].representation, results[0].failures) + AllFailed(batches[1..], results[1..])
  }

  lemma {:induction false} SameEntries(batches: seq<Batch>, results: seq<BatchResult>)
    requires |batches| == |results|
    ensures multiset(AllAnswers(batches, results) + AllFailed(batches, results)) == multiset(RunEntries(batches, results))
  {
    if batches != [] {
      SameEntries(batches[1..], results[1..]);
    }
  }

  // ----- a log without stored failures is recovered in full

  lemma DistinctPrefix<T>(a: seq<T>, b: seq<T>)
    requires Distinct(a + b)
    ensures Distinct(a)
  {
    assert forall i | 0 <= i < |a| :: (a + b)[i] == a[i];
  }

  lemma NotYet(recovered: seq<Entry>, e: Entry, rest: seq<Entry>)
    requires Distinct(Keys(recovered + [e] + rest))
    ensures !Has(recovered, KeyOf(e))
  {
    var all := recovered + [e] + rest;
    assert Keys(all)[|recovered|] == KeyOf(e);
    assert forall i | 0 <= i < |recovered| :: Keys(all)[i] == KeyOf(recovered[i]);
  }

  lemma {:induction false} AddsAnswers(representation: Representation, cases: seq<AgentCase>, recovered: seq<Entry>)
    requires Distinct(Keys(recovered + Answers(representation, cases)))
    ensures AddAnswers(representation, cases, recovered) == Success(recovered + Answers(representation, cases))
  {
    if cases == [] {
      assert recovered + Answers(representation, cases) == recovered;
    } else {
      var e := Entry(representation, cases[0].caseId, Some(cases[0]));
      var rest := Answers(representation, cases[1..]);
      assert recovered + Answers(representation, cases) == recovered + [e] + rest;
      NotYet(recovered, e, rest);
      AddsAnswers(representation, cases[1..], recovered + [e]);
    }
  }

  lemma {:induction false} AddsFailures(failures: seq<FailureEntry>, entries: seq<Entry>, recovered: seq<Entry>)
    requires |failures| == |entries|
    requires forall i | 0 <= i < |failures| :: entries[i] == Entry(failures[i].representation, failures[i].caseId, None)
    requires Distinct(Keys(recovered + entries))
    ensures AddFailures(failures, recovered) == Success(recovered + entries)
  {
    if failures == [] {
      assert recovered + entries == recovered;
    } else {
      assert recovered + entries == recovered + [entries[0]] + entries[1..];
      NotYet(recovered, entries[0], entries[1..]);
      AddsFailures(failures[1..], entries[1..], recovered + [entries[0]]);
    }
  }

  lemma AnswersConcat(representation: Representation, a: seq<AgentCase>, b: seq<AgentCase>)
    ensures Answers(representation, a + b) == Answers(representation, a) + Answers(representation, b)
  {
  }

  lemma AddsRecord(batch: Batch, record: Record, recovered: seq<Entry>)
    requires SoundRecord(record) && !record.body.SchemaFailed?
    requires forall c | c in AcceptedCases(record) :: c.caseId in batch.caseIds
    requires Distinct(Keys(recovered + Answers(batch.representation, AcceptedCases(record))))
    ensures AddRecord(batch, record, recovered) == Success(recovered + Answers(batch.representation, AcceptedCases(record)))
  {
    if record.body.Accepted? {
      var content := record.body.response.content;
      var ids := ListedIds(content);
      ParsedIds(content, ids);
      var cases := AcceptedCases(record);
      forall id | id in ids ensures id in batch.caseIds {
        assert id in multiset(Map(CaseIdOf, cases));
        var i :| 0 <= i < |cases| && Map(CaseIdOf, cases)[i] == id;
        assert cases[i] in cases;
      }
      AddsAnswers(batch.representation, cases, recovered);
    } else {
      assert recovered + Answers(batch.representation, []) == recovered;
    }
  }

  lemma {:induction false} AddsRecords(batch: Batch, records: seq<Record>, recovered: seq<Entry>)
    requires forall r | r in records :: SoundRecord(r) && !r.body.SchemaFailed?
    requires forall c | c in Harvest(records) :: c.caseId in batch.caseIds
    requires Distinct(Keys(recovered + Answers(batch.representation, Harvest(records))))
    ensures AddRecords(batch, records, recovered) == Success(recovered + Answers(batch.representation, Harvest(records)))
  {
    if records == [] {
      assert recovered + Answers(batch.representation, []) == recovered;
    } else {
      var now, later := AcceptedCases(records[0]), Harvest(records[1..]);
      AnswersConcat(batch.representation, now, later);
      var step := recovered + Answers(batch.representation, now);
      assert recovered + Answers(batch.representation, now + later) == step + Answers(batch.representation, later);
      MapConcat(KeyOf, step, Answers(batch.representation, later));
      DistinctPrefix(Keys(step), Keys(Answers(batch.representation, later)));
      AddsRecord(batch, records[0], recovered);
      AddsRecords(batch, records[1..], step);
    }
  }

  // ----- a stored failure leaves too many entries

  function StoredFailures(records: seq<Record>): nat {
    if records == [] then 0 else (if records[0].body.SchemaFailed? then 1 else 0) + StoredFailures(records[1..])
  }

  lemma {:induction false} AnswersGrow(representation: Representation, cases: seq<AgentCase>, recovered: seq<Entry>)
    requires Distinct(Keys(recovered))
    ensures var r := AddAnswers(representation, cases, recovered);
      r.Success? ==> Distinct(Keys(r.value)) && |r.value| == |recovered| + |cases|
  {
    if cases != [] && !Has(recovered, (representation, cases[0].caseId)) {
      AnswersGrow(representation, cases[1..], recovered + [Entry(representation, cases[0].caseId, Some(cases[0]))]);
    }
  }

  lemma {:induction false} FailuresGrow(failures: seq<FailureEntry>, recovered: seq<Entry>)
    requires Distinct(Keys(recovered))
    ensures var r := AddFailures(failures, recovered);
      r.Success? ==> Distinct(Keys(r.value)) && |r.value| == |recovered| + |failures|
  {
    if failures != [] && !Has(recovered, (failures[0].representation, failures[0].caseId)) {
      FailuresGrow(failures[1..], recovered + [Entry(failures[0].representation, failures[0].caseId, None)]);
    }
  }

  lemma RecordGrows(batch: Batch, record: Record, recovered: seq<Entry>)
    requires SoundRecord(record) && Distinct(Keys(recovered))
    ensures var r := AddRecord(batch, record, recovered);
      r.Success? ==>
        && Distinct(Keys(r.value))
        && |r.value| >= |recovered| + |AcceptedCases(record)| + (if record.body.SchemaFailed? then 1 else 0)
  {
    if !record.body.Errored? && AddRecord(batch, record, recovered).Success? {
      var content := record.body.response.content;
      var cases := Parse(content, ListedIds(content)).cases;
      ParsedIds(content, ListedIds(content));
      assert |Map(CaseIdOf, cases)| == |ListedIds(content)| by {
        assert |multiset(ListedIds(content))| == |ListedIds(content)|;
        assert |multiset(Map(CaseIdOf, cases))| == |Map(CaseIdOf, cases)|;
      }
      AnswersGrow(batch.representation, cases, recovered);
    }
  }

  lemma {:induction false} RecordsGrow(batch: Batch, records: seq<Record>, recovered: seq<Entry>)
    requires (forall r | r in records :: SoundRecord(r)) && Distinct(Keys(recovered))
    ensures var r := AddRecords(batch, records, recovered);
      r.Success? ==> Distinct(Keys(r.value)) && |r.value| >= |recovered| + |Harvest(records)| + StoredFailures(records)
  {
    if records != [] {
      RecordGrows(batch, records[0], recovered);
      var step := AddRecord(batch, records[0], recovered);
      if step.Success? {
        RecordsGrow(batch, records[1..], step.value);
      }
    }
  }

  // ----- whole runs

  function BatchIdOf(batch: Batch): string { batch.batchId }

  function CompanyIdOf(row: Row): string { row.companyId }

  function ObservationIdOf(row: Row): string { row.observationId }

  /** What the cohort builder and `build_manifest` supply: distinct row ids, distinct batch ids, and every
      case of every representation in one batch only. */
  ghost predicate WellFormed(rows: seq<Row>, batches: seq<Batch>) {
    && Distinct(Map(CompanyIdOf, rows))
    && Distinct(Map(ObservationIdOf, rows))
    && (forall i | 0 <= i < |batches| :: Consistent(batches[i]))
    && Distinct(Map(BatchIdOf, batches))
    && Distinct(ManifestKeys(batches))
    && (forall key | key in ManifestKeys(batches) :: key.1 in Map(CompanyIdOf, rows))
  }

  lemma {:induction false} FindsBatch(batches: seq<Batch>, i: nat)
    requires i < |batches| && Distinct(Map(BatchIdOf, batches))
    ensures FindBatch(batches, batches[i].batchId) == Some(batches[i])
  {
    var last := |batches| - 1;
    var ids := Map(BatchIdOf, batches);
    if i < last {
      assert ids[i] != ids[last];
      assert forall j | 0 <= j < last :: Map(BatchIdOf, batches[..last])[j] == ids[j];
      FindsBatch(batches[..last], i);
    }
  }

  lemma HarvestInBatch(batch: Batch, result: BatchResult)
    requires Settled(batch, result)
    ensures forall c | c in Harvest(result.raw) :: c.caseId in batch.caseIds
  {
    forall c | c in Harvest(result.raw) ensures c.caseId in batch.caseIds {
      var i :| 0 <= i < |result.cases| && result.cases[i] == c;
      assert Map(CaseIdOf, result.cases)[i] == c.caseId;
      assert c.caseId in Accounted(result);
      assert c.caseId in multiset(batch.caseIds);
    }
  }

  predicate Clean(records: seq<Record>) {
    forall r | r in records :: !r.body.SchemaFailed?
  }

  /** From batch `i` on, with no stored failure, every answer of the run is recovered. */
  lemma {:induction false} AddsRuns(all: seq<Batch>, results: seq<BatchResult>, i: nat, recovered: seq<Entry>)
    requires |all| == |results| && i <= |all| && Distinct(Map(BatchIdOf, all))
    requires AllSettled(all[i..], results[i..])
    requires forall j | i <= j < |all| :: Clean(results[j].raw)
    requires Distinct(Keys(recovered + AllAnswers(all[i..], results[i..])))
    ensures AddRuns(all, LogRuns(all[i..], results[i..]), recovered) == Success(recovered + AllAnswers(all[i..], results[i..]))
    decreases |all| - i
  {
    if i == |all| {
      assert all[i..] == [] && results[i..] == [];
      assert recovered + AllAnswers([], []) == recovered;
    } else {
      var bs, rs := all[i..], results[i..];
      var batch, result := all[i], results[i];
      assert bs[0] == batch && rs[0] == result && bs[1..] == all[i + 1..] && rs[1..] == results[i + 1..];
      assert Settled(bs[0], rs[0]);
      SettledTail(bs, rs);
      FindsBatch(all, i);
      HarvestInBatch(batch, result);
      var now, later := Answers(batch.representation, result.cases), AllAnswers(bs[1..], rs[1..]);
      assert recovered + AllAnswers(bs, rs) == (recovered + now) + later;
      MapConcat(KeyOf, recovered + now, later);
      DistinctPrefix(Keys(recovered + now), Keys(later));
      assert Clean(results[i].raw);
      AddsRecords(batch, result.raw, recovered);
      AddsRuns(all, results, i + 1, recovered + now);
    }
  }

  function StoredIn(results: seq<BatchResult>): nat {
    if results == [] then 0 else StoredFailures(results[0].raw) + StoredIn(results[1..])
  }

  lemma {:induction false} RunsGrow(all: seq<Batch>, results: seq<BatchResult>, i: nat, recovered: seq<Entry>)
    requires |all| == |results| && i <= |all| && Distinct(Map(BatchIdOf, all))
    requires AllSettled(all[i..], results[i..])
    requires Distinct(Keys(recovered))
    ensures var r := AddRuns(all, LogRuns(all[i..], results[i..]), recovered);
      r.Success? ==>
        && Distinct(Keys(r.value))
        && |r.value| >= |recovered| + |AllAnswers(all[i..], results[i..])| + StoredIn(results[i..])
    decreases |all| - i
  {
    if i == |all| {
      assert all[i..] == [] && results[i..] == [];
    } else {
      var bs, rs := all[i..], results[i..];
      assert bs[0] == all[i] && rs[0] == results[i] && bs[1..] == all[i + 1..] && rs[1..] == results[i + 1..];
      assert Settled(bs[0], rs[0]);
      SettledTail(bs, rs);
      FindsBatch(all, i);
      RecordsGrow(all[i], results[i].raw, recovered);
      var step := AddRecords(all[i], results[i].raw, recovered);
      if step.Success? {
        RunsGrow(all, results, i + 1, step.value);
      }
    }
  }

  lemma {:induction false} LoggedFailures(batches: seq<Batch>, results: seq<BatchResult>)
    requires |batches| == |results|
    ensures var failures, entries := LogFailures(batches, results), AllFailed(batches, results);
      && |failures| == |entries|
      && forall i | 0 <= i < |failures| :: entries[i] == Entry(failures[i].representation, failures[i].caseId, None)
  {
    if batches != [] {
      LoggedFailures(batches[1..], results[1..]);
    }
  }

  lemma CoverageCounts(recovered: seq<Entry>, batches: seq<Batch>)
    requires Covers(recovered, batches) && Distinct(Keys(recovered)) && Distinct(ManifestKeys(batches))
    ensures |recovered| == |ManifestKeys(batches)|
  {
    DistinctLength(Keys(recovered));
    DistinctLength(ManifestKeys(batches));
  }

  /** All the keys of a settled run, in the order of the replay. */
  lemma RecoveredKeys(batches: seq<Batch>, results: seq<BatchResult>)
    requires AllSettled(batches, results)
    ensures multiset(Keys(AllAnswers(batches, results) + AllFailed(batches, results))) == multiset(ManifestKeys(batches))
  {
    SameEntries(batches, results);
    RunKeys(batches, results);
    MapPermutes(KeyOf, AllAnswers(batches, results) + AllFailed(batches, results), RunEntries(batches, results));
  }

  lemma RecoverClean(batches: seq<Batch>, results: seq<BatchResult>)
    requires AllSettled(batches, results) && Distinct(Map(BatchIdOf, batches)) && Distinct(ManifestKeys(batches))
    requires forall j | 0 <= j < |results| :: Clean(results[j].raw)
    ensures Recover(batches, LogOf(batches, results)) == Success(AllAnswers(batches, results) + AllFailed(batches, results))
  {
    var answers, failed := AllAnswers(batches, results), AllFailed(batches, results);
    CleanKeys(batches, results);
    assert batches[0..] == batches && results[0..] == results && [] + answers == answers;
    AddsRuns(batches, results, 0, []);
    LoggedFailures(batches, results);
    AddsFailures(LogFailures(batches, results), failed, answers);
  }

  lemma CleanKeys(batches: seq<Batch>, results: seq<BatchResult>)
    requires AllSettled(batches, results) && Distinct(ManifestKeys(batches))
    ensures var answers, failed := AllAnswers(batches, results), AllFailed(batches, results);
      && Distinct(Keys(answers))
      && Distinct(Keys(answers + failed))
      && Covers(answers + failed, batches)
  {
    var answers, failed := AllAnswers(batches, results), AllFailed(batches, results);
    RecoveredKeys(batches, results);
    SameKeysCover(answers + failed, batches);
    MapConcat(KeyOf, answers, failed);
    DistinctPrefix(Keys(answers), Keys(failed));
  }

  lemma SameKeysCover(entries: seq<Entry>, batches: seq<Batch>)
    requires multiset(Keys(entries)) == multiset(ManifestKeys(batches)) && Distinct(ManifestKeys(batches))
    ensures Distinct(Keys(entries)) && Covers(entries, batches)
  {
    var a, b := Keys(entries), ManifestKeys(batches);
    DistinctPermutes(a, b);
    forall key ensures key in a <==> key in b {
      assert key in a <==> key in multiset(a);
    }
  }

  lemma RecoverStored(batches: seq<Batch>, results: seq<BatchResult>)
    requires AllSettled(batches, results) && Distinct(Map(BatchIdOf, batches)) && Distinct(ManifestKeys(batches))
    requires StoredIn(results) > 0
    ensures Recover(batches, LogOf(batches, results)).Failure?
  {
    var answers, failed := AllAnswers(batches, results), AllFailed(batches, results);
    RecoveredKeys(batches, results);
    assert |Keys(answers + failed)| == |ManifestKeys(batches)| by {
      SameMembers(Keys(answers + failed), ManifestKeys(batches));
    }
    assert batches[0..] == batches && results[0..] == results;
    RunsGrow(batches, results, 0, []);
    var run := AddRuns(batches, LogRuns(batches, results), []);
    if run.Success? {
      LoggedFailures(batches, results);
      FailuresGrow(LogFailures(batches, results), run.value);
      var all := AddFailures(LogFailures(batches, results), run.value);
      if all.Success? && Covers(all.value, batches) {
        CoverageCounts(all.value, batches);
        assert false;
      }
    }
  }
}

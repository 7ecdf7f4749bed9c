/** The exact condition under which the frozen log rebuilds the run's predictions, read off the log. */
module RoundTripTheorem {
  import opened Wrappers
  import opened Ordering
  import opened AgentBatches
  import opened AgentExecution
  import opened AgentConservation
  import opened AgentReplay
  import opened FrozenReplay
  import opened RoundTrip

  // ----- rounding

  /** The scores below one half that ten-place rounding lifts to one half. */
  predicate Crosses(score: real) {
    0.49999999995 <= score < 0.5
  }

  lemma RoundingCrosses(score: real)
    ensures Decision(Round10(score)) != Decision(score) <==> Crosses(score)
  {
    var scaled := score * 10000000000.0;
    var floor := scaled.Floor;
    assert floor as real <= scaled < floor as real + 1.0;
    if score >= 0.5 {
      assert floor >= 5000000000;
    } else if score < 0.49999999995 {
      assert RoundHalfEven(scaled) < 5000000000;
    } else {
      assert floor == 4999999999;
      assert RoundHalfEven(scaled) == 5000000000;
    }
  }

  // ----- the two views of an entry

  lemma {:induction false} FindsSource(rows: seq<Row>, caseId: string)
    requires caseId in Map(CompanyIdOf, rows)
    ensures Source(rows, caseId) in rows && Source(rows, caseId).companyId == caseId
  {
    var last := |rows| - 1;
    if rows[last].companyId != caseId {
      var i :| 0 <= i < |rows| && Map(CompanyIdOf, rows)[i] == caseId;
      assert Map(CompanyIdOf, rows[..last])[i] == caseId;
      FindsSource(rows[..last], caseId);
    }
  }

  ghost predicate Known(rows: seq<Row>, e: Entry) {
    e.caseId in Map(CompanyIdOf, rows)
  }

  ghost predicate Steady(e: Entry) {
    e.answer.Some? ==> !Crosses(e.answer.value.riskScore)
  }

  lemma SameView(rows: seq<Row>, config: string, e: Entry)
    requires Known(rows, e)
    ensures RunPrediction(rows, config, e) == ReplayPrediction(rows, config, e) <==> Steady(e)
  {
    FindsSource(rows, e.caseId);
    if e.answer.Some? {
      RoundingCrosses(e.answer.value.riskScore);
    }
  }

  lemma SameViews(rows: seq<Row>, config: string, entries: seq<Entry>)
    requires forall e | e in entries :: Known(rows, e) && Steady(e)
    ensures Map(Runner(rows, config), entries) == Map(Replayer(rows, config), entries)
  {
    forall i | 0 <= i < |entries|
      ensures Map(Runner(rows, config), entries)[i] == Map(Replayer(rows, config), entries)[i]
    {
      SameView(rows, config, entries[i]);
    }
  }

  /** Distinct rows give distinct sort keys, so no two predictions compare equal. */
  lemma SamePlace(rows: seq<Row>, config: string, entries: seq<Entry>, i: nat, j: nat)
    requires Distinct(Map(ObservationIdOf, rows)) && Distinct(Keys(entries)) && i < |entries| && j < |entries|
    requires Known(rows, entries[i]) && Known(rows, entries[j])
    requires Runner(rows, config)(entries[i]).observationId == Runner(rows, config)(entries[j]).observationId
    requires Runner(rows, config)(entries[i]).representation == Runner(rows, config)(entries[j]).representation
    ensures i == j
  {
    SameCase(rows, entries[i].caseId, entries[j].caseId);
    assert Keys(entries)[i] == Keys(entries)[j];
    DistinctPick(Keys(entries), i, j);
  }

  lemma PredictionsTold(rows: seq<Row>, config: string, entries: seq<Entry>)
    requires Distinct(Map(ObservationIdOf, rows)) && Distinct(Keys(entries))
    requires forall e | e in entries :: Known(rows, e)
    ensures Antisymmetric(Map(Runner(rows, config), entries), PredictionLe)
  {
    var ps := Map(Runner(rows, config), entries);
    forall p, q | p in ps && q in ps && PredictionLe(p, q) && PredictionLe(q, p) ensures p == q {
      var i :| 0 <= i < |ps| && ps[i] == p;
      var j :| 0 <= j < |ps| && ps[j] == q;
      PredictionLeTies(p, q);
      SamePlace(rows, config, entries, i, j);
    }
  }

  lemma PredictionLeTies(p: Prediction, q: Prediction)
    requires PredictionLe(p, q) && PredictionLe(q, p)
    ensures p.observationId == q.observationId && p.representation == q.representation
  {
    if p.observationId != q.observationId {
      StringLeAntisymmetric(p.observationId, q.observationId);
    }
    StringLeAntisymmetric(Name(p.representation), Name(q.representation));
    assert Name(p.representation)[1] == Name(q.representation)[1];
  }

  lemma SameCase(rows: seq<Row>, a: string, b: string)
    requires Distinct(Map(ObservationIdOf, rows))
    requires a in Map(CompanyIdOf, rows) && b in Map(CompanyIdOf, rows)
    requires Source(rows, a).observationId == Source(rows, b).observationId
    ensures a == b
  {
    FindsSource(rows, a);
    FindsSource(rows, b);
    var i :| 0 <= i < |rows| && rows[i] == Source(rows, a);
    var j :| 0 <= j < |rows| && rows[j] == Source(rows, b);
    assert Map(ObservationIdOf, rows)[i] == Map(ObservationIdOf, rows)[j];
    DistinctPick(Map(ObservationIdOf, rows), i, j);
  }

  lemma PredictionOrder()
    ensures TotalPreorder(PredictionLe)
  {
    StringOrder();
  }

  // ----- the conditions, read off the log

  /** No attempt was recorded as a schema failure with its response. */
  predicate NoStoredFailure(raw: RawLog) {
    forall i | 0 <= i < |raw.runs| :: Clean(raw.runs[i].records)
  }

  /** No accepted score lies in the band that rounding lifts to one half. */
  predicate NoCrossing(raw: RawLog) {
    forall i | 0 <= i < |raw.runs| :: forall c | c in Harvest(raw.runs[i].records) :: !Crosses(c.riskScore)
  }

  lemma {:induction false} RunAt(batches: seq<Batch>, results: seq<BatchResult>, i: nat)
    requires |batches| == |results| && i < |batches|
    ensures |LogRuns(batches, results)| == |batches|
    ensures LogRuns(batches, results)[i] == RunEntry(batches[i].batchId, results[i].raw)
  {
    if i > 0 {
      RunAt(batches[1..], results[1..], i - 1);
    } else if |batches| > 1 {
      RunAt(batches[1..], results[1..], 0);
    }
  }

  lemma RunsAt(batches: seq<Batch>, results: seq<BatchResult>)
    requires |batches| == |results|
    ensures |LogRuns(batches, results)| == |batches|
    ensures forall i | 0 <= i < |batches| :: LogRuns(batches, results)[i].records == results[i].raw
  {
    if batches != [] {
      RunAt(batches, results, 0);
    }
    forall i | 0 <= i < |batches| ensures LogRuns(batches, results)[i].records == results[i].raw {
      RunAt(batches, results, i);
    }
  }

  lemma {:induction false} StoredFailuresCount(records: seq<Record>)
    ensures StoredFailures(records) == 0 <==> Clean(records)
  {
    if records != [] {
      StoredFailuresCount(records[1..]);
      assert records == [records[0]] + records[1..];
    }
  }

  lemma {:induction false} StoredInCount(results: seq<BatchResult>)
    ensures StoredIn(results) == 0 <==> forall i | 0 <= i < |results| :: Clean(results[i].raw)
  {
    if results != [] {
      StoredFailuresCount(results[0].raw);
      StoredInCount(results[1..]);
      assert forall i | 0 <= i < |results[1..]| :: results[1..][i] == results[i + 1];
      if forall i | 0 <= i < |results| :: Clean(results[i].raw) {
        forall i | 0 <= i < |results[1..]| ensures Clean(results[1..][i].raw) {
          assert Clean(results[i + 1].raw);
        }
      } else if StoredFailures(results[0].raw) == 0 {
        var i :| 0 <= i < |results| && !Clean(results[i].raw);
        assert !Clean(results[1..][i - 1].raw);
      }
    }
  }

  /** An entry of the run is an answer of one batch or a failure of one batch. */
  lemma {:induction false} EntryOrigin(batches: seq<Batch>, results: seq<BatchResult>, e: Entry)
    requires |batches| == |results|
    ensures e in RunEntries(batches, results) && e.answer.Some? ==>
      exists i | 0 <= i < |results| :: e.answer.value in results[i].cases
  {
    if batches != [] && e in RunEntries(batches, results) && e.answer.Some? {
      var r := batches[0].representation;
      if e in Answers(r, results[0].cases) {
        assert e.answer.value in results[0].cases;
      } else {
        assert e !in Failed(r, results[0].failures);
        EntryOrigin(batches[1..], results[1..], e);
        var i :| 0 <= i < |results[1..]| && e.answer.value in results[1..][i].cases;
        assert e.answer.value in results[i + 1].cases;
      }
    }
  }

  lemma {:induction false} CaseInEntries(batches: seq<Batch>, results: seq<BatchResult>, i: nat, c: AgentCase)
    requires |batches| == |results| && i < |results| && c in results[i].cases
    ensures Entry(batches[i].representation, c.caseId, Some(c)) in RunEntries(batches, results)
  {
    if i == 0 {
      var j :| 0 <= j < |results[0].cases| && results[0].cases[j] == c;
      assert Answers(batches[0].representation, results[0].cases)[j] in Answers(batches[0].representation, results[0].cases);
    } else {
      CaseInEntries(batches[1..], results[1..], i - 1, c);
    }
  }

  lemma SteadyEntries(batches: seq<Batch>, results: seq<BatchResult>)
    requires AllSettled(batches, results)
    ensures NoCrossing(LogOf(batches, results)) <==> forall e | e in RunEntries(batches, results) :: Steady(e)
  {
    RunsAt(batches, results);
    if NoCrossing(LogOf(batches, results)) {
      forall e | e in RunEntries(batches, results) ensures Steady(e) {
        EntryOrigin(batches, results, e);
        if e.answer.Some? {
          var i :| 0 <= i < |results| && e.answer.value in results[i].cases;
          assert Settled(batches[i], results[i]);
          assert LogOf(batches, results).runs[i].records == results[i].raw;
        }
      }
    } else {
      var i :| 0 <= i < |results| && !(forall c | c in Harvest(LogOf(batches, results).runs[i].records) :: !Crosses(c.riskScore));
      var c :| c in Harvest(results[i].raw) && Crosses(c.riskScore);
      assert Settled(batches[i], results[i]);
      CaseInEntries(batches, results, i, c);
      assert !Steady(Entry(batches[i].representation, c.caseId, Some(c)));
    }
  }

  // ----- the theorem

  /** Facts about the entries of a settled run of a well-formed manifest. */
  lemma RunEntriesKnown(rows: seq<Row>, batches: seq<Batch>, results: seq<BatchResult>)
    requires WellFormed(rows, batches) && AllSettled(batches, results)
    ensures Distinct(Keys(RunEntries(batches, results)))
    ensures forall e | e in RunEntries(batches, results) :: Known(rows, e)
  {
    var entries := RunEntries(batches, results);
    RunKeys(batches, results);
    DistinctPermutes(Keys(entries), ManifestKeys(batches));
    forall e | e in entries ensures Known(rows, e) {
      var i :| 0 <= i < |entries| && entries[i] == e;
      assert Keys(entries)[i] in multiset(Keys(entries));
      assert KeyOf(e) in ManifestKeys(batches);
    }
  }

  lemma SteadyReplays(rows: seq<Row>, batches: seq<Batch>, results: seq<BatchResult>, config: string)
    requires WellFormed(rows, batches) && AllSettled(batches, results)
    requires forall e | e in RunEntries(batches, results) :: Steady(e)
    ensures SortBy(Map(Replayer(rows, config), AllAnswers(batches, results) + AllFailed(batches, results)), PredictionLe)
      == RunPredictions(rows, config, batches, results)
  {
    var entries := RunEntries(batches, results);
    var recovered := AllAnswers(batches, results) + AllFailed(batches, results);
    RunEntriesKnown(rows, batches, results);
    SameViews(rows, config, entries);
    SameEntries(batches, results);
    MapPermutes(Replayer(rows, config), recovered, entries);
    PredictionsTold(rows, config, entries);
    PredictionOrder();
    SortIgnoresOrder(Map(Runner(rows, config), entries), Map(Replayer(rows, config), recovered), PredictionLe);
  }

  /** Every replayed decision follows from the replayed score. */
  predicate SelfConsistent(p: Prediction) {
    p.score.Some? ==> p.decision == Some(Decision(p.score.value))
  }

  lemma CrossingDiffers(rows: seq<Row>, batches: seq<Batch>, results: seq<BatchResult>, config: string, recovered: seq<Entry>, e: Entry)
    requires |batches| == |results| && e in RunEntries(batches, results) && !Steady(e)
    ensures SortBy(Map(Replayer(rows, config), recovered), PredictionLe) != RunPredictions(rows, config, batches, results)
  {
    var ran := Map(Runner(rows, config), RunEntries(batches, results));
    var replayed := Map(Replayer(rows, config), recovered);
    SortPermutes(ran, PredictionLe);
    SameMembers(ran, SortBy(ran, PredictionLe));
    SortPermutes(replayed, PredictionLe);
    SameMembers(replayed, SortBy(replayed, PredictionLe));
    RoundingCrosses(e.answer.value.riskScore);
    var i :| 0 <= i < |RunEntries(batches, results)| && RunEntries(batches, results)[i] == e;
    assert ran[i] in ran && !SelfConsistent(ran[i]);
    assert forall p | p in replayed :: SelfConsistent(p);
  }

  lemma RecoveredKnown(rows: seq<Row>, batches: seq<Batch>, results: seq<BatchResult>)
    requires WellFormed(rows, batches) && AllSettled(batches, results)
    ensures EntriesKnown(rows, AllAnswers(batches, results) + AllFailed(batches, results))
  {
    var recovered := AllAnswers(batches, results) + AllFailed(batches, results);
    RecoveredKeys(batches, results);
    SameMembers(Keys(recovered), ManifestKeys(batches));
    forall i | 0 <= i < |recovered| ensures HasRow(rows, recovered[i].caseId) {
      assert Keys(recovered)[i] in ManifestKeys(batches);
      RowOfId(rows, recovered[i].caseId);
    }
  }

  lemma CleanRunReplays(rows: seq<Row>, batches: seq<Batch>, config: string, results: seq<BatchResult>)
    requires WellFormed(rows, batches) && AllSettled(batches, results)
    requires forall j | 0 <= j < |results| :: Clean(results[j].raw)
    ensures var recovered := Recover(batches, LogOf(batches, results));
      && recovered.Success? && EntriesKnown(rows, recovered.value)
      && (SortBy(Map(Replayer(rows, config), recovered.value), PredictionLe) == RunPredictions(rows, config, batches, results)
          <==> NoCrossing(LogOf(batches, results)))
  {
    var recovered := AllAnswers(batches, results) + AllFailed(batches, results);
    RecoverClean(batches, results);
    SteadyEntries(batches, results);
    RecoveredKnown(rows, batches, results);
    if NoCrossing(LogOf(batches, results)) {
      SteadyReplays(rows, batches, results, config);
    } else {
      var e :| e in RunEntries(batches, results) && !Steady(e);
      CrossingDiffers(rows, batches, results, config, recovered, e);
    }
  }

  /** In a well-formed manifest every case id has its row. */
  lemma ManifestIdsKnown(rows: seq<Row>, batches: seq<Batch>)
    requires WellFormed(rows, batches)
    ensures EveryIdKnown(rows, batches)
  {
    forall i | 0 <= i < |batches| ensures AllKnown(rows, batches[i].caseIds) {
      forall j | 0 <= j < |batches[i].caseIds| ensures HasRow(rows, batches[i].caseIds[j]) {
        KeyInManifest(batches, i, j);
        RowOfId(rows, batches[i].caseIds[j]);
      }
    }
  }

  lemma RowOfId(rows: seq<Row>, caseId: string)
    ensures HasRow(rows, caseId) <==> caseId in Map(CompanyIdOf, rows)
  {
    var ids := Map(CompanyIdOf, rows);
    if caseId in ids {
      var i :| 0 <= i < |ids| && ids[i] == caseId;
      assert rows[i].companyId == caseId;
    }
    if HasRow(rows, caseId) {
      var i :| 0 <= i < |rows| && rows[i].companyId == caseId;
      assert ids[i] == caseId;
    }
  }

  lemma {:induction false} KeyInManifest(batches: seq<Batch>, i: nat, j: nat)
    requires i < |batches| && j < |batches[i].caseIds|
    ensures (batches[i].representation, batches[i].caseIds[j]) in ManifestKeys(batches)
  {
    if i == 0 {
      assert BatchKeys(batches[0])[j] == (batches[0].representation, batches[0].caseIds[j]);
    } else {
      KeyInManifest(batches[1..], i - 1, j);
    }
  }

  /** A completed run of a well-formed manifest executed all its batches. */
  lemma CompletedRun(rows: seq<Row>, batches: seq<Batch>, config: string, transport: Transport)
    requires WellFormed(rows, batches) && Ran(rows, batches, config, transport).Completed?
    ensures ExecuteAll(batches, transport, 0).AllDone?
    ensures var results := ExecuteAll(batches, transport, 0).results;
      && AllSettled(batches, results)
      && Ran(rows, batches, config, transport) == Completed(RunPredictions(rows, config, batches, results), LogOf(batches, results))
  {
    ManifestIdsKnown(rows, batches);
    ServedAll(rows, batches);
    ExecuteAllSettles(batches, transport, 0);
  }

  /** Replay undoes logging. For every manifest of the kind `build_manifest` makes and every transport
      under which the run completes, replaying the frozen log returns the run's own predictions if and
      only if no attempt stored a schema-failed response and no accepted score lies in the rounding
      band. A stored schema failure makes the replay raise; without one it always succeeds. */
  lemma ReplayUndoesLogging(rows: seq<Row>, batches: seq<Batch>, config: string, transport: Transport)
    requires WellFormed(rows, batches) && Ran(rows, batches, config, transport).Completed?
    ensures var run := Ran(rows, batches, config, transport);
      var replayed := Replay(rows, batches, run.raw, config);
      && (replayed == Success(run.predictions) <==> NoStoredFailure(run.raw) && NoCrossing(run.raw))
      && (replayed.Success? <==> NoStoredFailure(run.raw))
  {
    CompletedRun(rows, batches, config, transport);
    var results := ExecuteAll(batches, transport, 0).results;
    var run := Ran(rows, batches, config, transport);
    RunsAt(batches, results);
    StoredInCount(results);
    if StoredIn(results) > 0 {
      RecoverStored(batches, results);
    } else {
      CleanRunReplays(rows, batches, config, results);
    }
  }
}

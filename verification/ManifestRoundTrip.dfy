/** The round trip for manifests that `build_manifest` produces, and the two ways it fails. */
module ManifestRoundTrip {
  import opened Wrappers
  import opened Ordering
  import opened AgentBatches
  import opened AgentExecution
  import opened AgentConservation
  import opened AgentReplay
  import opened FrozenReplay
  import opened RoundTrip
  import opened RoundTripTheorem

  /** What the cohort builder guarantees of the feature rows. */
  ghost predicate DistinctRows(rows: seq<Row>) {
    Distinct(Map(CompanyIdOf, rows)) && Distinct(Map(ObservationIdOf, rows))
  }

  lemma {:induction false} ManifestKeysConcat(a: seq<Batch>, b: seq<Batch>)
    ensures ManifestKeys(a + b) == ManifestKeys(a) + ManifestKeys(b)
  {
    if a == [] {
      assert a + b == b;
    } else {
      assert (a + b)[1..] == a[1..] + b;
      ManifestKeysConcat(a[1..], b);
    }
  }

  /** The keys of one representation's batches are its packets' ids, in order. */
  lemma {:induction false} KeysOfBatches(representation: Representation, batches: seq<Batch>)
    requires forall i | 0 <= i < |batches| :: batches[i].representation == representation && Consistent(batches[i])
    ensures ManifestKeys(batches) == Map(Tag(representation), CaseIds(Concat(Groups(batches))))
  {
    if batches != [] {
      assert Consistent(batches[0]);
      var rest := batches[1..];
      KeysOfBatches(representation, rest);
      assert Groups(batches)[1..] == Groups(rest);
      var head, tail := batches[0].packets, Concat(Groups(rest));
      assert CaseIds(head + tail) == CaseIds(head) + CaseIds(tail);
      MapConcat(Tag(representation), CaseIds(head), CaseIds(tail));
      assert BatchKeys(batches[0]) == Map(Tag(representation), CaseIds(head));
    }
  }

  lemma BuiltBatches(rows: seq<Row>, representation: Representation, batches: seq<Batch>)
    requires DistinctRows(rows) && BatchesOf(rows, representation, batches)
    ensures forall i | 0 <= i < |batches| :: Consistent(batches[i]) && batches[i].batchId == BatchId(representation, i + 1)
    ensures Distinct(ManifestKeys(batches))
    ensures forall key | key in ManifestKeys(batches) :: key.0 == representation && key.1 in Map(CompanyIdOf, rows)
  {
    forall i | 0 <= i < |batches| ensures Consistent(batches[i]) && batches[i].representation == representation {
      assert batches[i] == MakeBatch(representation, i + 1, batches[i].packets);
    }
    KeysOfBatches(representation, batches);
    var ordered := SortBy(rows, RowLe);
    SortPermutes(rows, RowLe);
    var ids := CaseIds(Packets(ordered, representation));
    assert ids == Map(CompanyIdOf, ordered);
    MapPermutes(CompanyIdOf, rows, ordered);
    DistinctPermutes(Map(CompanyIdOf, rows), ids);
    SameMembers(Map(CompanyIdOf, rows), ids);
    TaggedKeys(representation, ids);
  }

  lemma TaggedKeys(representation: Representation, ids: seq<string>)
    requires Distinct(ids)
    ensures Distinct(Map(Tag(representation), ids))
    ensures forall key | key in Map(Tag(representation), ids) :: key.0 == representation && key.1 in ids
  {
    var keys := Map(Tag(representation), ids);
    forall key | key in keys ensures key.0 == representation && key.1 in ids {
      var i :| 0 <= i < |keys| && keys[i] == key;
      assert key == (representation, ids[i]);
    }
    forall i, j | 0 <= i < j < |keys| ensures keys[i] != keys[j] {
      assert keys[i].1 == ids[i] && keys[j].1 == ids[j];
    }
  }

  lemma DistinctJoin<T>(a: seq<T>, b: seq<T>)
    requires Distinct(a) && Distinct(b) && forall x | x in a :: x !in b
    ensures Distinct(a + b)
  {
    forall i, j | 0 <= i < j < |a + b| ensures (a + b)[i] != (a + b)[j] {
      if i < |a| <= j {
        assert a[i] in a && b[j - |a|] in b;
      }
    }
  }

  lemma BuiltIds(a0: seq<Batch>, a1: seq<Batch>, a2: seq<Batch>)
    requires forall i | 0 <= i < |a0| :: a0[i].batchId == BatchId(A0, i + 1)
    requires forall i | 0 <= i < |a1| :: a1[i].batchId == BatchId(A1, i + 1)
    requires forall i | 0 <= i < |a2| :: a2[i].batchId == BatchId(A2, i + 1)
    ensures Distinct(Map(BatchIdOf, a0 + a1 + a2))
  {
    var all := a0 + a1 + a2;
    forall i, j | 0 <= i < j < |all| ensures all[i].batchId != all[j].batchId {
      var (r, m) := Place(a0, a1, a2, i);
      var (s, n) := Place(a0, a1, a2, j);
      if all[i].batchId == all[j].batchId {
        BatchIdInjective(r, m, s, n);
        assert false;
      }
    }
  }

  /** Which representation and index the i-th batch of the manifest has. */
  ghost function Place(a0: seq<Batch>, a1: seq<Batch>, a2: seq<Batch>, i: nat): (Representation, nat) {
    if i < |a0| then (A0, i + 1) else if i < |a0| + |a1| then (A1, i - |a0| + 1) else (A2, i - |a0| - |a1| + 1)
  }

  lemma ManifestWellFormed(rows: seq<Row>, batches: seq<Batch>)
    requires DistinctRows(rows) && ManifestOf(rows, batches)
    ensures WellFormed(rows, batches)
  {
    var a0, a1, a2 :| BatchesOf(rows, A0, a0) && BatchesOf(rows, A1, a1) && BatchesOf(rows, A2, a2) && batches == a0 + a1 + a2;
    BuiltBatches(rows, A0, a0);
    BuiltBatches(rows, A1, a1);
    BuiltBatches(rows, A2, a2);
    BuiltIds(a0, a1, a2);
    JoinedKeys(a0, a1, a2);
  }

  lemma JoinedKeys(a0: seq<Batch>, a1: seq<Batch>, a2: seq<Batch>)
    requires Distinct(ManifestKeys(a0)) && Distinct(ManifestKeys(a1)) && Distinct(ManifestKeys(a2))
    requires forall key | key in ManifestKeys(a0) :: key.0 == A0
    requires forall key | key in ManifestKeys(a1) :: key.0 == A1
    requires forall key | key in ManifestKeys(a2) :: key.0 == A2
    ensures ManifestKeys(a0 + a1 + a2) == ManifestKeys(a0) + ManifestKeys(a1) + ManifestKeys(a2)
    ensures Distinct(ManifestKeys(a0 + a1 + a2))
  {
    ManifestKeysConcat(a0 + a1, a2);
    ManifestKeysConcat(a0, a1);
    DistinctJoin(ManifestKeys(a0), ManifestKeys(a1));
    DistinctJoin(ManifestKeys(a0) + ManifestKeys(a1), ManifestKeys(a2));
  }

  /** From feature rows to replay: for the manifest built from distinct rows, every transport and every
      completed run, the replay of the log equals the run if and only if the log holds no stored schema
      failure and no accepted score in the rounding band. */
  lemma BuiltManifestReplays(rows: seq<Row>, batches: seq<Batch>, config: string, transport: Transport)
    requires DistinctRows(rows) && ManifestOf(rows, batches)
    ensures forall i | 0 <= i < |batches| :: Consistent(batches[i])
    ensures var run := Ran(rows, batches, config, transport);
      run.Completed? ==>
        (Replay(rows, batches, run.raw, config) == Success(run.predictions) <==>
          NoStoredFailure(run.raw) && NoCrossing(run.raw))
  {
    ManifestWellFormed(rows, batches);
    if Ran(rows, batches, config, transport).Completed? {
      ReplayUndoesLogging(rows, batches, config, transport);
    }
  }

  // ----- the two failures happen

  const ROW := Row("E4_OBS_000001", "E4_COMPANY_000001", "{}", "{}", "{}")

  const ONE_BATCH := MakeBatch(A0, 1, [PacketOf(ROW, A0)])

  function Answer(score: real): Reply {
    Responded(Response(NoCount, Cases([ReplyCase(TextId("E4_COMPANY_000001"), Score(score), Some([]), Some(""))])))
  }

  lemma AnswerParses(score: real)
    requires 0.0 <= score <= 1.0
    ensures Parse(Answer(score).response.content, ["E4_COMPANY_000001"])
      == Parsed([AgentCase("E4_COMPANY_000001", score, [], "")])
  {
    var id := "E4_COMPANY_000001";
    var cases := Answer(score).response.content.cases;
    assert Texts(ReplyIds(cases)) == [id];
    AllTexts(cases);
    assert cases[1..] == [];
    assert CheckCases(cases) == Parsed([AgentCase(id, score, [], "")]);
    var rows := [AgentCase(id, score, [], "")];
    assert rows[1..] == [];
    assert SortBy(rows, CaseLe) == rows;
  }

  lemma OneRowWellFormed()
    ensures WellFormed([ROW], [ONE_BATCH])
  {
    assert CaseIds([PacketOf(ROW, A0)]) == ["E4_COMPANY_000001"];
    assert ManifestKeys([ONE_BATCH]) == BatchKeys(ONE_BATCH) + ManifestKeys([]);
    assert Map(CompanyIdOf, [ROW])[0] == "E4_COMPANY_000001";
  }

  lemma OneBatchRuns(transport: Transport)
    ensures Consistent(ONE_BATCH)
    ensures var outcome := Execute(A0, ONE_BATCH.packets, transport, 0);
      outcome.Done? ==> ExecuteAll([ONE_BATCH], transport, 0) == AllDone([outcome.result])
  {
    OneRowWellFormed();
    assert Consistent([ONE_BATCH][0]);
    assert [ONE_BATCH][1..] == [];
  }

  /** A first reply that is not JSON is retried and the retry succeeds, but the stored response of the
      first attempt makes the replay raise. */
  lemma StoredFailureBreaksReplay(config: string, transport: Transport)
    requires forall n: nat, request ::
        transport(n, request) == (if n == 0 then Responded(Response(NoCount, NotJson)) else Answer(0.25))
    ensures Consistent(ONE_BATCH) && Ran([ROW], [ONE_BATCH], config, transport).Completed?
    ensures Replay([ROW], [ONE_BATCH], Ran([ROW], [ONE_BATCH], config, transport).raw, config).Failure?
  {
    OneRowWellFormed();
    OneBatchRuns(transport);
    AnswerParses(0.25);
    assert CaseIds(ONE_BATCH.packets) == ["E4_COMPANY_000001"];
    var run := Ran([ROW], [ONE_BATCH], config, transport);
    ReplayUndoesLogging([ROW], [ONE_BATCH], config, transport);
    var results := ExecuteAll([ONE_BATCH], transport, 0).results;
    RunsAt([ONE_BATCH], results);
    assert run.raw.runs[0].records[0].body.SchemaFailed?;
    assert run.raw.runs[0].records[0] in run.raw.runs[0].records;
    assert !Clean(run.raw.runs[0].records);
  }

  /** A score of 0.49999999996 is decided as 0 by the run and as 1 by the replay. */
  lemma CrossingScoreChangesReplay(config: string, transport: Transport)
    requires forall n: nat, request :: transport(n, request) == Answer(0.49999999996)
    ensures Consistent(ONE_BATCH) && Ran([ROW], [ONE_BATCH], config, transport).Completed?
    ensures var run := Ran([ROW], [ONE_BATCH], config, transport);
      var replayed := Replay([ROW], [ONE_BATCH], run.raw, config);
      replayed.Success? && replayed.value != run.predictions
  {
    OneRowWellFormed();
    OneBatchRuns(transport);
    AnswerParses(0.49999999996);
    assert CaseIds(ONE_BATCH.packets) == ["E4_COMPANY_000001"];
    var run := Ran([ROW], [ONE_BATCH], config, transport);
    ReplayUndoesLogging([ROW], [ONE_BATCH], config, transport);
    var results := ExecuteAll([ONE_BATCH], transport, 0).results;
    RunsAt([ONE_BATCH], results);
    Conservation(A0, ONE_BATCH.packets, transport, 0);
    var c := AgentCase("E4_COMPANY_000001", 0.49999999996, [], "");
    assert results[0].cases == [c] && c in Harvest(run.raw.runs[0].records);
    assert !NoCrossing(run.raw);
    assert Clean(run.raw.runs[0].records);
  }
}

/** A model server that answers every case at once: under it every manifest of distinct rows runs to the end and replays. */
module ObligingTransport {
  import opened Wrappers
  import opened Ordering
  import opened AgentBatches
  import opened AgentExecution
  import opened AgentConservation
  import opened AgentReplay
  import opened FrozenReplay
  import opened RoundTrip
  import opened RoundTripTheorem
  import opened ManifestRoundTrip

  const STEADY_SCORE := 0.25

  function Answered(p: Packet): ReplyCase {
    ReplyCase(TextId(p.caseId), Score(STEADY_SCORE), Some([]), Some(""))
  }

  function Oblige(request: Request): Reply {
    Responded(Response(NoCount, Cases(Map(Answered, request.packets))))
  }

  function Obliging(): Transport {
    (n: nat, request: Request) => Oblige(request)
  }

  lemma {:induction false} ChecksOut(packets: seq<Packet>)
    requires forall c | c in Map(Answered, packets) :: c.ReplyCase? && c.caseId.TextId?
    ensures CheckCases(Map(Answered, packets)).Parsed?
    ensures forall c | c in CheckCases(Map(Answered, packets)).cases :: c.riskScore == STEADY_SCORE
  {
    var cases := Map(Answered, packets);
    if packets != [] {
      assert cases[1..] == Map(Answered, packets[1..]) && cases[0] == Answered(packets[0]);
      ChecksOut(packets[1..]);
    }
  }

  lemma AnswersListIds(packets: seq<Packet>)
    requires Distinct(CaseIds(packets))
    ensures IdDefect(Map(Answered, packets), CaseIds(packets)).None?
    ensures forall c | c in Map(Answered, packets) :: c.ReplyCase? && c.caseId.TextId?
  {
    var cases := Map(Answered, packets);
    forall c | c in cases ensures c.ReplyCase? && c.caseId.TextId? {
      var i :| 0 <= i < |cases| && cases[i] == c;
      assert c == Answered(packets[i]);
    }
    var ids := ReplyIds(cases);
    assert forall i | 0 <= i < |ids| :: ids[i] == TextId(CaseIds(packets)[i]);
    assert Texts(ids) == CaseIds(packets);
  }

  /** The answer is accepted at the first attempt, every score steady. */
  lemma Accepted(packets: seq<Packet>)
    requires Distinct(CaseIds(packets))
    ensures var parsed := Parse(Cases(Map(Answered, packets)), CaseIds(packets));
      parsed.Parsed? && forall c | c in parsed.cases :: c.riskScore == STEADY_SCORE
  {
    AnswersListIds(packets);
    ChecksOut(packets);
    var rows := CheckCases(Map(Answered, packets)).cases;
    SortPermutes(rows, CaseLe);
    SameMembers(rows, SortBy(rows, CaseLe));
  }

  /** What a batch's result looks like: one accepted record and steady scores. */
  predicate Pleasant(result: BatchResult) {
    && Clean(result.raw)
    && forall i | 0 <= i < |result.cases| :: result.cases[i].riskScore == STEADY_SCORE
  }

  lemma OneBatch(representation: Representation, packets: seq<Packet>, k: nat)
    requires packets != [] && Distinct(CaseIds(packets))
    ensures var run := Execute(representation, packets, Obliging(), k); run.Done? && Pleasant(run.result)
  {
    Accepted(packets);
    var run := Execute(representation, packets, Obliging(), k);
    var first := Try(1, Request(representation, packets), Oblige(Request(representation, packets)));
    assert first.Accept?;
    assert run.result.raw == [first.record] && run.result.cases == first.cases;
  }

  lemma {:induction false} AllBatches(batches: seq<Batch>, k: nat)
    requires forall i | 0 <= i < |batches| :: Consistent(batches[i]) && Distinct(batches[i].caseIds)
    ensures ExecuteAll(batches, Obliging(), k).AllDone?
    ensures forall i | 0 <= i < |batches| :: Pleasant(ExecuteAll(batches, Obliging(), k).results[i])
  {
    if batches != [] {
      assert Consistent(batches[0]);
      OneBatch(batches[0].representation, batches[0].packets, k);
      var run := Execute(batches[0].representation, batches[0].packets, Obliging(), k);
      AllBatches(batches[1..], run.calls);
      var results := ExecuteAll(batches[1..], Obliging(), run.calls).results;
      assert ExecuteAll(batches, Obliging(), k).results == [run.result] + results;
      forall i | 0 <= i < |batches| ensures Pleasant(([run.result] + results)[i]) {
        if i > 0 {
          assert Pleasant(results[i - 1]);
        }
      }
    }
  }

  lemma {:induction false} DistinctInBatch(batches: seq<Batch>, i: nat)
    requires i < |batches| && Distinct(ManifestKeys(batches))
    ensures Distinct(batches[i].caseIds)
  {
    var head, tail := BatchKeys(batches[0]), ManifestKeys(batches[1..]);
    if i == 0 {
      forall j, k | 0 <= j < k < |batches[0].caseIds| ensures batches[0].caseIds[j] != batches[0].caseIds[k] {
        assert (head + tail)[j] != (head + tail)[k];
      }
    } else {
      forall j, k | 0 <= j < k < |tail| ensures tail[j] != tail[k] {
        assert (head + tail)[|head| + j] != (head + tail)[|head| + k];
      }
      DistinctInBatch(batches[1..], i - 1);
    }
  }

  lemma PleasantLog(batches: seq<Batch>, results: seq<BatchResult>)
    requires AllSettled(batches, results) && forall i | 0 <= i < |results| :: Pleasant(results[i])
    ensures NoStoredFailure(LogOf(batches, results)) && NoCrossing(LogOf(batches, results))
  {
    RunsAt(batches, results);
    var raw := LogOf(batches, results);
    forall i | 0 <= i < |raw.runs| ensures Clean(raw.runs[i].records) && raw.runs[i].records == results[i].raw {
      assert Pleasant(results[i]);
    }
    forall i, c | 0 <= i < |raw.runs| && c in Harvest(raw.runs[i].records) ensures !Crosses(c.riskScore) {
      assert Settled(batches[i], results[i]) && Pleasant(results[i]);
      var j :| 0 <= j < |results[i].cases| && results[i].cases[j] == c;
    }
  }

  /** Every manifest of distinct rows has a run that completes and whose log replays. */
  lemma SomeRunReplays(rows: seq<Row>, batches: seq<Batch>, config: string)
    requires DistinctRows(rows) && ManifestOf(rows, batches)
    ensures forall i | 0 <= i < |batches| :: Consistent(batches[i])
    ensures var run := Ran(rows, batches, config, Obliging());
      run.Completed? && NoStoredFailure(run.raw) && NoCrossing(run.raw)
  {
    ManifestWellFormed(rows, batches);
    forall i | 0 <= i < |batches| ensures Distinct(batches[i].caseIds) {
      DistinctInBatch(batches, i);
    }
    AllBatches(batches, 0);
    ManifestIdsKnown(rows, batches);
    ServedAll(rows, batches);
    ExecuteAllSettles(batches, Obliging(), 0);
    PleasantLog(batches, ExecuteAll(batches, Obliging(), 0).results);
  }
}

/** What every run of a batch keeps, whatever the transport does: each case is answered or failed
    exactly once, a failed case failed twice on its own, and the calls are bounded. */
module AgentConservation {
  import opened Ordering
  import opened AgentBatches
  import opened AgentExecution

  function CaseIdOf(c: AgentCase): string { c.caseId }

  function FailedIdOf(f: CaseFailure): string { f.caseId }

  /** An accepted response names exactly the expected cases, each once, with scores in [0,1]. */
  lemma ParsedIds(content: Content, expected: seq<string>)
    requires Parse(content, expected).Parsed?
    ensures var cases := Parse(content, expected).cases;
      && multiset(Map(CaseIdOf, cases)) == multiset(expected)
      && Distinct(Map(CaseIdOf, cases))
      && forall c | c in cases :: 0.0 <= c.riskScore <= 1.0
  {
    var replyCases := content.cases;
    var ids := ReplyIds(replyCases);
    AllTexts(replyCases);
    var rows := CheckCases(replyCases).cases;
    SortPermutes(Texts(ids), StringLe);
    SortPermutes(expected, StringLe);
    assert Map(CaseIdOf, rows) == Texts(ids);
    TextsDistinct(ids);
    SortedCases(rows);
  }

  lemma TextsDistinct(ids: seq<IdField>)
    requires Distinct(ids) && forall i | 0 <= i < |ids| :: ids[i].TextId?
    ensures Distinct(Texts(ids))
  {
    assert forall i | 0 <= i < |ids| :: ids[i] == TextId(Texts(ids)[i]);
  }

  lemma SortedCases(rows: seq<AgentCase>)
    ensures multiset(Map(CaseIdOf, SortBy(rows, CaseLe))) == multiset(Map(CaseIdOf, rows))
    ensures Distinct(Map(CaseIdOf, SortBy(rows, CaseLe))) <==> Distinct(Map(CaseIdOf, rows))
    ensures forall c :: c in SortBy(rows, CaseLe) <==> c in rows
  {
    SortPermutes(rows, CaseLe);
    SameMembers(rows, SortBy(rows, CaseLe));
    MapPermutes(CaseIdOf, rows, SortBy(rows, CaseLe));
    DistinctPermutes(Map(CaseIdOf, rows), Map(CaseIdOf, SortBy(rows, CaseLe)));
  }

  /** Every case of the response has a text id. */
  predicate ListsTexts(content: Content) {
    content.Cases? && NotAnObject !in content.cases && forall id | id in ReplyIds(content.cases) :: id.TextId?
  }

  function ListedIds(content: Content): seq<string>
    requires ListsTexts(content)
  {
    Texts(ReplyIds(content.cases))
  }

  lemma IdsAgain(cases: seq<ReplyCase>, expected: seq<string>)
    requires IdDefect(cases, expected).None?
    ensures IdDefect(cases, Texts(ReplyIds(cases))).None?
    ensures multiset(Texts(ReplyIds(cases))) == multiset(expected)
  {
    SortPermutes(Texts(ReplyIds(cases)), StringLe);
    SortPermutes(expected, StringLe);
  }

  /** Parsing against the ids a response itself lists accepts whatever any other expectation accepted. */
  lemma ParseAgain(content: Content, expected: seq<string>)
    requires Parse(content, expected).Parsed?
    ensures ListsTexts(content)
    ensures Parse(content, ListedIds(content)) == Parse(content, expected)
    ensures multiset(ListedIds(content)) == multiset(expected)
  {
    IdsAgain(content.cases, expected);
  }

  /** The cases an accepted record stands for; none for a failed attempt. */
  function AcceptedCases(record: Record): seq<AgentCase> {
    if record.body.Accepted? && ListsTexts(record.body.response.content) then
      var parsed := Parse(record.body.response.content, ListedIds(record.body.response.content));
      if parsed.Parsed? then parsed.cases else []
    else []
  }

  /** All cases of a log, in log order. */
  function Harvest(raw: seq<Record>): seq<AgentCase> {
    if raw == [] then [] else AcceptedCases(raw[0]) + Harvest(raw[1..])
  }

  lemma {:induction false} HarvestConcat(a: seq<Record>, b: seq<Record>)
    ensures Harvest(a + b) == Harvest(a) + Harvest(b)
  {
    if a == [] {
      assert a + b == b;
    } else {
      assert (a + b)[1..] == a[1..] + b;
      HarvestConcat(a[1..], b);
    }
  }

  lemma TryHarvest(attempt: nat, request: Request, reply: Reply)
    ensures var t := Try(attempt, request, reply);
      && (t.Accept? ==> AcceptedCases(t.record) == t.cases && t.record.body.Accepted?
                        && multiset(Map(CaseIdOf, t.cases)) == multiset(CaseIds(request.packets)))
      && (t.Retry? ==> AcceptedCases(t.record) == [] && !t.record.body.Accepted?)
  {
    var t := Try(attempt, request, reply);
    if t.Accept? {
      ParseAgain(reply.response.content, CaseIds(request.packets));
      ParsedIds(reply.response.content, CaseIds(request.packets));
    }
  }

  /** The ids a result accounts for. */
  function Accounted(result: BatchResult): multiset<string> {
    multiset(Map(CaseIdOf, result.cases)) + multiset(Map(FailedIdOf, result.failures))
  }

  lemma JoinAccounted(raw: seq<Record>, left: BatchResult, right: BatchResult)
    ensures Accounted(Join(raw, left, right)) == Accounted(left) + Accounted(right)
  {
    MapConcat(CaseIdOf, left.cases, right.cases);
    MapConcat(FailedIdOf, left.failures, right.failures);
  }

  /** A result accounts for exactly the given packets, and its cases are those of its accepted records. */
  ghost predicate Conserves(result: BatchResult, packets: seq<Packet>) {
    && Accounted(result) == multiset(CaseIds(packets))
    && result.cases == Harvest(result.raw)
  }

  lemma HarvestTwo(first: Record, second: Record)
    ensures Harvest([second]) == AcceptedCases(second)
    ensures AcceptedCases(first) == [] ==> Harvest([first, second]) == AcceptedCases(second)
  {
    assert [first, second][1..] == [second];
    assert Harvest([second]) == AcceptedCases(second) + Harvest([]);
  }

  lemma HalvesIds(packets: seq<Packet>, midpoint: nat)
    requires midpoint <= |packets|
    ensures multiset(CaseIds(packets)) == multiset(CaseIds(packets[..midpoint])) + multiset(CaseIds(packets[midpoint..]))
  {
    assert CaseIds(packets) == CaseIds(packets[..midpoint]) + CaseIds(packets[midpoint..]);
  }

  lemma JoinConserves(tries: seq<Record>, left: BatchResult, right: BatchResult, packets: seq<Packet>, midpoint: nat)
    requires midpoint <= |packets| && Harvest(tries) == []
    requires Conserves(left, packets[..midpoint]) && Conserves(right, packets[midpoint..])
    ensures Conserves(Join(tries, left, right), packets)
  {
    JoinAccounted(tries, left, right);
    HarvestConcat(tries, left.raw + right.raw);
    HarvestConcat(left.raw, right.raw);
    HalvesIds(packets, midpoint);
  }

  /** Conservation: answered cases and failures together carry every input case exactly once, and the
      answered cases are those of the accepted records, in log order. */
  lemma {:induction false} Conservation(representation: Representation, packets: seq<Packet>, transport: Transport, k: nat)
    requires packets != [] && Execute(representation, packets, transport, k).Done?
    ensures Conserves(Execute(representation, packets, transport, k).result, packets)
    decreases |packets|, 1
  {
    var request := Request(representation, packets);
    TryHarvest(1, request, transport(k, request));
    var first := Try(1, request, transport(k, request));
    if first.Accept? {
      HarvestTwo(first.record, first.record);
    } else {
      TryHarvest(2, request, transport(k + 1, request));
      var second := Try(2, request, transport(k + 1, request));
      HarvestTwo(first.record, second.record);
      if second.Retry? {
        BisectConserves(representation, packets, transport, k + 2, [first.record, second.record], second.error);
      }
    }
  }

  lemma {:induction false} BisectConserves(representation: Representation, packets: seq<Packet>, transport: Transport, k: nat,
                                           raw: seq<Record>, error: string)
    requires packets != [] && Bisect(representation, packets, transport, k, raw, error).Done?
    requires Harvest(raw) == []
    ensures Conserves(Bisect(representation, packets, transport, k, raw, error).result, packets)
    decreases |packets|, 0
  {
    if |packets| == 1 {
      assert CaseIds(packets) == [packets[0].caseId];
      assert Map(FailedIdOf, [CaseFailure(packets[0].caseId, error)]) == [packets[0].caseId];
    } else {
      var midpoint := (|packets| + 1) / 2;
      var left := Execute(representation, packets[..midpoint], transport, k);
      var right := Execute(representation, packets[midpoint..], transport, left.calls);
      Conservation(representation, packets[..midpoint], transport, k);
      Conservation(representation, packets[midpoint..], transport, left.calls);
      JoinConserves(raw, left.result, right.result, packets, midpoint);
    }
  }

  /** At most 4n-2 calls for n cases, at least one; a completed run leaves one record per call. */
  lemma {:induction false} CallBound(representation: Representation, packets: seq<Packet>, transport: Transport, k: nat)
    requires packets != []
    ensures var run := Execute(representation, packets, transport, k);
      && k < run.calls <= k + 4 * |packets| - 2
      && (run.Done? ==> |run.result.raw| == run.calls - k)
    decreases |packets|
  {
    if |packets| > 1 {
      var midpoint := (|packets| + 1) / 2;
      CallBound(representation, packets[..midpoint], transport, k + 2);
      var left := Execute(representation, packets[..midpoint], transport, k + 2);
      CallBound(representation, packets[midpoint..], transport, left.calls);
    }
  }

  /** The bound is reached by a transport whose every call throws a caught error. */
  lemma {:induction false} CallBoundIsTight(representation: Representation, packets: seq<Packet>, transport: Transport, k: nat)
    requires packets != [] && forall n: nat, request :: transport(n, request) == Threw("OSError", true)
    ensures var run := Execute(representation, packets, transport, k);
      run.Done? && run.calls == k + 4 * |packets| - 2 && run.result.cases == []
    decreases |packets|
  {
    if |packets| > 1 {
      var midpoint := (|packets| + 1) / 2;
      CallBoundIsTight(representation, packets[..midpoint], transport, k + 2);
      var left := Execute(representation, packets[..midpoint], transport, k + 2);
      CallBoundIsTight(representation, packets[midpoint..], transport, left.calls);
    }
  }

  predicate Aborts(transport: Transport, n: nat, request: Request) {
    Try(1, request, transport(n, request)).Abort?
  }

  /** A run raises only because one of its own calls met the context budget error or an exception
      the batch does not catch. */
  lemma {:induction false} RaisesOnlyOnAbort(representation: Representation, packets: seq<Packet>, transport: Transport, k: nat)
    returns (n: nat, request: Request)
    requires packets != [] && Execute(representation, packets, transport, k).Raised?
    ensures k <= n < Execute(representation, packets, transport, k).calls
    ensures Aborts(transport, n, request)
    ensures request.representation == representation && forall p | p in request.packets :: p in packets
    ensures Try(1, request, transport(n, request)).reason == Execute(representation, packets, transport, k).error
    decreases |packets|
  {
    request := Request(representation, packets);
    CallBound(representation, packets, transport, k);
    if Try(1, request, transport(k, request)).Abort? {
      n := k;
    } else if Try(2, request, transport(k + 1, request)).Abort? {
      n := k + 1;
    } else {
      var midpoint := (|packets| + 1) / 2;
      var left := Execute(representation, packets[..midpoint], transport, k + 2);
      CallBound(representation, packets[..midpoint], transport, k + 2);
      if left.Raised? {
        n, request := RaisesOnlyOnAbort(representation, packets[..midpoint], transport, k + 2);
      } else {
        CallBound(representation, packets[midpoint..], transport, left.calls);
        n, request := RaisesOnlyOnAbort(representation, packets[midpoint..], transport, left.calls);
      }
    }
  }

  // ----- failures

  function ErrorOf(body: Body): string
    requires !body.Accepted?
  {
    match body
    case SchemaFailed(code, _) => code
    case Errored(error) => error
  }

  /** Records i and i+1 are the two failed attempts at the batch holding only packet `p`. */
  ghost predicate FailedTwiceAt(raw: seq<Record>, i: nat, request: Request, failure: CaseFailure) {
    && i + 1 < |raw|
    && raw[i].requestHash == raw[i + 1].requestHash == RequestDigest(request)
    && raw[i].attempt == 1 && raw[i + 1].attempt == 2
    && !raw[i].body.Accepted? && !raw[i + 1].body.Accepted?
    && |request.packets| == 1 && request.packets[0].caseId == failure.caseId
    && ErrorOf(raw[i + 1].body) == failure.error
  }

  ghost predicate FailedAlone(raw: seq<Record>, failure: CaseFailure) {
    exists i: nat, request :: FailedTwiceAt(raw, i, request, failure)
  }

  lemma FailedAloneInLonger(before: seq<Record>, raw: seq<Record>, after: seq<Record>, failure: CaseFailure)
    requires FailedAlone(raw, failure)
    ensures FailedAlone(before + raw + after, failure)
  {
    var i: nat, request :| FailedTwiceAt(raw, i, request, failure);
    assert FailedTwiceAt(before + raw + after, |before| + i, request, failure);
  }

  /** A case is reported as failed only after the batch that held nothing else failed twice. */
  lemma {:induction false} FailsOnlyAlone(representation: Representation, packets: seq<Packet>, transport: Transport, k: nat,
                                          failure: CaseFailure)
    requires packets != [] && Execute(representation, packets, transport, k).Done?
    requires failure in Execute(representation, packets, transport, k).result.failures
    ensures FailedAlone(Execute(representation, packets, transport, k).result.raw, failure)
    decreases |packets|
  {
    var request := Request(representation, packets);
    var first := Try(1, request, transport(k, request));
    var second := Try(2, request, transport(k + 1, request));
    TryHarvest(1, request, transport(k, request));
    TryHarvest(2, request, transport(k + 1, request));
    var tries := [first.record, second.record];
    if |packets| == 1 {
      assert FailedTwiceAt(tries, 0, request, failure);
    } else {
      var midpoint := (|packets| + 1) / 2;
      var left := Execute(representation, packets[..midpoint], transport, k + 2);
      var right := Execute(representation, packets[midpoint..], transport, left.calls);
      if failure in left.result.failures {
        FailsOnlyAlone(representation, packets[..midpoint], transport, k + 2, failure);
      } else {
        FailsOnlyAlone(representation, packets[midpoint..], transport, left.calls, failure);
      }
      FailedAloneInJoin(tries, left.result.raw, right.result.raw, failure);
    }
  }

  lemma FailedAloneInJoin(tries: seq<Record>, left: seq<Record>, right: seq<Record>, failure: CaseFailure)
    requires FailedAlone(left, failure) || FailedAlone(right, failure)
    ensures FailedAlone(tries + (left + right), failure)
  {
    if FailedAlone(left, failure) {
      FailedAloneInLonger(tries, left, right, failure);
      assert tries + (left + right) == tries + left + right;
    } else {
      FailedAloneInLonger(tries + left, right, [], failure);
      assert tries + (left + right) == tries + left + right + [];
    }
  }
}

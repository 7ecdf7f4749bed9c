/** One batch against a fallible transport: two attempts, then left/right bisection
    (backend/finrisk/e4_agent.py, `_parse` and `execute_batch`). */
module AgentExecution {
  import opened Wrappers
  import opened Ordering
  import opened AgentBatches

  // ----- what a transport can answer

  /** A JSON `case_id`: text, number (or boolean), null or absent, list or object. */
  datatype IdField = TextId(text: string) | NumberId(value: real) | NoId | CompoundId

  /** A JSON `risk_score`; `TooLarge` is an integer no float can hold. */
  datatype ScoreField = Score(value: real) | NotFinite | TooLarge | NotNumeric

  datatype ReplyCase =
    | ReplyCase(caseId: IdField, score: ScoreField, reasonCodes: Option<seq<string>>, summary: Option<string>)
    | NotAnObject

  /** The response content, as far as `_parse` can decode it. */
  datatype Content = NoContent | NotText | NotJson | NoCasesArray | Cases(cases: seq<ReplyCase>)

  /** `usage.prompt_tokens`: absent, a count, or a value whose reading raises. */
  datatype TokenField = NoCount | Count(tokens: int) | Unreadable(error: string, caught: bool)

  datatype Response = Response(tokens: TokenField, content: Content)

  /** `caught` says whether the raised exception is one of KeyError, TypeError, ValueError, OSError. */
  datatype Reply = Responded(response: Response) | NotAMapping | Threw(error: string, caught: bool)

  /** Any transport behaviour, stateful or not: the answer to the n-th call. */
  type Transport = (nat, Request) -> Reply

  // ----- parsing

  datatype AgentCase = AgentCase(caseId: string, riskScore: real, reasonCodes: seq<string>, summary: string)

  datatype ParseOutcome =
    | Parsed(cases: seq<AgentCase>)
    | SchemaError(code: string)
    | OtherError(error: string, caught: bool)

  function ReplyIds(cases: seq<ReplyCase>): (ids: seq<IdField>)
    requires NotAnObject !in cases
    ensures |ids| == |cases|
    ensures forall i | 0 <= i < |cases| :: ids[i] == cases[i].caseId
  {
    assert forall i | 0 <= i < |cases| :: cases[i] in cases;
    seq(|cases|, i requires 0 <= i < |cases| => cases[i].caseId)
  }

  function Texts(ids: seq<IdField>): (texts: seq<string>)
    requires forall id | id in ids :: id.TextId?
    ensures |texts| == |ids|
    ensures forall i | 0 <= i < |ids| :: texts[i] == ids[i].text
  {
    seq(|ids|, i requires 0 <= i < |ids| => ids[i].text)
  }

  /** Python can sort a list of texts or a list of numbers, or anything of length one. */
  predicate Sortable(ids: seq<IdField>) {
    |ids| <= 1 || (forall id | id in ids :: id.TextId?) || (forall id | id in ids :: id.NumberId?)
  }

  predicate SameIds(ids: seq<IdField>, expected: seq<string>) {
    (forall id | id in ids :: id.TextId?) && SortBy(Texts(ids), StringLe) == SortBy(expected, StringLe)
  }

  /** The first defect of a case, in the order the fields are checked. */
  function Defect(c: ReplyCase): Option<ParseOutcome>
    requires c.ReplyCase?
  {
    match c.score
    case NotNumeric => Some(SchemaError("NON_NUMERIC_SCORE"))
    case TooLarge => Some(OtherError("OverflowError", false))
    case NotFinite => Some(SchemaError("SCORE_OUT_OF_RANGE"))
    case Score(value) =>
      if !(0.0 <= value <= 1.0) then Some(SchemaError("SCORE_OUT_OF_RANGE"))
      else if c.reasonCodes.None? then Some(SchemaError("INVALID_REASON_CODES"))
      else if c.summary.None? then Some(SchemaError("INVALID_SUMMARY"))
      else None
  }

  /** The rows in reply order, or the first defect. */
  function CheckCases(cases: seq<ReplyCase>): (r: ParseOutcome)
    requires forall c | c in cases :: c.ReplyCase? && c.caseId.TextId?
    ensures r.Parsed? ==> |r.cases| == |cases|
    ensures r.Parsed? ==> forall i | 0 <= i < |cases| ::
        r.cases[i].caseId == cases[i].caseId.text && 0.0 <= r.cases[i].riskScore <= 1.0
  {
    if cases == [] then Parsed([])
    else
      match Defect(cases[0])
      case Some(error) => error
      case None =>
        var rest := CheckCases(cases[1..]);
        if !rest.Parsed? then rest
        else
          var c := cases[0];
          Parsed([AgentCase(c.caseId.text, c.score.value, c.reasonCodes.value, c.summary.value)] + rest.cases)
  }

  lemma AllTexts(cases: seq<ReplyCase>)
    requires NotAnObject !in cases && forall id | id in ReplyIds(cases) :: id.TextId?
    ensures forall c | c in cases :: c.ReplyCase? && c.caseId.TextId?
  {
    forall c | c in cases ensures c.ReplyCase? && c.caseId.TextId? {
      var i :| 0 <= i < |cases| && cases[i] == c;
      assert ReplyIds(cases)[i] == c.caseId;
    }
  }

  predicate CaseLe(a: AgentCase, b: AgentCase) {
    StringLe(a.caseId, b.caseId)
  }

  /** What is wrong with the ids of a reply, if anything. */
  function IdDefect(cases: seq<ReplyCase>, expected: seq<string>): (r: Option<ParseOutcome>)
    ensures r.Some? ==> !r.value.Parsed?
    ensures r.None? ==> NotAnObject !in cases && forall id | id in ReplyIds(cases) :: id.TextId?
  {
    if NotAnObject in cases then Some(OtherError("AttributeError", false))
    else
      var ids := ReplyIds(cases);
      if CompoundId in ids then Some(OtherError("TypeError", true))
      else if !Distinct(ids) then Some(SchemaError("DUPLICATE_CASE_IDS"))
      else if !Sortable(ids) then Some(OtherError("TypeError", true))
      else if !SameIds(ids, expected) then Some(SchemaError("CASE_ID_MISMATCH"))
      else None
  }

  function SortedCases(cases: seq<ReplyCase>): ParseOutcome
    requires NotAnObject !in cases && forall id | id in ReplyIds(cases) :: id.TextId?
  {
    AllTexts(cases);
    match CheckCases(cases)
    case Parsed(rows) => Parsed(SortBy(rows, CaseLe))
    case error => error
  }

  function Parse(content: Content, expected: seq<string>): ParseOutcome {
    match content
    case NoContent => SchemaError("MISSING_RESPONSE_CONTENT")
    case NotText => SchemaError("NON_STRING_CONTENT")
    case NotJson => SchemaError("MALFORMED_JSON")
    case NoCasesArray => SchemaError("MISSING_CASES_ARRAY")
    case Cases(cases) =>
      var defect := IdDefect(cases, expected);
      if defect.Some? then defect.value else SortedCases(cases)
  }

  // ----- attempts

  datatype Body = Accepted(response: Response) | SchemaFailed(code: string, response: Response) | Errored(error: string)

  /** One entry of the raw log. Latency and the response's own hash are not kept. */
  datatype Record = Record(attempt: nat, requestHash: Digest, body: Body)

  datatype CaseFailure = CaseFailure(caseId: string, error: string)

  datatype BatchResult = BatchResult(cases: seq<AgentCase>, raw: seq<Record>, failures: seq<CaseFailure>)

  datatype RunError = ContextBudget(tokens: int) | Escaped(error: string)

  datatype Attempt = Accept(record: Record, cases: seq<AgentCase>) | Retry(record: Record, error: string) | Abort(reason: RunError)

  datatype Run = Done(result: BatchResult, calls: nat) | Raised(error: RunError, calls: nat)

  /** One pass through the `try` block. */
  function Try(attempt: nat, request: Request, reply: Reply): Attempt {
    var digest := RequestDigest(request);
    match reply
    case NotAMapping => Abort(Escaped("AttributeError"))
    case Threw(error, caught) =>
      if caught then Retry(Record(attempt, digest, Errored(error)), error) else Abort(Escaped(error))
    case Responded(response) =>
      if response.tokens.Unreadable? then
        if response.tokens.caught then Retry(Record(attempt, digest, Errored(response.tokens.error)), response.tokens.error)
        else Abort(Escaped(response.tokens.error))
      else if response.tokens.Count? && response.tokens.tokens > CONTEXT_BUDGET then
        Abort(ContextBudget(response.tokens.tokens))
      else
        match Parse(response.content, CaseIds(request.packets))
        case Parsed(cases) => Accept(Record(attempt, digest, Accepted(response)), cases)
        case SchemaError(code) => Retry(Record(attempt, digest, SchemaFailed(code, response)), code)
        case OtherError(error, caught) =>
          if caught then Retry(Record(attempt, digest, Errored(error)), error) else Abort(Escaped(error))
  }

  function Join(raw: seq<Record>, left: BatchResult, right: BatchResult): BatchResult {
    BatchResult(left.cases + right.cases, raw + (left.raw + right.raw), left.failures + right.failures)
  }

  /** The outcome of a batch whose first transport call is call number `k`. */
  function Execute(representation: Representation, packets: seq<Packet>, transport: Transport, k: nat): Run
    requires packets != []
    decreases |packets|
  {
    var request := Request(representation, packets);
    match Try(1, request, transport(k, request))
    case Abort(error) => Raised(error, k + 1)
    case Accept(record, cases) => Done(BatchResult(cases, [record], []), k + 1)
    case Retry(first, _) =>
      match Try(2, request, transport(k + 1, request))
      case Abort(error) => Raised(error, k + 2)
      case Accept(record, cases) => Done(BatchResult(cases, [first, record], []), k + 2)
      case Retry(second, error) => Bisect(representation, packets, transport, k + 2, [first, second], error)
  }

  /** After two failed attempts: a single case fails, several are split. */
  function Bisect(representation: Representation, packets: seq<Packet>, transport: Transport, k: nat,
                  raw: seq<Record>, error: string): Run
    requires packets != []
    decreases |packets|, 0
  {
    if |packets| == 1 then Done(BatchResult([], raw, [CaseFailure(packets[0].caseId, error)]), k)
    else
      var midpoint := (|packets| + 1) / 2;
      var left := Execute(representation, packets[..midpoint], transport, k);
      if left.Raised? then left
      else
        var right := Execute(representation, packets[midpoint..], transport, left.calls);
        if right.Raised? then right
        else Done(Join(raw, left.result, right.result), right.calls)
  }

  method ExecuteBatch(batch: Batch, transport: Transport, k: nat) returns (run: Run)
    requires batch.packets != [] && batch.caseIds == CaseIds(batch.packets)
    ensures run == Execute(batch.representation, batch.packets, transport, k)
    decreases |batch.packets|
  {
    var request := Request(batch.representation, batch.packets);
    var raw: seq<Record> := [];
    var lastError := "";
    ghost var first := Try(1, request, transport(k, request));
    for attempt := 1 to 3
      invariant |raw| == attempt - 1
      invariant attempt >= 2 ==> first.Retry? && raw[0] == first.record
      invariant attempt == 3 ==>
        var second := Try(2, request, transport(k + 1, request));
        second.Retry? && raw[1] == second.record && lastError == second.error
    {
      var outcome := Try(attempt, request, transport(k + attempt - 1, request));
      match outcome
      case Abort(error) => return Raised(error, k + attempt);
      case Accept(record, cases) => return Done(BatchResult(cases, raw + [record], []), k + attempt);
      case Retry(record, error) =>
        lastError := error;
        raw := raw + [record];
    }
    assert raw == [raw[0], raw[1]];
    if |batch.packets| == 1 {
      return Done(BatchResult([], raw, [CaseFailure(batch.caseIds[0], lastError)]), k + 2);
    }
    var midpoint := (|batch.packets| + 1) / 2;
    var left := ExecuteBatch(Child(batch, "L", batch.packets[..midpoint]), transport, k + 2);
    if left.Raised? {
      return left;
    }
    var right := ExecuteBatch(Child(batch, "R", batch.packets[midpoint..]), transport, left.calls);
    if right.Raised? {
      return right;
    }
    run := Done(Join(raw, left.result, right.result), right.calls);
  }

  function Child(batch: Batch, suffix: string, packets: seq<Packet>): Batch {
    batch.(batchId := batch.batchId + "-" + suffix, packets := packets, caseIds := CaseIds(packets),
           packetHashes := Digests(packets))
  }
}

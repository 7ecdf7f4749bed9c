/** Batching of masked case packets under a count cap and a token budget
    (backend/finrisk/e4_agent.py, `make_batches` and `build_manifest`). */
module AgentBatches {
  import opened Wrappers
  import opened Ordering

  const CONTEXT_BUDGET: nat := 2867  // int(4096 * 0.70)
  const MAX_BATCH: nat := 25

  // Lengths of the fixed texts around the cases.
  const SYSTEM_PROMPT_LENGTH: nat := 328
  const USER_FRAME_LENGTH: nat := 34    // {"cases":[],"representation":"A0"}
  const SCHEMA_FRAME_LENGTH: nat := 402  // output_schema without its two case counts
  const HEADROOM: nat := 256

  datatype Representation = A0 | A1 | A2

  /** A packet and its canonical JSON text. */
  datatype Packet = Packet(caseId: string, text: string)

  /** One frozen feature row with the packet text of each representation. */
  datatype Row = Row(observationId: string, companyId: string, a0: string, a1: string, a2: string)

  /** `canonical_hash`, kept symbolic: a digest stands for what was hashed. */
  datatype Digest = PacketDigest(packet: Packet) | RequestDigest(request: Request)

  datatype Request = Request(representation: Representation, packets: seq<Packet>)

  datatype Batch = Batch(
    batchId: string,
    representation: Representation,
    caseIds: seq<string>,
    packetHashes: seq<Digest>,
    estimatedTokens: nat,
    packets: seq<Packet>)

  datatype BatchError = PacketExceedsBudget(representation: Representation)

  function PacketOf(row: Row, representation: Representation): Packet {
    Packet(row.companyId, match representation case A0 => row.a0 case A1 => row.a1 case A2 => row.a2)
  }

  function Packets(rows: seq<Row>, representation: Representation): (p: seq<Packet>)
    ensures |p| == |rows|
    ensures forall i | 0 <= i < |rows| :: p[i] == PacketOf(rows[i], representation)
  {
    seq(|rows|, i requires 0 <= i < |rows| => PacketOf(rows[i], representation))
  }

  function CaseIds(packets: seq<Packet>): (ids: seq<string>)
    ensures |ids| == |packets|
    ensures forall i | 0 <= i < |packets| :: ids[i] == packets[i].caseId
  {
    seq(|packets|, i requires 0 <= i < |packets| => packets[i].caseId)
  }

  function Digests(packets: seq<Packet>): seq<Digest> {
    seq(|packets|, i requires 0 <= i < |packets| => PacketDigest(packets[i]))
  }

  predicate RowLe(a: Row, b: Row) {
    StringLe(a.observationId, b.observationId)
  }

  // ----- decimal text

  function Decimal(n: nat): (s: string)
    ensures |s| >= 1
  {
    if n < 10 then ['0' + n as char] else Decimal(n / 10) + ['0' + (n % 10) as char]
  }

  function Pad4(s: string): string
    decreases 4 - |s|
  {
    if |s| >= 4 then s else Pad4("0" + s)
  }

  /** The number a decimal text denotes. */
  function Value(s: string): int {
    if s == [] then 0 else Value(s[..|s| - 1]) * 10 + (s[|s| - 1] as int - '0' as int)
  }

  lemma {:induction false} DecimalRoundTrip(n: nat)
    ensures Value(Decimal(n)) == n
  {
    if n >= 10 {
      DecimalRoundTrip(n / 10);
      var s := Decimal(n);
      assert s[..|s| - 1] == Decimal(n / 10);
    } else {
      assert Decimal(n)[..0] == [];
      assert Value(Decimal(n)) == Value([]) * 10 + n;
    }
  }

  lemma {:induction false} LeadingZero(s: string)
    ensures Value("0" + s) == Value(s)
  {
    if s == [] {
      assert "0" + s == "0";
      assert "0"[..0] == [];
      assert Value("0") == Value([]) * 10 + 0;
    } else {
      LeadingZero(s[..|s| - 1]);
      assert ("0" + s)[..|s|] == "0" + s[..|s| - 1];
    }
  }

  lemma {:induction false} PadKeepsValue(s: string)
    ensures Value(Pad4(s)) == Value(s)
    decreases 4 - |s|
  {
    if |s| < 4 {
      PadKeepsValue("0" + s);
      LeadingZero(s);
    }
  }

  lemma {:induction false} DigitsMonotone(m: nat, n: nat)
    requires m <= n
    ensures |Decimal(m)| <= |Decimal(n)|
  {
    if m >= 10 {
      DigitsMonotone(m / 10, n / 10);
    }
  }

  function Name(representation: Representation): (s: string)
    ensures |s| == 2
  {
    match representation case A0 => "A0" case A1 => "A1" case A2 => "A2"
  }

  /** `f"{representation}-{index:04d}"` */
  function BatchId(representation: Representation, index: nat): string {
    Name(representation) + "-" + Pad4(Decimal(index))
  }

  /** Two manifest entries share an id only if they are the same entry. */
  lemma {:induction false} BatchIdInjective(r: Representation, i: nat, s: Representation, j: nat)
    requires BatchId(r, i) == BatchId(s, j)
    ensures r == s && i == j
  {
    assert BatchId(r, i)[..2] == Name(r) && BatchId(s, j)[..2] == Name(s);
    assert Name(r)[1] == Name(s)[1];
    assert BatchId(r, i)[3..] == Pad4(Decimal(i)) && BatchId(s, j)[3..] == Pad4(Decimal(j));
    PadKeepsValue(Decimal(i));
    PadKeepsValue(Decimal(j));
    DecimalRoundTrip(i);
    DecimalRoundTrip(j);
  }

  // ----- token estimate

  function TextLength(packets: seq<Packet>): nat {
    if packets == [] then 0 else |packets[0].text| + TextLength(packets[1..])
  }

  /** Half the characters of system prompt, user message, output schema and headroom, rounded up. */
  function PreflightTokens(packets: seq<Packet>): nat {
    var separators := if packets == [] then 0 else |packets| - 1;
    var user := USER_FRAME_LENGTH + TextLength(packets) + separators;
    var schema := SCHEMA_FRAME_LENGTH + 2 * |Decimal(|packets|)|;
    (SYSTEM_PROMPT_LENGTH + user + schema + HEADROOM + 1) / 2
  }

  predicate Feasible(packets: seq<Packet>) {
    |packets| <= MAX_BATCH && PreflightTokens(packets) <= CONTEXT_BUDGET
  }

  lemma {:induction false} TextLengthConcat(a: seq<Packet>, b: seq<Packet>)
    ensures TextLength(a + b) == TextLength(a) + TextLength(b)
  {
    if a == [] {
      assert a + b == b;
    } else {
      assert (a + b)[1..] == a[1..] + b;
      TextLengthConcat(a[1..], b);
    }
  }

  lemma {:induction false} TokensOfPart(a: seq<Packet>, b: seq<Packet>, c: seq<Packet>)
    ensures PreflightTokens(b) <= PreflightTokens(a + b + c)
  {
    TextLengthConcat(a + b, c);
    TextLengthConcat(a, b);
    DigitsMonotone(|b|, |a + b + c|);
  }

  /** Every contiguous part of a feasible batch is feasible. */
  lemma {:induction false} FeasiblePart(s: seq<Packet>, lo: nat, hi: nat)
    requires lo <= hi <= |s| && Feasible(s)
    ensures Feasible(s[lo..hi])
  {
    assert s == s[..lo] + s[lo..hi] + s[hi..];
    TokensOfPart(s[..lo], s[lo..hi], s[hi..]);
  }

  // ----- grouping

  function Concat<T>(groups: seq<seq<T>>): seq<T> {
    if groups == [] then [] else groups[0] + Concat(groups[1..])
  }

  lemma {:induction false} ConcatAppend<T>(groups: seq<seq<T>>, last: seq<T>)
    ensures Concat(groups + [last]) == Concat(groups) + last
  {
    if groups == [] {
      assert groups + [last] == [last];
      assert Concat([last]) == last + Concat([]);
    } else {
      assert (groups + [last])[1..] == groups[1..] + [last];
      ConcatAppend(groups[1..], last);
    }
  }

  /** No group could have taken the first packet of the next one. */
  ghost predicate Maximal(groups: seq<seq<Packet>>) {
    && (forall i | 0 <= i < |groups| :: groups[i] != [])
    && (forall i | 0 <= i < |groups| - 1 :: !Feasible(groups[i] + [groups[i + 1][0]]))
  }

  /** Greedy stays ahead: if what `greedy` covers is a tail of what `other` covers,
      `greedy` needs no more groups. */
  lemma {:induction false} GreedyStaysAhead(greedy: seq<seq<Packet>>, other: seq<seq<Packet>>, offset: nat)
    requires Maximal(greedy)
    requires forall g | g in other :: Feasible(g)
    requires offset <= |Concat(other)| && Concat(greedy) == Concat(other)[offset..]
    ensures |greedy| <= |other|
  {
    if greedy != [] && other != [] {
      var head, rest := other[0], Concat(other[1..]);
      assert Concat(other) == head + rest;
      if |head| <= offset {
        assert Concat(other)[offset..] == rest[offset - |head|..];
        GreedyStaysAhead(greedy, other[1..], offset - |head|);
      } else if |greedy| > 1 {
        GreedyHeadCovers(greedy, head, rest, offset);
        var next := offset + |greedy[0]| - |head|;
        assert Concat(greedy)[|greedy[0]|..] == Concat(greedy[1..]);
        assert Concat(other)[offset..][|greedy[0]|..] == rest[next..];
        GreedyStaysAhead(greedy[1..], other[1..], next);
      }
    }
  }

  lemma {:induction false} GreedyHeadCovers(greedy: seq<seq<Packet>>, head: seq<Packet>, rest: seq<Packet>, offset: nat)
    requires Maximal(greedy) && |greedy| > 1 && Feasible(head) && offset < |head|
    requires Concat(greedy) == (head + rest)[offset..]
    ensures |head| <= offset + |greedy[0]|
  {
    var wanted := greedy[0] + [greedy[1][0]];
    assert Concat(greedy) == greedy[0] + (greedy[1] + Concat(greedy[1..][1..]));
    assert Concat(greedy)[..|wanted|] == wanted;
    if |head| > offset + |greedy[0]| {
      assert (head + rest)[offset..][..|wanted|] == head[offset..offset + |wanted|];
      FeasiblePart(head, offset, offset + |wanted|);
      assert false;
    }
  }

  function MakeBatch(representation: Representation, index: nat, packets: seq<Packet>): Batch {
    Batch(BatchId(representation, index), representation, CaseIds(packets), Digests(packets),
          PreflightTokens(packets), packets)
  }

  function Groups(batches: seq<Batch>): (g: seq<seq<Packet>>)
    ensures |g| == |batches|
    ensures forall i | 0 <= i < |g| :: g[i] == batches[i].packets
  {
    seq(|batches|, i requires 0 <= i < |batches| => batches[i].packets)
  }

  /** What a batch list for one representation must be: the sorted packets cut into consecutive
      feasible batches, numbered from 1. */
  ghost predicate BatchesOf(rows: seq<Row>, representation: Representation, batches: seq<Batch>) {
    && Concat(Groups(batches)) == Packets(SortBy(rows, RowLe), representation)
    && (forall i | 0 <= i < |batches| ::
          && batches[i] == MakeBatch(representation, i + 1, batches[i].packets)
          && batches[i].packets != []
          && Feasible(batches[i].packets))
  }

  ghost predicate Overflows(item: Packet) {
    PreflightTokens([item]) > CONTEXT_BUDGET
  }

  /** The state of the packing loop after the packets `seen`. */
  ghost predicate Packing(groups: seq<seq<Packet>>, current: seq<Packet>, seen: seq<Packet>) {
    && Concat(groups) + current == seen
    && (current == [] ==> groups == [])
    && (current != [] ==> Maximal(groups + [current]) && Feasible(current))
    && (forall g | g in groups :: Feasible(g))
    && (forall item | item in seen :: !Overflows(item))
  }

  /** Adding the packet to the open group keeps the packing when the result fits. */
  lemma ExtendOpen(groups: seq<seq<Packet>>, current: seq<Packet>, seen: seq<Packet>, item: Packet)
    requires Packing(groups, current, seen) && Feasible(current + [item])
    ensures Packing(groups, current + [item], seen + [item])
  {
    var a, b := groups + [current], groups + [current + [item]];
    assert forall i | 0 <= i < |groups| :: b[i] == a[i];
    assert forall i | 0 <= i < |b| :: b[i] != [];
    forall i | 0 <= i < |b| - 1 ensures !Feasible(b[i] + [b[i + 1][0]]) {
      assert a[i] == b[i] && a[i + 1][0] == b[i + 1][0];
    }
    assert Concat(groups) + (current + [item]) == seen + [item];
    TokensOfPart(current, [item], []);
    assert current + [item] == current + [item] + [];
  }

  /** Closing the open group keeps the packing when the packet did not fit into it. */
  lemma CloseOpen(groups: seq<seq<Packet>>, current: seq<Packet>, seen: seq<Packet>, item: Packet)
    requires Packing(groups, current, seen) && current != []
    requires !Feasible(current + [item]) && Feasible([item])
    ensures Packing(groups + [current], [item], seen + [item])
  {
    ConcatAppend(groups, current);
    var a, b := groups + [current], groups + [current] + [[item]];
    assert forall i | 0 <= i < |a| :: b[i] == a[i];
    assert forall i | 0 <= i < |b| :: b[i] != [];
    forall i | 0 <= i < |b| - 1 ensures !Feasible(b[i] + [b[i + 1][0]]) {
      if i < |a| - 1 {
        assert !Feasible(a[i] + [a[i + 1][0]]);
      }
    }
  }

  /** A group that broke the budget consists of one packet that breaks it alone. */
  method PackGroups(packets: seq<Packet>) returns (r: Result<seq<seq<Packet>>, ()>)
    ensures r.Failure? <==> exists item | item in packets :: Overflows(item)
    ensures r.Success? ==> Concat(r.value) == packets && Maximal(r.value) && forall g | g in r.value :: Feasible(g)
  {
    var groups: seq<seq<Packet>> := [];
    var current: seq<Packet> := [];
    for i := 0 to |packets|
      invariant Packing(groups, current, packets[..i])
      invariant current == [] <==> i == 0
    {
      var item := packets[i];
      var candidate := current + [item];
      assert packets[..i + 1] == packets[..i] + [item];
      if current != [] && (|candidate| > MAX_BATCH || PreflightTokens(candidate) > CONTEXT_BUDGET) {
        if !Overflows(item) {
          CloseOpen(groups, current, packets[..i], item);
        }
        groups := groups + [current];
        current := [item];
      } else {
        if Feasible(candidate) {
          ExtendOpen(groups, current, packets[..i], item);
        }
        current := candidate;
      }
      if PreflightTokens(current) > CONTEXT_BUDGET {
        assert current == [item] && Overflows(item);
        return Failure(());
      }
    }
    assert packets[..|packets|] == packets;
    if current != [] {
      ConcatAppend(groups, current);
      groups := groups + [current];
    }
    r := Success(groups);
  }

  ghost predicate SomeOverflow(rows: seq<Row>, representation: Representation) {
    exists row | row in rows :: Overflows(PacketOf(row, representation))
  }

  /** No cut of the packets into consecutive feasible groups has fewer than `count` groups. */
  ghost predicate Fewest(packets: seq<Packet>, count: nat) {
    forall other: seq<seq<Packet>> | Concat(other) == packets && (forall g | g in other :: Feasible(g)) ::
      count <= |other|
  }

  lemma OverflowInPackets(rows: seq<Row>, ordered: seq<Row>, representation: Representation)
    requires forall row :: row in rows <==> row in ordered
    ensures SomeOverflow(rows, representation)
      <==> exists item | item in Packets(ordered, representation) :: Overflows(item)
  {
    var packets := Packets(ordered, representation);
    forall row | row in rows ensures PacketOf(row, representation) in packets {
      var i :| 0 <= i < |ordered| && ordered[i] == row;
      assert packets[i] == PacketOf(row, representation);
    }
  }

  lemma GreedyIsFewest(groups: seq<seq<Packet>>, packets: seq<Packet>)
    requires Concat(groups) == packets && Maximal(groups)
    ensures Fewest(packets, |groups|)
  {
    forall other: seq<seq<Packet>> | Concat(other) == packets && (forall g | g in other :: Feasible(g))
      ensures |groups| <= |other|
    {
      assert Concat(other)[0..] == packets;
      GreedyStaysAhead(groups, other, 0);
    }
  }

  function Numbered(groups: seq<seq<Packet>>, representation: Representation): (batches: seq<Batch>)
    ensures Groups(batches) == groups
    ensures forall i | 0 <= i < |batches| :: batches[i] == MakeBatch(representation, i + 1, batches[i].packets)
  {
    seq(|groups|, i requires 0 <= i < |groups| => MakeBatch(representation, i + 1, groups[i]))
  }

  /** Greedy packing. It raises exactly when some packet alone exceeds the budget; otherwise no way of
      cutting the same packets into feasible consecutive groups uses fewer batches. */
  method MakeBatches(rows: seq<Row>, representation: Representation) returns (r: Result<seq<Batch>, BatchError>)
    ensures r.Failure? <==> SomeOverflow(rows, representation)
    ensures r.Failure? ==> r.error == PacketExceedsBudget(representation)
    ensures r.Success? ==> BatchesOf(rows, representation, r.value)
    ensures r.Success? ==> Fewest(Packets(SortBy(rows, RowLe), representation), |r.value|)
  {
    var ordered := SortBy(rows, RowLe);
    SortPermutes(rows, RowLe);
    SameMembers(rows, ordered);
    var packets := Packets(ordered, representation);
    var packed := PackGroups(packets);
    OverflowInPackets(rows, ordered, representation);
    if packed.Failure? {
      return Failure(PacketExceedsBudget(representation));
    }
    GreedyIsFewest(packed.value, packets);
    r := Success(Numbered(packed.value, representation));
  }

  /** The manifest: the batches of A0, then of A1, then of A2. */
  ghost predicate ManifestOf(rows: seq<Row>, batches: seq<Batch>) {
    exists a0, a1, a2 ::
      && BatchesOf(rows, A0, a0) && BatchesOf(rows, A1, a1) && BatchesOf(rows, A2, a2)
      && batches == a0 + a1 + a2
  }

  method BuildManifest(rows: seq<Row>) returns (r: Result<seq<Batch>, BatchError>)
    ensures r.Success? ==> ManifestOf(rows, r.value)
    ensures r.Failure? <==> SomeOverflow(rows, A0) || SomeOverflow(rows, A1) || SomeOverflow(rows, A2)
    ensures r.Failure? ==> SomeOverflow(rows, r.error.representation)
  {
    var a0 := MakeBatches(rows, A0);
    if a0.Failure? {
      return Failure(a0.error);
    }
    var a1 := MakeBatches(rows, A1);
    if a1.Failure? {
      return Failure(a1.error);
    }
    var a2 := MakeBatches(rows, A2);
    if a2.Failure? {
      return Failure(a2.error);
    }
    r := Success(a0.value + a1.value + a2.value);
  }

  // ----- when there is a manifest at all

  lemma FitsAlone(item: Packet)
    requires !Overflows(item)
    ensures Feasible([item])
  {
  }

  /** Packets that fit alone can be packed. */
  lemma {:induction false} PackingExists(packets: seq<Packet>) returns (groups: seq<seq<Packet>>, current: seq<Packet>)
    requires forall item | item in packets :: !Overflows(item)
    ensures Packing(groups, current, packets) && (current == [] <==> packets == [])
  {
    if packets == [] {
      groups, current := [], [];
    } else {
      var last := |packets| - 1;
      var item := packets[last];
      assert packets == packets[..last] + [item];
      groups, current := PackingExists(packets[..last]);
      FitsAlone(item);
      if current == [] {
        assert current + [item] == [item];
        ExtendOpen(groups, current, packets[..last], item);
        current := [item];
      } else if Feasible(current + [item]) {
        ExtendOpen(groups, current, packets[..last], item);
        current := current + [item];
      } else {
        CloseOpen(groups, current, packets[..last], item);
        groups, current := groups + [current], [item];
      }
    }
  }

  lemma BatchesExist(rows: seq<Row>, representation: Representation)
    requires !SomeOverflow(rows, representation)
    ensures exists batches :: BatchesOf(rows, representation, batches)
  {
    var ordered := SortBy(rows, RowLe);
    SortPermutes(rows, RowLe);
    SameMembers(rows, ordered);
    OverflowInPackets(rows, ordered, representation);
    var groups, current := PackingExists(Packets(ordered, representation));
    if current != [] {
      ConcatAppend(groups, current);
      groups := groups + [current];
    }
    assert BatchesOf(rows, representation, Numbered(groups, representation));
  }

  lemma {:induction false} InSomeGroup<T>(groups: seq<seq<T>>, item: T) returns (g: nat, i: nat)
    requires item in Concat(groups)
    ensures g < |groups| && i < |groups[g]| && groups[g][i] == item
  {
    if item in groups[0] {
      g := 0;
      i :| i < |groups[0]| && groups[0][i] == item;
    } else {
      g, i := InSomeGroup(groups[1..], item);
      g := g + 1;
    }
  }

  lemma BatchesFit(rows: seq<Row>, representation: Representation, batches: seq<Batch>)
    requires BatchesOf(rows, representation, batches)
    ensures !SomeOverflow(rows, representation)
  {
    var ordered := SortBy(rows, RowLe);
    SortPermutes(rows, RowLe);
    SameMembers(rows, ordered);
    OverflowInPackets(rows, ordered, representation);
    forall item | item in Packets(ordered, representation) ensures !Overflows(item) {
      var g, i := InSomeGroup(Groups(batches), item);
      FeasiblePart(batches[g].packets, i, i + 1);
      assert batches[g].packets[i..i + 1] == [item];
    }
  }

  /** Some packet of the rows breaks the budget alone. */
  ghost predicate Unpackable(rows: seq<Row>) {
    SomeOverflow(rows, A0) || SomeOverflow(rows, A1) || SomeOverflow(rows, A2)
  }

  /** Rows have a manifest exactly when every packet fits the budget. */
  lemma ManifestIffPackable(rows: seq<Row>)
    ensures (exists batches :: ManifestOf(rows, batches)) <==> !Unpackable(rows)
  {
    if batches :| ManifestOf(rows, batches) {
      var a0, a1, a2 :| BatchesOf(rows, A0, a0) && BatchesOf(rows, A1, a1) && BatchesOf(rows, A2, a2) && batches == a0 + a1 + a2;
      BatchesFit(rows, A0, a0);
      BatchesFit(rows, A1, a1);
      BatchesFit(rows, A2, a2);
    }
    if !Unpackable(rows) {
      BatchesExist(rows, A0);
      BatchesExist(rows, A1);
      BatchesExist(rows, A2);
      var a0 :| BatchesOf(rows, A0, a0);
      var a1 :| BatchesOf(rows, A1, a1);
      var a2 :| BatchesOf(rows, A2, a2);
      assert ManifestOf(rows, a0 + a1 + a2);
    }
  }
}

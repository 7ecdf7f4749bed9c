/** Holm's step-down adjustment of p-values (backend/finrisk/e4_evaluation.py, `holm_adjust`). */
module HolmAdjustment {
  import opened Wrappers
  import opened Ordering

  datatype Test = Test(name: string, p: Option<real>)

  /** The test with its `holm_adjusted_p`. */
  datatype Adjusted = Adjusted(test: Test, adjusted: Option<real>)

  type Entry = (int, real)

  predicate ByP(a: Entry, b: Entry) {
    a.1 <= b.1
  }

  function Index(e: Entry): int { e.0 }

  /** The tests that have a p-value, each with its position. */
  function Indexed(tests: seq<Test>, base: int): seq<Entry> {
    if tests == [] then []
    else (if tests[0].p.Some? then [(base, tests[0].p.value)] else []) + Indexed(tests[1..], base + 1)
  }

  function Ordered(tests: seq<Test>): seq<Entry> {
    SortBy(Indexed(tests, 0), ByP)
  }

  function Max(a: real, b: real): real { if a >= b then a else b }

  function Min(a: real, b: real): real { if a <= b then a else b }

  function Scaled(count: nat, p: real): real {
    count as real * p
  }

  /** The running maximum after the first of `ordered`, which is also the number of hypotheses left. */
  function Next(ordered: seq<Entry>, running: real): real
    requires ordered != []
  {
    Max(running, Min(1.0, Scaled(|ordered|, ordered[0].1)))
  }

  /** The adjusted values along the order. */
  function Run(ordered: seq<Entry>, running: real): (r: seq<real>)
    ensures |r| == |ordered|
  {
    if ordered == [] then []
    else var next := Next(ordered, running); [next] + Run(ordered[1..], next)
  }

  function Table(ordered: seq<Entry>, running: real): map<int, real> {
    if ordered == [] then map[]
    else var next := Next(ordered, running); map[ordered[0].0 := next] + Table(ordered[1..], next)
  }

  function AdjustedP(tests: seq<Test>, i: int): Option<real> {
    var table := Table(Ordered(tests), 0.0);
    if i in table then Some(table[i]) else None
  }

  lemma TableStep(adjusted: map<int, real>, ordered: seq<Entry>, rank: nat, running: real)
    requires rank < |ordered|
    ensures var next := Max(running, Min(1.0, Scaled(|ordered| - rank, ordered[rank].1)));
      adjusted + Table(ordered[rank..], running) == adjusted[ordered[rank].0 := next] + Table(ordered[rank + 1..], next)
  {
    assert ordered[rank..][1..] == ordered[rank + 1..];
    var next := Next(ordered[rank..], running);
    var rest := Table(ordered[rank + 1..], next);
    assert adjusted[ordered[rank].0 := next] + rest == adjusted + (map[ordered[rank].0 := next] + rest);
  }

  method HolmAdjust(tests: seq<Test>) returns (out: seq<Adjusted>)
    ensures |out| == |tests|
    ensures forall i | 0 <= i < |tests| :: out[i] == Adjusted(tests[i], AdjustedP(tests, i))
  {
    var ordered := Ordered(tests);
    var adjusted: map<int, real> := map[];
    var running, count := 0.0, |ordered|;
    for rank := 0 to count
      invariant adjusted + Table(ordered[rank..], running) == Table(ordered, 0.0)
    {
      TableStep(adjusted, ordered, rank, running);
      running := Max(running, Min(1.0, Scaled(count - rank, ordered[rank].1)));
      adjusted := adjusted[ordered[rank].0 := running];
    }
    assert ordered[count..] == [];
    out := Attach(tests, adjusted);
  }

  /** The comprehension at the end: every test with what was adjusted for its position. */
  method Attach(tests: seq<Test>, adjusted: map<int, real>) returns (out: seq<Adjusted>)
    requires adjusted == Table(Ordered(tests), 0.0)
    ensures |out| == |tests|
    ensures forall i | 0 <= i < |tests| :: out[i] == Adjusted(tests[i], AdjustedP(tests, i))
  {
    out := [];
    for i := 0 to |tests|
      invariant |out| == i
      invariant forall j | 0 <= j < i :: out[j] == Adjusted(tests[j], AdjustedP(tests, j))
    {
      out := out + [Adjusted(tests[i], if i in adjusted then Some(adjusted[i]) else None)];
    }
  }

  /** Holm's procedure: go up the order, rejecting while the p-value times the number of hypotheses left
      stays within the level, and stop at the first that does not. */
  function StepDown(ordered: seq<Entry>, level: real): set<int> {
    if ordered == [] || Scaled(|ordered|, ordered[0].1) > level then {}
    else {ordered[0].0} + StepDown(ordered[1..], level)
  }

  function Rejected(tests: seq<Test>, level: real): set<int> {
    StepDown(Ordered(tests), level)
  }

  // ----- the order

  lemma {:induction false} IndexedMembers(tests: seq<Test>, base: int)
    ensures forall e: Entry :: e in Indexed(tests, base) <==>
        base <= e.0 < base + |tests| && tests[e.0 - base].p == Some(e.1)
    ensures Distinct(Map(Index, Indexed(tests, base)))
  {
    if tests != [] {
      var rest := Indexed(tests[1..], base + 1);
      IndexedMembers(tests[1..], base + 1);
      forall e: Entry ensures e in Indexed(tests, base) <==> base <= e.0 < base + |tests| && tests[e.0 - base].p == Some(e.1) {
        assert e in Indexed(tests, base) <==> (tests[0].p.Some? && e == (base, tests[0].p.value)) || e in rest;
      }
      if tests[0].p.Some? {
        NewFirst(base, tests[0].p.value, rest);
      }
    }
  }

  lemma NewFirst(base: int, p: real, rest: seq<Entry>)
    requires Distinct(Map(Index, rest)) && forall e: Entry | e in rest :: e.0 > base
    ensures Distinct(Map(Index, [(base, p)] + rest))
  {
    MapConcat(Index, [(base, p)], rest);
    assert forall i | 0 <= i < |rest| :: rest[i] in rest;
  }

  ghost predicate IsOrder(ordered: seq<Entry>) {
    Sorted(ordered, ByP) && Distinct(Map(Index, ordered))
  }

  lemma OrderFacts(tests: seq<Test>)
    ensures IsOrder(Ordered(tests))
    ensures forall e: Entry :: e in Ordered(tests) <==> 0 <= e.0 < |tests| && tests[e.0].p == Some(e.1)
  {
    var indexed := Indexed(tests, 0);
    IndexedMembers(tests, 0);
    SortSorts(indexed, ByP);
    SortPermutes(indexed, ByP);
    SameMembers(indexed, Ordered(tests));
    MapPermutes(Index, indexed, Ordered(tests));
    DistinctPermutes(Map(Index, indexed), Map(Index, Ordered(tests)));
  }

  lemma OrderTail(ordered: seq<Entry>)
    requires IsOrder(ordered) && ordered != []
    ensures IsOrder(ordered[1..])
    ensures forall r | 0 <= r < |ordered[1..]| :: ordered[1..][r].0 != ordered[0].0 && ordered[0].1 <= ordered[1..][r].1
  {
    var keys := Map(Index, ordered);
    forall i, j | 0 <= i < j < |ordered[1..]| ensures Map(Index, ordered[1..])[i] != Map(Index, ordered[1..])[j] {
      assert keys[i + 1] != keys[j + 1];
    }
    forall r | 0 <= r < |ordered[1..]| ensures ordered[1..][r].0 != ordered[0].0 && ordered[0].1 <= ordered[1..][r].1 {
      assert keys[0] != keys[r + 1];
      assert ByP(ordered[0], ordered[r + 1]);
    }
  }

  lemma {:induction false} TableKeys(ordered: seq<Entry>, running: real, i: int)
    requires i in Table(ordered, running)
    ensures exists r | 0 <= r < |ordered| :: ordered[r].0 == i
  {
    var next, rest := Next(ordered, running), ordered[1..];
    if i in Table(rest, next) {
      TableKeys(rest, next, i);
      var r :| 0 <= r < |rest| && rest[r].0 == i;
      assert ordered[r + 1].0 == i;
    } else {
      assert ordered[0].0 == i;
    }
  }

  lemma {:induction false} TableIsRun(ordered: seq<Entry>, running: real, r: nat)
    requires IsOrder(ordered) && r < |ordered|
    ensures ordered[r].0 in Table(ordered, running)
    ensures Table(ordered, running)[ordered[r].0] == Run(ordered, running)[r]
  {
    var next, rest := Next(ordered, running), ordered[1..];
    OrderTail(ordered);
    if r > 0 {
      TableIsRun(rest, next, r - 1);
      assert rest[r - 1] == ordered[r];
    } else if ordered[0].0 in Table(rest, next) {
      TableKeys(rest, next, ordered[0].0);
    }
  }

  // ----- along the order

  lemma ScaledGrows(count: nat, p: real)
    requires count > 0
    ensures p >= 0.0 ==> Scaled(count, p) >= p
    ensures p < 0.0 ==> Scaled(count, p) < 0.0
  {
    if p >= 0.0 {
      assert (count - 1) as real * p >= 0.0;
      assert count as real * p == (count - 1) as real * p + p;
    }
  }

  lemma {:induction false} RunBounds(ordered: seq<Entry>, running: real)
    requires 0.0 <= running <= 1.0
    ensures forall r | 0 <= r < |ordered| :: running <= Run(ordered, running)[r] <= 1.0
    ensures forall r | 0 <= r < |ordered| && ordered[r].1 <= 1.0 :: ordered[r].1 <= Run(ordered, running)[r]
  {
    if ordered != [] {
      var next := Next(ordered, running);
      ScaledGrows(|ordered|, ordered[0].1);
      RunBounds(ordered[1..], next);
    }
  }

  lemma {:induction false} RunMonotone(ordered: seq<Entry>, running: real)
    requires 0.0 <= running <= 1.0
    ensures forall r, s | 0 <= r <= s < |ordered| :: Run(ordered, running)[r] <= Run(ordered, running)[s]
  {
    if ordered != [] {
      var next := Next(ordered, running);
      RunMonotone(ordered[1..], next);
      RunBounds(ordered[1..], next);
    }
  }

  lemma RunLater(ordered: seq<Entry>, running: real, r: nat)
    requires 0 < r < |ordered|
    ensures Run(ordered, running)[r] == Run(ordered[1..], Next(ordered, running))[r - 1]
  {
  }

  lemma NextBounds(ordered: seq<Entry>, running: real)
    requires ordered != [] && 0.0 <= running <= 1.0
    ensures running <= Next(ordered, running) <= 1.0
  {
  }

  /** A tie later in the order adds nothing to the maximum. */
  lemma {:induction false} RunTies(ordered: seq<Entry>, running: real, s: nat)
    requires IsOrder(ordered) && s < |ordered| && ordered[s].1 == ordered[0].1 && 0.0 <= running <= 1.0
    ensures Run(ordered, running)[s] == Run(ordered, running)[0]
  {
    if s > 0 {
      var next, rest := Next(ordered, running), ordered[1..];
      OrderTail(ordered);
      assert ByP(ordered[0], ordered[1]) && (s == 1 || ByP(ordered[1], ordered[s]));
      RunTies(rest, next, s - 1);
      TieAddsNothing(|ordered|, ordered[0].1, running);
    }
  }

  lemma TieAddsNothing(count: nat, p: real, running: real)
    requires count > 1 && 0.0 <= running
    ensures var next := Max(running, Min(1.0, Scaled(count, p))); Max(next, Min(1.0, Scaled(count - 1, p))) == next
  {
    assert count as real * p == (count - 1) as real * p + p;
    ScaledGrows(count - 1, p);
  }

  lemma {:induction false} RunTiesAnywhere(ordered: seq<Entry>, running: real, r: nat, s: nat)
    requires IsOrder(ordered) && r <= s < |ordered| && ordered[r].1 == ordered[s].1 && 0.0 <= running <= 1.0
    ensures Run(ordered, running)[r] == Run(ordered, running)[s]
  {
    if r == 0 {
      RunTies(ordered, running, s);
    } else {
      var next, rest := Next(ordered, running), ordered[1..];
      OrderTail(ordered);
      NextBounds(ordered, running);
      assert rest[r - 1] == ordered[r] && rest[s - 1] == ordered[s];
      RunTiesAnywhere(rest, next, r - 1, s - 1);
      RunLater(ordered, running, r);
      RunLater(ordered, running, s);
    }
  }

  lemma NextDecides(ordered: seq<Entry>, running: real, level: real)
    requires ordered != [] && 0.0 <= running <= level < 1.0
    ensures 0.0 <= Next(ordered, running) <= 1.0
    ensures Next(ordered, running) <= level <==> Scaled(|ordered|, ordered[0].1) <= level
  {
  }

  lemma {:induction false} RunRejects(ordered: seq<Entry>, running: real, level: real, r: nat)
    requires IsOrder(ordered) && 0.0 <= running <= level < 1.0 && r < |ordered|
    ensures Run(ordered, running)[r] <= level <==> ordered[r].0 in StepDown(ordered, level)
  {
    var next, rest := Next(ordered, running), ordered[1..];
    NextDecides(ordered, running, level);
    RunBounds(rest, next);
    if next <= level && r > 0 {
      OrderTail(ordered);
      RunRejects(rest, next, level, r - 1);
      assert rest[r - 1].0 != ordered[0].0;
    }
  }

  // ----- back at the tests

  lemma Located(tests: seq<Test>, i: int) returns (r: nat)
    requires 0 <= i < |tests| && tests[i].p.Some?
    ensures r < |Ordered(tests)| && Ordered(tests)[r] == (i, tests[i].p.value)
    ensures AdjustedP(tests, i) == Some(Run(Ordered(tests), 0.0)[r])
  {
    var ordered := Ordered(tests);
    OrderFacts(tests);
    assert (i, tests[i].p.value) in ordered;
    r :| r < |ordered| && ordered[r] == (i, tests[i].p.value);
    TableIsRun(ordered, 0.0, r);
  }

  /** A test without a p-value gets none; any other gets one between 0 and 1, at least its own if that is at most 1. */
  lemma AdjustmentBounds(tests: seq<Test>, i: int)
    requires 0 <= i < |tests|
    ensures AdjustedP(tests, i).Some? <==> tests[i].p.Some?
    ensures tests[i].p.Some? ==> 0.0 <= AdjustedP(tests, i).value <= 1.0
    ensures tests[i].p.Some? && tests[i].p.value <= 1.0 ==> tests[i].p.value <= AdjustedP(tests, i).value
  {
    var ordered := Ordered(tests);
    OrderFacts(tests);
    if i in Table(ordered, 0.0) {
      TableKeys(ordered, 0.0, i);
      var r :| 0 <= r < |ordered| && ordered[r].0 == i;
      assert ordered[r] in ordered;
    }
    if tests[i].p.Some? {
      var r := Located(tests, i);
      RunBounds(ordered, 0.0);
    }
  }

  /** Adjustment keeps the order of the p-values, and equal p-values stay equal. */
  lemma AdjustmentKeepsOrder(tests: seq<Test>, i: int, j: int)
    requires 0 <= i < |tests| && 0 <= j < |tests| && tests[i].p.Some? && tests[j].p.Some?
    requires tests[i].p.value <= tests[j].p.value
    ensures AdjustedP(tests, i).Some? && AdjustedP(tests, j).Some?
    ensures AdjustedP(tests, i).value <= AdjustedP(tests, j).value
    ensures tests[i].p.value == tests[j].p.value ==> AdjustedP(tests, i) == AdjustedP(tests, j)
  {
    var ordered := Ordered(tests);
    OrderFacts(tests);
    var r := Located(tests, i);
    var s := Located(tests, j);
    RunMonotone(ordered, 0.0);
    if tests[i].p.value == tests[j].p.value {
      if r <= s {
        RunTiesAnywhere(ordered, 0.0, r, s);
      } else {
        RunTiesAnywhere(ordered, 0.0, s, r);
      }
    } else if s < r {
      assert false;
    }
  }

  /** Comparing the adjusted value with a level below 1 is Holm's decision at that level. */
  lemma AdjustmentDecides(tests: seq<Test>, i: int, level: real)
    requires 0 <= i < |tests| && tests[i].p.Some? && 0.0 <= level < 1.0
    ensures AdjustedP(tests, i).Some?
    ensures AdjustedP(tests, i).value <= level <==> i in Rejected(tests, level)
  {
    OrderFacts(tests);
    var r := Located(tests, i);
    RunRejects(Ordered(tests), 0.0, level, r);
  }

  /** At level 1 the cap hides what the procedure would not reject. */
  lemma CapHidesLevelOne()
    ensures var tests := [Test("a", Some(1.0)), Test("b", Some(1.0))];
      AdjustedP(tests, 0) == Some(1.0) && 0 !in Rejected(tests, 1.0)
  {
    var tests := [Test("a", Some(1.0)), Test("b", Some(1.0))];
    assert tests[1..] == [Test("b", Some(1.0))] && tests[1..][1..] == [];
    assert Indexed(tests[1..], 1) == [(1, 1.0)];
    assert Indexed(tests, 0) == [(0, 1.0), (1, 1.0)];
    SortOfEquals(Indexed(tests, 0), ByP);
    var r := Located(tests, 0);
  }
}

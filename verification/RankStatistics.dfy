/** Mid-ranks and the area under the ROC curve (backend/finrisk/e4_evaluation.py, `_ranks`;
    backend/finrisk/evaluation.py, `roc_auc`; backend/finrisk/e4_posthoc.py, `_weighted_auc`). */
module RankStatistics {
  import opened Wrappers
  import opened Ordering

  // ----- counting

  function Below(x: real): real -> bool { (v: real) => v < x }

  function EqualTo(x: real): real -> bool { (v: real) => v == x }

  /** (#smaller) + (#equal + 1) / 2 */
  function MidRank(values: seq<real>, x: real): real {
    |Filter(values, Below(x))| as real + (|Filter(values, EqualTo(x))| as real + 1.0) / 2.0
  }

  /** What one comparison contributes to the area: a win, half a win on a tie, nothing on a loss. */
  function Score(a: real, b: real): real {
    if a > b then 1.0 else if a == b then 0.5 else 0.0
  }

  function Wins(x: real, s: seq<real>): real {
    if s == [] then 0.0 else Score(x, s[0]) + Wins(x, s[1..])
  }

  function PairSum(a: seq<real>, b: seq<real>): real {
    if a == [] then 0.0 else Wins(a[0], b) + PairSum(a[1..], b)
  }

  lemma {:induction false} WinsConcat(x: real, a: seq<real>, b: seq<real>)
    ensures Wins(x, a + b) == Wins(x, a) + Wins(x, b)
  {
    if a == [] {
      assert a + b == b;
    } else {
      assert (a + b)[1..] == a[1..] + b;
      WinsConcat(x, a[1..], b);
    }
  }

  lemma {:induction false} PairSumRight(a: seq<real>, b: seq<real>, c: seq<real>)
    ensures PairSum(a, b + c) == PairSum(a, b) + PairSum(a, c)
  {
    if a != [] {
      WinsConcat(a[0], b, c);
      PairSumRight(a[1..], b, c);
    }
  }

  /** A value's wins and the wins against it share one point per comparison. */
  lemma {:induction false} WinsAndLosses(x: real, b: seq<real>)
    ensures Wins(x, b) + PairSum(b, [x]) == |b| as real
  {
    if b != [] {
      WinsAndLosses(x, b[1..]);
      assert [x][1..] == [];
      assert Wins(b[0], [x]) == Score(b[0], x) + Wins(b[0], []);
    }
  }

  lemma {:induction false} PairsShare(a: seq<real>, b: seq<real>)
    ensures PairSum(a, b) + PairSum(b, a) == |a| as real * |b| as real
  {
    if a == [] {
      NoOpponents(b);
    } else {
      PairsShare(a[1..], b);
      WinsAndLosses(a[0], b);
      assert a == [a[0]] + a[1..];
      PairSumRight(b, [a[0]], a[1..]);
    }
  }

  lemma {:induction false} NoOpponents(b: seq<real>)
    ensures PairSum(b, []) == 0.0
  {
    if b != [] {
      NoOpponents(b[1..]);
    }
  }

  /** A value's mid-rank is its wins against all values, plus one half. */
  lemma {:induction false} MidRankIsWins(values: seq<real>, x: real)
    ensures MidRank(values, x) == Wins(x, values) + 0.5
  {
    if values != [] {
      MidRankIsWins(values[1..], x);
    }
  }

  // ----- ranks

  function Key(values: seq<real>, i: int): real {
    if 0 <= i < |values| then values[i] else 0.0
  }

  function IndexLe(values: seq<real>): (int, int) -> bool {
    (i: int, j: int) => Key(values, i) <= Key(values, j)
  }

  function At(values: seq<real>): int -> real {
    (i: int) => Key(values, i)
  }

  function Indices(n: nat): (s: seq<int>)
    ensures |s| == n && forall i | 0 <= i < n :: s[i] == i
  {
    seq(n, i => i)
  }

  lemma CountSorted<T>(s: seq<T>, p: T -> bool, k: nat)
    requires k <= |s|
    requires forall i | 0 <= i < k :: p(s[i])
    requires forall i | k <= i < |s| :: !p(s[i])
    ensures |Filter(s, p)| == k
  {
    AllPass(s[..k], p);
    NonePass(s[k..], p);
    assert s == s[..k] + s[k..];
    FilterConcat(s[..k], s[k..], p);
  }

  lemma {:induction false} AllPass<T>(s: seq<T>, p: T -> bool)
    requires forall i | 0 <= i < |s| :: p(s[i])
    ensures Filter(s, p) == s
  {
    if s != [] {
      AllPass(s[1..], p);
    }
  }

  lemma {:induction false} NonePass<T>(s: seq<T>, p: T -> bool)
    requires forall i | 0 <= i < |s| :: !p(s[i])
    ensures Filter(s, p) == []
  {
    if s != [] {
      NonePass(s[1..], p);
    }
  }

  lemma CountPermutes(a: seq<real>, b: seq<real>, p: real -> bool)
    requires multiset(a) == multiset(b)
    ensures |Filter(a, p)| == |Filter(b, p)|
  {
    FilterPermutes(a, b, p);
    SameMembers(Filter(a, p), Filter(b, p));
  }

  /** The order of `_ranks`: a permutation of the indices along which the values never decrease. */
  lemma OrderFacts(values: seq<real>, order: seq<int>)
    requires order == SortBy(Indices(|values|), IndexLe(values))
    ensures |order| == |values|
    ensures forall i | 0 <= i < |order| :: 0 <= order[i] < |values|
    ensures Distinct(order)
    ensures forall i, j | 0 <= i < j < |order| :: values[order[i]] <= values[order[j]]
    ensures multiset(Map(At(values), order)) == multiset(values)
  {
    var all := Indices(|values|);
    SortPermutes(all, IndexLe(values));
    SameMembers(all, order);
    SortSorts(all, IndexLe(values));
    DistinctPermutes(all, order);
    forall i | 0 <= i < |order| ensures 0 <= order[i] < |values| {
      assert order[i] in all;
    }
    forall i, j | 0 <= i < j < |order| ensures values[order[i]] <= values[order[j]] {
      assert IndexLe(values)(order[i], order[j]);
    }
    MapPermutes(At(values), all, order);
    assert Map(At(values), all) == values;
  }

  predicate Nondecreasing(s: seq<real>) {
    forall i, j | 0 <= i < j < |s| :: s[i] <= s[j]
  }

  /** A maximal run of equal values in a sorted sequence. */
  predicate IsRun(s: seq<real>, start: nat, end: nat) {
    && start < end <= |s|
    && (forall i | start <= i < end :: s[i] == s[start])
    && (start > 0 ==> s[start - 1] != s[start])
    && (end < |s| ==> s[end] != s[start])
  }

  lemma RunBelow(s: seq<real>, start: nat, end: nat)
    requires Nondecreasing(s) && IsRun(s, start, end)
    ensures |Filter(s, Below(s[start]))| == start
  {
    CountSorted(s, Below(s[start]), start);
  }

  lemma CountMiddle<T>(s: seq<T>, p: T -> bool, start: nat, end: nat)
    requires start <= end <= |s|
    requires forall i | 0 <= i < |s[..start]| :: !p(s[..start][i])
    requires forall i | 0 <= i < |s[start..end]| :: p(s[start..end][i])
    requires forall i | 0 <= i < |s[end..]| :: !p(s[end..][i])
    ensures |Filter(s, p)| == end - start
  {
    assert s == s[..start] + (s[start..end] + s[end..]);
    FilterConcat(s[..start], s[start..end] + s[end..], p);
    FilterConcat(s[start..end], s[end..], p);
    NonePass(s[..start], p);
    NonePass(s[end..], p);
    AllPass(s[start..end], p);
  }

  lemma RunEqual(s: seq<real>, start: nat, end: nat)
    requires Nondecreasing(s) && IsRun(s, start, end)
    ensures |Filter(s, EqualTo(s[start]))| == end - start
  {
    BeforeRun(s, start, end);
    AfterRun(s, start, end);
    CountMiddle(s, EqualTo(s[start]), start, end);
  }

  lemma BeforeRun(s: seq<real>, start: nat, end: nat)
    requires Nondecreasing(s) && IsRun(s, start, end)
    ensures forall i | 0 <= i < |s[..start]| :: !EqualTo(s[start])(s[..start][i])
  {
  }

  lemma AfterRun(s: seq<real>, start: nat, end: nat)
    requires Nondecreasing(s) && IsRun(s, start, end)
    ensures forall i | 0 <= i < |s[end..]| :: !EqualTo(s[start])(s[end..][i])
  {
  }

  lemma RunRank(values: seq<real>, s: seq<real>, start: nat, end: nat)
    requires multiset(s) == multiset(values) && Nondecreasing(s) && IsRun(s, start, end)
    ensures (start + end - 1) as real / 2.0 + 1.0 == MidRank(values, s[start])
  {
    RunBelow(s, start, end);
    RunEqual(s, start, end);
    CountPermutes(s, values, Below(s[start]));
    CountPermutes(s, values, EqualTo(s[start]));
  }

  /** The inner loop: one rank for every position of a group. */
  method FillGroup(ranks: array<real>, order: seq<int>, start: nat, end: nat, rank: real)
    requires start <= end <= |order| && Distinct(order)
    requires forall i | 0 <= i < |order| :: 0 <= order[i] < ranks.Length
    modifies ranks
    ensures forall i | start <= i < end :: ranks[order[i]] == rank
    ensures forall i | 0 <= i < start :: ranks[order[i]] == old(ranks[order[i]])
  {
    for k := start to end
      invariant forall i | start <= i < k :: ranks[order[i]] == rank
      invariant forall i | 0 <= i < start :: ranks[order[i]] == old(ranks[order[i]])
    {
      assert forall i | 0 <= i < k :: order[i] != order[k];
      ranks[order[k]] := rank;
    }
  }

  lemma OrderReaches(values: seq<real>, order: seq<int>, i: int)
    requires order == SortBy(Indices(|values|), IndexLe(values)) && 0 <= i < |values|
    ensures i in order
  {
    SortPermutes(Indices(|values|), IndexLe(values));
    SameMembers(Indices(|values|), order);
    assert Indices(|values|)[i] in Indices(|values|);
  }

  /** The end of the group of equal values that starts at `start`. */
  method GroupEnd(values: seq<real>, order: seq<int>, start: nat) returns (end: nat)
    requires start < |order| && forall i | 0 <= i < |order| :: 0 <= order[i] < |values|
    ensures start < end <= |order|
    ensures forall i | start <= i < end :: values[order[i]] == values[order[start]]
    ensures end < |order| ==> values[order[end]] != values[order[start]]
  {
    end := start + 1;
    while end < |order| && values[order[end]] == values[order[start]]
      invariant start < end <= |order|
      invariant forall i | start <= i < end :: values[order[i]] == values[order[start]]
    {
      end := end + 1;
    }
  }

  function RanksOf(values: seq<real>, sorted: seq<real>): seq<real> {
    Map(RankIn(values), sorted)
  }

  /** The first `count` positions of the order have their ranks. */
  ghost predicate Placed(ranks: array<real>, order: seq<int>, goal: seq<real>, count: nat)
    reads ranks
    requires |goal| == |order| && forall i | 0 <= i < |order| :: 0 <= order[i] < ranks.Length
  {
    count <= |order| && forall i | 0 <= i < count :: ranks[order[i]] == goal[i]
  }

  /** One pass of the outer loop. */
  method PlaceGroup(values: seq<real>, ranks: array<real>, order: seq<int>, ghost sorted: seq<real>, start: nat) returns (end: nat)
    requires start < |order| == |values| && ranks.Length == |values| && Distinct(order)
    requires forall i | 0 <= i < |order| :: 0 <= order[i] < |values|
    requires sorted == Map(At(values), order) && multiset(sorted) == multiset(values) && Nondecreasing(sorted)
    requires 0 < start ==> sorted[start - 1] != sorted[start]
    requires Placed(ranks, order, RanksOf(values, sorted), start)
    modifies ranks
    ensures start < end <= |order|
    ensures end < |order| ==> sorted[end - 1] != sorted[end]
    ensures Placed(ranks, order, RanksOf(values, sorted), end)
  {
    end := GroupEnd(values, order, start);
    var rank := (start + end - 1) as real / 2.0 + 1.0;
    assert forall i | start <= i < end :: sorted[i] == sorted[start];
    RunRank(values, sorted, start, end);
    FillGroup(ranks, order, start, end, rank);
  }

  /** The mid-ranks, filled in group by group along the sorted order. */
  method Ranks(values: seq<real>) returns (ranks: array<real>)
    ensures fresh(ranks) && ranks.Length == |values|
    ensures forall i | 0 <= i < |values| :: ranks[i] == MidRank(values, values[i])
  {
    var order := SortBy(Indices(|values|), IndexLe(values));
    OrderFacts(values, order);
    ghost var sorted := Map(At(values), order);
    assert Nondecreasing(sorted);
    ranks := new real[|values|](_ => 0.0);
    var start := 0;
    while start < |order|
      invariant start <= |order|
      invariant 0 < start < |order| ==> sorted[start - 1] != sorted[start]
      invariant Placed(ranks, order, RanksOf(values, sorted), start)
    {
      start := PlaceGroup(values, ranks, order, sorted, start);
    }
    forall i | 0 <= i < |values| ensures ranks[i] == MidRank(values, values[i]) {
      OrderReaches(values, order, i);
      var k :| 0 <= k < |order| && order[k] == i;
      assert sorted[k] == values[i];
    }
  }

  // ----- sums of ranks

  function Sum(s: seq<real>): real {
    if s == [] then 0.0 else s[0] + Sum(s[1..])
  }

  function RankIn(values: seq<real>): real -> real {
    (x: real) => MidRank(values, x)
  }

  lemma {:induction false} RankSum(part: seq<real>, values: seq<real>)
    ensures Sum(Map(RankIn(values), part)) == PairSum(part, values) + |part| as real * 0.5
  {
    if part != [] {
      RankSum(part[1..], values);
      MidRankIsWins(values, part[0]);
      assert Map(RankIn(values), part)[1..] == Map(RankIn(values), part[1..]);
    }
  }

  /** 1 + 2 + ... + n */
  function Triangular(n: nat): real {
    if n == 0 then 0.0 else n as real + Triangular(n - 1)
  }

  lemma {:induction false} TriangularFormula(n: nat)
    ensures Triangular(n) == n as real * (n as real + 1.0) / 2.0
  {
    if n > 0 {
      TriangularFormula(n - 1);
      var m := (n - 1) as real;
      assert n as real == m + 1.0;
      assert (m + 1.0) * (m + 2.0) == m * (m + 1.0) + 2.0 * (m + 1.0);
    }
  }

  lemma TriangularSplits(n: nat, own: real)
    requires own + own == n as real * n as real
    ensures Triangular(n) == own + n as real * 0.5
  {
    TriangularFormula(n);
    var p := n as real;
    assert p * (p + 1.0) == p * p + p;
  }

  lemma OwnPairs(part: seq<real>)
    ensures PairSum(part, part) + |part| as real * 0.5 == Triangular(|part|)
  {
    PairsShare(part, part);
    TriangularSplits(|part|, PairSum(part, part));
  }

  /** All ranks together: n(n+1)/2, as `TriangularFormula` says. */
  lemma RanksSumUp(values: seq<real>)
    ensures Sum(Map(RankIn(values), values)) == Triangular(|values|)
  {
    RankSum(values, values);
    OwnPairs(values);
  }

  // ----- area under the curve

  /** `zip` stops at the shorter list. */
  function Scored(labels: seq<int>, scores: seq<real>, wanted: int): seq<real> {
    if labels == [] || scores == [] then []
    else (if labels[0] == wanted then [scores[0]] else []) + Scored(labels[1..], scores[1..], wanted)
  }

  /** The share of the pairs that `wins` amounts to. */
  function Area(wins: real, positive: real, negative: real): real
    requires positive != 0.0 && negative != 0.0
  {
    wins / (positive * negative)
  }

  /** No area without both classes. */
  function AreaOf(wins: real, positive: real, negative: real): Option<real> {
    if positive == 0.0 || negative == 0.0 then None else Some(Area(wins, positive, negative))
  }

  function RocAuc(labels: seq<int>, scores: seq<real>): Option<real> {
    var positives, negatives := Scored(labels, scores, 1), Scored(labels, scores, 0);
    AreaOf(PairSum(positives, negatives), |positives| as real, |negatives| as real)
  }

  predicate Binary(labels: seq<int>) {
    forall i | 0 <= i < |labels| :: labels[i] == 0 || labels[i] == 1
  }

  lemma {:induction false} PairSumSplits(x: seq<real>, labels: seq<int>, scores: seq<real>)
    requires |labels| == |scores| && Binary(labels)
    ensures PairSum(x, scores) == PairSum(x, Scored(labels, scores, 1)) + PairSum(x, Scored(labels, scores, 0))
    ensures |Scored(labels, scores, 1)| + |Scored(labels, scores, 0)| == |scores|
  {
    if labels == [] {
      NoOpponents(x);
    } else {
      var first, rest := [scores[0]], scores[1..];
      assert scores == first + rest;
      PairSumRight(x, first, rest);
      PairSumSplits(x, labels[1..], rest);
      PairSumRight(x, first, Scored(labels[1..], rest, labels[0]));
      assert Scored(labels, scores, labels[0]) == first + Scored(labels[1..], rest, labels[0]);
      assert Scored(labels, scores, 1 - labels[0]) == Scored(labels[1..], rest, 1 - labels[0]);
    }
  }

  lemma PartRankSum(part: seq<real>, other: seq<real>, values: seq<real>)
    requires PairSum(part, values) == PairSum(part, part) + PairSum(part, other)
    ensures Sum(Map(RankIn(values), part)) - Triangular(|part|) == PairSum(part, other)
  {
    RankSum(part, values);
    OwnPairs(part);
  }

  /** The comparisons in the area are the positives' mid-rank sum among all scores, less P(P+1)/2. */
  lemma RankForm(labels: seq<int>, scores: seq<real>)
    requires |labels| == |scores| && Binary(labels)
    ensures var positives := Scored(labels, scores, 1);
      PairSum(positives, Scored(labels, scores, 0)) == Sum(Map(RankIn(scores), positives)) - Triangular(|positives|)
    ensures |Scored(labels, scores, 0)| == |scores| - |Scored(labels, scores, 1)|
  {
    var positives, negatives := Scored(labels, scores, 1), Scored(labels, scores, 0);
    PairSumSplits(positives, labels, scores);
    PartRankSum(positives, negatives, scores);
  }

  /** The area equals the rank form: the positives' mid-rank sum among all scores, less P(P+1)/2, over P*N. */
  lemma AucIsRankSum(labels: seq<int>, scores: seq<real>)
    requires |labels| == |scores| && Binary(labels)
    ensures var positives := Scored(labels, scores, 1);
      var p := |positives|;
      RocAuc(labels, scores)
        == AreaOf(Sum(Map(RankIn(scores), positives)) - Triangular(p), p as real, (|scores| - p) as real)
  {
    RankForm(labels, scores);
  }

  // ----- weighted area

  function Weight(labels: seq<int>, weights: seq<real>, wanted: int): real
    requires |labels| == |weights|
  {
    if labels == [] then 0.0
    else (if labels[0] == wanted then weights[0] else 0.0) + Weight(labels[1..], weights[1..], wanted)
  }

  /** A comparison of weight `c`: all, half or none of it. */
  function Part(c: real, a: real, b: real): real {
    if a > b then c else if a == b then c * 0.5 else 0.0
  }

  lemma PartIsProduct(c: real, a: real, b: real)
    ensures Part(c, a, b) == c * Score(a, b)
  {
  }

  /** The weighted comparisons of one positive score with all negatives. */
  function WeightedWins(x: real, w: real, labels: seq<int>, scores: seq<real>, weights: seq<real>): real
    requires |labels| == |scores| == |weights|
  {
    if labels == [] then 0.0
    else
      (if labels[0] == 0 then Part(w * weights[0], x, scores[0]) else 0.0)
      + WeightedWins(x, w, labels[1..], scores[1..], weights[1..])
  }

  function WeightedPairs(outer: seq<(int, real, real)>, labels: seq<int>, scores: seq<real>, weights: seq<real>): real
    requires |labels| == |scores| == |weights|
  {
    if outer == [] then 0.0
    else
      (if outer[0].0 == 1 then WeightedWins(outer[0].1, outer[0].2, labels, scores, weights) else 0.0)
      + WeightedPairs(outer[1..], labels, scores, weights)
  }

  function Rows(labels: seq<int>, scores: seq<real>, weights: seq<real>): (rows: seq<(int, real, real)>)
    requires |labels| == |scores| == |weights|
    ensures |rows| == |labels|
  {
    seq(|labels|, i requires 0 <= i < |labels| => (labels[i], scores[i], weights[i]))
  }

  function WeightedArea(labels: seq<int>, scores: seq<real>, weights: seq<real>): Option<real>
    requires |labels| == |scores| == |weights|
  {
    AreaOf(WeightedPairs(Rows(labels, scores, weights), labels, scores, weights),
           Weight(labels, weights, 1), Weight(labels, weights, 0))
  }

  /** The inner loop: one positive row against all rows. */
  method AddRow(total: real, x: real, w: real, labels: seq<int>, scores: seq<real>, weights: seq<real>) returns (sum: real)
    requires |labels| == |scores| == |weights|
    ensures sum == total + WeightedWins(x, w, labels, scores, weights)
  {
    sum := total;
    for j := 0 to |labels|
      invariant sum + WeightedWins(x, w, labels[j..], scores[j..], weights[j..]) == total + WeightedWins(x, w, labels, scores, weights)
    {
      assert labels[j..][1..] == labels[j + 1..] && scores[j..][1..] == scores[j + 1..] && weights[j..][1..] == weights[j + 1..];
      if labels[j] != 0 {
        continue;
      }
      PartIsProduct(w * weights[j], x, scores[j]);
      sum := sum + w * weights[j] * Score(x, scores[j]);
    }
    assert labels[|labels|..] == [];
  }

  /** The double loop of `_weighted_auc`. */
  method WeightedAuc(labels: seq<int>, scores: seq<real>, weights: seq<real>) returns (r: Option<real>)
    requires |labels| == |scores| == |weights|
    ensures r == WeightedArea(labels, scores, weights)
  {
    var positive, negative := Weight(labels, weights, 1), Weight(labels, weights, 0);
    if positive == 0.0 || negative == 0.0 {
      return None;
    }
    var total := 0.0;
    ghost var rows := Rows(labels, scores, weights);
    ghost var all := WeightedPairs(rows, labels, scores, weights);
    for i := 0 to |labels|
      invariant total + WeightedPairs(rows[i..], labels, scores, weights) == all
    {
      assert rows[i..][0] == (labels[i], scores[i], weights[i]) && rows[i..][1..] == rows[i + 1..];
      if labels[i] != 1 {
        continue;
      }
      total := AddRow(total, scores[i], weights[i], labels, scores, weights);
    }
    assert rows[|labels|..] == [];
    assert total == all;
    r := Some(Area(total, positive, negative));
  }

  lemma Distributes(w: real, a: real, b: real)
    ensures w * (a + b) == w * a + w * b
  {
  }

  /** `n` times the same weight. */
  function Repeat(w: real, n: nat): real {
    if n == 0 then 0.0 else w + Repeat(w, n - 1)
  }

  lemma {:induction false} RepeatIsProduct(w: real, n: nat)
    ensures Repeat(w, n) == w * n as real
  {
    if n > 0 {
      RepeatIsProduct(w, n - 1);
      Distributes(w, (n - 1) as real, 1.0);
    }
  }

  lemma {:induction false} EqualWeight(labels: seq<int>, scores: seq<real>, weights: seq<real>, w: real, wanted: int)
    requires |labels| == |scores| == |weights| && forall i | 0 <= i < |weights| :: weights[i] == w
    ensures Weight(labels, weights, wanted) == Repeat(w, |Scored(labels, scores, wanted)|)
  {
    if labels != [] {
      EqualWeight(labels[1..], scores[1..], weights[1..], w, wanted);
    }
  }

  lemma SameProduct(w: real, v: real, c: real)
    requires v == w && c == w * w
    ensures w * v == c
  {
  }

  // Halves of a win are counted, so that equal weights come down to repeated addition.

  function Halves(a: real, b: real): nat {
    if a > b then 2 else if a == b then 1 else 0
  }

  function HalfWins(x: real, s: seq<real>): nat {
    if s == [] then 0 else Halves(x, s[0]) + HalfWins(x, s[1..])
  }

  function HalfPairs(a: seq<real>, b: seq<real>): nat {
    if a == [] then 0 else HalfWins(a[0], b) + HalfPairs(a[1..], b)
  }

  lemma {:induction false} WinsInHalves(x: real, s: seq<real>)
    ensures Wins(x, s) == HalfWins(x, s) as real * 0.5
  {
    if s != [] {
      WinsInHalves(x, s[1..]);
    }
  }

  lemma {:induction false} PairsInHalves(a: seq<real>, b: seq<real>)
    ensures PairSum(a, b) == HalfPairs(a, b) as real * 0.5
  {
    if a != [] {
      WinsInHalves(a[0], b);
      PairsInHalves(a[1..], b);
    }
  }

  lemma {:induction false} RepeatAdds(u: real, m: nat, n: nat)
    ensures Repeat(u, m + n) == Repeat(u, m) + Repeat(u, n)
  {
    if m > 0 {
      RepeatAdds(u, m - 1, n);
    }
  }

  lemma PartInHalves(c: real, u: real, a: real, b: real)
    requires u == c * 0.5
    ensures Part(c, a, b) == Repeat(u, Halves(a, b))
  {
    assert Repeat(u, 0) == 0.0 && Repeat(u, 1) == u && Repeat(u, 2) == u + u;
  }

  lemma PartOfEqual(w: real, v: real, c: real, u: real, a: real, b: real)
    requires v == w && c == w * w && u == c * 0.5
    ensures Part(w * v, a, b) == Repeat(u, Halves(a, b))
  {
    SameProduct(w, v, c);
    PartInHalves(c, u, a, b);
  }

  lemma {:induction false} EqualWins(x: real, labels: seq<int>, scores: seq<real>, weights: seq<real>, w: real, c: real, u: real)
    requires |labels| == |scores| == |weights| && forall i | 0 <= i < |weights| :: weights[i] == w
    requires c == w * w && u == c * 0.5
    ensures WeightedWins(x, w, labels, scores, weights) == Repeat(u, HalfWins(x, Scored(labels, scores, 0)))
  {
    if labels != [] {
      var rest := Scored(labels[1..], scores[1..], 0);
      EqualWins(x, labels[1..], scores[1..], weights[1..], w, c, u);
      if labels[0] == 0 {
        PartOfEqual(w, weights[0], c, u, x, scores[0]);
        RepeatAdds(u, Halves(x, scores[0]), HalfWins(x, rest));
        assert Scored(labels, scores, 0) == [scores[0]] + rest && ([scores[0]] + rest)[1..] == rest;
      } else {
        assert Scored(labels, scores, 0) == rest;
      }
    }
  }

  lemma {:induction false} EqualPairs(outer: seq<(int, real, real)>, labels: seq<int>, scores: seq<real>, weights: seq<real>,
                                      w: real, c: real, u: real)
    requires |labels| == |scores| == |weights| && forall i | 0 <= i < |weights| :: weights[i] == w
    requires c == w * w && u == c * 0.5 && forall i | 0 <= i < |outer| :: outer[i].2 == w
    ensures WeightedPairs(outer, labels, scores, weights) == Repeat(u, HalfPairs(PositivesOf(outer), Scored(labels, scores, 0)))
  {
    if outer != [] {
      var x, negatives, rest := outer[0].1, Scored(labels, scores, 0), PositivesOf(outer[1..]);
      EqualPairs(outer[1..], labels, scores, weights, w, c, u);
      if outer[0].0 == 1 {
        EqualWins(x, labels, scores, weights, w, c, u);
        RepeatAdds(u, HalfWins(x, negatives), HalfPairs(rest, negatives));
        assert PositivesOf(outer) == [x] + rest && ([x] + rest)[1..] == rest;
      } else {
        assert PositivesOf(outer) == rest;
      }
    }
  }

  lemma TotalInHalves(c: real, u: real, halves: nat, wins: real)
    requires u == c * 0.5 && wins == halves as real * 0.5
    ensures Repeat(u, halves) == c * wins
  {
    RepeatIsProduct(u, halves);
  }

  function PositivesOf(rows: seq<(int, real, real)>): seq<real> {
    if rows == [] then [] else (if rows[0].0 == 1 then [rows[0].1] else []) + PositivesOf(rows[1..])
  }

  lemma {:induction false} RowsPositives(labels: seq<int>, scores: seq<real>, weights: seq<real>)
    requires |labels| == |scores| == |weights|
    ensures PositivesOf(Rows(labels, scores, weights)) == Scored(labels, scores, 1)
  {
    if labels != [] {
      RowsPositives(labels[1..], scores[1..], weights[1..]);
      assert Rows(labels, scores, weights)[1..] == Rows(labels[1..], scores[1..], weights[1..]);
    }
  }

  lemma Positive(a: real, b: real)
    requires a > 0.0 && b > 0.0
    ensures a * b > 0.0
  {
  }

  lemma Regroup(w: real, p: real, n: real, p': real, n': real, c: real, d: real)
    requires p' == w * p && n' == w * n && c == w * w && d == p * n
    ensures p' * n' == c * d
  {
    assert (w * p) * (w * n) == (w * w) * (p * n);
  }

  lemma Cancels(c: real, u: real, d: real, u': real, d': real)
    requires c > 0.0 && d > 0.0 && u' == c * u && d' == c * d
    ensures d' > 0.0 && u' / d' == u / d
  {
    Positive(c, d);
    var q := u / d;
    assert q * d == u;
    assert u' == q * d' by {
      assert c * (q * d) == q * (c * d);
    }
  }

  /** A common factor of all weights does not change the area. */
  lemma CommonFactor(w: real, c: real, wins: real, p: real, n: real, wins': real, p': real, n': real)
    requires w > 0.0 && p > 0.0 && n > 0.0 && c == w * w
    requires wins' == c * wins && p' == w * p && n' == w * n
    ensures p' > 0.0 && n' > 0.0 && Area(wins', p', n') == Area(wins, p, n)
  {
    Positive(w, p);
    Positive(w, n);
    Positive(w, w);
    Positive(p, n);
    var d := p * n;
    Regroup(w, p, n, p', n', c, d);
    Cancels(c, wins, d, wins', p' * n');
  }

  lemma EqualTotal(labels: seq<int>, scores: seq<real>, weights: seq<real>, w: real, c: real, u: real)
    requires |labels| == |scores| == |weights| && forall i | 0 <= i < |weights| :: weights[i] == w
    requires c == w * w && u == c * 0.5
    ensures WeightedPairs(Rows(labels, scores, weights), labels, scores, weights)
      == Repeat(u, HalfPairs(Scored(labels, scores, 1), Scored(labels, scores, 0)))
  {
    RowsPositives(labels, scores, weights);
    EqualPairs(Rows(labels, scores, weights), labels, scores, weights, w, c, u);
  }

  /** With equal positive weights the weighted area is the plain one. */
  lemma EqualWeightsGiveRocAuc(labels: seq<int>, scores: seq<real>, weights: seq<real>, w: real)
    requires |labels| == |scores| == |weights| && w > 0.0
    requires forall i | 0 <= i < |weights| :: weights[i] == w
    ensures WeightedArea(labels, scores, weights) == RocAuc(labels, scores)
  {
    var positives, negatives := Scored(labels, scores, 1), Scored(labels, scores, 0);
    var c := w * w;
    var u := c * 0.5;
    EqualWeight(labels, scores, weights, w, 1);
    EqualWeight(labels, scores, weights, w, 0);
    EqualTotal(labels, scores, weights, w, c, u);
    PairsInHalves(positives, negatives);
    AreaInHalves(w, c, u, HalfPairs(positives, negatives), PairSum(positives, negatives), |positives|, |negatives|);
  }

  lemma AreaInHalves(w: real, c: real, u: real, halves: nat, wins: real, p: nat, n: nat)
    requires w > 0.0 && c == w * w && u == c * 0.5 && wins == halves as real * 0.5
    ensures AreaOf(Repeat(u, halves), Repeat(w, p), Repeat(w, n)) == AreaOf(wins, p as real, n as real)
  {
    TotalInHalves(c, u, halves, wins);
    SameArea(w, c, wins, p, n, Repeat(u, halves));
  }

  lemma SameArea(w: real, c: real, wins: real, p: nat, n: nat, wins': real)
    requires w > 0.0 && c == w * w && wins' == c * wins
    ensures AreaOf(wins', Repeat(w, p), Repeat(w, n)) == AreaOf(wins, p as real, n as real)
  {
    RepeatIsProduct(w, p);
    RepeatIsProduct(w, n);
    if p > 0 && n > 0 {
      CommonFactor(w, c, wins, p as real, n as real, wins', Repeat(w, p), Repeat(w, n));
    }
  }
}

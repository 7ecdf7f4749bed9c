/** Average precision with tied scores taken as one group (backend/finrisk/evaluation.py, `average_precision`). */
module AveragePrecision {
  import opened Wrappers
  import opened Ordering

  datatype Row = Row(score: real, truth: int)

  /** `[size, positives]` of one score. */
  datatype Group = Group(size: nat, positives: int)

  function LabelSum(rows: seq<Row>): int {
    if rows == [] then 0 else rows[0].truth + LabelSum(rows[1..])
  }

  function HasScore(v: real): Row -> bool { (r: Row) => r.score == v }

  function AtLeast(v: real): Row -> bool { (r: Row) => r.score >= v }

  function Seen(keys: seq<real>): Row -> bool { (r: Row) => r.score in keys }

  predicate Descending(a: real, b: real) { a >= b }

  function Ratio(part: int, whole: nat): real {
    if whole == 0 then 0.0 else part as real / whole as real
  }

  /** The precision of calling everything from score `v` up positive. */
  function Precision(rows: seq<Row>, v: real): real {
    var called := Filter(rows, AtLeast(v));
    Ratio(LabelSum(called), |called|)
  }

  function Times(n: int, x: real): real { n as real * x }

  function PrecisionSum(part: seq<Row>, rows: seq<Row>): real {
    if part == [] then 0.0 else Times(part[0].truth, Precision(rows, part[0].score)) + PrecisionSum(part[1..], rows)
  }

  /** The reference: the mean, over the positives, of the precision at their own score. */
  function MeanPrecision(rows: seq<Row>): Option<real> {
    if LabelSum(rows) == 0 then None else Some(PrecisionSum(rows, rows) / LabelSum(rows) as real)
  }

  // ----- grouping by score

  predicate IsTable(rows: seq<Row>, keys: seq<real>, groups: map<real, Group>) {
    && Distinct(keys)
    && (forall i | 0 <= i < |rows| :: rows[i].score in keys)
    && (forall k | k in keys :: k in groups)
    && (forall k | k in groups :: k in keys)
    && (forall k | k in groups :: groups[k] == GroupOf(rows, k) && groups[k].size > 0)
  }

  function GroupOf(rows: seq<Row>, k: real): Group {
    var members := Filter(rows, HasScore(k));
    Group(|members|, LabelSum(members))
  }

  lemma {:induction false} LabelSumConcat(a: seq<Row>, b: seq<Row>)
    ensures LabelSum(a + b) == LabelSum(a) + LabelSum(b)
  {
    if a == [] {
      assert a + b == b;
    } else {
      assert (a + b)[1..] == a[1..] + b;
      LabelSumConcat(a[1..], b);
    }
  }

  lemma GroupGrows(rows: seq<Row>, r: Row, k: real)
    ensures GroupOf(rows + [r], k)
      == if r.score == k then Group(GroupOf(rows, k).size + 1, GroupOf(rows, k).positives + r.truth) else GroupOf(rows, k)
  {
    FilterConcat(rows, [r], HasScore(k));
    assert [r][1..] == [];
    LabelSumConcat(Filter(rows, HasScore(k)), Filter([r], HasScore(k)));
    assert LabelSum([r]) == r.truth;
  }

  lemma {:induction false} NoneAt(rows: seq<Row>, k: real)
    requires forall i | 0 <= i < |rows| :: rows[i].score != k
    ensures GroupOf(rows, k) == Group(0, 0)
  {
    if rows != [] {
      NoneAt(rows[1..], k);
    }
  }

  function EntryAt(groups: map<real, Group>, k: real): Group {
    if k in groups then groups[k] else Group(0, 0)
  }

  function Counted(groups: map<real, Group>, r: Row): map<real, Group> {
    var entry := EntryAt(groups, r.score);
    groups[r.score := Group(entry.size + 1, entry.positives + r.truth)]
  }

  lemma EntryIsGroup(rows: seq<Row>, keys: seq<real>, groups: map<real, Group>, k: real)
    requires IsTable(rows, keys, groups)
    ensures EntryAt(groups, k) == GroupOf(rows, k)
  {
    if k !in groups {
      NoneAt(rows, k);
    }
  }

  lemma TableStep(rows: seq<Row>, keys: seq<real>, groups: map<real, Group>, r: Row)
    requires IsTable(rows, keys, groups)
    ensures IsTable(rows + [r], if r.score in groups then keys else keys + [r.score], Counted(groups, r))
  {
    var more := Counted(groups, r);
    forall k | k in more ensures more[k] == GroupOf(rows + [r], k) && more[k].size > 0 {
      EntryIsGroup(rows, keys, groups, k);
      GroupGrows(rows, r, k);
    }
  }

  /** One more row under its score. */
  method CountRow(groups: map<real, Group>, r: Row) returns (more: map<real, Group>)
    ensures more == Counted(groups, r)
  {
    more := groups;
    if r.score !in more {
      more := more[r.score := Group(0, 0)];
    }
    var entry := more[r.score];
    more := more[r.score := Group(entry.size + 1, entry.positives + r.truth)];
    assert more == Counted(groups, r);
  }

  lemma TableSnoc(rows: seq<Row>, i: nat, keys: seq<real>, groups: map<real, Group>)
    requires i < |rows| && IsTable(rows[..i], keys, groups)
    ensures var r := rows[i];
      IsTable(rows[..i + 1], if r.score in groups then keys else keys + [r.score], Counted(groups, r))
  {
    assert rows[..i + 1] == rows[..i] + [rows[i]];
    TableStep(rows[..i], keys, groups, rows[i]);
  }

  method GroupScores(rows: seq<Row>) returns (keys: seq<real>, groups: map<real, Group>)
    ensures IsTable(rows, keys, groups)
  {
    keys, groups := [], map[];
    for i := 0 to |rows|
      invariant IsTable(rows[..i], keys, groups)
    {
      TableSnoc(rows, i, keys, groups);
      if rows[i].score !in groups {
        keys := keys + [rows[i].score];
      }
      groups := CountRow(groups, rows[i]);
    }
    assert rows[..|rows|] == rows;
  }

  // ----- the sum over groups

  lemma Distributes(m: int, n: int, x: real)
    ensures Times(m + n, x) == Times(m, x) + Times(n, x)
  {
  }

  /** What the groups of the listed scores contribute, before the division. */
  function GroupSum(keys: seq<real>, part: seq<Row>, rows: seq<Row>): real {
    if keys == [] then 0.0
    else Times(GroupOf(part, keys[0]).positives, Precision(rows, keys[0])) + GroupSum(keys[1..], part, rows)
  }

  lemma {:induction false} GroupSumConcat(a: seq<real>, b: seq<real>, part: seq<Row>, rows: seq<Row>)
    ensures GroupSum(a + b, part, rows) == GroupSum(a, part, rows) + GroupSum(b, part, rows)
  {
    if a == [] {
      assert a + b == b;
    } else {
      assert (a + b)[1..] == a[1..] + b;
      GroupSumConcat(a[1..], b, part, rows);
    }
  }

  lemma LabelSumCons(r: Row, rest: seq<Row>)
    ensures LabelSum([r] + rest) == r.truth + LabelSum(rest)
  {
    assert ([r] + rest)[1..] == rest;
  }

  lemma FilterHead(r: Row, rest: seq<Row>, p: Row -> bool)
    ensures Filter([r] + rest, p) == if p(r) then [r] + Filter(rest, p) else Filter(rest, p)
  {
    assert ([r] + rest)[1..] == rest;
    assert [] + Filter(rest, p) == Filter(rest, p);
  }

  lemma GroupShift(r: Row, rest: seq<Row>, k: real)
    ensures GroupOf([r] + rest, k).positives == GroupOf(rest, k).positives + if r.score == k then r.truth else 0
  {
    FilterHead(r, rest, HasScore(k));
    LabelSumCons(r, Filter(rest, HasScore(k)));
  }

  /** One more row adds its label times the precision at its score, once. */
  lemma {:induction false} GroupSumStep(keys: seq<real>, r: Row, rest: seq<Row>, rows: seq<Row>)
    requires Distinct(keys)
    ensures GroupSum(keys, [r] + rest, rows)
      == GroupSum(keys, rest, rows) + if r.score in keys then Times(r.truth, Precision(rows, r.score)) else 0.0
  {
    if keys != [] {
      DistinctTail(keys);
      GroupSumStep(keys[1..], r, rest, rows);
      var k, precision := keys[0], Precision(rows, keys[0]);
      var now, before := GroupOf([r] + rest, k).positives, GroupOf(rest, k).positives;
      GroupShift(r, rest, k);
      assert r.score in keys <==> r.score == k || r.score in keys[1..];
      assert GroupSum(keys, [r] + rest, rows) == Times(now, precision) + GroupSum(keys[1..], [r] + rest, rows);
      assert GroupSum(keys, rest, rows) == Times(before, precision) + GroupSum(keys[1..], rest, rows);
      if r.score == k {
        Distributes(before, r.truth, precision);
      }
    }
  }

  lemma {:induction false} NoRows(keys: seq<real>, rows: seq<Row>)
    ensures GroupSum(keys, [], rows) == 0.0
  {
    if keys != [] {
      NoRows(keys[1..], rows);
    }
  }

  /** Summing group by group is summing row by row. */
  lemma {:induction false} GroupsMakeSum(keys: seq<real>, part: seq<Row>, rows: seq<Row>)
    requires Distinct(keys) && forall i | 0 <= i < |part| :: part[i].score in keys
    ensures GroupSum(keys, part, rows) == PrecisionSum(part, rows)
  {
    if part == [] {
      NoRows(keys, rows);
    } else {
      GroupsMakeSum(keys, part[1..], rows);
      assert part == [part[0]] + part[1..];
      assert part[0].score in keys;
      GroupSumStep(keys, part[0], part[1..], rows);
    }
  }

  // ----- the program

  lemma {:induction false} SeenGrows(rows: seq<Row>, keys: seq<real>, k: real)
    requires k !in keys
    ensures |Filter(rows, Seen(keys + [k]))| == |Filter(rows, Seen(keys))| + GroupOf(rows, k).size
    ensures LabelSum(Filter(rows, Seen(keys + [k]))) == LabelSum(Filter(rows, Seen(keys))) + GroupOf(rows, k).positives
  {
    if rows != [] {
      var r, rest := rows[0], rows[1..];
      SeenGrows(rest, keys, k);
      assert r.score in keys + [k] <==> r.score in keys || r.score == k;
      HeadCounts(r, rest, rows, Seen(keys + [k]));
      HeadCounts(r, rest, rows, Seen(keys));
      HeadCounts(r, rest, rows, HasScore(k));
    }
  }

  lemma HeadCounts(r: Row, rest: seq<Row>, rows: seq<Row>, p: Row -> bool)
    requires rows != [] && r == rows[0] && rest == rows[1..]
    ensures |Filter(rows, p)| == |Filter(rest, p)| + if p(r) then 1 else 0
    ensures LabelSum(Filter(rows, p)) == LabelSum(Filter(rest, p)) + if p(r) then r.truth else 0
  {
    assert rows == [r] + rest;
    FilterHead(r, rest, p);
    LabelSumCons(r, Filter(rest, p));
  }

  /** Along the descending distinct scores, the scores seen so far are those from the current one up. */
  lemma SeenIsAtLeast(rows: seq<Row>, ordered: seq<real>, i: nat)
    requires i < |ordered| && Sorted(ordered, Descending) && Distinct(ordered)
    requires forall j | 0 <= j < |rows| :: rows[j].score in ordered
    ensures Filter(rows, Seen(ordered[..i + 1])) == Filter(rows, AtLeast(ordered[i]))
  {
    forall j | 0 <= j < |rows| ensures Seen(ordered[..i + 1])(rows[j]) == AtLeast(ordered[i])(rows[j]) {
      assert rows[j].score in ordered;
      var k :| 0 <= k < |ordered| && ordered[k] == rows[j].score;
      if k <= i {
        assert ordered[..i + 1][k] == rows[j].score;
        assert k == i || Descending(ordered[k], ordered[i]);
      } else {
        assert Descending(ordered[i], ordered[k]) && ordered[i] != ordered[k];
        assert forall l | 0 <= l < i + 1 :: ordered[l] != ordered[k];
      }
    }
    FilterSame(rows, Seen(ordered[..i + 1]), AtLeast(ordered[i]));
  }

  lemma OneGroup(ordered: seq<real>, i: nat, part: seq<Row>, rows: seq<Row>)
    requires i < |ordered|
    ensures GroupSum(ordered[..i + 1], part, rows)
      == GroupSum(ordered[..i], part, rows) + Times(GroupOf(part, ordered[i]).positives, Precision(rows, ordered[i]))
  {
    assert ordered[..i + 1] == ordered[..i] + [ordered[i]];
    GroupSumConcat(ordered[..i], [ordered[i]], part, rows);
    assert [ordered[i]][1..] == [];
  }

  /** `total += (group_positives / positives) * precision`, told without the division. */
  method AddShare(total: real, group: int, positives: int, precision: real) returns (next: real)
    requires positives != 0
    ensures Times(positives, next) == Times(positives, total) + Times(group, precision)
  {
    var share := group as real / positives as real;
    next := total + share * precision;
    ShareOf(total, group as real, positives as real, precision, share);
  }

  lemma ShareOf(total: real, group: real, positives: real, precision: real, share: real)
    requires positives * share == group
    ensures positives * (total + share * precision) == positives * total + group * precision
  {
    assert positives * (share * precision) == (positives * share) * precision;
    assert positives * (total + share * precision) == positives * total + positives * (share * precision);
  }

  lemma Divides(total: real, sum: real, positives: int)
    requires positives != 0 && Times(positives, total) == sum
    ensures total == sum / positives as real
  {
  }

  lemma OrderedKeys(rows: seq<Row>, keys: seq<real>, groups: map<real, Group>, ordered: seq<real>)
    requires IsTable(rows, keys, groups) && ordered == SortBy(keys, Descending)
    ensures Sorted(ordered, Descending) && Distinct(ordered)
    ensures forall k :: k in ordered <==> k in groups
    ensures forall i | 0 <= i < |rows| :: rows[i].score in ordered
  {
    SortSorts(keys, Descending);
    SortPermutes(keys, Descending);
    SameMembers(keys, ordered);
    DistinctPermutes(keys, ordered);
  }

  /** The running total against the sum over the first `i` groups. */
  ghost predicate Totalled(rows: seq<Row>, ordered: seq<real>, i: nat, positives: int, total: real)
    requires i <= |ordered|
  {
    Times(positives, total) == GroupSum(ordered[..i], rows, rows)
  }

  method AddGroup(rows: seq<Row>, ghost ordered: seq<real>, ghost i: nat, group: int, positives: int, precision: real, total: real)
    returns (next: real)
    requires positives != 0 && i < |ordered| && Totalled(rows, ordered, i, positives, total)
    requires group == GroupOf(rows, ordered[i]).positives && precision == Precision(rows, ordered[i])
    ensures Totalled(rows, ordered, i + 1, positives, next)
  {
    OneGroup(ordered, i, rows, rows);
    next := AddShare(total, group, positives, precision);
  }

  /** What the loop has counted after the first `i` scores. */
  predicate Accumulated(rows: seq<Row>, ordered: seq<real>, i: nat, truePositives: int, count: int)
    requires i <= |ordered|
  {
    truePositives == LabelSum(Filter(rows, Seen(ordered[..i]))) && count == |Filter(rows, Seen(ordered[..i]))|
  }

  /** One pass of the loop: the counts move on, and their ratio is the precision at the score. */
  lemma OnePass(rows: seq<Row>, ordered: seq<real>, i: nat, truePositives: int, count: int)
    requires i < |ordered| && Sorted(ordered, Descending) && Distinct(ordered)
    requires forall j | 0 <= j < |rows| :: rows[j].score in ordered
    requires Accumulated(rows, ordered, i, truePositives, count)
    ensures var group := GroupOf(rows, ordered[i]);
      && Accumulated(rows, ordered, i + 1, truePositives + group.positives, count + group.size)
      && (count + group.size >= 0 ==> Ratio(truePositives + group.positives, count + group.size) == Precision(rows, ordered[i]))
  {
    assert ordered[..i + 1] == ordered[..i] + [ordered[i]];
    SeenGrows(rows, ordered[..i], ordered[i]);
    SeenIsAtLeast(rows, ordered, i);
  }

  method Pass(rows: seq<Row>, ghost ordered: seq<real>, ghost i: nat, group: Group, positives: int,
              truePositives: int, count: int, total: real)
    returns (morePositives: int, more: int, next: real)
    requires positives != 0 && i < |ordered| && Sorted(ordered, Descending) && Distinct(ordered)
    requires forall j | 0 <= j < |rows| :: rows[j].score in ordered
    requires group == GroupOf(rows, ordered[i]) && group.size > 0
    requires count >= 0 && Accumulated(rows, ordered, i, truePositives, count) && Totalled(rows, ordered, i, positives, total)
    ensures more >= 0 && Accumulated(rows, ordered, i + 1, morePositives, more) && Totalled(rows, ordered, i + 1, positives, next)
  {
    OnePass(rows, ordered, i, truePositives, count);
    morePositives := truePositives + group.positives;
    more := count + group.size;
    var precision := Ratio(morePositives, more);
    next := AddGroup(rows, ordered, i, group.positives, positives, precision, total);
  }

  /** The descending loop over the groups. */
  method Accumulate(rows: seq<Row>, ordered: seq<real>, groups: map<real, Group>, positives: int) returns (total: real)
    requires positives != 0 && Sorted(ordered, Descending) && Distinct(ordered)
    requires forall i | 0 <= i < |rows| :: rows[i].score in ordered
    requires forall i | 0 <= i < |ordered| :: ordered[i] in groups && groups[ordered[i]] == GroupOf(rows, ordered[i])
    requires forall i | 0 <= i < |ordered| :: groups[ordered[i]].size > 0
    ensures Times(positives, total) == GroupSum(ordered, rows, rows)
  {
    var truePositives, count := 0, 0;
    total := 0.0;
    NothingAccumulated(rows, ordered, positives);
    for i := 0 to |ordered|
      invariant count >= 0 && Accumulated(rows, ordered, i, truePositives, count)
      invariant Totalled(rows, ordered, i, positives, total)
    {
      truePositives, count, total := Pass(rows, ordered, i, groups[ordered[i]], positives, truePositives, count, total);
    }
    assert ordered[..|ordered|] == ordered;
  }

  lemma NothingAccumulated(rows: seq<Row>, ordered: seq<real>, positives: int)
    requires positives != 0
    ensures Accumulated(rows, ordered, 0, 0, 0) && Totalled(rows, ordered, 0, positives, 0.0)
  {
    NothingSeen(rows);
    assert ordered[..0] == [];
  }

  lemma {:induction false} NothingSeen(rows: seq<Row>)
    ensures Filter(rows, Seen([])) == []
  {
    if rows != [] {
      NothingSeen(rows[1..]);
    }
  }

  function Zip(labels: seq<int>, scores: seq<real>): (rows: seq<Row>)
    requires |labels| == |scores|
    ensures |rows| == |labels|
  {
    seq(|labels|, i requires 0 <= i < |labels| => Row(scores[i], labels[i]))
  }

  method Average(labels: seq<int>, scores: seq<real>) returns (r: Result<Option<real>, string>)
    ensures |labels| != |scores| ==> r == Failure("inputs must have equal length")
    ensures |labels| == |scores| ==> r == Success(MeanPrecision(Zip(labels, scores)))
  {
    if |labels| != |scores| {
      return Failure("inputs must have equal length");
    }
    var rows := Zip(labels, scores);
    var positives := LabelSum(rows);
    if positives == 0 {
      return Success(None);
    }
    var keys, groups := GroupScores(rows);
    var ordered := SortBy(keys, Descending);
    OrderedKeys(rows, keys, groups, ordered);
    var total := Accumulate(rows, ordered, groups, positives);
    GroupsMakeSum(ordered, rows, rows);
    Divides(total, PrecisionSum(rows, rows), positives);
    r := Success(Some(total));
  }

  // ----- reordering the rows

  lemma LabelSumPermutes(a: seq<Row>, b: seq<Row>)
    requires multiset(a) == multiset(b)
    ensures LabelSum(a) == LabelSum(b)
    decreases |a|
  {
    SameMembers(a, b);
    if a != [] {
      var front, back := LocateHead(a, b);
      LabelSumPermutes(a[1..], front + back);
      LabelSumConcat(front, [a[0]] + back);
      LabelSumConcat([a[0]], back);
      LabelSumConcat(front, back);
      assert LabelSum([a[0]]) == a[0].truth + LabelSum([]);
    }
  }

  lemma PrecisionPermutes(a: seq<Row>, b: seq<Row>, v: real)
    requires multiset(a) == multiset(b)
    ensures Precision(a, v) == Precision(b, v)
  {
    FilterPermutes(a, b, AtLeast(v));
    SameMembers(Filter(a, AtLeast(v)), Filter(b, AtLeast(v)));
    LabelSumPermutes(Filter(a, AtLeast(v)), Filter(b, AtLeast(v)));
  }

  lemma {:induction false} SumConcat(a: seq<Row>, b: seq<Row>, rows: seq<Row>)
    ensures PrecisionSum(a + b, rows) == PrecisionSum(a, rows) + PrecisionSum(b, rows)
  {
    if a == [] {
      assert a + b == b;
    } else {
      assert (a + b)[1..] == a[1..] + b;
      SumConcat(a[1..], b, rows);
    }
  }

  lemma {:induction false} SumPermutes(a: seq<Row>, b: seq<Row>, rows: seq<Row>)
    requires multiset(a) == multiset(b)
    ensures PrecisionSum(a, rows) == PrecisionSum(b, rows)
    decreases |a|
  {
    SameMembers(a, b);
    if a != [] {
      var front, back := LocateHead(a, b);
      SumPermutes(a[1..], front + back, rows);
      SumConcat(front, [a[0]] + back, rows);
      SumConcat(front, back, rows);
      assert ([a[0]] + back)[1..] == back;
    }
  }

  lemma {:induction false} SumRelocates(part: seq<Row>, a: seq<Row>, b: seq<Row>)
    requires multiset(a) == multiset(b)
    ensures PrecisionSum(part, a) == PrecisionSum(part, b)
  {
    if part != [] {
      PrecisionPermutes(a, b, part[0].score);
      SumRelocates(part[1..], a, b);
    }
  }

  /** The order of the rows does not matter, tied or not. */
  lemma OrderIndependent(a: seq<Row>, b: seq<Row>)
    requires multiset(a) == multiset(b)
    ensures MeanPrecision(a) == MeanPrecision(b)
  {
    LabelSumPermutes(a, b);
    SumPermutes(a, b, a);
    SumRelocates(b, a, b);
  }

  // ----- rescaling the scores

  ghost predicate StrictlyIncreasing(f: real -> real) {
    forall x, y :: x < y <==> f(x) < f(y)
  }

  function Rescale(f: real -> real, r: Row): Row {
    Row(f(r.score), r.truth)
  }

  function Rescaled(f: real -> real, rows: seq<Row>): seq<Row> {
    if rows == [] then [] else [Rescale(f, rows[0])] + Rescaled(f, rows[1..])
  }

  lemma {:induction false} RescaledPrefix(f: real -> real, rows: seq<Row>, v: real)
    requires StrictlyIncreasing(f)
    ensures |Filter(Rescaled(f, rows), AtLeast(f(v)))| == |Filter(rows, AtLeast(v))|
    ensures LabelSum(Filter(Rescaled(f, rows), AtLeast(f(v)))) == LabelSum(Filter(rows, AtLeast(v)))
  {
    if rows != [] {
      RescaledPrefix(f, rows[1..], v);
      var r, scaled := rows[0], Rescaled(f, rows);
      assert scaled[1..] == Rescaled(f, rows[1..]);
      HeadCounts(r, rows[1..], rows, AtLeast(v));
      HeadCounts(Rescale(f, r), scaled[1..], scaled, AtLeast(f(v)));
      assert r.score < v <==> f(r.score) < f(v);
    }
  }

  lemma {:induction false} RescaledLabels(f: real -> real, rows: seq<Row>)
    ensures LabelSum(Rescaled(f, rows)) == LabelSum(rows)
  {
    if rows != [] {
      RescaledLabels(f, rows[1..]);
      assert Rescaled(f, rows)[1..] == Rescaled(f, rows[1..]);
    }
  }

  lemma {:induction false} RescaledSum(f: real -> real, part: seq<Row>, rows: seq<Row>)
    requires StrictlyIncreasing(f)
    ensures PrecisionSum(Rescaled(f, part), Rescaled(f, rows)) == PrecisionSum(part, rows)
  {
    if part != [] {
      RescaledSum(f, part[1..], rows);
      RescaledPrefix(f, rows, part[0].score);
      assert Rescaled(f, part)[1..] == Rescaled(f, part[1..]);
    }
  }

  /** Only the order of the scores matters, not their values. */
  lemma RescalingInvariant(f: real -> real, rows: seq<Row>)
    requires StrictlyIncreasing(f)
    ensures MeanPrecision(Rescaled(f, rows)) == MeanPrecision(rows)
  {
    RescaledLabels(f, rows);
    RescaledSum(f, rows, rows);
  }

  // ----- constant and perfect scores

  lemma {:induction false} EveryoneCalled(rows: seq<Row>, v: real)
    requires forall i | 0 <= i < |rows| :: rows[i].score == v
    ensures Filter(rows, AtLeast(v)) == rows
  {
    if rows != [] {
      EveryoneCalled(rows[1..], v);
    }
  }

  lemma {:induction false} ConstantSum(part: seq<Row>, rows: seq<Row>, v: real, precision: real)
    requires forall i | 0 <= i < |part| :: part[i].score == v
    requires precision == Precision(rows, v)
    ensures PrecisionSum(part, rows) == Times(LabelSum(part), precision)
  {
    if part != [] {
      ConstantSum(part[1..], rows, v, precision);
      Distributes(part[0].truth, LabelSum(part[1..]), precision);
    }
  }

  lemma Prevalence(positives: int, x: real)
    requires positives != 0
    ensures Times(positives, x) / positives as real == x
  {
    Divides(x, Times(positives, x), positives);
  }

  /** A constant score earns the prevalence of the positives, nothing more. */
  lemma ConstantScoresGivePrevalence(rows: seq<Row>, v: real)
    requires forall i | 0 <= i < |rows| :: rows[i].score == v
    requires LabelSum(rows) != 0
    ensures MeanPrecision(rows) == Some(Ratio(LabelSum(rows), |rows|))
  {
    EveryoneCalled(rows, v);
    ConstantSum(rows, rows, v, Precision(rows, v));
    Prevalence(LabelSum(rows), Precision(rows, v));
  }

  predicate Binary(rows: seq<Row>) {
    forall i | 0 <= i < |rows| :: rows[i].truth == 0 || rows[i].truth == 1
  }

  /** Every positive scores strictly above every negative. */
  predicate Separated(rows: seq<Row>) {
    forall i, j | 0 <= i < |rows| && 0 <= j < |rows| :: rows[i].truth == 1 && rows[j].truth == 0 ==> rows[i].score > rows[j].score
  }

  lemma {:induction false} LabelsBelowCount(rows: seq<Row>)
    requires Binary(rows)
    ensures 0 <= LabelSum(rows) <= |rows|
    ensures LabelSum(rows) == |rows| <==> forall i | 0 <= i < |rows| :: rows[i].truth == 1
  {
    if rows != [] {
      LabelsBelowCount(rows[1..]);
    }
  }

  lemma QuotientBelowOne(p: real, w: real, q: real)
    requires 0.0 <= p <= w && w > 0.0 && q * w == p
    ensures 0.0 <= q <= 1.0
    ensures q == 1.0 <==> p == w
  {
    TimesOrder(q, 0.0, w);
    TimesOrder(1.0, q, w);
    TimesOrder(q, 1.0, w);
  }

  lemma PositiveProduct(a: real, b: real)
    requires a > 0.0 && b > 0.0
    ensures a * b > 0.0
  {
  }

  lemma TimesOrder(a: real, b: real, w: real)
    requires w > 0.0
    ensures a * w < b * w <==> a < b
  {
    if a < b {
      PositiveProduct(b - a, w);
      assert (b - a) * w == b * w - a * w;
    } else if b < a {
      PositiveProduct(a - b, w);
      assert (a - b) * w == a * w - b * w;
    }
  }

  lemma RatioBelowOne(part: int, whole: nat)
    requires 0 <= part <= whole
    ensures 0.0 <= Ratio(part, whole) <= 1.0
    ensures whole > 0 ==> (Ratio(part, whole) == 1.0 <==> part == whole)
  {
    if whole > 0 {
      QuotientBelowOne(part as real, whole as real, Ratio(part, whole));
    }
  }

  /** The precision at a positive's score is 1 exactly when no negative scores as high. */
  lemma PerfectAt(rows: seq<Row>, i: nat)
    requires Binary(rows) && i < |rows|
    ensures 0.0 <= Precision(rows, rows[i].score) <= 1.0
    ensures Precision(rows, rows[i].score) == 1.0
      <==> forall j | 0 <= j < |rows| :: rows[j].score >= rows[i].score ==> rows[j].truth == 1
  {
    var v := rows[i].score;
    var called := Filter(rows, AtLeast(v));
    FilterMembers(rows, AtLeast(v));
    assert rows[i] in called;
    forall k | 0 <= k < |called| ensures called[k].truth == 0 || called[k].truth == 1 {
      assert called[k] in rows;
    }
    LabelsBelowCount(called);
    RatioBelowOne(LabelSum(called), |called|);
    assert (forall k | 0 <= k < |called| :: called[k].truth == 1)
      <==> forall j | 0 <= j < |rows| :: rows[j].score >= v ==> rows[j].truth == 1 by {
      forall j | 0 <= j < |rows| && rows[j].score >= v ensures rows[j] in called {
        assert rows[j] in rows && AtLeast(v)(rows[j]);
      }
      forall k | 0 <= k < |called| ensures called[k] in rows && called[k].score >= v {
        assert called[k] in called;
      }
    }
  }

  /** The positives of `part` all have precision 1 among `rows`. */
  predicate AllPerfect(part: seq<Row>, rows: seq<Row>) {
    forall i | 0 <= i < |part| :: part[i].truth == 1 ==> Precision(rows, part[i].score) == 1.0
  }

  lemma {:induction false} SumBelow(part: seq<Row>, rows: seq<Row>)
    requires Binary(part) && forall i | 0 <= i < |part| :: Precision(rows, part[i].score) <= 1.0
    ensures PrecisionSum(part, rows) <= LabelSum(part) as real
    ensures PrecisionSum(part, rows) == LabelSum(part) as real <==> AllPerfect(part, rows)
  {
    if part != [] {
      var rest := part[1..];
      SumBelow(rest, rows);
      assert AllPerfect(part, rows) <==> (part[0].truth == 1 ==> Precision(rows, part[0].score) == 1.0) && AllPerfect(rest, rows) by {
        assert forall i | 0 <= i < |rest| :: rest[i] == part[i + 1];
        assert forall i | 1 <= i < |part| :: part[i] == rest[i - 1];
      }
    }
  }

  lemma OneIffWhole(sum: real, positives: int)
    requires positives > 0
    ensures sum / positives as real == 1.0 <==> sum == positives as real
  {
    var w := positives as real;
    var q := sum / w;
    assert q * w == sum;
    assert 1.0 * w == w;
  }

  /** The score is perfect exactly when the positives are strictly separated from the negatives. */
  lemma PerfectIffSeparated(rows: seq<Row>)
    requires Binary(rows) && LabelSum(rows) != 0
    ensures MeanPrecision(rows) == Some(1.0) <==> Separated(rows)
  {
    LabelsBelowCount(rows);
    forall i | 0 <= i < |rows| ensures Precision(rows, rows[i].score) <= 1.0 {
      PerfectAt(rows, i);
    }
    SumBelow(rows, rows);
    OneIffWhole(PrecisionSum(rows, rows), LabelSum(rows));
    PerfectRows(rows);
  }

  lemma PerfectRows(rows: seq<Row>)
    requires Binary(rows)
    ensures AllPerfect(rows, rows) <==> Separated(rows)
  {
    forall i | 0 <= i < |rows| && rows[i].truth == 1
      ensures Precision(rows, rows[i].score) == 1.0 <==> Above(rows, i) {
      PerfectAt(rows, i);
    }
    assert Separated(rows) <==> forall i | 0 <= i < |rows| && rows[i].truth == 1 :: Above(rows, i);
  }

  predicate Above(rows: seq<Row>, i: nat)
    requires i < |rows|
  {
    forall j | 0 <= j < |rows| :: rows[j].truth == 0 ==> rows[i].score > rows[j].score
  }
}

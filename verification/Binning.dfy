/** Equal-count bins along a sorted quantity (research/e4r_automated_robustness/e4r_analysis.py,
    `quantile_membership` and `missingness_bands`). */
module Binning {
  import opened Ordering

  /** The bin of position `i` among `n`, with `bins` labels: `min(bins - 1, i * bins // max(1, n))`. */
  function Bin(i: nat, n: nat, bins: nat): int
    requires bins > 0
  {
    var size := if n > 1 then n else 1;
    var position := i * bins / size;
    if position > bins - 1 then bins - 1 else position
  }

  function KeyOf(values: map<string, real>, id: string): real {
    if id in values then values[id] else 0.0
  }

  /** By value, then by identifier. */
  function ByValue(values: map<string, real>): (string, string) -> bool {
    (a: string, b: string) =>
      if KeyOf(values, a) == KeyOf(values, b) then StringLe(a, b) else KeyOf(values, a) < KeyOf(values, b)
  }

  function Order(ids: seq<string>, values: map<string, real>): seq<string> {
    SortBy(ids, ByValue(values))
  }

  /** Every identifier's bin, in the order of the loop; a later entry overrides. */
  function Filled(ordered: seq<string>, k: nat, bins: nat): map<string, int>
    requires k <= |ordered| && bins > 0
  {
    if k == 0 then map[] else Filled(ordered, k - 1, bins)[ordered[k - 1] := Bin(k - 1, |ordered|, bins)]
  }

  function Membership(ids: seq<string>, values: map<string, real>, bins: nat): map<string, int>
    requires bins > 0
  {
    Filled(Order(ids, values), |Order(ids, values)|, bins)
  }

  /** The label of each identifier is the one of its bin. */
  method QuantileMembership(ids: seq<string>, values: map<string, real>, labels: seq<string>) returns (membership: map<string, string>)
    requires labels != [] && forall id | id in ids :: id in values
    ensures var bins := Membership(ids, values, |labels|);
      membership.Keys == bins.Keys
      && forall id | id in membership :: 0 <= bins[id] < |labels| && membership[id] == labels[bins[id]]
  {
    var ordered := Order(ids, values);
    var size := |ordered|;
    membership := map[];
    for index := 0 to size
      invariant membership.Keys == Filled(ordered, index, |labels|).Keys
      invariant forall id | id in membership ::
        0 <= Filled(ordered, index, |labels|)[id] < |labels| && membership[id] == labels[Filled(ordered, index, |labels|)[id]]
    {
      var position := Bin(index, size, |labels|);
      NotNegative(index, size, |labels|);
      membership := membership[ordered[index] := labels[position]];
    }
  }

  // ----- arithmetic of one bin

  lemma Division(a: nat, n: nat)
    requires n > 0
    ensures a == n * (a / n) + a % n && 0 <= a % n < n && a / n >= 0
  {
  }

  lemma NotNegative(i: nat, n: nat, bins: nat)
    requires bins > 0
    ensures 0 <= Bin(i, n, bins) < bins
  {
    var size := if n > 1 then n else 1;
    assert i * bins >= 0;
    Division(i * bins, size);
  }

  lemma Grows(n: nat, x: int, y: int)
    requires x <= y
    ensures n * x <= n * y
  {
  }

  lemma Cancels(n: nat, x: int, y: int)
    requires n > 0 && n * x < n * y
    ensures x < y
  {
    if y <= x {
      Grows(n, y, x);
      assert false;
    }
  }

  /** Where bin `k` starts: the smallest position `i` with `i * bins >= k * n`. */
  function StartOf(k: nat, n: nat, bins: nat): int
    requires bins > 0
  {
    (k * n + bins - 1) / bins
  }

  lemma StartIsCeiling(k: nat, n: nat, bins: nat)
    requires bins > 0
    ensures StartOf(k, n, bins) >= 0
    ensures bins * StartOf(k, n, bins) >= k * n
    ensures bins * (StartOf(k, n, bins) - 1) < k * n
  {
    assert k * n >= 0;
    var a := k * n + bins - 1;
    Division(a, bins);
    var q := a / bins;
    assert bins * (q - 1) == bins * q - bins;
  }

  lemma AtStart(i: nat, k: nat, n: nat, bins: nat)
    requires bins > 0
    ensures i >= StartOf(k, n, bins) <==> i * bins >= k * n
  {
    var start := StartOf(k, n, bins);
    StartIsCeiling(k, n, bins);
    if i >= start {
      Grows(bins, start, i);
    } else {
      Grows(bins, i, start - 1);
    }
    assert i * bins == bins * i;
  }

  lemma QuotientAtLeast(a: nat, n: nat, k: nat)
    requires n > 0
    ensures a / n >= k <==> a >= k * n
  {
    Division(a, n);
    var q := a / n;
    if q >= k {
      Grows(n, k, q);
    } else {
      Grows(n, q + 1, k);
      assert n * (q + 1) == n * q + n;
    }
    assert k * n == n * k;
  }

  lemma InsideBelow(i: nat, n: nat, bins: nat)
    requires bins > 0 && i < n
    ensures i * bins >= 0 && i * bins < bins * n
  {
    Grows(bins, i + 1, n);
    assert bins * (i + 1) == bins * i + bins;
    assert i * bins == bins * i;
  }

  /** Position `i` is in bin `k` or later exactly from the bin's start on; the cap never acts. */
  lemma BinAtLeast(i: nat, k: nat, n: nat, bins: nat)
    requires bins > 0 && i < n && k < bins
    ensures Bin(i, n, bins) >= k <==> i >= StartOf(k, n, bins)
    ensures i < StartOf(bins, n, bins)
  {
    InsideBelow(i, n, bins);
    QuotientAtLeast(i * bins, n, k);
    QuotientAtLeast(i * bins, n, bins);
    AtStart(i, k, n, bins);
    AtStart(i, bins, n, bins);
  }

  /** Bin `k` is the stretch of positions from its start to the next bin's. */
  lemma BinIsStretch(i: nat, k: nat, n: nat, bins: nat)
    requires bins > 0 && i < n && k < bins
    ensures Bin(i, n, bins) == k <==> StartOf(k, n, bins) <= i < StartOf(k + 1, n, bins)
  {
    BinAtLeast(i, k, n, bins);
    NotNegative(i, n, bins);
    if k + 1 < bins {
      BinAtLeast(i, k + 1, n, bins);
    }
  }

  lemma StartsWithin(k: nat, n: nat, bins: nat)
    requires bins > 0 && k < bins
    ensures 0 <= StartOf(k, n, bins) <= StartOf(k + 1, n, bins) <= n
  {
    StartIsCeiling(k, n, bins);
    StartIsCeiling(k + 1, n, bins);
    var s, t := StartOf(k, n, bins), StartOf(k + 1, n, bins);
    NextProduct(k, n);
    Cancels(bins, s - 1, t);
    Grows(n, k + 1, bins);
    assert (k + 1) * n == n * (k + 1) && n * bins == bins * n;
    Cancels(bins, t - 1, n);
  }

  lemma NextProduct(k: nat, n: nat)
    ensures (k + 1) * n == k * n + n
  {
  }

  /** A bin holds n / bins positions, rounded down or up. */
  lemma SizeIsFloorOrCeiling(k: nat, n: nat, bins: nat)
    requires bins > 0 && k < bins
    ensures var size := StartOf(k + 1, n, bins) - StartOf(k, n, bins);
      n / bins <= size <= (n + bins - 1) / bins
  {
    StartIsCeiling(k, n, bins);
    StartIsCeiling(k + 1, n, bins);
    NextProduct(k, n);
    var s, t := StartOf(k, n, bins), StartOf(k + 1, n, bins);
    SizeBounds(s, t, k * n, n, bins);
  }

  lemma SizeBounds(s: int, t: int, a: int, n: nat, bins: nat)
    requires bins > 0
    requires bins * s >= a && bins * (s - 1) < a && bins * t >= a + n && bins * (t - 1) < a + n
    ensures n / bins <= t - s <= (n + bins - 1) / bins
  {
    Division(n, bins);
    Division(n + bins - 1, bins);
    var floor, ceiling := n / bins, (n + bins - 1) / bins;
    assert bins * (s - 1) == bins * s - bins && bins * (t - 1) == bins * t - bins;
    assert bins * (t - s + 1) == bins * t - bins * s + bins;
    assert bins * (floor - 1) == bins * floor - bins;
    assert bins * (ceiling + 1) == bins * ceiling + bins;
    assert bins * (t - s) == bins * t - bins * s;
    Cancels(bins, floor, t - s + 1);
    Cancels(bins, t - s, ceiling + 1);
  }

  // ----- what the bins hold

  lemma {:induction false} FilledAt(ordered: seq<string>, k: nat, bins: nat, i: nat)
    requires bins > 0 && i < k <= |ordered| && Distinct(ordered)
    ensures ordered[i] in Filled(ordered, k, bins) && Filled(ordered, k, bins)[ordered[i]] == Bin(i, |ordered|, bins)
  {
    if i < k - 1 {
      FilledAt(ordered, k - 1, bins, i);
      assert ordered[i] != ordered[k - 1];
    }
  }

  lemma {:induction false} FilledKeys(ordered: seq<string>, k: nat, bins: nat)
    requires bins > 0 && k <= |ordered|
    ensures Filled(ordered, k, bins).Keys == set id | id in ordered[..k]
  {
    if k > 0 {
      FilledKeys(ordered, k - 1, bins);
      assert ordered[..k] == ordered[..k - 1] + [ordered[k - 1]];
    }
  }

  function StretchSet(ordered: seq<string>, start: int, end: int): set<string>
    requires 0 <= start <= end <= |ordered|
  {
    set i | start <= i < end :: ordered[i]
  }

  lemma {:induction false} StretchSize(ordered: seq<string>, start: int, end: int)
    requires 0 <= start <= end <= |ordered| && Distinct(ordered)
    ensures |StretchSet(ordered, start, end)| == end - start
    decreases end
  {
    if start < end {
      StretchSize(ordered, start, end - 1);
      assert StretchSet(ordered, start, end) == StretchSet(ordered, start, end - 1) + {ordered[end - 1]};
      assert ordered[end - 1] !in StretchSet(ordered, start, end - 1);
    } else {
      assert StretchSet(ordered, start, end) == {};
    }
  }

  /** Those whose bin is `k`. */
  function InBin(membership: map<string, int>, k: int): set<string> {
    set id | id in membership && membership[id] == k
  }

  lemma OrderKeeps(ids: seq<string>, values: map<string, real>)
    requires Distinct(ids)
    ensures Distinct(Order(ids, values)) && |Order(ids, values)| == |ids|
    ensures forall id :: id in Order(ids, values) <==> id in ids
  {
    SortPermutes(ids, ByValue(values));
    SameMembers(ids, Order(ids, values));
    DistinctPermutes(ids, Order(ids, values));
  }

  lemma BinSet(ids: seq<string>, values: map<string, real>, bins: nat, k: nat)
    requires Distinct(ids) && bins > 0 && k < bins
    ensures 0 <= StartOf(k, |ids|, bins) <= StartOf(k + 1, |ids|, bins) <= |Order(ids, values)|
    ensures InBin(Membership(ids, values, bins), k)
      == StretchSet(Order(ids, values), StartOf(k, |ids|, bins), StartOf(k + 1, |ids|, bins))
  {
    var ordered := Order(ids, values);
    OrderKeeps(ids, values);
    StartsWithin(k, |ids|, bins);
    FilledKeys(ordered, |ordered|, bins);
    assert ordered[..|ordered|] == ordered;
    var membership := Membership(ids, values, bins);
    var stretch := StretchSet(ordered, StartOf(k, |ids|, bins), StartOf(k + 1, |ids|, bins));
    forall id ensures id in InBin(membership, k) <==> id in stretch {
      if id in ordered {
        var i :| 0 <= i < |ordered| && ordered[i] == id;
        FilledAt(ordered, |ordered|, bins, i);
        BinIsStretch(i, k, |ids|, bins);
      }
    }
  }

  /** Every bin holds floor(n / bins) or ceil(n / bins) of the n identifiers. */
  lemma BinsAreEven(ids: seq<string>, values: map<string, real>, bins: nat, k: nat)
    requires Distinct(ids) && bins > 0 && k < bins
    ensures |ids| / bins <= |InBin(Membership(ids, values, bins), k)| <= (|ids| + bins - 1) / bins
  {
    BinSet(ids, values, bins, k);
    OrderKeeps(ids, values);
    StretchSize(Order(ids, values), StartOf(k, |ids|, bins), StartOf(k + 1, |ids|, bins));
    SizeIsFloorOrCeiling(k, |ids|, bins);
  }

  lemma BinGrows(i: nat, j: nat, n: nat, bins: nat)
    requires bins > 0 && i <= j < n
    ensures Bin(i, n, bins) <= Bin(j, n, bins)
  {
    NotNegative(i, n, bins);
    var k := Bin(i, n, bins);
    BinAtLeast(i, k, n, bins);
    BinAtLeast(j, k, n, bins);
  }

  /** A larger value never lands in an earlier bin. */
  lemma BinsFollowValues(ids: seq<string>, values: map<string, real>, bins: nat, a: string, b: string)
    requires Distinct(ids) && bins > 0 && a in ids && b in ids && KeyOf(values, a) < KeyOf(values, b)
    ensures var membership := Membership(ids, values, bins);
      a in membership && b in membership && membership[a] <= membership[b]
  {
    var ordered := Order(ids, values);
    OrderKeeps(ids, values);
    ValueOrder(values);
    SortSorts(ids, ByValue(values));
    var i :| 0 <= i < |ordered| && ordered[i] == a;
    var j :| 0 <= j < |ordered| && ordered[j] == b;
    FilledAt(ordered, |ordered|, bins, i);
    FilledAt(ordered, |ordered|, bins, j);
    if j < i {
      assert false;
    }
    BinGrows(i, j, |ordered|, bins);
  }

  lemma ValueOrder(values: map<string, real>)
    ensures TotalPreorder(ByValue(values))
  {
    StringOrder();
    forall a, b ensures ByValue(values)(a, b) || ByValue(values)(b, a) {
      assert StringLe(a, b) || StringLe(b, a);
    }
    forall a, b, c | ByValue(values)(a, b) && ByValue(values)(b, c) ensures ByValue(values)(a, c) {
      if KeyOf(values, a) == KeyOf(values, b) == KeyOf(values, c) {
        assert StringLe(a, b) && StringLe(b, c);
      }
    }
  }
}

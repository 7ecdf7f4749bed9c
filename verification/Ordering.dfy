/** Sequences in the order Python gives them: a stable sort by a total preorder,
    filters, and the code-point order on strings. */
module Ordering {

  ghost predicate TotalPreorder<T(!new)>(le: (T, T) -> bool) {
    && (forall a, b :: le(a, b) || le(b, a))
    && (forall a, b, c :: le(a, b) && le(b, c) ==> le(a, c))
  }

  ghost predicate Sorted<T>(s: seq<T>, le: (T, T) -> bool) {
    forall i, j | 0 <= i < j < |s| :: le(s[i], s[j])
  }

  /** No two entries compare equal unless they are the same value. */
  ghost predicate Antisymmetric<T>(s: seq<T>, le: (T, T) -> bool) {
    forall x, y | x in s && y in s :: le(x, y) && le(y, x) ==> x == y
  }

  predicate Distinct<T(==)>(s: seq<T>) {
    forall i, j | 0 <= i < j < |s| :: s[i] != s[j]
  }

  function Filter<T>(s: seq<T>, p: T -> bool): seq<T> {
    if s == [] then [] else (if p(s[0]) then [s[0]] else []) + Filter(s[1..], p)
  }

  function Insert<T>(x: T, s: seq<T>, le: (T, T) -> bool): seq<T> {
    if s == [] || le(x, s[0]) then [x] + s else [s[0]] + Insert(x, s[1..], le)
  }

  /** Python's `sorted`: an entry is placed in front of every later entry it does not exceed,
      so entries with equal keys keep their input order. */
  function SortBy<T>(s: seq<T>, le: (T, T) -> bool): seq<T> {
    if s == [] then [] else Insert(s[0], SortBy(s[1..], le), le)
  }

  lemma {:induction false} InsertPermutes<T>(x: T, s: seq<T>, le: (T, T) -> bool)
    ensures multiset(Insert(x, s, le)) == multiset(s) + multiset{x}
    ensures |Insert(x, s, le)| == |s| + 1
  {
    if s != [] && !le(x, s[0]) {
      InsertPermutes(x, s[1..], le);
      assert s == [s[0]] + s[1..];
    }
  }

  lemma {:induction false} SortPermutes<T>(s: seq<T>, le: (T, T) -> bool)
    ensures multiset(SortBy(s, le)) == multiset(s)
    ensures |SortBy(s, le)| == |s|
  {
    if s != [] {
      SortPermutes(s[1..], le);
      InsertPermutes(s[0], SortBy(s[1..], le), le);
      assert s == [s[0]] + s[1..];
    }
  }

  lemma {:induction false} InsertSorted<T(!new)>(x: T, s: seq<T>, le: (T, T) -> bool)
    requires TotalPreorder(le) && Sorted(s, le)
    ensures Sorted(Insert(x, s, le), le)
  {
    if s != [] && !le(x, s[0]) {
      InsertSorted(x, s[1..], le);
      InsertPermutes(x, s[1..], le);
      var t := Insert(x, s[1..], le);
      forall k | 0 <= k < |t| ensures le(s[0], t[k]) {
        assert t[k] in multiset(t);
        assert t[k] == x || t[k] in s[1..];
      }
    }
  }

  lemma {:induction false} SortSorts<T(!new)>(s: seq<T>, le: (T, T) -> bool)
    requires TotalPreorder(le)
    ensures Sorted(SortBy(s, le), le)
  {
    if s != [] {
      SortSorts(s[1..], le);
      InsertSorted(s[0], SortBy(s[1..], le), le);
    }
  }

  lemma {:induction false} SameMembers<T>(s: seq<T>, t: seq<T>)
    requires multiset(s) == multiset(t)
    ensures forall x :: x in s <==> x in t
    ensures |s| == |t|
  {
    forall x ensures x in s <==> x in t {
      assert x in s <==> x in multiset(s);
    }
    assert |multiset(s)| == |s|;
  }

  lemma SameHeads<T(!new)>(a: seq<T>, b: seq<T>, le: (T, T) -> bool)
    requires TotalPreorder(le) && Sorted(a, le) && Sorted(b, le)
    requires multiset(a) == multiset(b) && Antisymmetric(a, le) && a != []
    ensures b != [] && a[0] == b[0]
    ensures multiset(a[1..]) == multiset(b[1..])
  {
    SameMembers(a, b);
    assert a[0] in b && b[0] in a;
    assert le(a[0], b[0]) && le(b[0], a[0]);
    assert a == [a[0]] + a[1..] && b == [b[0]] + b[1..];
    assert multiset(a[1..]) == multiset(a) - multiset{a[0]};
    assert multiset(b[1..]) == multiset(b) - multiset{b[0]};
  }

  /** Sorting is canonical: on entries told apart by the order, a sorted sequence is
      determined by its multiset. */
  lemma {:induction false} SortedUnique<T(!new)>(a: seq<T>, b: seq<T>, le: (T, T) -> bool)
    requires TotalPreorder(le) && Sorted(a, le) && Sorted(b, le)
    requires multiset(a) == multiset(b) && Antisymmetric(a, le)
    ensures a == b
  {
    if a == [] {
      SameMembers(a, b);
    } else {
      SameHeads(a, b, le);
      SortedUnique(a[1..], b[1..], le);
      assert a == [a[0]] + a[1..] && b == [b[0]] + b[1..];
    }
  }

  /** Reordering the input changes nothing when no two entries share a key. */
  lemma {:induction false} SortIgnoresOrder<T(!new)>(a: seq<T>, b: seq<T>, le: (T, T) -> bool)
    requires TotalPreorder(le) && multiset(a) == multiset(b) && Antisymmetric(a, le)
    ensures SortBy(a, le) == SortBy(b, le)
  {
    SortPermutes(a, le);
    SortPermutes(b, le);
    SortSorts(a, le);
    SortSorts(b, le);
    SameMembers(a, SortBy(a, le));
    SortedUnique(SortBy(a, le), SortBy(b, le), le);
  }

  lemma {:induction false} InsertFilter<T(!new)>(x: T, s: seq<T>, le: (T, T) -> bool, p: T -> bool)
    requires TotalPreorder(le) && Sorted(s, le)
    ensures Filter(Insert(x, s, le), p) == if p(x) then Insert(x, Filter(s, p), le) else Filter(s, p)
  {
    if s == [] {
    } else if le(x, s[0]) {
      assert ([x] + s)[1..] == s;
      FilterMembers(s, p);
      if Filter(s, p) != [] {
        assert Filter(s, p)[0] in s;
      }
    } else {
      InsertFilter(x, s[1..], le, p);
      assert ([s[0]] + Insert(x, s[1..], le))[1..] == Insert(x, s[1..], le);
      if p(s[0]) {
        assert Filter(s, p)[1..] == Filter(s[1..], p);
      } else {
        assert Filter(s, p) == Filter(s[1..], p);
      }
    }
  }

  lemma {:induction false} FilterMembers<T>(s: seq<T>, p: T -> bool)
    ensures forall x :: x in Filter(s, p) <==> x in s && p(x)
    ensures |Filter(s, p)| <= |s|
  {
    if s != [] {
      FilterMembers(s[1..], p);
      assert s == [s[0]] + s[1..];
    }
  }

  lemma FilterMember<T>(s: seq<T>, p: T -> bool, x: T)
    ensures x in Filter(s, p) <==> x in s && p(x)
  {
    FilterMembers(s, p);
  }

  /** Stability: filtering a sorted list is the same as sorting the filtered list. */
  lemma {:induction false} SortFilter<T(!new)>(s: seq<T>, le: (T, T) -> bool, p: T -> bool)
    requires TotalPreorder(le)
    ensures Filter(SortBy(s, le), p) == SortBy(Filter(s, p), le)
  {
    if s != [] {
      SortFilter(s[1..], le, p);
      SortSorts(s[1..], le);
      InsertFilter(s[0], SortBy(s[1..], le), le, p);
      if p(s[0]) {
        assert ([s[0]] + Filter(s[1..], p))[1..] == Filter(s[1..], p);
      } else {
        assert Filter(s, p) == Filter(s[1..], p);
      }
    }
  }

  /** Entries that all compare equal are left exactly as they were. */
  lemma {:induction false} SortOfEquals<T>(s: seq<T>, le: (T, T) -> bool)
    requires forall x, y | x in s && y in s :: le(x, y)
    ensures SortBy(s, le) == s
  {
    if s != [] {
      SortOfEquals(s[1..], le);
    }
  }

  lemma {:induction false} FilterConcat<T>(a: seq<T>, b: seq<T>, p: T -> bool)
    ensures Filter(a + b, p) == Filter(a, p) + Filter(b, p)
  {
    if a == [] {
      assert a + b == b;
    } else {
      assert (a + b)[0] == a[0] && (a + b)[1..] == a[1..] + b;
      FilterConcat(a[1..], b, p);
      var head := if p(a[0]) then [a[0]] else [];
      assert Filter(a + b, p) == head + (Filter(a[1..], p) + Filter(b, p));
      assert Filter(a, p) == head + Filter(a[1..], p);
    }
  }

  /** Filtering twice is filtering by both conditions. */
  lemma {:induction false} FilterTwice<T>(s: seq<T>, p: T -> bool, q: T -> bool, both: T -> bool)
    requires forall x | x in s :: both(x) <==> p(x) && q(x)
    ensures Filter(Filter(s, p), q) == Filter(s, both)
  {
    if s != [] {
      FilterTwice(s[1..], p, q, both);
      if p(s[0]) {
        assert Filter(s, p)[1..] == Filter(s[1..], p);
      } else {
        assert Filter(s, p) == Filter(s[1..], p);
      }
    }
  }

  /** Only the entries' own verdicts matter. */
  lemma {:induction false} FilterSame<T>(s: seq<T>, p: T -> bool, q: T -> bool)
    requires forall i | 0 <= i < |s| :: p(s[i]) == q(s[i])
    ensures Filter(s, p) == Filter(s, q)
  {
    if s != [] {
      FilterSame(s[1..], p, q);
    }
  }

  lemma {:induction false} FilterAllOrNone<T>(s: seq<T>, p: T -> bool, all: bool)
    requires forall i | 0 <= i < |s| :: p(s[i]) == all
    ensures Filter(s, p) == if all then s else []
  {
    if s != [] {
      FilterAllOrNone(s[1..], p, all);
    }
  }

  lemma {:induction false} FilterCount<T>(s: seq<T>, p: T -> bool, x: T)
    ensures multiset(Filter(s, p))[x] == if p(x) then multiset(s)[x] else 0
  {
    if s != [] {
      FilterCount(s[1..], p, x);
      assert s == [s[0]] + s[1..];
    }
  }

  lemma {:induction false} FilterSplit<T>(s: seq<T>, p: T -> bool, q: T -> bool)
    requires forall x | x in s :: p(x) <==> !q(x)
    ensures multiset(Filter(s, p)) + multiset(Filter(s, q)) == multiset(s)
  {
    if s != [] {
      assert s == [s[0]] + s[1..];
      FilterSplit(s[1..], p, q);
      assert p(s[0]) <==> !q(s[0]);
    }
  }

  lemma {:induction false} FilterPermutes<T>(a: seq<T>, b: seq<T>, p: T -> bool)
    requires multiset(a) == multiset(b)
    ensures multiset(Filter(a, p)) == multiset(Filter(b, p))
  {
    SameMembers(a, b);
    if a != [] {
      var front, back := LocateHead(a, b);
      FilterPermutes(a[1..], front + back, p);
      FilterConcat(front, [a[0]] + back, p);
      FilterConcat(front, back, p);
      assert ([a[0]] + back)[1..] == back;
    }
  }

  // ----- pairwise related sequences

  ghost predicate Related<T>(a: seq<T>, b: seq<T>, r: (T, T) -> bool) {
    |a| == |b| && forall i | 0 <= i < |a| :: r(a[i], b[i])
  }

  /** The order cannot tell related entries apart. */
  ghost predicate OrderBlind<T(!new)>(r: (T, T) -> bool, le: (T, T) -> bool) {
    forall x, x', y, y' | r(x, x') && r(y, y') :: le(x, y) == le(x', y')
  }

  lemma {:induction false} InsertRelated<T(!new)>(x: T, y: T, a: seq<T>, b: seq<T>, r: (T, T) -> bool, le: (T, T) -> bool)
    requires OrderBlind(r, le) && r(x, y) && Related(a, b, r)
    ensures Related(Insert(x, a, le), Insert(y, b, le), r)
  {
    if a != [] && !le(x, a[0]) {
      InsertRelated(x, y, a[1..], b[1..], r, le);
    }
  }

  lemma {:induction false} SortRelated<T(!new)>(a: seq<T>, b: seq<T>, r: (T, T) -> bool, le: (T, T) -> bool)
    requires OrderBlind(r, le) && Related(a, b, r)
    ensures Related(SortBy(a, le), SortBy(b, le), r)
  {
    if a != [] {
      SortRelated(a[1..], b[1..], r, le);
      InsertRelated(a[0], b[0], SortBy(a[1..], le), SortBy(b[1..], le), r, le);
    }
  }

  lemma {:induction false} FilterRelated<T(!new)>(a: seq<T>, b: seq<T>, r: (T, T) -> bool, p: T -> bool, q: T -> bool)
    requires Related(a, b, r) && forall x, y | r(x, y) :: p(x) == q(y)
    ensures Related(Filter(a, p), Filter(b, q), r)
  {
    if a != [] {
      assert r(a[0], b[0]);
      FilterRelated(a[1..], b[1..], r, p, q);
    }
  }

  // ----- maps over sequences, distinctness

  function Map<A, B>(f: A -> B, s: seq<A>): (r: seq<B>)
    ensures |r| == |s|
    ensures forall i | 0 <= i < |s| :: r[i] == f(s[i])
  {
    seq(|s|, i requires 0 <= i < |s| => f(s[i]))
  }

  lemma MapConcat<A, B>(f: A -> B, a: seq<A>, b: seq<A>)
    ensures Map(f, a + b) == Map(f, a) + Map(f, b)
  {
  }

  lemma WithoutOne<T>(front: seq<T>, x: T, back: seq<T>)
    ensures multiset(front + back) == multiset(front + ([x] + back)) - multiset{x}
  {
  }

  lemma WithoutHead<T>(a: seq<T>)
    requires a != []
    ensures multiset(a[1..]) == multiset(a) - multiset{a[0]}
  {
    assert a == [a[0]] + a[1..];
  }

  lemma LocatedIn<T>(b: seq<T>, x: T) returns (j: nat)
    requires x in multiset(b)
    ensures j < |b| && b[j] == x && b == b[..j] + ([x] + b[j + 1..])
  {
    j :| 0 <= j < |b| && b[j] == x;
  }

  /** The first entry of a sequence, found in a permutation of it. */
  lemma LocateHead<T>(a: seq<T>, b: seq<T>) returns (front: seq<T>, back: seq<T>)
    requires multiset(a) == multiset(b) && a != []
    ensures b == front + ([a[0]] + back)
    ensures multiset(a[1..]) == multiset(front + back)
  {
    assert a[0] in multiset(a);
    var j := LocatedIn(b, a[0]);
    front, back := b[..j], b[j + 1..];
    WithoutOne(front, a[0], back);
    WithoutHead(a);
  }

  lemma {:induction false} MapPermutes<A, B>(f: A -> B, a: seq<A>, b: seq<A>)
    requires multiset(a) == multiset(b)
    ensures multiset(Map(f, a)) == multiset(Map(f, b))
  {
    SameMembers(a, b);
    if a != [] {
      var front, back := LocateHead(a, b);
      MapPermutes(f, a[1..], front + back);
      assert a == [a[0]] + a[1..];
      MapConcat(f, [a[0]], a[1..]);
      MapConcat(f, front, [a[0]] + back);
      MapConcat(f, [a[0]], back);
      MapConcat(f, front, back);
    }
  }

  lemma DistinctCons<T>(s: seq<T>)
    requires s != []
    ensures Distinct(s) <==> Distinct(s[1..]) && s[0] !in s[1..]
  {
    var rest := s[1..];
    assert forall i | 0 <= i < |rest| :: rest[i] == s[i + 1];
    assert forall i | 1 <= i < |s| :: s[i] == rest[i - 1];
  }

  lemma {:induction false} DistinctCounts<T>(s: seq<T>)
    ensures Distinct(s) <==> forall x :: multiset(s)[x] <= 1
  {
    if s != [] {
      var rest := s[1..];
      DistinctCounts(rest);
      DistinctCons(s);
      assert s == [s[0]] + rest;
      assert multiset(s) == multiset{s[0]} + multiset(rest);
      assert s[0] in rest <==> multiset(rest)[s[0]] > 0;
      if !Distinct(rest) {
        var x :| multiset(rest)[x] > 1;
        assert multiset(s)[x] > 1;
      } else if s[0] in rest {
        assert multiset(s)[s[0]] > 1;
      }
    }
  }

  lemma DistinctPick<T>(s: seq<T>, i: nat, j: nat)
    requires i < |s| && j < |s| && Distinct(s) && s[i] == s[j]
    ensures i == j
  {
  }

  lemma {:induction false} DistinctPermutes<T>(a: seq<T>, b: seq<T>)
    requires multiset(a) == multiset(b)
    ensures Distinct(a) <==> Distinct(b)
  {
    DistinctCounts(a);
    DistinctCounts(b);
  }

  /** A sequence without repeats is as long as its set of members. */
  lemma {:induction false} DistinctLength<T>(s: seq<T>)
    requires Distinct(s)
    ensures |set x | x in s| == |s|
  {
    if s == [] {
      assert (set x | x in s) == {};
    } else {
      var rest := s[1..];
      assert s == [s[0]] + rest;
      DistinctTail(s);
      DistinctLength(rest);
      var members := set x | x in rest;
      assert (set x | x in s) == {s[0]} + members;
      assert s[0] !in members;
    }
  }

  lemma DistinctTail<T>(s: seq<T>)
    requires Distinct(s) && s != []
    ensures Distinct(s[1..]) && s[0] !in s[1..]
  {
    DistinctCons(s);
  }

  // ----- strings

  /** Lexicographic order by code point, as Python compares `str`. */
  predicate StringLe(a: string, b: string) {
    a == [] || (b != [] && (a[0] < b[0] || (a[0] == b[0] && StringLe(a[1..], b[1..]))))
  }

  lemma {:induction false} StringLeTotal(a: string, b: string)
    ensures StringLe(a, b) || StringLe(b, a)
  {
    if a != [] && b != [] && a[0] == b[0] {
      StringLeTotal(a[1..], b[1..]);
    }
  }

  lemma {:induction false} StringLeTransitive(a: string, b: string, c: string)
    requires StringLe(a, b) && StringLe(b, c)
    ensures StringLe(a, c)
  {
    if a != [] && a[0] == b[0] == c[0] {
      StringLeTransitive(a[1..], b[1..], c[1..]);
    }
  }

  lemma {:induction false} StringLeAntisymmetric(a: string, b: string)
    requires StringLe(a, b) && StringLe(b, a)
    ensures a == b
  {
    if a != [] && b != [] {
      StringLeAntisymmetric(a[1..], b[1..]);
      assert a == [a[0]] + a[1..] && b == [b[0]] + b[1..];
    }
  }

  lemma {:induction false} StringOrder()
    ensures TotalPreorder(StringLe)
    ensures forall a, b | StringLe(a, b) && StringLe(b, a) :: a == b
  {
    forall a, b ensures StringLe(a, b) || StringLe(b, a) { StringLeTotal(a, b); }
    forall a, b, c | StringLe(a, b) && StringLe(b, c) ensures StringLe(a, c) { StringLeTransitive(a, b, c); }
    forall a, b | StringLe(a, b) && StringLe(b, a) ensures a == b { StringLeAntisymmetric(a, b); }
  }
}

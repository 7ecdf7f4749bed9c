/** Drawing the cohort: the quotas of `Apportionment` filled in digest order
    (backend/finrisk/e4_core.py, `_stratified_sample`). */
module StratifiedSampling {
  import opened Ordering
  import opened Grouping
  import opened Apportionment

  /** The rows of sector `k`, in drawing order. */
  function Ranked(rows: seq<Row>, digest: string -> string, k: string): seq<Row> {
    SortBy(Group(rows, k), DigestLe(digest))
  }

  function Taken(rows: seq<Row>, limit: nat, digest: string -> string, k: string): seq<Row>
    requires rows != [] && limit < |rows|
  {
    QuotaBounds(rows, limit, k);
    SortPermutes(Group(rows, k), DigestLe(digest));
    Ranked(rows, digest, k)[..Quota(rows, limit, k)]
  }

  function TakenFrom(keys: seq<string>, rows: seq<Row>, limit: nat, digest: string -> string): seq<Row>
    requires rows != [] && limit < |rows|
  {
    if keys == [] then [] else Taken(rows, limit, digest, keys[0]) + TakenFrom(keys[1..], rows, limit, digest)
  }

  function SortedSectors(rows: seq<Row>): seq<string> {
    SortBy(Sectors(rows), KeyLe)
  }

  function Sample(rows: seq<Row>, limit: nat, digest: string -> string): seq<Row> {
    if |rows| <= limit then SortBy(rows, CikLe)
    else SortBy(TakenFrom(SortedSectors(rows), rows, limit, digest), CikLe)
  }

  // ----- the program

  lemma TotalSnoc(keys: seq<string>, i: nat, f: string -> int)
    requires i < |keys|
    ensures Total(keys[..i + 1], f) == Total(keys[..i], f) + f(keys[i])
  {
    assert keys[..i + 1] == keys[..i] + [keys[i]];
    TotalConcat(keys[..i], [keys[i]], f);
    assert [keys[i]][1..] == [];
  }

  lemma {:induction false} TakenFromConcat(a: seq<string>, b: seq<string>, rows: seq<Row>, limit: nat, digest: string -> string)
    requires rows != [] && limit < |rows|
    ensures TakenFrom(a + b, rows, limit, digest) == TakenFrom(a, rows, limit, digest) + TakenFrom(b, rows, limit, digest)
  {
    if a == [] {
      assert a + b == b;
    } else {
      assert (a + b)[1..] == a[1..] + b;
      TakenFromConcat(a[1..], b, rows, limit, digest);
    }
  }

  lemma TakenFromSnoc(keys: seq<string>, i: nat, rows: seq<Row>, limit: nat, digest: string -> string)
    requires rows != [] && limit < |rows| && i < |keys|
    ensures TakenFrom(keys[..i + 1], rows, limit, digest)
      == TakenFrom(keys[..i], rows, limit, digest) + Taken(rows, limit, digest, keys[i])
  {
    assert keys[..i + 1] == keys[..i] + [keys[i]];
    TakenFromConcat(keys[..i], [keys[i]], rows, limit, digest);
    assert [keys[i]][1..] == [];
  }

  /** The order of remainders lists every sector once. */
  lemma SeatOrder(rows: seq<Row>, limit: nat)
    requires rows != []
    ensures Distinct(Sectors(rows)) && Distinct(ByRemainder(rows, limit))
    ensures forall k :: k in ByRemainder(rows, limit) <==> k in Sectors(rows)
    ensures |ByRemainder(rows, limit)| == |Sectors(rows)|
  {
    FirstKeysCover(rows, Sector);
    SortPermutes(Sectors(rows), RemainderLe(rows, limit));
    SameMembers(Sectors(rows), ByRemainder(rows, limit));
    DistinctPermutes(Sectors(rows), ByRemainder(rows, limit));
  }

  lemma SectorOrder(rows: seq<Row>)
    ensures Distinct(SortedSectors(rows))
    ensures multiset(SortedSectors(rows)) == multiset(Sectors(rows))
    ensures forall k :: k in SortedSectors(rows) <==> k in Sectors(rows)
  {
    FirstKeysCover(rows, Sector);
    SortPermutes(Sectors(rows), KeyLe);
    SameMembers(Sectors(rows), SortedSectors(rows));
    DistinctPermutes(Sectors(rows), SortedSectors(rows));
  }

  method LeftOver(limit: nat, sectors: seq<string>, quotas: map<string, nat>, ghost f: string -> int) returns (remaining: int)
    requires forall i | 0 <= i < |sectors| :: sectors[i] in quotas && quotas[sectors[i]] == f(sectors[i])
    ensures remaining == limit - Total(sectors, f)
  {
    remaining := limit;
    for i := 0 to |sectors|
      invariant remaining == limit - Total(sectors[..i], f)
    {
      TotalSnoc(sectors, i, f);
      remaining := remaining - quotas[sectors[i]];
    }
    assert sectors[..|sectors|] == sectors;
  }

  method AddSeats(floors: map<string, nat>, order: seq<string>, remaining: nat) returns (quotas: map<string, nat>)
    requires remaining <= |order| && Distinct(order) && forall i | 0 <= i < |order| :: order[i] in floors
    ensures quotas.Keys == floors.Keys
    ensures forall k | k in quotas :: quotas[k] == floors[k] + if k in order[..remaining] then 1 else 0
  {
    quotas := floors;
    for i := 0 to remaining
      invariant quotas.Keys == floors.Keys
      invariant forall k | k in quotas :: quotas[k] == floors[k] + if k in order[..i] then 1 else 0
    {
      assert order[..i + 1] == order[..i] + [order[i]];
      assert order[i] !in order[..i];
      quotas := quotas[order[i] := quotas[order[i]] + 1];
    }
  }

  /** `int(limit * len(values) / len(rows))` */
  function Share(limit: nat, size: nat, n: nat): nat
    requires n > 0
  {
    limit * size / n
  }

  method FloorTable(rows: seq<Row>, limit: nat, ghost sectors: seq<string>, groups: map<string, seq<Row>>) returns (floors: map<string, nat>)
    requires rows != [] && IsGrouping(rows, Sector, sectors, groups)
    ensures floors.Keys == groups.Keys
    ensures forall k | k in floors :: floors[k] == Floors(rows, limit)(k)
  {
    forall k | k in groups ensures |groups[k]| == |Group(rows, k)| {
      assert GroupAt(groups, k) == groups[k];
    }
    floors := map k | k in groups :: Share(limit, |groups[k]|, |rows|);
  }

  lemma QuotaIs(rows: seq<Row>, limit: nat, k: string)
    requires rows != []
    ensures 0 <= Remaining(rows, limit) <= |ByRemainder(rows, limit)|
    ensures Quota(rows, limit, k) == Floors(rows, limit)(k) + if k in ByRemainder(rows, limit)[..Remaining(rows, limit)] then 1 else 0
  {
    SeatsGoToRemainders(rows, limit);
  }

  /** The quota table: the integer parts, then one seat each for the largest remainders. */
  method AssignQuotas(rows: seq<Row>, limit: nat, sectors: seq<string>, groups: map<string, seq<Row>>) returns (quotas: map<string, nat>)
    requires rows != [] && IsGrouping(rows, Sector, sectors, groups)
    ensures quotas.Keys == groups.Keys
    ensures forall k | k in quotas :: quotas[k] == Quota(rows, limit, k)
  {
    var floors := FloorTable(rows, limit, sectors, groups);
    var remaining := LeftOver(limit, sectors, floors, Floors(rows, limit));
    SeatOrder(rows, limit);
    QuotaIs(rows, limit, "");
    quotas := AddSeats(floors, SortBy(sectors, RemainderLe(rows, limit)), remaining);
    forall k | k in quotas ensures quotas[k] == Quota(rows, limit, k) {
      QuotaIs(rows, limit, k);
    }
  }

  method StratifiedSample(rows: seq<Row>, limit: nat, digest: string -> string) returns (sampled: seq<Row>)
    ensures sampled == Sample(rows, limit, digest)
  {
    if |rows| <= limit {
      return SortBy(rows, CikLe);
    }
    var sectors, groups := GroupBy(rows, Sector);
    var quotas := AssignQuotas(rows, limit, sectors, groups);
    var keys := SortBy(sectors, KeyLe);
    SectorOrder(rows);
    sampled := [];
    for i := 0 to |keys|
      invariant sampled == TakenFrom(keys[..i], rows, limit, digest)
    {
      var k := keys[i];
      assert k in groups && GroupAt(groups, k) == Group(rows, k);
      var ranked := SortBy(groups[k], DigestLe(digest));
      QuotaBounds(rows, limit, k);
      SortPermutes(Group(rows, k), DigestLe(digest));
      TakenFromSnoc(keys, i, rows, limit, digest);
      sampled := sampled + ranked[..quotas[k]];
    }
    assert keys[..|keys|] == keys;
    sampled := SortBy(sampled, CikLe);
  }

  // ----- what is drawn

  lemma {:induction false} TakenFromLength(keys: seq<string>, rows: seq<Row>, limit: nat, digest: string -> string)
    requires rows != [] && limit < |rows|
    ensures |TakenFrom(keys, rows, limit, digest)| == Total(keys, Quotas(rows, limit))
  {
    if keys != [] {
      QuotaBounds(rows, limit, keys[0]);
      SortPermutes(Group(rows, keys[0]), DigestLe(digest));
      TakenFromLength(keys[1..], rows, limit, digest);
    }
  }

  /** Exactly `limit` rows are drawn when there are more, and all of them otherwise. */
  lemma SampleSize(rows: seq<Row>, limit: nat, digest: string -> string)
    ensures |Sample(rows, limit, digest)| == if |rows| <= limit then |rows| else limit
  {
    if |rows| <= limit {
      SortPermutes(rows, CikLe);
    } else {
      var keys := SortedSectors(rows);
      SectorOrder(rows);
      TakenFromLength(keys, rows, limit, digest);
      TotalPermutes(Sectors(rows), keys, Quotas(rows, limit));
      QuotasSumUp(rows, limit);
      SortPermutes(TakenFrom(keys, rows, limit, digest), CikLe);
    }
  }

  lemma RankedBelongs(rows: seq<Row>, digest: string -> string, k: string)
    ensures forall x | x in Ranked(rows, digest, k) :: Sector(x) == k
  {
    SortPermutes(Group(rows, k), DigestLe(digest));
    SameMembers(Group(rows, k), Ranked(rows, digest, k));
    FilterMembers(rows, HasKey(Sector, k));
  }

  lemma TakenBelongs(rows: seq<Row>, limit: nat, digest: string -> string, k: string)
    requires rows != [] && limit < |rows|
    ensures forall x | x in Taken(rows, limit, digest, k) :: Sector(x) == k
  {
    RankedBelongs(rows, digest, k);
    forall x | x in Taken(rows, limit, digest, k) ensures x in Ranked(rows, digest, k) {
    }
  }

  lemma {:induction false} TakenOf(keys: seq<string>, rows: seq<Row>, limit: nat, digest: string -> string, k: string)
    requires rows != [] && limit < |rows| && Distinct(keys)
    ensures Filter(TakenFrom(keys, rows, limit, digest), HasKey(Sector, k))
      == if k in keys then Taken(rows, limit, digest, k) else []
  {
    if keys != [] {
      DistinctTail(keys);
      TakenOf(keys[1..], rows, limit, digest, k);
      var head := Taken(rows, limit, digest, keys[0]);
      TakenBelongs(rows, limit, digest, keys[0]);
      FilterAllOrNone(head, HasKey(Sector, k), k == keys[0]);
      FilterConcat(head, TakenFrom(keys[1..], rows, limit, digest), HasKey(Sector, k));
    }
  }

  /** From each sector the sample holds exactly its quota of rows, the first ones in digest order. */
  lemma SampleBySector(rows: seq<Row>, limit: nat, digest: string -> string, k: string)
    requires limit < |rows| && k in Sectors(rows)
    ensures Quota(rows, limit, k) <= |Ranked(rows, digest, k)|
    ensures multiset(Filter(Sample(rows, limit, digest), HasKey(Sector, k)))
      == multiset(Ranked(rows, digest, k)[..Quota(rows, limit, k)])
    ensures multiset(Ranked(rows, digest, k)) == multiset(Group(rows, k))
    ensures Sorted(Ranked(rows, digest, k), DigestLe(digest))
  {
    var keys := SortedSectors(rows);
    var drawn := TakenFrom(keys, rows, limit, digest);
    SectorOrder(rows);
    QuotaBounds(rows, limit, k);
    SortPermutes(Group(rows, k), DigestLe(digest));
    DigestOrder(digest);
    SortSorts(Group(rows, k), DigestLe(digest));
    TakenOf(keys, rows, limit, digest, k);
    SortPermutes(drawn, CikLe);
    FilterPermutes(drawn, SortBy(drawn, CikLe), HasKey(Sector, k));
  }

  lemma RankingChains(p: string, q: string, r: string, a: string, b: string, c: string)
    requires if p == q then StringLe(a, b) else StringLe(p, q)
    requires if q == r then StringLe(b, c) else StringLe(q, r)
    ensures if p == r then StringLe(a, c) else StringLe(p, r)
  {
    StringOrder();
  }

  lemma RankingTies(p: string, q: string, a: string, b: string)
    requires if p == q then StringLe(a, b) && StringLe(b, a) else StringLe(p, q) && StringLe(q, p)
    ensures a == b
  {
    StringOrder();
  }

  /** The ranking on its two keys. */
  predicate RankedLe(p: string, a: string, q: string, b: string) {
    if p == q then StringLe(a, b) else StringLe(p, q)
  }

  lemma RankedTotal(p: string, a: string, q: string, b: string)
    ensures RankedLe(p, a, q, b) || RankedLe(q, b, p, a)
  {
    StringLeTotal(a, b);
    StringLeTotal(p, q);
  }

  lemma DigestOrder(digest: string -> string)
    ensures TotalPreorder(DigestLe(digest))
    ensures forall a, b | DigestLe(digest)(a, b) && DigestLe(digest)(b, a) :: a.cik == b.cik
  {
    forall a, b ensures DigestLe(digest)(a, b) == RankedLe(digest(a.cik), a.cik, digest(b.cik), b.cik) {
    }
    forall a, b ensures DigestLe(digest)(a, b) || DigestLe(digest)(b, a) {
      RankedTotal(digest(a.cik), a.cik, digest(b.cik), b.cik);
    }
    forall a, b, c | DigestLe(digest)(a, b) && DigestLe(digest)(b, c) ensures DigestLe(digest)(a, c) {
      RankingChains(digest(a.cik), digest(b.cik), digest(c.cik), a.cik, b.cik, c.cik);
    }
    forall a, b | DigestLe(digest)(a, b) && DigestLe(digest)(b, a) ensures a.cik == b.cik {
      RankingTies(digest(a.cik), digest(b.cik), a.cik, b.cik);
    }
  }

  lemma CikOrder()
    ensures TotalPreorder(CikLe)
    ensures forall a, b | CikLe(a, b) && CikLe(b, a) :: a.cik == b.cik
  {
    StringOrder();
    forall a, b ensures CikLe(a, b) || CikLe(b, a) {
      assert StringLe(a.cik, b.cik) || StringLe(b.cik, a.cik);
    }
  }

  // ----- the input order does not matter

  ghost predicate OneRowPerCik(rows: seq<Row>) {
    forall x, y | x in rows && y in rows :: x.cik == y.cik ==> x == y
  }

  lemma SameGroups(a: seq<Row>, b: seq<Row>, k: string)
    requires multiset(a) == multiset(b)
    ensures multiset(Group(a, k)) == multiset(Group(b, k))
    ensures |Group(a, k)| == |Group(b, k)|
  {
    FilterPermutes(a, b, HasKey(Sector, k));
    SameMembers(Group(a, k), Group(b, k));
  }

  lemma SameSectors(a: seq<Row>, b: seq<Row>)
    requires multiset(a) == multiset(b)
    ensures multiset(Sectors(a)) == multiset(Sectors(b))
  {
    SameMembers(a, b);
    FirstKeysCover(a, Sector);
    FirstKeysCover(b, Sector);
    forall k ensures k in Sectors(a) <==> k in Sectors(b) {
      HasRow(a, k);
      HasRow(b, k);
    }
    SameWhenDistinct(Sectors(a), Sectors(b));
  }

  lemma HasRow(rows: seq<Row>, k: string)
    ensures k in Sectors(rows) <==> exists x | x in rows :: Sector(x) == k
  {
    FirstKeysCover(rows, Sector);
    if x :| x in rows && Sector(x) == k {
      var i :| 0 <= i < |rows| && rows[i] == x;
      assert Sector(rows[i]) == k;
    }
  }

  lemma SameWhenDistinct(a: seq<string>, b: seq<string>)
    requires Distinct(a) && Distinct(b) && forall k :: k in a <==> k in b
    ensures multiset(a) == multiset(b)
  {
    DistinctCounts(a);
    DistinctCounts(b);
    forall k ensures multiset(a)[k] == multiset(b)[k] {
      assert k in a <==> k in multiset(a);
      assert k in b <==> k in multiset(b);
    }
  }

  lemma {:induction false} TotalSame(keys: seq<string>, f: string -> int, g: string -> int)
    requires forall k :: f(k) == g(k)
    ensures Total(keys, f) == Total(keys, g)
  {
    if keys != [] {
      TotalSame(keys[1..], f, g);
    }
  }

  lemma SameShares(a: seq<Row>, b: seq<Row>, limit: nat, k: string)
    requires multiset(a) == multiset(b) && a != [] && b != []
    ensures Floor(a, limit, k) == Floor(b, limit, k) && Remainder(a, limit, k) == Remainder(b, limit, k)
  {
    SameGroups(a, b, k);
    SameMembers(a, b);
  }

  lemma SameRemaining(a: seq<Row>, b: seq<Row>, limit: nat)
    requires multiset(a) == multiset(b) && a != [] && b != []
    ensures Remaining(a, limit) == Remaining(b, limit)
  {
    SameSectors(a, b);
    TotalPermutes(Sectors(a), Sectors(b), Floors(a, limit));
    forall k ensures Floors(a, limit)(k) == Floors(b, limit)(k) {
      SameShares(a, b, limit, k);
    }
    TotalSame(Sectors(b), Floors(a, limit), Floors(b, limit));
  }

  lemma SameRemainderLe(a: seq<Row>, b: seq<Row>, limit: nat)
    requires multiset(a) == multiset(b) && a != [] && b != []
    ensures forall x, y :: RemainderLe(a, limit)(x, y) == RemainderLe(b, limit)(x, y)
  {
    forall x, y ensures RemainderLe(a, limit)(x, y) == RemainderLe(b, limit)(x, y) {
      SameShares(a, b, limit, x);
      SameShares(a, b, limit, y);
    }
  }

  lemma SortedAlike(s: seq<string>, t: seq<string>, le: (string, string) -> bool, le': (string, string) -> bool)
    requires multiset(s) == multiset(t) && Sorted(s, le) && Sorted(t, le') && TotalPreorder(le)
    requires forall x, y :: le(x, y) == le'(x, y)
    requires forall x, y | le(x, y) && le(y, x) :: x == y
    ensures s == t
  {
    SortedUnique(s, t, le);
  }

  lemma SameSeatOrder(a: seq<Row>, b: seq<Row>, limit: nat)
    requires multiset(a) == multiset(b) && a != [] && b != []
    ensures ByRemainder(a, limit) == ByRemainder(b, limit)
  {
    SameRemainderLe(a, b, limit);
    RemainderOrdering(a, limit);
    RemainderOrdering(b, limit);
    RemainderOrder(a, limit);
    SameSectors(a, b);
    SortedAlike(ByRemainder(a, limit), ByRemainder(b, limit), RemainderLe(a, limit), RemainderLe(b, limit));
  }

  lemma SameQuotas(a: seq<Row>, b: seq<Row>, limit: nat, k: string)
    requires multiset(a) == multiset(b) && a != [] && b != []
    ensures Quota(a, limit, k) == Quota(b, limit, k)
  {
    SameShares(a, b, limit, k);
    SameRemaining(a, b, limit);
    SameSeatOrder(a, b, limit);
  }

  lemma SameTaken(a: seq<Row>, b: seq<Row>, limit: nat, digest: string -> string, k: string)
    requires multiset(a) == multiset(b) && limit < |a| && limit < |b| && OneRowPerCik(a)
    ensures Taken(a, limit, digest, k) == Taken(b, limit, digest, k)
  {
    SameQuotas(a, b, limit, k);
    SameGroups(a, b, k);
    FilterMembers(a, HasKey(Sector, k));
    DigestOrder(digest);
    SortIgnoresOrder(Group(a, k), Group(b, k), DigestLe(digest));
  }

  lemma {:induction false} SameTakenFrom(keys: seq<string>, a: seq<Row>, b: seq<Row>, limit: nat, digest: string -> string)
    requires multiset(a) == multiset(b) && limit < |a| && limit < |b| && OneRowPerCik(a)
    ensures TakenFrom(keys, a, limit, digest) == TakenFrom(keys, b, limit, digest)
  {
    if keys != [] {
      SameTaken(a, b, limit, digest, keys[0]);
      SameTakenFrom(keys[1..], a, b, limit, digest);
    }
  }

  /** Rows are told apart by their CIK: any reordering of the input gives the same sample. */
  lemma SampleIgnoresOrder(a: seq<Row>, b: seq<Row>, limit: nat, digest: string -> string)
    requires multiset(a) == multiset(b) && OneRowPerCik(a)
    ensures Sample(a, limit, digest) == Sample(b, limit, digest)
  {
    SameMembers(a, b);
    if |a| <= limit {
      CikOrder();
      SortIgnoresOrder(a, b, CikLe);
    } else {
      SameSectors(a, b);
      StringOrder();
      SortIgnoresOrder(Sectors(a), Sectors(b), KeyLe);
      SameTakenFrom(SortedSectors(a), a, b, limit, digest);
    }
  }

  /** No reordering of the rows changes the sample. */
  ghost predicate OrderFree(rows: seq<Row>, limit: nat, digest: string -> string) {
    forall others | multiset(others) == multiset(rows) :: Sample(others, limit, digest) == Sample(rows, limit, digest)
  }

  function HasCik(cik: string): Row -> bool {
    (r: Row) => r.cik == cik
  }

  /** Rows of one CIK stay in input order. */
  lemma CikKeepsOrder(rows: seq<Row>, cik: string)
    ensures Filter(SortBy(rows, CikLe), HasCik(cik)) == Filter(rows, HasCik(cik))
  {
    CikOrder();
    SortFilter(rows, CikLe, HasCik(cik));
    FilterMembers(rows, HasCik(cik));
    StringOrder();
    SortOfEquals(Filter(rows, HasCik(cik)), CikLe);
  }

  /** The rows with one of them moved to the front. */
  lemma ToFront(rows: seq<Row>, z: Row) returns (others: seq<Row>)
    requires z in rows
    ensures multiset(others) == multiset(rows) && others != [] && others[0] == z
  {
    var i :| 0 <= i < |rows| && rows[i] == z;
    others := [z] + (rows[..i] + rows[i + 1..]);
    assert rows == rows[..i] + ([z] + rows[i + 1..]);
  }

  lemma SharedCikIsNotFree(rows: seq<Row>, limit: nat, digest: string -> string, x: Row, y: Row)
    requires |rows| <= limit && x in rows && y in rows && x.cik == y.cik && x != y
    ensures !OrderFree(rows, limit, digest)
  {
    var shared := Filter(rows, HasCik(x.cik));
    FilterMember(rows, HasCik(x.cik), x);
    var z := if shared[0] == x then y else x;
    var others := ToFront(rows, z);
    SameMembers(others, rows);
    CikKeepsOrder(rows, x.cik);
    CikKeepsOrder(others, x.cik);
    assert Filter(others, HasCik(x.cik))[0] == z;
    assert Sample(others, limit, digest) != Sample(rows, limit, digest);
  }

  /** When all rows are kept, the input order does not matter exactly if the rows are told apart by their CIKs. */
  lemma OrderFreeIffOneRowPerCik(rows: seq<Row>, limit: nat, digest: string -> string)
    requires |rows| <= limit
    ensures OrderFree(rows, limit, digest) <==> OneRowPerCik(rows)
  {
    if OneRowPerCik(rows) {
      forall others | multiset(others) == multiset(rows) ensures Sample(others, limit, digest) == Sample(rows, limit, digest) {
        SampleIgnoresOrder(rows, others, limit, digest);
      }
    } else {
      var x, y :| x in rows && y in rows && x.cik == y.cik && x != y;
      SharedCikIsNotFree(rows, limit, digest, x, y);
    }
  }
}

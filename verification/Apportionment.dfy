/** Largest-remainder sampling over sectors (backend/finrisk/e4_core.py, `_stratified_sample`). */
module Apportionment {
  import opened Ordering
  import opened Grouping

  datatype Row = Row(cik: string, sector: string)

  function Sector(r: Row): string { r.sector }

  predicate CikLe(a: Row, b: Row) {
    StringLe(a.cik, b.cik)
  }

  predicate KeyLe(a: string, b: string) {
    StringLe(a, b)
  }

  /** Ranking inside a sector: by salted digest, then by CIK. */
  function DigestLe(digest: string -> string): (Row, Row) -> bool {
    (a: Row, b: Row) => if digest(a.cik) == digest(b.cik) then StringLe(a.cik, b.cik) else StringLe(digest(a.cik), digest(b.cik))
  }

  function Group(rows: seq<Row>, k: string): seq<Row> {
    Filter(rows, HasKey(Sector, k))
  }

  /** The exact share of a sector is `limit * size / n`; this is its integer part. */
  function Floor(rows: seq<Row>, limit: nat, k: string): nat
    requires rows != []
  {
    limit * |Group(rows, k)| / |rows|
  }

  /** The fractional part of the share, times `n`. */
  function Remainder(rows: seq<Row>, limit: nat, k: string): nat
    requires rows != []
  {
    limit * |Group(rows, k)| % |rows|
  }

  /** Larger fractional parts first, ties by sector name. */
  function RemainderLe(rows: seq<Row>, limit: nat): (string, string) -> bool
    requires rows != []
  {
    (a: string, b: string) =>
      if Remainder(rows, limit, a) == Remainder(rows, limit, b) then StringLe(a, b)
      else Remainder(rows, limit, a) > Remainder(rows, limit, b)
  }

  function Total(keys: seq<string>, f: string -> int): int {
    if keys == [] then 0 else f(keys[0]) + Total(keys[1..], f)
  }

  function Floors(rows: seq<Row>, limit: nat): string -> int
    requires rows != []
  {
    (k: string) => Floor(rows, limit, k)
  }

  function Remainders(rows: seq<Row>, limit: nat): string -> int
    requires rows != []
  {
    (k: string) => Remainder(rows, limit, k)
  }

  function Sizes(rows: seq<Row>): string -> int {
    (k: string) => |Group(rows, k)|
  }

  function Sectors(rows: seq<Row>): seq<string> {
    FirstKeys(rows, Sector)
  }

  /** The seats left after every sector got its integer part. */
  function Remaining(rows: seq<Row>, limit: nat): int
    requires rows != []
  {
    limit - Total(Sectors(rows), Floors(rows, limit))
  }

  function ByRemainder(rows: seq<Row>, limit: nat): seq<string>
    requires rows != []
  {
    SortBy(Sectors(rows), RemainderLe(rows, limit))
  }

  // ----- sums over sectors

  lemma {:induction false} TotalConcat(a: seq<string>, b: seq<string>, f: string -> int)
    ensures Total(a + b, f) == Total(a, f) + Total(b, f)
  {
    if a == [] {
      assert a + b == b;
    } else {
      assert (a + b)[1..] == a[1..] + b;
      TotalConcat(a[1..], b, f);
    }
  }

  lemma {:induction false} TotalPermutes(a: seq<string>, b: seq<string>, f: string -> int)
    requires multiset(a) == multiset(b)
    ensures Total(a, f) == Total(b, f)
  {
    SameMembers(a, b);
    if a != [] {
      var front, back := LocateHead(a, b);
      TotalPermutes(a[1..], front + back, f);
      TotalConcat(front, [a[0]] + back, f);
      TotalConcat(front, back, f);
      assert ([a[0]] + back)[1..] == back;
    }
  }

  lemma {:induction false} GroupSizes(keys: seq<string>, rows: seq<Row>)
    ensures Total(keys, Sizes(rows)) == |Grouped(keys, rows, Sector)|
  {
    if keys != [] {
      GroupSizes(keys[1..], rows);
    }
  }

  lemma SizesSumUp(rows: seq<Row>)
    ensures Total(Sectors(rows), Sizes(rows)) == |rows|
  {
    FirstKeysCover(rows, Sector);
    forall x | x in rows ensures Sector(x) in Sectors(rows) {
      var i :| 0 <= i < |rows| && rows[i] == x;
      assert Sector(rows[i]) == Sector(x);
    }
    GroupedPermutes(Sectors(rows), rows, Sector);
    GroupSizes(Sectors(rows), rows);
    SameMembers(Grouped(Sectors(rows), rows, Sector), rows);
  }

  lemma DivMod(a: nat, n: nat)
    requires n > 0
    ensures a == n * (a / n) + a % n
  {
  }

  lemma ShareStep(limit: nat, n: nat, size: nat, sizes: int, floor: int, floors: int, remainder: int, remainders: int)
    requires limit * size == n * floor + remainder && limit * sizes == n * floors + remainders
    ensures limit * (size + sizes) == n * (floor + floors) + (remainder + remainders)
  {
    assert limit * (size + sizes) == limit * size + limit * sizes;
    assert n * (floor + floors) == n * floor + n * floors;
  }

  /** Integer parts and remainders together make up the shares. */
  lemma {:induction false} SharesSplit(keys: seq<string>, rows: seq<Row>, limit: nat)
    requires rows != []
    ensures limit * Total(keys, Sizes(rows))
      == |rows| * Total(keys, Floors(rows, limit)) + Total(keys, Remainders(rows, limit))
  {
    if keys != [] {
      SharesSplit(keys[1..], rows, limit);
      var k, rest := keys[0], keys[1..];
      DivMod(limit * |Group(rows, k)|, |rows|);
      ShareStep(limit, |rows|, |Group(rows, k)|, Total(rest, Sizes(rows)), Floor(rows, limit, k), Total(rest, Floors(rows, limit)),
                Remainder(rows, limit, k), Total(rest, Remainders(rows, limit)));
    }
  }

  /** n times the seats left is the sum of the remainders. */
  lemma RemaindersFillSeats(rows: seq<Row>, limit: nat)
    requires rows != []
    ensures |rows| * Remaining(rows, limit) == Total(Sectors(rows), Remainders(rows, limit))
  {
    SizesSumUp(rows);
    SharesSplit(Sectors(rows), rows, limit);
    LeftScaled(|rows|, limit, Total(Sectors(rows), Floors(rows, limit)), Total(Sectors(rows), Remainders(rows, limit)));
  }

  lemma LeftScaled(n: int, limit: int, floors: int, remainders: int)
    requires limit * n == n * floors + remainders
    ensures n * (limit - floors) == remainders
  {
    assert n * (limit - floors) == n * limit - n * floors;
    assert limit * n == n * limit;
  }

  lemma {:induction false} TotalBounds(keys: seq<string>, f: string -> int, low: int, high: int)
    requires forall i | 0 <= i < |keys| :: low <= f(keys[i]) <= high
    ensures low * |keys| <= Total(keys, f) <= high * |keys|
  {
    if keys != [] {
      TotalBounds(keys[1..], f, low, high);
      assert low * |keys| == low + low * |keys[1..]|;
      assert high * |keys| == high + high * |keys[1..]|;
    }
  }

  lemma RemainderOrder(rows: seq<Row>, limit: nat)
    requires rows != []
    ensures TotalPreorder(RemainderLe(rows, limit))
    ensures forall a, b | RemainderLe(rows, limit)(a, b) && RemainderLe(rows, limit)(b, a) :: a == b
  {
    StringOrder();
  }

  /** What the order of the remainders is: all sectors, sorted, with the remainders adding up to the seats left. */
  lemma RemainderOrdering(rows: seq<Row>, limit: nat)
    requires rows != []
    ensures Sorted(ByRemainder(rows, limit), RemainderLe(rows, limit))
    ensures multiset(ByRemainder(rows, limit)) == multiset(Sectors(rows))
    ensures |rows| * Remaining(rows, limit) == Total(ByRemainder(rows, limit), Remainders(rows, limit))
  {
    var keys := Sectors(rows);
    SortPermutes(keys, RemainderLe(rows, limit));
    RemainderOrder(rows, limit);
    SortSorts(keys, RemainderLe(rows, limit));
    TotalPermutes(keys, ByRemainder(rows, limit), Remainders(rows, limit));
    RemaindersFillSeats(rows, limit);
  }

  lemma RemaindersBelow(rows: seq<Row>, limit: nat, keys: seq<string>)
    requires rows != []
    ensures 0 <= Total(keys, Remainders(rows, limit)) <= (|rows| - 1) * |keys|
  {
    TotalBounds(keys, Remainders(rows, limit), 0, |rows| - 1);
  }

  /** There are no more seats left than sectors, and those that get one have a positive remainder. */
  lemma SeatsGoToRemainders(rows: seq<Row>, limit: nat)
    requires rows != []
    ensures 0 <= Remaining(rows, limit) <= |ByRemainder(rows, limit)|
    ensures forall i | 0 <= i < Remaining(rows, limit) :: Remainder(rows, limit, ByRemainder(rows, limit)[i]) > 0
  {
    var order, left := ByRemainder(rows, limit), Remaining(rows, limit);
    RemainderOrdering(rows, limit);
    RemaindersBelow(rows, limit, order);
    SeatBound(left, |rows|, |order|, Total(order, Remainders(rows, limit)));
    forall i | 0 <= i < left ensures Remainder(rows, limit, order[i]) > 0 {
      if Remainder(rows, limit, order[i]) == 0 {
        ZeroTail(rows, limit, order, i);
        RemaindersBelow(rows, limit, order[..i]);
        SeatsBeforeZero(order, Remainders(rows, limit), |rows|, i, left);
        assert false;
      }
    }
  }

  lemma TotalUpTo(order: seq<string>, i: nat, f: string -> int)
    requires i <= |order| && Total(order[i..], f) == 0
    ensures Total(order, f) == Total(order[..i], f)
  {
    TotalConcat(order[..i], order[i..], f);
    assert order == order[..i] + order[i..];
  }

  /** Where the remainders of a tail are all zero, the seats go to the keys before it. */
  lemma SeatsBeforeZero(order: seq<string>, f: string -> int, n: nat, i: nat, left: int)
    requires i < |order| && Total(order[i..], f) == 0
    requires n > 0 && n * left == Total(order, f) && 0 <= Total(order[..i], f) <= (n - 1) * |order[..i]|
    ensures left <= i
  {
    TotalUpTo(order, i, f);
    SeatBound(left, n, |order[..i]|, Total(order[..i], f));
  }

  lemma TimesGrows(n: nat, x: int, y: int)
    requires x <= y
    ensures n * x <= n * y
  {
  }

  lemma TimesCancels(n: nat, x: int, y: int)
    requires n > 0 && n * x <= n * y
    ensures x <= y
  {
    if x > y {
      TimesGrows(n, y + 1, x);
      assert false;
    }
  }

  lemma SeatBound(left: int, n: nat, count: nat, total: int)
    requires n > 0 && n * left == total && 0 <= total <= (n - 1) * count
    ensures 0 <= left <= count
  {
    assert (n - 1) * count == n * count - count;
    TimesCancels(n, left, count);
    TimesCancels(n, 0, left);
  }

  lemma ZeroTail(rows: seq<Row>, limit: nat, order: seq<string>, i: nat)
    requires rows != [] && i < |order| && Sorted(order, RemainderLe(rows, limit)) && Remainder(rows, limit, order[i]) == 0
    ensures Total(order[i..], Remainders(rows, limit)) == 0
  {
    var tail := order[i..];
    forall j | 0 <= j < |tail| ensures Remainders(rows, limit)(tail[j]) == 0 {
      assert tail[j] == order[i + j];
      assert j == 0 || RemainderLe(rows, limit)(order[i], order[i + j]);
    }
    TotalBounds(tail, Remainders(rows, limit), 0, 0);
  }

  // ----- quotas

  predicate Favoured(rows: seq<Row>, limit: nat, k: string)
    requires rows != []
  {
    SeatsGoToRemainders(rows, limit);
    k in ByRemainder(rows, limit)[..Remaining(rows, limit)]
  }

  function Quota(rows: seq<Row>, limit: nat, k: string): nat
    requires rows != []
  {
    Floor(rows, limit, k) + if Favoured(rows, limit, k) then 1 else 0
  }

  function Quotas(rows: seq<Row>, limit: nat): string -> int
    requires rows != []
  {
    (k: string) => Quota(rows, limit, k)
  }

  lemma {:induction false} TotalMarked(keys: seq<string>, marked: seq<string>, f: string -> int, g: string -> int)
    requires Distinct(keys) && forall k :: g(k) == f(k) + if k in marked then 1 else 0
    ensures Total(keys, g) == Total(keys, f) + |set k | k in keys && k in marked|
  {
    if keys == [] {
      assert (set k | k in keys && k in marked) == {};
    } else {
      DistinctTail(keys);
      TotalMarked(keys[1..], marked, f, g);
      var all, rest := set k | k in keys && k in marked, set k | k in keys[1..] && k in marked;
      assert keys == [keys[0]] + keys[1..];
      assert all == rest + (if keys[0] in marked then {keys[0]} else {});
      assert keys[0] !in rest;
    }
  }

  /** The quotas add up to the limit. */
  lemma QuotasSumUp(rows: seq<Row>, limit: nat)
    requires rows != []
    ensures Total(Sectors(rows), Quotas(rows, limit)) == limit
  {
    var keys, order, left := Sectors(rows), ByRemainder(rows, limit), Remaining(rows, limit);
    FirstKeysCover(rows, Sector);
    SeatsGoToRemainders(rows, limit);
    SortPermutes(keys, RemainderLe(rows, limit));
    SameMembers(keys, order);
    DistinctPermutes(keys, order);
    var top := order[..left];
    TotalMarked(keys, top, Floors(rows, limit), Quotas(rows, limit));
    assert Distinct(top);
    DistinctLength(top);
    assert (set k | k in keys && k in top) == set k | k in top;
  }

  /** Each quota lies between the integer part of the exact share and the next integer, with the next
      integer only where the share is not whole, and never exceeds the sector's size. */
  lemma QuotaBounds(rows: seq<Row>, limit: nat, k: string)
    requires rows != [] && limit < |rows|
    ensures Floor(rows, limit, k) <= Quota(rows, limit, k)
    ensures Quota(rows, limit, k) <= Floor(rows, limit, k) + if Remainder(rows, limit, k) > 0 then 1 else 0
    ensures Quota(rows, limit, k) <= |Group(rows, k)|
  {
    SeatsGoToRemainders(rows, limit);
    if Favoured(rows, limit, k) {
      var i :| 0 <= i < Remaining(rows, limit) && ByRemainder(rows, limit)[i] == k;
    }
    ShareBelowSize(limit, |Group(rows, k)|, |rows|);
  }

  lemma ShareBelowSize(limit: nat, size: nat, n: nat)
    requires limit < n
    ensures limit * size / n <= size
    ensures limit * size % n > 0 ==> limit * size / n < size
  {
    DivMod(limit * size, n);
    assert limit * size <= n * size;
    if limit * size / n >= size {
      assert n * (limit * size / n) >= n * size;
    }
  }

  /** A larger remainder is served first. */
  lemma FavourPassesUp(rows: seq<Row>, limit: nat, a: string, b: string)
    requires rows != [] && a in Sectors(rows) && Favoured(rows, limit, b)
    requires Remainder(rows, limit, a) > Remainder(rows, limit, b)
    ensures Favoured(rows, limit, a)
  {
    var order, left := ByRemainder(rows, limit), Remaining(rows, limit);
    SeatsGoToRemainders(rows, limit);
    RemainderOrdering(rows, limit);
    SameMembers(Sectors(rows), order);
    var j :| 0 <= j < left && order[j] == b;
    var i :| 0 <= i < |order| && order[i] == a;
    if j < i {
      assert false;
    }
    assert order[..left][i] == a;
  }

  lemma QuotientGrows(x: nat, y: nat, n: nat)
    requires n > 0 && x > y
    ensures x / n > y / n || (x / n == y / n && x % n > y % n)
  {
    DivMod(x, n);
    DivMod(y, n);
    var q, r := x / n, y / n;
    if q < r {
      TimesGrows(n, q + 1, r);
      assert false;
    }
  }

  lemma LargerShare(rows: seq<Row>, limit: nat, a: string, b: string)
    requires rows != [] && limit > 0 && |Group(rows, a)| > |Group(rows, b)|
    ensures Floor(rows, limit, a) > Floor(rows, limit, b)
      || (Floor(rows, limit, a) == Floor(rows, limit, b) && Remainder(rows, limit, a) > Remainder(rows, limit, b))
  {
    var x, y := limit * |Group(rows, a)|, limit * |Group(rows, b)|;
    TimesGrows(limit, |Group(rows, b)| + 1, |Group(rows, a)|);
    assert x > y;
    QuotientGrows(x, y, |rows|);
  }

  /** A strictly larger sector never gets fewer seats. */
  lemma LargerGetsNoFewer(rows: seq<Row>, limit: nat, a: string, b: string)
    requires rows != [] && a in Sectors(rows) && |Group(rows, a)| > |Group(rows, b)|
    ensures Quota(rows, limit, a) >= Quota(rows, limit, b)
  {
    if limit > 0 {
      LargerShare(rows, limit, a, b);
      if Favoured(rows, limit, b) && Floor(rows, limit, a) == Floor(rows, limit, b) {
        FavourPassesUp(rows, limit, a, b);
      }
    } else {
      SeatsGoToRemainders(rows, limit);
    }
  }
}

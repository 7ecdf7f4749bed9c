/** Grouping rows under a key, as an insertion-ordered `defaultdict(list)` does. */
module Grouping {
  import opened Ordering

  function HasKey<T, K(==)>(key: T -> K, k: K): T -> bool {
    x => key(x) == k
  }

  lemma HasKeyAt<T, K>(key: T -> K, k: K, x: T)
    ensures HasKey(key, k)(x) <==> key(x) == k
  {
  }

  function Lacks<T, K(==)>(key: T -> K, k: K): T -> bool {
    x => key(x) != k
  }

  /** The keys in order of first appearance. */
  function FirstKeys<T, K(==)>(rows: seq<T>, key: T -> K): seq<K> {
    if rows == [] then []
    else
      var last := |rows| - 1;
      var before := FirstKeys(rows[..last], key);
      if key(rows[last]) in before then before else before + [key(rows[last])]
  }

  /** The groups of the listed keys, one after the other. */
  function Grouped<T, K(==)>(keys: seq<K>, rows: seq<T>, key: T -> K): seq<T> {
    if keys == [] then [] else Filter(rows, HasKey(key, keys[0])) + Grouped(keys[1..], rows, key)
  }

  lemma {:induction false} FirstKeysCover<T, K>(rows: seq<T>, key: T -> K)
    ensures Distinct(FirstKeys(rows, key))
    ensures forall k :: k in FirstKeys(rows, key) <==> exists i | 0 <= i < |rows| :: key(rows[i]) == k
  {
    if rows != [] {
      var last := |rows| - 1;
      FirstKeysCover(rows[..last], key);
      var before, keys := FirstKeys(rows[..last], key), FirstKeys(rows, key);
      forall k ensures k in keys <==> exists i | 0 <= i < |rows| :: key(rows[i]) == k {
        assert k in keys <==> k in before || k == key(rows[last]);
        if k in before {
          var i :| 0 <= i < last && key(rows[..last][i]) == k;
          assert key(rows[i]) == k;
        } else if exists i | 0 <= i < |rows| :: key(rows[i]) == k {
          var i :| 0 <= i < |rows| && key(rows[i]) == k;
          if i < last {
            assert key(rows[..last][i]) == k;
          }
        }
      }
    }
  }

  /** Grouping loses and invents no row. */
  lemma {:induction false} GroupedPermutes<T, K>(keys: seq<K>, rows: seq<T>, key: T -> K)
    requires Distinct(keys) && forall x | x in rows :: key(x) in keys
    ensures multiset(Grouped(keys, rows, key)) == multiset(rows)
  {
    if keys == [] {
      assert forall x | x in rows :: key(x) in keys;
    } else {
      var others := Lacks(key, keys[0]);
      var rest := Filter(rows, others);
      FilterSplit(rows, HasKey(key, keys[0]), others);
      DistinctTail(keys);
      forall x | x in rest ensures key(x) in keys[1..] {
        FilterMember(rows, others, x);
        assert others(x) && keys == [keys[0]] + keys[1..];
      }
      GroupedPermutes(keys[1..], rest, key);
      SkipsForeign(keys[1..], rows, key, keys[0]);
    }
  }

  /** Groups of other keys do not see the rows of `k`. */
  lemma {:induction false} SkipsForeign<T, K>(keys: seq<K>, rows: seq<T>, key: T -> K, k: K)
    requires k !in keys
    ensures Grouped(keys, Filter(rows, Lacks(key, k)), key) == Grouped(keys, rows, key)
  {
    if keys != [] {
      FilterTwice(rows, Lacks(key, k), HasKey(key, keys[0]), HasKey(key, keys[0]));
      SkipsForeign(keys[1..], rows, key, k);
    }
  }

  function GroupAt<T, K(==)>(groups: map<K, seq<T>>, k: K): seq<T> {
    if k in groups then groups[k] else []
  }

  /** `keys` and `groups` are the grouping of `rows`. */
  ghost predicate IsGrouping<T, K(!new)>(rows: seq<T>, key: T -> K, keys: seq<K>, groups: map<K, seq<T>>) {
    && keys == FirstKeys(rows, key)
    && (forall k :: k in groups <==> k in keys)
    && (forall k :: GroupAt(groups, k) == Filter(rows, HasKey(key, k)))
  }

  lemma GroupStep<T, K(!new)>(rows: seq<T>, key: T -> K, keys: seq<K>, groups: map<K, seq<T>>, x: T)
    requires IsGrouping(rows, key, keys, groups)
    ensures var k := key(x);
      IsGrouping(rows + [x], key, if k in groups then keys else keys + [k], groups[k := GroupAt(groups, k) + [x]])
  {
    var k := key(x);
    var more := groups[k := GroupAt(groups, k) + [x]];
    var all := rows + [x];
    assert all[..|rows|] == rows;
    forall j ensures GroupAt(more, j) == Filter(all, HasKey(key, j)) {
      FilterConcat(rows, [x], HasKey(key, j));
      assert [x][1..] == [];
      assert GroupAt(groups, j) == Filter(rows, HasKey(key, j));
    }
  }

  method GroupBy<T, K(==,!new)>(rows: seq<T>, key: T -> K) returns (keys: seq<K>, groups: map<K, seq<T>>)
    ensures IsGrouping(rows, key, keys, groups)
  {
    keys, groups := [], map[];
    for i := 0 to |rows|
      invariant IsGrouping(rows[..i], key, keys, groups)
    {
      var k := key(rows[i]);
      GroupStep(rows[..i], key, keys, groups, rows[i]);
      assert rows[..i + 1] == rows[..i] + [rows[i]];
      ghost var next := groups[k := GroupAt(groups, k) + [rows[i]]];
      if k !in groups {
        keys := keys + [k];
        groups := groups[k := []];
      }
      groups := groups[k := groups[k] + [rows[i]]];
      assert groups == next;
    }
    assert rows[..|rows|] == rows;
  }
}

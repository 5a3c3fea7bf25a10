/** `groupby(key).agg(count=…, sum=…)`: one row per distinct non-missing
    key (rows whose key is missing are dropped, as pandas does with NaN
    keys), each carrying the group's row count and the sum of one numeric
    column over the group. */
module Grouping {
  import opened Seqs
  import opened Sorting

  /** One row of a grouped table. */
  datatype Agg<K> = Agg(key: K, count: nat, total: int)

  function Identity<K>(k: K): K { k }
  function One<T>(x: T): int { 1 }
  function AggKey<K>(a: Agg<K>): K { a.key }
  function AggCount<K>(a: Agg<K>): int { a.count }
  function AggTotal<K>(a: Agg<K>): int { a.total }

  /** The row belongs to the group of `k`. */
  function HasKey<T, K(==)>(key: T -> Option<K>, k: K): T -> bool {
    x => key(x) == Some(k)
  }

  /** The row's key is not missing. */
  function KeyPresent<T, K>(key: T -> Option<K>): T -> bool {
    x => key(x).Some?
  }

  /** The distinct non-missing keys, in order of first appearance. */
  function PresentKeys<T, K(==)>(s: seq<T>, key: T -> Option<K>): (ks: seq<K>)
    ensures forall i, j :: 0 <= i < j < |ks| ==> ks[i] != ks[j]
    ensures forall k :: k in ks ==> exists x :: x in s && key(x) == Some(k)
    ensures forall x :: x in s && key(x).Some? ==> key(x).value in ks
  {
    var present := FilterMap(s, key);
    var ks := DropDuplicates(present, Identity);
    assert forall k :: k in ks ==> k in present by {
      forall k | k in ks ensures k in present {
        assert Identity(k) in Image(ks, Identity);
      }
    }
    assert forall k :: k in present ==> k in ks by {
      forall k | k in present ensures k in ks {
        assert Identity(k) in Image(present, Identity);
      }
    }
    ks
  }

  /** Number of rows in the group of `k`. */
  function GroupCount<T, K(==)>(s: seq<T>, key: T -> Option<K>, k: K): nat {
    |Filter(s, HasKey(key, k))|
  }

  /** Sum of `v` over the group of `k`. */
  function GroupSum<T, K(==)>(s: seq<T>, key: T -> Option<K>, v: T -> int, k: K): int {
    Sum(Filter(s, HasKey(key, k)), v)
  }

  /** One grouped row per key of `ks`. */
  function AggRows<T, K(==)>(s: seq<T>, key: T -> Option<K>, v: T -> int, ks: seq<K>): (rows: seq<Agg<K>>)
    ensures |rows| == |ks|
    ensures forall i :: 0 <= i < |ks| ==>
              rows[i] == Agg(ks[i], GroupCount(s, key, ks[i]), GroupSum(s, key, v, ks[i]))
    ensures Sum(rows, AggTotal) == GroupTotals(s, key, v, ks)
    ensures Sum(rows, AggCount) == GroupTotals(s, key, One, ks)
  {
    if ks == [] then []
    else
      var k := ks[0];
      SumOneIsLength(Filter(s, HasKey(key, k)));
      [Agg(k, GroupCount(s, key, k), GroupSum(s, key, v, k))] + AggRows(s, key, v, ks[1..])
  }

  /** The grouped table, in order of first appearance of the keys. */
  function GroupBy<T, K(==)>(s: seq<T>, key: T -> Option<K>, v: T -> int): (rows: seq<Agg<K>>)
    ensures IsGroupTable(rows, s, key, v)
  {
    var ks := PresentKeys(s, key);
    GroupByIsGroupTable(s, key, v, ks);
    AggRows(s, key, v, ks)
  }

  lemma GroupByIsGroupTable<T, K>(s: seq<T>, key: T -> Option<K>, v: T -> int, ks: seq<K>)
    requires forall i, j :: 0 <= i < j < |ks| ==> ks[i] != ks[j]
    requires forall k :: k in ks ==> exists x :: x in s && key(x) == Some(k)
    requires forall x :: x in s && key(x).Some? ==> key(x).value in ks
    ensures IsGroupTable(AggRows(s, key, v, ks), s, key, v)
  {
    var rows := AggRows(s, key, v, ks);
    assert KeysDistinct(rows, AggKey);
    forall r | r in rows
      ensures r.count == GroupCount(s, key, r.key) && r.total == GroupSum(s, key, v, r.key) && r.count >= 1
    {
      var i :| 0 <= i < |rows| && rows[i] == r;
      var x :| x in s && key(x) == Some(ks[i]);
      assert x in Filter(s, HasKey(key, ks[i]));
    }
    forall x | x in s && key(x).Some? ensures exists r :: r in rows && r.key == key(x).value {
      var i :| 0 <= i < |ks| && ks[i] == key(x).value;
      assert rows[i] in rows;
    }
    GroupTotalsCover(s, key, v, ks);
    GroupTotalsCover(s, key, One, ks);
    SumOneIsLength(Filter(s, KeyPresent(key)));
    FilterIsCount(s, KeyPresent(key));
  }

  /** `rows` is `s` grouped by `key`: one row per distinct non-missing key,
      with that group's size and sum, and the sizes and sums add up to the
      rows with a key. */
  ghost predicate IsGroupTable<T, K>(rows: seq<Agg<K>>, s: seq<T>, key: T -> Option<K>, v: T -> int) {
    && KeysDistinct(rows, AggKey)
    && (forall r :: r in rows ==>
          r.count == GroupCount(s, key, r.key)
          && r.total == GroupSum(s, key, v, r.key)
          && r.count >= 1)
    && (forall x :: x in s && key(x).Some? ==> exists r :: r in rows && r.key == key(x).value)
    && Sum(rows, AggCount) == Count(s, KeyPresent(key))
    && Sum(rows, AggTotal) == Sum(Filter(s, KeyPresent(key)), v)
  }

  /** The grouped table ordered by `f` (`sort_values`). */
  function SortedGroupBy<T, K(==)>(s: seq<T>, key: T -> Option<K>, v: T -> int,
                                    f: Agg<K> -> real, descending: bool): (rows: seq<Agg<K>>)
    ensures IsGroupTable(rows, s, key, v)
    ensures SortedBy(rows, f, descending)
  {
    var g := GroupBy(s, key, v);
    var rows := SortBy(g, f, descending);
    GroupTablePermutation(g, rows, s, key, v);
    rows
  }

  /** Reordering the rows of a grouped table leaves it a grouped table. */
  lemma GroupTablePermutation<T, K>(a: seq<Agg<K>>, b: seq<Agg<K>>, s: seq<T>, key: T -> Option<K>, v: T -> int)
    requires IsGroupTable(a, s, key, v)
    requires multiset(a) == multiset(b)
    ensures IsGroupTable(b, s, key, v)
  {
    PermutationKeepsKeysDistinct(a, b, AggKey);
    SumPermutation(a, b, AggCount);
    SumPermutation(a, b, AggTotal);
    forall x ensures x in a <==> x in b {
      assert x in a <==> x in multiset(a);
      assert x in b <==> x in multiset(b);
    }
  }

  // ---------------------------------------------------------------------
  // Sort keys of grouped tables

  /** Sort by the group's key (dates and ids). */
  function IntKey(a: Agg<int>): real { a.key as real }
  /** Sort by the group's row count. */
  function CountKey<K>(a: Agg<K>): real { a.count as real }
  /** Sort by the group's sum. */
  function TotalKey<K>(a: Agg<K>): real { a.total as real }

  /** A grouped table sorted ascending by its integer key has strictly
      increasing keys. */
  lemma AscendingKeys(g: seq<Agg<int>>)
    requires KeysDistinct(g, AggKey)
    requires SortedBy(g, IntKey, false)
    ensures forall i, j :: 0 <= i < j < |g| ==> g[i].key < g[j].key
  {
    forall i, j | 0 <= i < j < |g| ensures g[i].key < g[j].key {
      assert IntKey(g[i]) <= IntKey(g[j]);
      assert AggKey(g[i]) != AggKey(g[j]);
    }
  }

  // ---------------------------------------------------------------------
  // The totals of a grouped table

  function GroupTotals<T, K(==)>(s: seq<T>, key: T -> Option<K>, v: T -> int, ks: seq<K>): int {
    if ks == [] then 0 else GroupSum(s, key, v, ks[0]) + GroupTotals(s, key, v, ks[1..])
  }

  lemma {:induction false} SumOneIsLength<T>(s: seq<T>)
    ensures Sum(s, One) == |s|
  {
    if s != [] { SumOneIsLength(s[1..]); }
  }

  lemma {:induction false} GroupTotalsEmpty<T, K>(key: T -> Option<K>, v: T -> int, ks: seq<K>)
    ensures GroupTotals([], key, v, ks) == 0
  {
    if ks != [] { GroupTotalsEmpty(key, v, ks[1..]); }
  }

  /** Adding one row to the table adds its value to exactly one group. */
  lemma {:induction false} GroupTotalsCons<T, K>(a: T, t: seq<T>, key: T -> Option<K>, v: T -> int, ks: seq<K>)
    requires forall i, j :: 0 <= i < j < |ks| ==> ks[i] != ks[j]
    ensures GroupTotals([a] + t, key, v, ks)
            == GroupTotals(t, key, v, ks) + (if key(a).Some? && key(a).value in ks then v(a) else 0)
  {
    if ks != [] {
      var s := [a] + t;
      assert s[1..] == t;
      GroupTotalsCons(a, t, key, v, ks[1..]);
      if key(a) == Some(ks[0]) {
        assert ks[0] !in ks[1..];
      }
    }
  }

  /** Summing the groups' sums over keys that cover every key gives the
      sum over all rows with a key. */
  lemma {:induction false} GroupTotalsCover<T, K>(s: seq<T>, key: T -> Option<K>, v: T -> int, ks: seq<K>)
    requires forall i, j :: 0 <= i < j < |ks| ==> ks[i] != ks[j]
    requires forall x :: x in s && key(x).Some? ==> key(x).value in ks
    ensures GroupTotals(s, key, v, ks) == Sum(Filter(s, KeyPresent(key)), v)
  {
    if s == [] {
      GroupTotalsEmpty(key, v, ks);
    } else {
      var a, t := s[0], s[1..];
      assert s == [a] + t;
      assert forall x :: x in t ==> x in s;
      GroupTotalsCover(t, key, v, ks);
      GroupTotalsCons(a, t, key, v, ks);
    }
  }

  /** Summing, over a grouped table's rows, the group sums of another
      column `u` gives the sum of `u` over the rows with a key. */
  lemma GroupTableSumOf<T, K>(rows: seq<Agg<K>>, s: seq<T>, key: T -> Option<K>, v: T -> int,
                              u: T -> int, h: Agg<K> -> int)
    requires IsGroupTable(rows, s, key, v)
    requires forall a :: h(a) == GroupSum(s, key, u, a.key)
    ensures Sum(rows, h) == Sum(Filter(s, KeyPresent(key)), u)
  {
    var ks := Map(rows, AggKey);
    assert forall i, j :: 0 <= i < j < |ks| ==> ks[i] != ks[j] by {
      forall i, j | 0 <= i < j < |ks| ensures ks[i] != ks[j] {
        assert AggKey(rows[i]) != AggKey(rows[j]);
      }
    }
    forall x | x in s && key(x).Some? ensures key(x).value in ks {
      var r :| r in rows && r.key == key(x).value;
      var i :| 0 <= i < |rows| && rows[i] == r;
      assert ks[i] == r.key;
    }
    GroupTotalsCover(s, key, u, ks);
    SumIsGroupTotals(rows, s, key, u, h);
  }

  lemma {:induction false} SumIsGroupTotals<T, K>(rows: seq<Agg<K>>, s: seq<T>, key: T -> Option<K>,
                                                  u: T -> int, h: Agg<K> -> int)
    requires forall a :: h(a) == GroupSum(s, key, u, a.key)
    ensures Sum(rows, h) == GroupTotals(s, key, u, Map(rows, AggKey))
  {
    if rows != [] {
      SumIsGroupTotals(rows[1..], s, key, u, h);
      assert Map(rows, AggKey)[1..] == Map(rows[1..], AggKey);
    }
  }

  /** When every row has a key, the groups' counts add up to the table's
      length and their sums to the column's sum. */
  lemma GroupTableOfTotalKey<T, K>(g: seq<Agg<K>>, s: seq<T>, key: T -> Option<K>, v: T -> int)
    requires IsGroupTable(g, s, key, v)
    requires forall x :: x in s ==> key(x).Some?
    ensures Sum(g, AggCount) == |s|
    ensures Sum(g, AggTotal) == Sum(s, v)
  {
    FilterAllTrue(s, KeyPresent(key));
    FilterIsCount(s, KeyPresent(key));
  }
}

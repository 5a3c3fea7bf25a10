/** Sequences of records standing for data-frame tables: the row-wise
    operations the analytics pipeline is built from (filtering, mapping,
    counting, summing, keep-first de-duplication) and their basic laws. */
module Seqs {

  /** A cell that may be missing (a NaN / NaT / None cell of a data frame). */
  datatype Option<+T> = None | Some(value: T) {
    /** `fillna(default)` on one cell. */
    function GetOr(default: T): T {
      match this
      case Some(v) => v
      case None => default
    }
  }

  /** The rows of `s` that satisfy `p`, in their original order (a boolean mask). */
  function Filter<T>(s: seq<T>, p: T -> bool): (r: seq<T>)
    ensures |r| <= |s|
    ensures forall x :: x in r ==> x in s && p(x)
    ensures forall x :: x in s && p(x) ==> x in r
  {
    if s == [] then [] else if p(s[0]) then [s[0]] + Filter(s[1..], p) else Filter(s[1..], p)
  }

  /** A column computed row by row. */
  function Map<A, B>(s: seq<A>, f: A -> B): (r: seq<B>)
    ensures |r| == |s|
    ensures forall i :: 0 <= i < |s| ==> r[i] == f(s[i])
  {
    if s == [] then [] else [f(s[0])] + Map(s[1..], f)
  }

  /** Rows that survive a `dropna` and are converted to a cleaner row type:
      `f` returns None for a row that is dropped. */
  function FilterMap<A, B>(s: seq<A>, f: A -> Option<B>): (r: seq<B>)
    ensures |r| <= |s|
    ensures forall y :: y in r ==> exists x :: x in s && f(x) == Some(y)
    ensures forall x :: x in s && f(x).Some? ==> f(x).value in r
  {
    if s == [] then []
    else
      var rest := FilterMap(s[1..], f);
      assert forall x :: x in s[1..] ==> x in s;
      match f(s[0])
      case Some(y) => [y] + rest
      case None => rest
  }

  /** Number of rows that satisfy `p`. */
  function Count<T>(s: seq<T>, p: T -> bool): nat {
    if s == [] then 0 else (if p(s[0]) then 1 else 0) + Count(s[1..], p)
  }

  /** Sum of a numeric column (cents). */
  function Sum<T>(s: seq<T>, v: T -> int): int {
    if s == [] then 0 else v(s[0]) + Sum(s[1..], v)
  }

  /** The set of values a column takes. */
  ghost function Image<T, K>(s: seq<T>, key: T -> K): set<K> {
    set x | x in s :: key(x)
  }

  /** No two rows share a key. */
  ghost predicate KeysDistinct<T, K>(s: seq<T>, key: T -> K) {
    forall i, j :: 0 <= i < j < |s| ==> key(s[i]) != key(s[j])
  }

  /** `a` is obtained from `b` by deleting rows (order preserved). */
  ghost predicate IsSubsequence<T>(a: seq<T>, b: seq<T>)
    decreases |b|
  {
    a == [] || (b != [] && ((a[0] == b[0] && IsSubsequence(a[1..], b[1..])) || IsSubsequence(a, b[1..])))
  }

  /** Index of the first row of `s` whose key is `k`. */
  function FirstIndex<T, K(==)>(s: seq<T>, key: T -> K, k: K): (i: nat)
    requires exists x :: x in s && key(x) == k
    ensures i < |s| && key(s[i]) == k
    ensures forall j :: 0 <= j < i ==> key(s[j]) != k
  {
    if key(s[0]) == k then 0
    else
      assert exists x :: x in s[1..] && key(x) == k by {
        var x :| x in s && key(x) == k;
        assert x != s[0];
      }
      1 + FirstIndex(s[1..], key, k)
  }

  /** `drop_duplicates(subset=[key], keep="first")` when the keys in `seen`
      have already been met earlier in the table. */
  function DedupAfter<T, K(==)>(s: seq<T>, key: T -> K, seen: set<K>): (r: seq<T>)
    ensures IsSubsequence(r, s)
    ensures KeysDistinct(r, key)
    ensures forall x :: x in r ==> key(x) !in seen
    ensures Image(r, key) == Image(s, key) - seen
  {
    if s == [] then []
    else
      var a := s[0];
      if key(a) in seen then
        var r := DedupAfter(s[1..], key, seen);
        assert Image(s, key) == Image(s[1..], key) + {key(a)} by {
          assert s == [a] + s[1..];
        }
        r
      else
        var rest := DedupAfter(s[1..], key, seen + {key(a)});
        DedupKeepsHead(s, key, seen, rest);
        [a] + rest
  }

  /** A row with a new key, in front of the deduplicated rest, keeps the
      result a duplicate-free subsequence with the unseen keys. */
  lemma DedupKeepsHead<T, K>(s: seq<T>, key: T -> K, seen: set<K>, rest: seq<T>)
    requires s != [] && key(s[0]) !in seen
    requires IsSubsequence(rest, s[1..])
    requires KeysDistinct(rest, key)
    requires forall x :: x in rest ==> key(x) !in seen + {key(s[0])}
    requires Image(rest, key) == Image(s[1..], key) - (seen + {key(s[0])})
    ensures var r := [s[0]] + rest;
            && IsSubsequence(r, s)
            && KeysDistinct(r, key)
            && (forall x :: x in r ==> key(x) !in seen)
            && Image(r, key) == Image(s, key) - seen
  {
    var a := s[0];
    var r := [a] + rest;
    assert r[1..] == rest;
    ImageCons(a, s[1..], key);
    assert s == [a] + s[1..];
    ImageCons(a, rest, key);
    assert forall j :: 1 <= j < |r| ==> r[j] in rest;
  }

  /** `drop_duplicates(subset=[key], keep="first")`: keeps the
      first row for each key and drops the later ones. */
  function DropDuplicates<T, K(==)>(s: seq<T>, key: T -> K): (r: seq<T>)
    ensures IsSubsequence(r, s)
    ensures KeysDistinct(r, key)
    ensures Image(r, key) == Image(s, key)
  {
    DedupAfter(s, key, {})
  }

  /** `duplicated(subset=[key]).sum()` when the keys in `seen` were met
      before: the rows whose key occurs earlier. */
  function DuplicatedAfter<T, K(==)>(s: seq<T>, key: T -> K, seen: set<K>): nat {
    if s == [] then 0
    else if key(s[0]) in seen then 1 + DuplicatedAfter(s[1..], key, seen)
    else DuplicatedAfter(s[1..], key, seen + {key(s[0])})
  }

  /** `duplicated(subset=[key]).sum()`. */
  function Duplicated<T, K(==)>(s: seq<T>, key: T -> K): nat {
    DuplicatedAfter(s, key, {})
  }

  // ---------------------------------------------------------------------
  // Laws

  lemma {:induction false} DedupAfterKeepsFirst<T, K>(s: seq<T>, key: T -> K, seen: set<K>)
    ensures forall x :: x in DedupAfter(s, key, seen) ==>
              (exists y :: y in s && key(y) == key(x)) && x == s[FirstIndex(s, key, key(x))]
  {
    if s != [] {
      var a := s[0];
      var seen' := if key(a) in seen then seen else seen + {key(a)};
      DedupAfterKeepsFirst(s[1..], key, seen');
      forall x | x in DedupAfter(s, key, seen)
        ensures (exists y :: y in s && key(y) == key(x)) && x == s[FirstIndex(s, key, key(x))]
      {
        if key(a) !in seen && x == a {
          assert a in s;
        } else {
          assert x in DedupAfter(s[1..], key, seen');
          assert key(x) !in seen';
          var y :| y in s[1..] && key(y) == key(x);
          assert y in s;
        }
      }
    }
  }

  /** Every surviving row is the first row of the input with its key. */
  lemma DropDuplicatesKeepsFirst<T, K>(s: seq<T>, key: T -> K)
    ensures forall x :: x in DropDuplicates(s, key) ==>
              (exists y :: y in s && key(y) == key(x)) && x == s[FirstIndex(s, key, key(x))]
  {
    DedupAfterKeepsFirst(s, key, {});
  }

  lemma {:induction false} DedupAfterCount<T, K>(s: seq<T>, key: T -> K, seen: set<K>)
    ensures |DedupAfter(s, key, seen)| + DuplicatedAfter(s, key, seen) == |s|
  {
    if s != [] {
      if key(s[0]) in seen {
        DedupAfterCount(s[1..], key, seen);
      } else {
        DedupAfterCount(s[1..], key, seen + {key(s[0])});
      }
    }
  }

  /** The number of rows removed is the number of duplicated rows. */
  lemma DropDuplicatesCount<T, K>(s: seq<T>, key: T -> K)
    ensures |DropDuplicates(s, key)| + Duplicated(s, key) == |s|
  {
    DedupAfterCount(s, key, {});
  }

  lemma {:induction false} FilterIsCount<T>(s: seq<T>, p: T -> bool)
    ensures |Filter(s, p)| == Count(s, p)
  {
    if s != [] { FilterIsCount(s[1..], p); }
  }

  lemma {:induction false} FilterIsSubsequence<T>(s: seq<T>, p: T -> bool)
    ensures IsSubsequence(Filter(s, p), s)
  {
    if s != [] {
      FilterIsSubsequence(s[1..], p);
      if p(s[0]) {
        assert ([s[0]] + Filter(s[1..], p))[1..] == Filter(s[1..], p);
      }
    }
  }

  /** A stricter mask keeps no more rows. */
  lemma {:induction false} CountMonotone<T>(s: seq<T>, p: T -> bool, q: T -> bool)
    requires forall x :: x in s && p(x) ==> q(x)
    ensures Count(s, p) <= Count(s, q)
  {
    if s != [] {
      assert forall x :: x in s[1..] ==> x in s;
      CountMonotone(s[1..], p, q);
    }
  }

  /** Two masks that agree on every row keep the same rows. */
  lemma {:induction false} FilterCongruent<T>(s: seq<T>, p: T -> bool, q: T -> bool)
    requires forall x :: x in s ==> p(x) == q(x)
    ensures Filter(s, p) == Filter(s, q)
  {
    if s != [] {
      assert forall x :: x in s[1..] ==> x in s;
      FilterCongruent(s[1..], p, q);
    }
  }

  /** Applying two masks one after the other is applying their conjunction. */
  lemma {:induction false} FilterFilter<T>(s: seq<T>, p: T -> bool, q: T -> bool, pq: T -> bool)
    requires forall x :: x in s ==> pq(x) == (p(x) && q(x))
    ensures Filter(Filter(s, p), q) == Filter(s, pq)
  {
    if s != [] {
      assert forall x :: x in s[1..] ==> x in s;
      FilterFilter(s[1..], p, q, pq);
    }
  }

  lemma {:induction false} SumConcat<T>(a: seq<T>, b: seq<T>, v: T -> int)
    ensures Sum(a + b, v) == Sum(a, v) + Sum(b, v)
  {
    if a == [] {
      assert a + b == b;
    } else {
      assert (a + b)[1..] == a[1..] + b;
      SumConcat(a[1..], b, v);
    }
  }

  lemma SumRemoveAt<T>(b: seq<T>, i: nat, v: T -> int)
    requires i < |b|
    ensures Sum(b, v) == v(b[i]) + Sum(b[..i] + b[i+1..], v)
  {
    assert b == b[..i] + b[i..];
    assert b[i..] == [b[i]] + b[i+1..];
    SumConcat(b[..i], b[i..], v);
    SumConcat(b[..i], b[i+1..], v);
  }

  lemma MultisetRemoveAt<T>(b: seq<T>, i: nat)
    requires i < |b|
    ensures multiset(b[..i] + b[i+1..]) == multiset(b) - multiset{b[i]}
  {
    assert b == b[..i] + [b[i]] + b[i+1..];
  }

  /** Summing does not depend on the order of the rows. */
  lemma {:induction false} SumPermutation<T>(a: seq<T>, b: seq<T>, v: T -> int)
    requires multiset(a) == multiset(b)
    ensures Sum(a, v) == Sum(b, v)
    decreases |a|
  {
    if a == [] {
      assert |b| == |multiset(b)| == 0;
    } else {
      var x := a[0];
      assert x in multiset(b);
      var i :| 0 <= i < |b| && b[i] == x;
      var b' := b[..i] + b[i+1..];
      MultisetRemoveAt(b, i);
      SumRemoveAt(b, i, v);
      assert multiset(a[1..]) == multiset(a) - multiset{x} by {
        assert a == [x] + a[1..];
      }
      SumPermutation(a[1..], b', v);
    }
  }

  /** Counting is summing a 0/1 indicator. */
  lemma {:induction false} CountIsIndicatorSum<T>(s: seq<T>, p: T -> bool, ind: T -> int)
    requires forall x :: x in s ==> ind(x) == (if p(x) then 1 else 0)
    ensures Count(s, p) == Sum(s, ind)
  {
    if s != [] {
      assert forall x :: x in s[1..] ==> x in s;
      CountIsIndicatorSum(s[1..], p, ind);
    }
  }

  /** A column whose values lie in [0, 1] sums to at most the row count
      and to at least zero. */
  lemma {:induction false} SumOfFlagsBounded<T>(s: seq<T>, v: T -> int)
    requires forall x :: x in s ==> 0 <= v(x) <= 1
    ensures 0 <= Sum(s, v) <= |s|
  {
    if s != [] {
      assert forall x :: x in s[1..] ==> x in s;
      SumOfFlagsBounded(s[1..], v);
    }
  }

  lemma {:induction false} SumNonNegative<T>(s: seq<T>, v: T -> int)
    requires forall x :: x in s ==> v(x) >= 0
    ensures Sum(s, v) >= 0
  {
    if s != [] {
      assert forall x :: x in s[1..] ==> x in s;
      SumNonNegative(s[1..], v);
    }
  }

  /** Rows satisfying `p` never outnumber rows satisfying a weaker `q`
      when summed as indicator columns, and the sum of `v` over a filtered
      table is the sum of `v` masked by `p`. */
  lemma {:induction false} SumFilter<T>(s: seq<T>, p: T -> bool, v: T -> int, masked: T -> int)
    requires forall x :: x in s ==> masked(x) == (if p(x) then v(x) else 0)
    ensures Sum(Filter(s, p), v) == Sum(s, masked)
  {
    if s != [] {
      assert forall x :: x in s[1..] ==> x in s;
      SumFilter(s[1..], p, v, masked);
    }
  }

  // ---------------------------------------------------------------------
  // Cardinality of key sets

  lemma {:induction false} ImageCons<T, K>(a: T, s: seq<T>, key: T -> K)
    ensures Image([a] + s, key) == {key(a)} + Image(s, key)
  {
    assert forall x :: x in [a] + s <==> x == a || x in s;
  }

  /** A table has at least as many rows as distinct keys. */
  lemma {:induction false} ImageBound<T, K>(s: seq<T>, key: T -> K)
    ensures |Image(s, key)| <= |s|
  {
    if s != [] {
      ImageBound(s[1..], key);
      ImageCons(s[0], s[1..], key);
      assert s == [s[0]] + s[1..];
    }
  }

  /** Keys are distinct exactly when there are as many distinct keys as rows. */
  lemma {:induction false} DistinctIffImageFull<T, K>(s: seq<T>, key: T -> K)
    ensures KeysDistinct(s, key) <==> |Image(s, key)| == |s|
  {
    if s != [] {
      var t := s[1..];
      DistinctIffImageFull(t, key);
      ImageBound(t, key);
      ImageCons(s[0], t, key);
      assert s == [s[0]] + t;
      if key(s[0]) in Image(t, key) {
        assert {key(s[0])} + Image(t, key) == Image(t, key);
        DuplicateHead(s, key);
      } else {
        assert |{key(s[0])} + Image(t, key)| == |Image(t, key)| + 1;
        if KeysDistinct(s, key) { DistinctTail(s, key); }
        if KeysDistinct(t, key) { DistinctCons(s, key); }
      }
    }
  }

  /** A first row whose key recurs later breaks distinctness. */
  lemma DuplicateHead<T, K>(s: seq<T>, key: T -> K)
    requires s != [] && key(s[0]) in Image(s[1..], key)
    ensures !KeysDistinct(s, key)
  {
    var t := s[1..];
    var y :| y in t && key(y) == key(s[0]);
    var j :| 0 <= j < |t| && t[j] == y;
    assert s[j+1] == y;
  }

  lemma DistinctTail<T, K>(s: seq<T>, key: T -> K)
    requires s != [] && KeysDistinct(s, key)
    ensures KeysDistinct(s[1..], key)
  {
    var t := s[1..];
    forall i, j | 0 <= i < j < |t| ensures key(t[i]) != key(t[j]) {
      assert t[i] == s[i+1] && t[j] == s[j+1];
    }
  }

  /** A first row with a new key in front of distinct rows keeps them distinct. */
  lemma DistinctCons<T, K>(s: seq<T>, key: T -> K)
    requires s != [] && key(s[0]) !in Image(s[1..], key) && KeysDistinct(s[1..], key)
    ensures KeysDistinct(s, key)
  {
    var t := s[1..];
    forall i, j | 0 <= i < j < |s| ensures key(s[i]) != key(s[j]) {
      if i == 0 {
        assert s[j] == t[j-1];
        assert s[j] in t;
      } else {
        assert s[i] == t[i-1] && s[j] == t[j-1];
      }
    }
  }

  /** Reordering rows keeps keys distinct. */
  lemma PermutationKeepsKeysDistinct<T, K>(a: seq<T>, b: seq<T>, key: T -> K)
    requires multiset(a) == multiset(b)
    requires KeysDistinct(a, key)
    ensures KeysDistinct(b, key)
  {
    assert |a| == |multiset(a)| == |multiset(b)| == |b|;
    assert forall x :: x in a <==> x in b by {
      forall x ensures x in a <==> x in b {
        assert x in a <==> x in multiset(a);
        assert x in b <==> x in multiset(b);
      }
    }
    assert Image(a, key) == Image(b, key);
    DistinctIffImageFull(a, key);
    DistinctIffImageFull(b, key);
  }

  // ---------------------------------------------------------------------
  // Row conversions that keep or drop rows

  /** Every row of a subsequence is a row of the table. */
  lemma {:induction false} SubsequenceMembers<T>(a: seq<T>, b: seq<T>)
    requires IsSubsequence(a, b)
    ensures forall x :: x in a ==> x in b
    decreases |b|
  {
    if a != [] {
      if a[0] == b[0] && IsSubsequence(a[1..], b[1..]) {
        SubsequenceMembers(a[1..], b[1..]);
        assert forall x :: x in a ==> x == a[0] || x in a[1..];
      } else {
        SubsequenceMembers(a, b[1..]);
      }
    }
  }

  /** Deleting rows keeps keys distinct. */
  lemma {:induction false} SubsequenceKeepsDistinct<T, K>(a: seq<T>, b: seq<T>, key: T -> K)
    requires IsSubsequence(a, b)
    requires KeysDistinct(b, key)
    ensures KeysDistinct(a, key)
    decreases |b|
  {
    if a != [] {
      assert KeysDistinct(b[1..], key) by {
        forall i, j | 0 <= i < j < |b[1..]| ensures key(b[1..][i]) != key(b[1..][j]) {
          assert b[1..][i] == b[i + 1] && b[1..][j] == b[j + 1];
        }
      }
      if a[0] == b[0] && IsSubsequence(a[1..], b[1..]) {
        SubsequenceKeepsDistinct(a[1..], b[1..], key);
        SubsequenceMembers(a[1..], b[1..]);
        forall i, j | 0 <= i < j < |a| ensures key(a[i]) != key(a[j]) {
          if i == 0 {
            assert a[j] in a[1..];
            var k :| 0 <= k < |b[1..]| && b[1..][k] == a[j];
            assert b[k + 1] == a[j];
          } else {
            assert a[i] == a[1..][i - 1] && a[j] == a[1..][j - 1];
          }
        }
      } else {
        SubsequenceKeepsDistinct(a, b[1..], key);
      }
    }
  }

  /** A conversion that keeps each row's key keeps keys distinct. */
  lemma {:induction false} FilterMapKeepsDistinct<A, B, K>(s: seq<A>, f: A -> Option<B>, ka: A -> K, kb: B -> K)
    requires forall x :: x in s && f(x).Some? ==> kb(f(x).value) == ka(x)
    requires KeysDistinct(s, ka)
    ensures KeysDistinct(FilterMap(s, f), kb)
  {
    if s != [] {
      var t := s[1..];
      assert forall x :: x in t ==> x in s;
      assert KeysDistinct(t, ka) by {
        forall i, j | 0 <= i < j < |t| ensures ka(t[i]) != ka(t[j]) {
          assert t[i] == s[i + 1] && t[j] == s[j + 1];
        }
      }
      FilterMapKeepsDistinct(t, f, ka, kb);
      var rest := FilterMap(t, f);
      if f(s[0]).Some? {
        var r := [f(s[0]).value] + rest;
        forall j | 0 <= j < |rest| ensures kb(rest[j]) != ka(s[0]) {
          assert rest[j] in rest;
          var x :| x in t && f(x) == Some(rest[j]);
          var k :| 0 <= k < |t| && t[k] == x;
          assert s[k + 1] == x;
        }
        forall i, j | 0 <= i < j < |r| ensures kb(r[i]) != kb(r[j]) {
          if i == 0 {
            assert r[j] == rest[j - 1];
          } else {
            assert r[i] == rest[i - 1] && r[j] == rest[j - 1];
          }
        }
      }
    }
  }

  /** A conversion that keeps each row's key keeps the key of each row
      it keeps. */
  lemma {:induction false} FilterMapImage<A, B, K>(s: seq<A>, f: A -> Option<B>, ka: A -> K, kb: B -> K)
    requires forall x :: x in s && f(x).Some? ==> kb(f(x).value) == ka(x)
    ensures Image(FilterMap(s, f), kb) <= Image(s, ka)
  {
    forall k | k in Image(FilterMap(s, f), kb) ensures k in Image(s, ka) {
      var y :| y in FilterMap(s, f) && kb(y) == k;
      var x :| x in s && f(x) == Some(y);
      assert ka(x) == k;
    }
  }

  /** Fewer distinct keys on a table all of whose keys occur in another. */
  lemma ImageSubsetBound<A, B, K>(a: seq<A>, ka: A -> K, b: seq<B>, kb: B -> K)
    requires Image(a, ka) <= Image(b, kb)
    ensures |Image(a, ka)| <= |b|
  {
    ImageBound(b, kb);
    assert |Image(a, ka)| <= |Image(b, kb)| by {
      SetSubsetCard(Image(a, ka), Image(b, kb));
    }
  }

  lemma {:induction false} SetSubsetCard<K>(a: set<K>, b: set<K>)
    requires a <= b
    ensures |a| <= |b|
    decreases |a|
  {
    if a != {} {
      var x :| x in a;
      SetSubsetCard(a - {x}, b - {x});
    }
  }

  /** Summing a computed column is summing the composed function. */
  lemma {:induction false} SumMap<A, B>(s: seq<A>, f: A -> B, g: B -> int, h: A -> int)
    requires forall x :: h(x) == g(f(x))
    ensures Sum(Map(s, f), g) == Sum(s, h)
  {
    if s != [] {
      SumMap(s[1..], f, g, h);
      assert Map(s, f)[1..] == Map(s[1..], f);
    }
  }

  /** A reordering of a table has the same rows. */
  lemma PermutationMembers<T>(a: seq<T>, b: seq<T>)
    requires multiset(a) == multiset(b)
    ensures forall x :: x in a <==> x in b
  {
    forall x ensures x in a <==> x in b {
      assert x in a <==> x in multiset(a);
      assert x in b <==> x in multiset(b);
    }
  }

  /** A mask every row passes keeps the table as it is. */
  lemma {:induction false} FilterAllTrue<T>(s: seq<T>, p: T -> bool)
    requires forall x :: x in s ==> p(x)
    ensures Filter(s, p) == s
  {
    if s != [] {
      assert forall x :: x in s[1..] ==> x in s;
      FilterAllTrue(s[1..], p);
    }
  }

  lemma DedupLength<T, K>(s: seq<T>, key: T -> K)
    ensures |DropDuplicates(s, key)| <= |s|
  {
    DropDuplicatesCount(s, key);
  }

  /** The first row with a given key survives keep-first de-duplication. */
  lemma FirstRowSurvives<T, K>(s: seq<T>, key: T -> K, i: nat)
    requires i < |s|
    requires forall j :: 0 <= j < i ==> key(s[j]) != key(s[i])
    ensures s[i] in DropDuplicates(s, key)
  {
    assert s[i] in s;
    assert FirstIndex(s, key, key(s[i])) == i;
    var r := DropDuplicates(s, key);
    assert key(s[i]) in Image(s, key);
    assert key(s[i]) in Image(r, key);
    var y :| y in r && key(y) == key(s[i]);
    DropDuplicatesKeepsFirst(s, key);
  }

  /** Changing nothing but non-key columns keeps keys distinct. */
  lemma MapKeepsKeysDistinct<T, K>(s: seq<T>, f: T -> T, key: T -> K)
    requires forall x :: key(f(x)) == key(x)
    requires KeysDistinct(s, key)
    ensures KeysDistinct(Map(s, f), key)
  {
    var r := Map(s, f);
    forall i, j | 0 <= i < j < |r| ensures key(r[i]) != key(r[j]) {
      assert key(r[i]) == key(s[i]) && key(r[j]) == key(s[j]);
    }
  }

  /** Filtering keeps keys distinct. */
  lemma FilterKeepsKeysDistinct<T, K>(s: seq<T>, p: T -> bool, key: T -> K)
    requires KeysDistinct(s, key)
    ensures KeysDistinct(Filter(s, p), key)
  {
    FilterIsSubsequence(s, p);
    SubsequenceKeepsDistinct(Filter(s, p), s, key);
  }

  /** No row is counted exactly when no row satisfies the mask; the count
      is at most the number of rows. */
  lemma {:induction false} CountZero<T>(s: seq<T>, p: T -> bool)
    ensures Count(s, p) <= |s|
    ensures Count(s, p) == 0 <==> forall x :: x in s ==> !p(x)
  {
    if s != [] {
      assert s[0] in s;
      assert forall x :: x in s ==> x == s[0] || x in s[1..];
      CountZero(s[1..], p);
    }
  }

  /** A mask and its complement split the rows. */
  lemma {:induction false} CountComplement<T>(s: seq<T>, p: T -> bool, q: T -> bool)
    requires forall x :: x in s ==> q(x) == !p(x)
    ensures Count(s, p) + Count(s, q) == |s|
  {
    if s != [] {
      assert s[0] in s;
      assert forall x :: x in s[1..] ==> x in s;
      CountComplement(s[1..], p, q);
    }
  }

  /** A left merge on a key: the value the first right-hand row with key
      `k` brings, None when no row has that key. */
  function Lookup<T, K(==), V>(s: seq<T>, key: T -> K, val: T -> Option<V>, k: K): (r: Option<V>)
    ensures r.Some? ==> exists x :: x in s && key(x) == k && val(x) == r
    ensures (forall x :: x in s ==> key(x) != k) ==> r.None?
  {
    if s == [] then None
    else if key(s[0]) == k then val(s[0])
    else Lookup(s[1..], key, val, k)
  }

  /** On a key that is unique on the right, the merge brings the value of
      the one row that matches. */
  lemma {:induction false} LookupUnique<T, K, V>(s: seq<T>, key: T -> K, val: T -> Option<V>, x: T)
    requires KeysDistinct(s, key)
    requires x in s
    ensures Lookup(s, key, val, key(x)) == val(x)
  {
    if key(s[0]) != key(x) {
      assert x in s[1..];
      assert KeysDistinct(s[1..], key) by {
        forall i, j | 0 <= i < j < |s[1..]| ensures key(s[1..][i]) != key(s[1..][j]) {
          assert s[1..][i] == s[i + 1] && s[1..][j] == s[j + 1];
        }
      }
      LookupUnique(s[1..], key, val, x);
    }
  }

  /** `FilterMap` keeps exactly the rows it maps to a value. */
  lemma {:induction false} FilterMapCount<A, B>(s: seq<A>, f: A -> Option<B>, p: A -> bool)
    requires forall x :: x in s ==> p(x) == f(x).Some?
    ensures |FilterMap(s, f)| == Count(s, p)
  {
    if s != [] {
      assert s[0] in s;
      assert forall x :: x in s[1..] ==> x in s;
      FilterMapCount(s[1..], f, p);
    }
  }

  /** Two successive column assignments are one. */
  lemma MapMap<A, B, C>(s: seq<A>, f: A -> B, g: B -> C, h: A -> C)
    requires forall x :: x in s ==> h(x) == g(f(x))
    ensures Map(Map(s, f), g) == Map(s, h)
  {
    var l := Map(Map(s, f), g);
    var r := Map(s, h);
    assert |l| == |r|;
    forall i | 0 <= i < |l| ensures l[i] == r[i] {
      assert s[i] in s;
    }
  }

  /** Two disjoint masks count their union. */
  lemma {:induction false} CountSplit<T>(s: seq<T>, p: T -> bool, q: T -> bool, pq: T -> bool)
    requires forall x :: x in s ==> pq(x) == (p(x) || q(x)) && !(p(x) && q(x))
    ensures Count(s, pq) == Count(s, p) + Count(s, q)
  {
    if s != [] {
      assert s[0] in s;
      assert forall x :: x in s[1..] ==> x in s;
      CountSplit(s[1..], p, q, pq);
    }
  }

  lemma {:induction false} SubsequenceRefl<T>(s: seq<T>)
    ensures IsSubsequence(s, s)
  {
    if s != [] { SubsequenceRefl(s[1..]); }
  }

  /** `q` is `k / n`. */
  predicate IsRatio(q: real, k: int, n: int) {
    q * n as real == k as real
  }

  /** `k / n` for a positive `n`; a count out of its total lies in [0, 1]. */
  function Ratio(k: int, n: int): (q: real)
    requires n > 0
    ensures IsRatio(q, k, n)
    ensures 0 <= k <= n ==> 0.0 <= q <= 1.0
  {
    RatioBounds(k, n);
    k as real / n as real
  }

  /** A count out of a positive total is a share in [0, 1]. */
  lemma RatioBounds(k: int, n: int)
    requires n > 0
    ensures 0 <= k <= n ==> 0.0 <= k as real / n as real <= 1.0
  {
    var q := k as real / n as real;
    assert q * n as real == k as real;
  }

  /** A ratio is unique. */
  lemma RatioUnique(q: real, k: int, n: int)
    requires n > 0 && IsRatio(q, k, n)
    ensures q == Ratio(k, n)
  {
    var r := Ratio(k, n);
    assert (q - r) * n as real == 0.0;
  }
}

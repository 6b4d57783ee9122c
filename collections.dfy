/**
 * Sequence operations that the database performs for the services (ORDER BY,
 * SUM, WHERE, GROUP BY) and that the frontend reducers perform on lists
 * (`findIndex`, `splice`, `filter`), with the facts the rest of the model needs.
 */
module Collections {

  // ---------------------------------------------------------------- sums

  /** The sum of `f` over the elements of `s` (SQL `COALESCE(SUM(...), 0)`). */
  function SumOf<T>(s: seq<T>, f: T -> real): real {
    if s == [] then 0.0 else f(s[0]) + SumOf(s[1..], f)
  }

  lemma {:induction false} SumOfConcat<T>(a: seq<T>, b: seq<T>, f: T -> real)
    ensures SumOf(a + b, f) == SumOf(a, f) + SumOf(b, f)
  {
    if a == [] {
      assert a + b == b;
    } else {
      SumOfConcat(a[1..], b, f);
      assert (a + b)[0] == a[0];
      assert (a + b)[1..] == a[1..] + b;
    }
  }

  /** Taking out the element at `k` takes its value out of the sum. */
  lemma SumOfRemoveAt<T>(s: seq<T>, k: nat, f: T -> real)
    requires k < |s|
    ensures SumOf(RemoveAt(s, k), f) == SumOf(s, f) - f(s[k])
  {
    RemoveAtSplit(s, k);
    assert s == s[..k] + s[k..];
    SumOfConcat(s[..k], s[k..], f);
    SumOfConcat(s[..k], s[k + 1..], f);
    assert s[k..][0] == s[k] && s[k..][1..] == s[k + 1..];
  }

  /** Replacing the element at `k` replaces its value in the sum. */
  lemma SumOfReplaceAt<T>(s: seq<T>, k: nat, x: T, f: T -> real)
    requires k < |s|
    ensures SumOf(s[k := x], f) == SumOf(s, f) - f(s[k]) + f(x)
  {
    assert s[k := x] == s[..k] + ([x] + s[k + 1..]);
    assert s == s[..k] + ([s[k]] + s[k + 1..]);
    SumOfConcat(s[..k], [x] + s[k + 1..], f);
    SumOfConcat(s[..k], [s[k]] + s[k + 1..], f);
    assert ([x] + s[k + 1..])[1..] == s[k + 1..];
    assert ([s[k]] + s[k + 1..])[1..] == s[k + 1..];
  }

  /** A sum does not depend on the order of the elements. */
  lemma {:induction false} SumOfPermutation<T>(a: seq<T>, b: seq<T>, f: T -> real)
    requires multiset(a) == multiset(b)
    ensures SumOf(a, f) == SumOf(b, f)
  {
    if a == [] {
      assert |b| == |multiset(b)| == 0;
    } else {
      assert a[0] in multiset(b);
      var k :| 0 <= k < |b| && b[k] == a[0];
      var rest := RemoveAt(b, k);
      MultisetRemoveAt(b, k);
      assert a == [a[0]] + a[1..];
      assert multiset(a[1..]) == multiset(rest) by {
        assert multiset(a) == multiset{a[0]} + multiset(a[1..]);
      }
      SumOfPermutation(a[1..], rest, f);
      SumOfRemoveAt(b, k, f);
    }
  }

  // ---------------------------------------------------------------- list edits

  /** `list.splice(k, 1)`. */
  function RemoveAt<T>(s: seq<T>, k: nat): (r: seq<T>)
    requires k < |s|
    ensures |r| == |s| - 1
    ensures forall i :: 0 <= i < k ==> r[i] == s[i]
    ensures forall i :: k <= i < |r| ==> r[i] == s[i + 1]
  {
    seq(|s| - 1, i requires 0 <= i < |s| - 1 => if i < k then s[i] else s[i + 1])
  }

  /** Removing the element at `k` is joining what comes before it with what comes after it. */
  lemma RemoveAtSplit<T>(s: seq<T>, k: nat)
    requires k < |s|
    ensures RemoveAt(s, k) == s[..k] + s[k + 1..]
  {
    var r, t := RemoveAt(s, k), s[..k] + s[k + 1..];
    assert |r| == |t|;
    forall i | 0 <= i < |r|
      ensures r[i] == t[i]
    {
      if i < k {
        assert t[i] == s[..k][i];
      } else {
        assert t[i] == s[k + 1..][i - k];
      }
    }
  }

  /** Removing the element at `k` takes one occurrence of it out of the multiset. */
  lemma MultisetRemoveAt<T>(s: seq<T>, k: nat)
    requires k < |s|
    ensures multiset(RemoveAt(s, k)) == multiset(s) - multiset{s[k]}
  {
    RemoveAtSplit(s, k);
    assert s == s[..k] + [s[k]] + s[k + 1..];
  }

  /** `list.findIndex(p)`: the first position whose element satisfies `p`, or -1. */
  function FindIndex<T>(s: seq<T>, p: T -> bool): (i: int)
    ensures -1 <= i < |s|
    ensures i >= 0 ==> p(s[i]) && forall k :: 0 <= k < i ==> !p(s[k])
    ensures i == -1 <==> forall k :: 0 <= k < |s| ==> !p(s[k])
  {
    FindFrom(s, p, 0)
  }

  /** The first position at or after `from` whose element satisfies `p`, or -1. */
  function FindFrom<T>(s: seq<T>, p: T -> bool, from: nat): (i: int)
    requires from <= |s|
    ensures -1 <= i < |s|
    ensures i >= 0 ==> from <= i && p(s[i]) && forall k :: from <= k < i ==> !p(s[k])
    ensures i == -1 <==> forall k :: from <= k < |s| ==> !p(s[k])
    decreases |s| - from
  {
    if from == |s| then -1
    else if p(s[from]) then from
    else FindFrom(s, p, from + 1)
  }

  /** `list.filter(p)`: the elements satisfying `p`, in their original order. */
  function Filter<T>(s: seq<T>, p: T -> bool): (r: seq<T>)
    ensures |r| <= |s|
    ensures forall x :: x in r ==> x in s && p(x)
    ensures forall x :: x in s && p(x) ==> x in r
  {
    if s == [] then [] else (if p(s[0]) then [s[0]] else []) + Filter(s[1..], p)
  }

  /** Filtering keeps the relative order: the result is a subsequence of the input. */
  lemma {:induction false} FilterSubsequence<T>(s: seq<T>, p: T -> bool, i: nat, j: nat)
    requires i < j < |Filter(s, p)|
    ensures exists a, b :: 0 <= a < b < |s| && s[a] == Filter(s, p)[i] && s[b] == Filter(s, p)[j]
  {
    var head := if p(s[0]) then [s[0]] else [];
    var tail := Filter(s[1..], p);
    var f := Filter(s, p);
    assert f == head + tail;
    if head == [] {
      assert f[i] == tail[i] && f[j] == tail[j];
      FilterSubsequence(s[1..], p, i, j);
      var a, b :| 0 <= a < b < |s[1..]| && s[1..][a] == tail[i] && s[1..][b] == tail[j];
      assert s[a + 1] == f[i] && s[b + 1] == f[j];
    } else if i == 0 {
      assert f[0] == s[0] && f[j] == tail[j - 1];
      assert tail[j - 1] in s[1..];
      var b :| 0 <= b < |s[1..]| && s[1..][b] == tail[j - 1];
      assert s[b + 1] == f[j];
    } else {
      assert f[i] == tail[i - 1] && f[j] == tail[j - 1];
      FilterSubsequence(s[1..], p, i - 1, j - 1);
      var a, b :| 0 <= a < b < |s[1..]| && s[1..][a] == tail[i - 1] && s[1..][b] == tail[j - 1];
      assert s[a + 1] == f[i] && s[b + 1] == f[j];
    }
  }

  // ---------------------------------------------------------------- ordering

  /** `a` may come before `b` when ordering by `key`, descending or ascending. */
  predicate InOrder<T>(key: T -> real, descending: bool, a: T, b: T) {
    if descending then key(a) >= key(b) else key(a) <= key(b)
  }

  predicate Sorted<T>(s: seq<T>, key: T -> real, descending: bool) {
    forall i, j :: 0 <= i < j < |s| ==> InOrder(key, descending, s[i], s[j])
  }

  function Insert<T>(x: T, s: seq<T>, key: T -> real, descending: bool): (r: seq<T>)
    requires Sorted(s, key, descending)
    ensures Sorted(r, key, descending)
    ensures multiset(r) == multiset(s) + multiset{x}
    ensures forall k :: 0 <= k < |r| ==> r[k] == x || r[k] in s
    decreases |s|, 1
  {
    if s == [] || InOrder(key, descending, x, s[0]) then
      assert forall k :: 0 <= k < |s| ==> InOrder(key, descending, x, s[k]) by {
        forall k | 0 < k < |s|
          ensures InOrder(key, descending, x, s[k])
        {
          assert InOrder(key, descending, s[0], s[k]);
        }
      }
      SortedCons(x, s, key, descending);
      [x] + s
    else
      InsertBehindHead(x, s, key, descending);
      [s[0]] + Insert(x, s[1..], key, descending)
  }

  /**
   * When `x` may not come before the head, inserting it behind the head keeps
   * the list sorted and adds exactly `x`.
   */
  lemma InsertBehindHead<T>(x: T, s: seq<T>, key: T -> real, descending: bool)
    requires Sorted(s, key, descending) && s != [] && !InOrder(key, descending, x, s[0])
    ensures Sorted(s[1..], key, descending)
    ensures var r := [s[0]] + Insert(x, s[1..], key, descending);
      && Sorted(r, key, descending)
      && multiset(r) == multiset(s) + multiset{x}
      && forall k :: 0 <= k < |r| ==> r[k] == x || r[k] in s
    decreases |s|, 0
  {
    SortedTail(s, key, descending);
    var tail := Insert(x, s[1..], key, descending);
    HeadBeforeInserted(x, s, tail, key, descending);
    SortedCons(s[0], tail, key, descending);
    var r := [s[0]] + tail;
    assert s == [s[0]] + s[1..];
    assert forall k :: 0 < k < |r| ==> r[k] == tail[k - 1];
  }

  /** Dropping the head of a sorted list leaves it sorted. */
  lemma SortedTail<T>(s: seq<T>, key: T -> real, descending: bool)
    requires Sorted(s, key, descending) && s != []
    ensures Sorted(s[1..], key, descending)
  {
    forall i, j | 0 <= i < j < |s| - 1
      ensures InOrder(key, descending, s[1..][i], s[1..][j])
    {
      assert s[1..][i] == s[i + 1] && s[1..][j] == s[j + 1];
    }
  }

  /** The head of a sorted list may come before `x` and before every element after it. */
  lemma HeadBeforeInserted<T>(x: T, s: seq<T>, tail: seq<T>, key: T -> real, descending: bool)
    requires Sorted(s, key, descending) && s != [] && !InOrder(key, descending, x, s[0])
    requires forall k :: 0 <= k < |tail| ==> tail[k] == x || tail[k] in s[1..]
    ensures forall k :: 0 <= k < |tail| ==> InOrder(key, descending, s[0], tail[k])
  {
    forall k | 0 <= k < |tail|
      ensures InOrder(key, descending, s[0], tail[k])
    {
      if tail[k] != x {
        var j :| 0 <= j < |s[1..]| && s[1..][j] == tail[k];
        assert s[j + 1] == tail[k];
      }
    }
  }

  /** Putting in front an element that may come before every other keeps a sorted list sorted. */
  lemma SortedCons<T>(x: T, s: seq<T>, key: T -> real, descending: bool)
    requires Sorted(s, key, descending)
    requires forall k :: 0 <= k < |s| ==> InOrder(key, descending, x, s[k])
    ensures Sorted([x] + s, key, descending)
  {
    var r := [x] + s;
    forall i, j | 0 <= i < j < |r|
      ensures InOrder(key, descending, r[i], r[j])
    {
      assert r[j] == s[j - 1];
      if i > 0 {
        assert r[i] == s[i - 1];
      }
    }
  }

  /** ORDER BY `key`: a sorted permutation of the input (ties in no promised order). */
  function Sort<T>(s: seq<T>, key: T -> real, descending: bool): (r: seq<T>)
    ensures Sorted(r, key, descending)
    ensures multiset(r) == multiset(s)
  {
    if s == [] then []
    else
      assert s == [s[0]] + s[1..];
      Insert(s[0], Sort(s[1..], key, descending), key, descending)
  }

  // ---------------------------------------------------------------- grouping

  /** One GROUP BY row: the group's key, its row count and the sum of its amounts. */
  datatype Bucket<K> = Bucket(key: K, count: nat, total: real)

  ghost function Count<T, K>(s: seq<T>, key: T -> K, k: K): nat {
    if s == [] then 0 else (if key(s[0]) == k then 1 else 0) + Count(s[1..], key, k)
  }

  ghost function SumWhere<T, K>(s: seq<T>, key: T -> K, amount: T -> real, k: K): real {
    if s == [] then 0.0 else (if key(s[0]) == k then amount(s[0]) else 0.0) + SumWhere(s[1..], key, amount, k)
  }

  ghost predicate DistinctKeys<K>(g: seq<Bucket<K>>) {
    forall i, j :: 0 <= i < j < |g| ==> g[i].key != g[j].key
  }

  ghost predicate HasKey<K>(g: seq<Bucket<K>>, k: K) {
    exists i :: 0 <= i < |g| && g[i].key == k
  }

  /** Whether a bucket is the one for key `k`. */
  function KeyIs<K(==)>(k: K): Bucket<K> -> bool {
    (b: Bucket<K>) => b.key == k
  }

  /**
   * Counts one more row with key `k` and amount `a`: the bucket for `k` is
   * updated in place, or a new one is added after the others.
   */
  function AddTo<K(==,!new)>(g: seq<Bucket<K>>, k: K, a: real): (r: seq<Bucket<K>>)
    requires DistinctKeys(g)
    ensures DistinctKeys(r)
    ensures |g| <= |r| && forall i :: 0 <= i < |g| ==> r[i].key == g[i].key
    ensures forall i :: 0 <= i < |r| ==> r[i].count >= 1 || (i < |g| && r[i] == g[i])
    ensures forall k' :: HasKey(r, k') <==> HasKey(g, k') || k' == k
    ensures forall i :: 0 <= i < |r| && r[i].key != k ==> i < |g| && r[i] == g[i]
    ensures forall i :: 0 <= i < |r| && r[i].key == k ==>
      (if i < |g| then r[i] == Bucket(k, g[i].count + 1, g[i].total + a) else !HasKey(g, k) && r[i] == Bucket(k, 1, a))
  {
    var j := FindIndex(g, KeyIs(k));
    if j < 0 then
      var r := g + [Bucket(k, 1, a)];
      assert forall i :: 0 <= i < |g| ==> r[i] == g[i] && g[i].key != k;
      assert r[|g|].key == k;
      assert forall k' :: HasKey(r, k') ==> HasKey(g, k') || k' == k by {
        forall k' | HasKey(r, k')
          ensures HasKey(g, k') || k' == k
        {
          var i :| 0 <= i < |r| && r[i].key == k';
          if i < |g| {
            assert g[i].key == k';
          }
        }
      }
      r
    else
      var r := g[j := Bucket(k, g[j].count + 1, g[j].total + a)];
      assert g[j].key == k;
      assert forall i :: 0 <= i < |g| && i != j ==> r[i] == g[i] && g[i].key != k;
      r
  }

  /** Every bucket has at least one row, and every key of the input has a bucket. */
  ghost predicate GroupsCover<T(!new), K(!new)>(s: seq<T>, key: T -> K, g: seq<Bucket<K>>) {
    && (forall i :: 0 <= i < |g| ==> g[i].count >= 1)
    && (forall k :: HasKey(g, k) <==> exists x :: x in s && key(x) == k)
  }

  /** GROUP BY `key` with COUNT and SUM of `amount`: one bucket per distinct key. */
  function GroupBy<T(!new), K(==,!new)>(s: seq<T>, key: T -> K, amount: T -> real): (g: seq<Bucket<K>>)
    ensures DistinctKeys(g)
  {
    if s == [] then [] else AddTo(GroupBy(s[1..], key, amount), key(s[0]), amount(s[0]))
  }

  /** The buckets are exactly the keys occurring in `s`, none of them empty. */
  lemma {:induction false} GroupByCover<T(!new), K(!new)>(s: seq<T>, key: T -> K, amount: T -> real)
    ensures GroupsCover(s, key, GroupBy(s, key, amount))
  {
    if s != [] {
      GroupByCover(s[1..], key, amount);
      assert forall x :: x in s <==> x == s[0] || x in s[1..];
    }
  }

  /** Each bucket counts exactly the rows with its key and sums exactly their amounts. */
  lemma {:induction false} GroupByCounts<T(!new), K(!new)>(s: seq<T>, key: T -> K, amount: T -> real)
    ensures forall i :: 0 <= i < |GroupBy(s, key, amount)| ==>
      var b := GroupBy(s, key, amount)[i];
      b.count == Count(s, key, b.key) && b.total == SumWhere(s, key, amount, b.key)
  {
    if s != [] {
      var rest := GroupBy(s[1..], key, amount);
      var g := GroupBy(s, key, amount);
      GroupByCounts(s[1..], key, amount);
      GroupByCover(s[1..], key, amount);
      forall i | 0 <= i < |g|
        ensures g[i].count == Count(s, key, g[i].key) && g[i].total == SumWhere(s, key, amount, g[i].key)
      {
        var k := g[i].key;
        if k != key(s[0]) {
          assert i < |rest| && g[i] == rest[i];
        } else if i < |rest| {
          assert g[i] == Bucket(k, rest[i].count + 1, rest[i].total + amount(s[0]));
        } else {
          AbsentKey(s[1..], key, amount, rest, k);
        }
      }
    }
  }

  /** A key without a bucket occurs in no row. */
  lemma AbsentKey<T(!new), K(!new)>(s: seq<T>, key: T -> K, amount: T -> real, g: seq<Bucket<K>>, k: K)
    requires GroupsCover(s, key, g)
    requires !HasKey(g, k)
    ensures Count(s, key, k) == 0 && SumWhere(s, key, amount, k) == 0.0
  {
    NoOccurrence(s, key, amount, k);
  }

  lemma {:induction false} NoOccurrence<T, K>(s: seq<T>, key: T -> K, amount: T -> real, k: K)
    requires forall x :: x in s ==> key(x) != k
    ensures Count(s, key, k) == 0 && SumWhere(s, key, amount, k) == 0.0
  {
    if s != [] {
      assert s[0] in s;
      NoOccurrence(s[1..], key, amount, k);
    }
  }

  function BucketCount<K>(b: Bucket<K>): real { b.count as real }

  function BucketTotal<K>(b: Bucket<K>): real { b.total }

  /** The sum of the counts of the buckets. */
  function CountOf<K>(g: seq<Bucket<K>>): real {
    SumOf(g, BucketCount)
  }

  /** The sum of the totals of the buckets. */
  function TotalOf<K>(g: seq<Bucket<K>>): real {
    SumOf(g, BucketTotal)
  }

  lemma AddToSums<K(!new)>(g: seq<Bucket<K>>, k: K, a: real)
    requires DistinctKeys(g)
    ensures CountOf(AddTo(g, k, a)) == CountOf(g) + 1.0
    ensures TotalOf(AddTo(g, k, a)) == TotalOf(g) + a
  {
    var j := FindIndex(g, KeyIs(k));
    if j < 0 {
      var b := Bucket(k, 1, a);
      assert [b][1..] == [];
      SumOfConcat(g, [b], BucketCount);
      SumOfConcat(g, [b], BucketTotal);
    } else {
      var b := Bucket(k, g[j].count + 1, g[j].total + a);
      SumOfReplaceAt(g, j, b, BucketCount);
      SumOfReplaceAt(g, j, b, BucketTotal);
    }
  }

  /** Each row falls into exactly one group: the counts add up to the number of rows and the totals to the overall sum. */
  lemma {:induction false} GroupBySums<T(!new), K(!new)>(s: seq<T>, key: T -> K, amount: T -> real)
    ensures CountOf(GroupBy(s, key, amount)) == |s| as real
    ensures TotalOf(GroupBy(s, key, amount)) == SumOf(s, amount)
  {
    if s != [] {
      GroupBySums(s[1..], key, amount);
      AddToSums(GroupBy(s[1..], key, amount), key(s[0]), amount(s[0]));
    }
  }

  /** Buckets with distinct keys hold no bucket twice. */
  lemma {:induction false} DistinctKeysSingle<K>(g: seq<Bucket<K>>)
    requires DistinctKeys(g)
    ensures forall b :: multiset(g)[b] <= 1
  {
    if g != [] {
      DistinctKeysSingle(g[1..]);
      assert g == [g[0]] + g[1..];
      forall j | 0 <= j < |g[1..]|
        ensures g[1..][j] != g[0]
      {
        assert g[1..][j] == g[j + 1] && g[j + 1].key != g[0].key;
      }
    }
  }

  /** An element at two positions occurs twice. */
  lemma TwiceAt<T>(s: seq<T>, i: nat, j: nat)
    requires i < j < |s| && s[i] == s[j]
    ensures multiset(s)[s[i]] >= 2
  {
    assert s == s[..j] + s[j..];
    assert s[i] in s[..j] && s[j] in s[j..];
  }

  /** A reordering of buckets with distinct keys still has distinct keys. */
  lemma DistinctKeysReordered<K>(a: seq<Bucket<K>>, b: seq<Bucket<K>>)
    requires multiset(a) == multiset(b) && DistinctKeys(a)
    ensures DistinctKeys(b)
  {
    DistinctKeysSingle(a);
    forall i, j | 0 <= i < j < |b|
      ensures b[i].key != b[j].key
    {
      assert b[i] in multiset(a) && b[j] in multiset(a);
      var p :| 0 <= p < |a| && a[p] == b[i];
      var q :| 0 <= q < |a| && a[q] == b[j];
      if p == q {
        TwiceAt(b, i, j);
        assert false;
      }
    }
  }

  /**
   * The groups in any order: one bucket per key occurring in `s`, each
   * counting and summing exactly the rows with its key, so that the counts
   * add up to the number of rows and the totals to the overall sum.
   */
  lemma ReorderedGroups<T(!new), K(!new)>(s: seq<T>, key: T -> K, amount: T -> real, r: seq<Bucket<K>>)
    requires multiset(r) == multiset(GroupBy(s, key, amount))
    ensures DistinctKeys(r)
    ensures forall b :: b in r ==>
      b.count >= 1 && b.count == Count(s, key, b.key) && b.total == SumWhere(s, key, amount, b.key)
    ensures forall x :: x in s ==> HasKey(r, key(x))
    ensures CountOf(r) == |s| as real && TotalOf(r) == SumOf(s, amount)
  {
    var g := GroupBy(s, key, amount);
    DistinctKeysReordered(g, r);
    GroupByCover(s, key, amount);
    GroupByCounts(s, key, amount);
    forall b | b in r
      ensures b.count >= 1 && b.count == Count(s, key, b.key) && b.total == SumWhere(s, key, amount, b.key)
    {
      assert b in multiset(g);
      var i :| 0 <= i < |g| && g[i] == b;
    }
    forall x | x in s
      ensures HasKey(r, key(x))
    {
      assert HasKey(g, key(x));
      var i :| 0 <= i < |g| && g[i].key == key(x);
      assert g[i] in multiset(r);
      var j :| 0 <= j < |r| && r[j] == g[i];
    }
    GroupBySums(s, key, amount);
    SumOfPermutation(g, r, BucketCount);
    SumOfPermutation(g, r, BucketTotal);
  }
}

/**
  * `Array.prototype.sort` with a comparator `(a, b) => key(a).localeCompare(key(b))`.
  * The ECMAScript sort is stable, and with a total preorder as comparator its result is
  * determined: the elements ordered by key, equal keys in their original order. The model
  * computes that result by insertion sort.
  */
module Sorting {
  import opened Strings
  import opened Seqs

  /** Keys never decrease along `s`. */
  predicate SortedBy<T>(s: seq<T>, key: T -> string)
  {
    forall i, j :: 0 <= i < j < |s| ==> NotAfter(key(s[i]), key(s[j]))
  }

  /** Places `x` after every element whose key is not greater than its own. */
  function Insert<T>(x: T, s: seq<T>, key: T -> string): (r: seq<T>)
    ensures |r| == |s| + 1
    ensures multiset(r) == multiset(s) + multiset{x}
  {
    if s == [] then [x]
    else if Less(key(x), key(s[0])) then [x] + s
    else
      assert s == [s[0]] + s[1..];
      [s[0]] + Insert(x, s[1..], key)
  }

  /** The stable sort of `s` by `key`. */
  function SortBy<T>(s: seq<T>, key: T -> string): (r: seq<T>)
    ensures |r| == |s|
    ensures multiset(r) == multiset(s)
    ensures SortedBy(r, key)
  {
    if s == [] then []
    else
      assert s == s[..|s| - 1] + [s[|s| - 1]];
      var sorted := SortBy(s[..|s| - 1], key);
      InsertSorted(s[|s| - 1], sorted, key);
      Insert(s[|s| - 1], sorted, key)
  }
  /** Filtering keeps a sorted sequence sorted. */
  lemma {:induction false} FilterSorted<T>(s: seq<T>, f: T -> bool, key: T -> string)
    requires SortedBy(s, key)
    ensures SortedBy(Filter(s, f), key)
  {
    if s != [] {
      var init, x := s[..|s| - 1], s[|s| - 1];
      FilterSorted(init, f, key);
      FilterMultiset(init, f);
      var a := Filter(init, f);
      if f(x) {
        forall i, j | 0 <= i < j < |a + [x]|
          ensures NotAfter(key((a + [x])[i]), key((a + [x])[j]))
        {
          if j == |a| {
            var y := a[i];
            assert y in multiset(a);
            assert y in multiset(init);
            var k :| 0 <= k < |init| && init[k] == y;
            assert s[k] == y;
          } else {
            assert (a + [x])[i] == a[i] && (a + [x])[j] == a[j];
          }
        }
      }
    }
  }


  lemma {:induction false} InsertSorted<T>(x: T, s: seq<T>, key: T -> string)
    requires SortedBy(s, key)
    ensures SortedBy(Insert(x, s, key), key)
  {
    if s != [] && Less(key(x), key(s[0])) {
      forall j | 0 <= j < |s|
        ensures NotAfter(key(x), key(s[j]))
      {
        LessAsymmetric(key(x), key(s[0]));
        if j > 0 {
          NotAfterTransitive(key(x), key(s[0]), key(s[j]));
        }
      }
      ConsSorted(x, s, key);
    } else if s != [] {
      var rest := Insert(x, s[1..], key);
      InsertSorted(x, s[1..], key);
      forall j | 0 <= j < |rest|
        ensures NotAfter(key(s[0]), key(rest[j]))
      {
        assert rest[j] in multiset(rest);
        if rest[j] != x {
          assert rest[j] in s[1..];
        }
      }
      ConsSorted(s[0], rest, key);
    }
  }

  /** A head not above any element of a sorted tail gives a sorted sequence. */
  lemma ConsSorted<T>(y: T, rest: seq<T>, key: T -> string)
    requires SortedBy(rest, key)
    requires forall j :: 0 <= j < |rest| ==> NotAfter(key(y), key(rest[j]))
    ensures SortedBy([y] + rest, key)
  {
    var r := [y] + rest;
    forall i, j | 0 <= i < j < |r|
      ensures NotAfter(key(r[i]), key(r[j]))
    {
      assert r[j] == rest[j - 1];
      if i > 0 {
        assert r[i] == rest[i - 1];
      }
    }
  }

  /** Inserting an element whose key is not smaller than any other appends it. */
  lemma {:induction false} InsertAtEnd<T>(x: T, s: seq<T>, key: T -> string)
    requires forall i :: 0 <= i < |s| ==> NotAfter(key(s[i]), key(x))
    ensures Insert(x, s, key) == s + [x]
  {
    if s != [] {
      InsertAtEnd(x, s[1..], key);
      assert s == [s[0]] + s[1..];
    }
  }

  /** Sorting what is already sorted changes nothing. */
  lemma {:induction false} SortBySorted<T>(s: seq<T>, key: T -> string)
    requires SortedBy(s, key)
    ensures SortBy(s, key) == s
  {
    if s != [] {
      var prefix, last := s[..|s| - 1], s[|s| - 1];
      SortedPrefix(s, key);
      SortBySorted(prefix, key);
      InsertAtEnd(last, prefix, key);
      SortBySnoc(s, key);
      SnocSplit(s);
    }
  }

  /** The sort of a non-empty sequence inserts its last element into the sort of the rest. */
  lemma SortBySnoc<T>(s: seq<T>, key: T -> string)
    requires s != []
    ensures SortBy(s, key) == Insert(s[|s| - 1], SortBy(s[..|s| - 1], key), key)
  {
  }

  /** The prefix of a sorted sequence is sorted, and no key in it is above the last one. */
  lemma SortedPrefix<T>(s: seq<T>, key: T -> string)
    requires s != [] && SortedBy(s, key)
    ensures SortedBy(s[..|s| - 1], key)
    ensures forall i :: 0 <= i < |s| - 1 ==> NotAfter(key(s[i]), key(s[|s| - 1]))
  {
    var prefix := s[..|s| - 1];
    forall i, j | 0 <= i < j < |prefix|
      ensures NotAfter(key(prefix[i]), key(prefix[j]))
    {
      assert prefix[i] == s[i] && prefix[j] == s[j];
    }
  }

  function HasKey<T>(key: T -> string, k: string): T -> bool
  {
    y => key(y) == k
  }

  /** The elements of `s` whose key is `k`, in order. */
  function WithKey<T>(s: seq<T>, key: T -> string, k: string): seq<T>
  {
    Filter(s, HasKey(key, k))
  }

  lemma WithKeyConcat<T>(a: seq<T>, b: seq<T>, key: T -> string, k: string)
    ensures WithKey(a + b, key, k) == WithKey(a, key, k) + WithKey(b, key, k)
  {
    FilterConcat(a, b, HasKey(key, k));
  }

  lemma WithKeySingle<T>(x: T, key: T -> string, k: string)
    ensures WithKey([x], key, k) == if key(x) == k then [x] else []
  {
    assert [x][..0] == [];
  }

  lemma SortedTail<T>(s: seq<T>, key: T -> string)
    requires s != [] && SortedBy(s, key)
    ensures SortedBy(s[1..], key)
  {
    var tail := s[1..];
    forall i, j | 0 <= i < j < |tail|
      ensures NotAfter(key(tail[i]), key(tail[j]))
    {
      assert tail[i] == s[i + 1] && tail[j] == s[j + 1];
    }
  }

  /** In a sorted sequence that starts above `k`, no element has key `k`. */
  lemma WithKeyAbove<T>(s: seq<T>, key: T -> string, k: string)
    requires s != [] && SortedBy(s, key) && Less(k, key(s[0]))
    ensures WithKey(s, key, k) == []
  {
    forall i | 0 <= i < |s|
      ensures !HasKey(key, k)(s[i])
    {
      if i == 0 {
        LessIrreflexive(k);
      }
    }
    FilterDropsAll(s, HasKey(key, k));
  }

  lemma {:induction false} InsertWithKey<T>(x: T, s: seq<T>, key: T -> string, k: string)
    requires SortedBy(s, key)
    ensures WithKey(Insert(x, s, key), key, k) == WithKey(s, key, k) + WithKey([x], key, k)
  {
    if s == [] {
      assert WithKey(s, key, k) == [];
      assert Insert(x, s, key) == [] + [x];
    } else if Less(key(x), key(s[0])) {
      assert Insert(x, s, key) == [x] + s;
      WithKeyConcat([x], s, key, k);
      WithKeySingle(x, key, k);
      if key(x) == k {
        WithKeyAbove(s, key, k);
      }
    } else {
      var tail := s[1..];
      SortedTail(s, key);
      var inserted := Insert(x, tail, key);
      calc {
        WithKey(Insert(x, s, key), key, k);
        WithKey([s[0]] + inserted, key, k);
        { WithKeyConcat([s[0]], inserted, key, k); }
        WithKey([s[0]], key, k) + WithKey(inserted, key, k);
        { InsertWithKey(x, tail, key, k);
          ConcatAssoc(WithKey([s[0]], key, k), WithKey(tail, key, k), WithKey([x], key, k)); }
        WithKey([s[0]], key, k) + WithKey(tail, key, k) + WithKey([x], key, k);
        { WithKeyConcat([s[0]], tail, key, k); assert s == [s[0]] + tail; }
        WithKey(s, key, k) + WithKey([x], key, k);
      }
    }
  }

  /** Stability: among equal keys the sort keeps the original order. */
  lemma {:induction false} SortByStable<T>(s: seq<T>, key: T -> string, k: string)
    ensures WithKey(SortBy(s, key), key, k) == WithKey(s, key, k)
  {
    if s != [] {
      var prefix, last := s[..|s| - 1], s[|s| - 1];
      SortByStable(prefix, key, k);
      SortBySnoc(s, key);
      InsertWithKey(last, SortBy(prefix, key), key, k);
      SnocSplit(s);
      WithKeyConcat(prefix, [last], key, k);
    }
  }

  // ------------------------------------------------ sort by a numeric key
  // `Array.prototype.sort` with a comparator `(a, b) => key(a) - key(b)`.

  predicate SortedByInt<T>(s: seq<T>, key: T -> int)
  {
    forall i, j :: 0 <= i < j < |s| ==> key(s[i]) <= key(s[j])
  }

  predicate StrictlyIncreasing<T>(s: seq<T>, key: T -> int)
  {
    forall i, j :: 0 <= i < j < |s| ==> key(s[i]) < key(s[j])
  }

  predicate DistinctKeys<T>(s: seq<T>, key: T -> int)
  {
    forall i, j :: 0 <= i < j < |s| ==> key(s[i]) != key(s[j])
  }

  function InsertByInt<T>(x: T, s: seq<T>, key: T -> int): (r: seq<T>)
    ensures |r| == |s| + 1
    ensures multiset(r) == multiset(s) + multiset{x}
  {
    if s == [] then [x]
    else if key(x) < key(s[0]) then [x] + s
    else
      assert s == [s[0]] + s[1..];
      [s[0]] + InsertByInt(x, s[1..], key)
  }

  function SortByInt<T>(s: seq<T>, key: T -> int): (r: seq<T>)
    ensures |r| == |s|
    ensures multiset(r) == multiset(s)
    ensures SortedByInt(r, key)
  {
    if s == [] then []
    else
      assert s == s[..|s| - 1] + [s[|s| - 1]];
      var sorted := SortByInt(s[..|s| - 1], key);
      InsertByIntSorted(s[|s| - 1], sorted, key);
      InsertByInt(s[|s| - 1], sorted, key)
  }

  lemma {:induction false} InsertByIntSorted<T>(x: T, s: seq<T>, key: T -> int)
    requires SortedByInt(s, key)
    ensures SortedByInt(InsertByInt(x, s, key), key)
  {
    if s != [] && key(x) < key(s[0]) {
      ConsSortedInt(x, s, key);
    } else if s != [] {
      var rest := InsertByInt(x, s[1..], key);
      InsertByIntSorted(x, s[1..], key);
      forall j | 0 <= j < |rest|
        ensures key(s[0]) <= key(rest[j])
      {
        assert rest[j] in multiset(rest);
        if rest[j] != x {
          assert rest[j] in s[1..];
        }
      }
      ConsSortedInt(s[0], rest, key);
    }
  }

  /** A head not above any element of a sorted tail gives a sorted sequence. */
  lemma ConsSortedInt<T>(y: T, rest: seq<T>, key: T -> int)
    requires SortedByInt(rest, key)
    requires forall j :: 0 <= j < |rest| ==> key(y) <= key(rest[j])
    ensures SortedByInt([y] + rest, key)
  {
    var r := [y] + rest;
    forall i, j | 0 <= i < j < |r|
      ensures key(r[i]) <= key(r[j])
    {
      assert r[j] == rest[j - 1];
      if i > 0 {
        assert r[i] == rest[i - 1];
      }
    }
  }

  /** A head below every element of a strictly increasing tail keeps it strictly increasing. */
  lemma ConsStrict<T>(y: T, rest: seq<T>, key: T -> int)
    requires StrictlyIncreasing(rest, key)
    requires forall j :: 0 <= j < |rest| ==> key(y) < key(rest[j])
    ensures StrictlyIncreasing([y] + rest, key)
  {
    var r := [y] + rest;
    forall i, j | 0 <= i < j < |r|
      ensures key(r[i]) < key(r[j])
    {
      assert r[j] == rest[j - 1];
      if i > 0 {
        assert r[i] == rest[i - 1];
      }
    }
  }

  /** With keys that are pairwise distinct the sorted order is strictly increasing. */
  lemma {:induction false} SortByIntStrict<T>(s: seq<T>, key: T -> int)
    requires DistinctKeys(s, key)
    ensures StrictlyIncreasing(SortByInt(s, key), key)
  {
    if s != [] {
      var prefix, x := s[..|s| - 1], s[|s| - 1];
      var sorted := SortByInt(prefix, key);
      SortByIntStrict(prefix, key);
      forall i | 0 <= i < |sorted|
        ensures key(sorted[i]) != key(x)
      {
        assert sorted[i] in multiset(prefix);
        var k :| 0 <= k < |prefix| && prefix[k] == sorted[i];
        assert s[k] == sorted[i];
      }
      InsertByIntStrict(x, sorted, key);
    }
  }

  lemma {:induction false} InsertByIntStrict<T>(x: T, s: seq<T>, key: T -> int)
    requires StrictlyIncreasing(s, key)
    requires forall i :: 0 <= i < |s| ==> key(s[i]) != key(x)
    ensures StrictlyIncreasing(InsertByInt(x, s, key), key)
  {
    if s != [] && key(x) < key(s[0]) {
      ConsStrict(x, s, key);
    } else if s != [] {
      var rest := InsertByInt(x, s[1..], key);
      InsertByIntStrict(x, s[1..], key);
      forall j | 0 <= j < |rest|
        ensures key(s[0]) < key(rest[j])
      {
        assert rest[j] in multiset(rest);
        if rest[j] != x {
          assert rest[j] in s[1..];
        }
      }
      ConsStrict(s[0], rest, key);
    }
  }

  /** Sorting commutes with a map that carries the key along. */
  lemma {:induction false} SortByIntMap<T, U>(s: seq<T>, f: T -> U, k1: T -> int, k2: U -> int)
    requires forall x :: k2(f(x)) == k1(x)
    ensures SortByInt(Map(s, f), k2) == Map(SortByInt(s, k1), f)
  {
    if s != [] {
      var prefix := s[..|s| - 1];
      assert Map(s, f)[..|s| - 1] == Map(prefix, f);
      SortByIntMap(prefix, f, k1, k2);
      InsertByIntMap(s[|s| - 1], SortByInt(prefix, k1), f, k1, k2);
    }
  }

  lemma {:induction false} InsertByIntMap<T, U>(x: T, s: seq<T>, f: T -> U, k1: T -> int, k2: U -> int)
    requires forall x :: k2(f(x)) == k1(x)
    ensures InsertByInt(f(x), Map(s, f), k2) == Map(InsertByInt(x, s, k1), f)
  {
    if s != [] {
      assert Map(s, f)[1..] == Map(s[1..], f);
      InsertByIntMap(x, s[1..], f, k1, k2);
    }
  }

  lemma FirstIsLeast(a: seq<int>)
    requires a != [] && StrictlyIncreasing(a, Id)
    ensures forall x :: x in a ==> a[0] <= x
  {
    forall x | x in a
      ensures a[0] <= x
    {
      var i :| 0 <= i < |a| && a[i] == x;
      assert i == 0 || Id(a[0]) < Id(a[i]);
    }
  }

  lemma NonEmptyShared(a: seq<int>, b: seq<int>)
    requires forall x :: x in a <==> x in b
    ensures a != [] ==> b != []
  {
    if a != [] {
      var x := a[0];
      assert x in a;
      assert x in b;
    }
  }

  lemma StrictTail(a: seq<int>)
    requires a != [] && StrictlyIncreasing(a, Id)
    ensures StrictlyIncreasing(a[1..], Id)
    ensures forall x :: x in a[1..] <==> x in a && x != a[0]
  {
    forall i, j | 0 <= i < j < |a[1..]|
      ensures Id(a[1..][i]) < Id(a[1..][j])
    {
      assert a[1..][i] == a[i + 1] && a[1..][j] == a[j + 1];
    }
    forall x | x in a && x != a[0]
      ensures x in a[1..]
    {
      var k :| 0 <= k < |a| && a[k] == x;
      assert a[1..][k - 1] == x;
    }
    forall x | x in a[1..]
      ensures x != a[0]
    {
      var k :| 0 <= k < |a[1..]| && a[1..][k] == x;
      assert Id(a[0]) < Id(a[k + 1]);
    }
  }

  /** Two strictly increasing sequences of the same numbers are equal. */
  lemma {:induction false} StrictlyIncreasingUnique(a: seq<int>, b: seq<int>)
    requires StrictlyIncreasing(a, Id) && StrictlyIncreasing(b, Id)
    requires forall x :: x in a <==> x in b
    ensures a == b
  {
    NonEmptyShared(a, b);
    NonEmptyShared(b, a);
    if a != [] {
      FirstIsLeast(a);
      FirstIsLeast(b);
      assert a[0] in b && b[0] in a;
      StrictTail(a);
      StrictTail(b);
      StrictlyIncreasingUnique(a[1..], b[1..]);
      assert a == [a[0]] + a[1..] && b == [b[0]] + b[1..];
    }
  }

  function Id(x: int): int
  {
    x
  }
}

/**
  * Sequence combinators standing for the JavaScript array methods the source uses:
  * `filter`, `map` and `flat`.
  */
module Seqs {

  /** `s.filter(f)`: the elements satisfying `f`, in their original order. */
  function Filter<T>(s: seq<T>, f: T -> bool): (r: seq<T>)
    ensures |r| <= |s|
    ensures forall i :: 0 <= i < |r| ==> f(r[i])
  {
    if s == [] then []
    else
      assert s == s[..|s| - 1] + [s[|s| - 1]];
      Filter(s[..|s| - 1], f) + (if f(s[|s| - 1]) then [s[|s| - 1]] else [])
  }

  /** `s.some(p)`. */
  function Any<T>(s: seq<T>, p: T -> bool): (b: bool)
    ensures b <==> exists i :: 0 <= i < |s| && p(s[i])
  {
    if s == [] then false
    else
      assert forall i :: 0 < i < |s| ==> s[i] == s[1..][i - 1];
      p(s[0]) || Any(s[1..], p)
  }

  lemma AnySnoc<T>(s: seq<T>, x: T, p: T -> bool)
    ensures Any(s + [x], p) == (Any(s, p) || p(x))
  {
    var t := s + [x];
    assert t[|s|] == x;
    assert forall i :: 0 <= i < |s| ==> t[i] == s[i];
  }

  /** `filter` keeps exactly the elements satisfying `f`. */
  lemma {:induction false} FilterMultiset<T>(s: seq<T>, f: T -> bool)
    ensures multiset(Filter(s, f)) <= multiset(s)
    ensures forall x :: x in Filter(s, f) <==> x in s && f(x)
  {
    if s != [] {
      var init := s[..|s| - 1];
      FilterMultiset(init, f);
      SnocSplit(s);
    }
  }

  lemma {:induction false} FilterConcat<T>(a: seq<T>, b: seq<T>, f: T -> bool)
    ensures Filter(a + b, f) == Filter(a, f) + Filter(b, f)
  {
    if b == [] {
      assert a + b == a;
    } else {
      assert (a + b)[..|a + b| - 1] == a + b[..|b| - 1];
      FilterConcat(a, b[..|b| - 1], f);
    }
  }

  /** Two filters by complementary tests split a sequence without loss or repetition. */
  lemma {:induction false} FilterComplement<T>(s: seq<T>, f: T -> bool, g: T -> bool)
    requires forall x :: g(x) == !f(x)
    ensures multiset(Filter(s, f)) + multiset(Filter(s, g)) == multiset(s)
  {
    if s != [] {
      var init := s[..|s| - 1];
      FilterComplement(init, f, g);
      SnocSplit(s);
    }
  }

  /** `filter` keeps something exactly when some element passes. */
  lemma {:induction false} FilterNonEmpty<T>(s: seq<T>, f: T -> bool)
    ensures Filter(s, f) != [] <==> exists i :: 0 <= i < |s| && f(s[i])
  {
    if s != [] {
      var init, x := s[..|s| - 1], s[|s| - 1];
      FilterNonEmpty(init, f);
      if exists i :: 0 <= i < |init| && f(init[i]) {
        var i :| 0 <= i < |init| && f(init[i]);
        assert s[i] == init[i];
      }
      if exists i :: 0 <= i < |s| && f(s[i]) {
        var i :| 0 <= i < |s| && f(s[i]);
        if i < |init| {
          assert init[i] == s[i];
        }
      }
    }
  }

  lemma MapPair<T, U>(x: T, y: T, f: T -> U)
    ensures Map([x, y], f) == [f(x), f(y)]
  {
  }

  lemma FilterSingle<T>(x: T, f: T -> bool)
    ensures Filter([x], f) == if f(x) then [x] else []
  {
    assert [x][..0] == [];
  }

  /** The only sequence holding exactly one copy of `x` and nothing else is `[x]`. */
  lemma SingletonMultiset<T>(s: seq<T>, x: T)
    requires multiset(s) == multiset([x])
    ensures s == [x]
  {
    assert |s| == |multiset(s)| == 1;
    assert s[0] in multiset(s);
  }

  lemma FilterPair<T>(x: T, y: T, f: T -> bool)
    ensures Filter([x, y], f) == (if f(x) then [x] else []) + (if f(y) then [y] else [])
  {
    assert [x, y][..1] == [x];
    assert [x][..0] == [];
  }

  lemma FilterTriple<T>(x: T, y: T, z: T, f: T -> bool)
    ensures Filter([x, y, z], f) == Filter([x, y], f) + (if f(z) then [z] else [])
  {
    assert [x, y, z][..2] == [x, y];
  }

  lemma FilterConcat3<T>(a: seq<T>, b: seq<T>, c: seq<T>, f: T -> bool)
    ensures Filter(a + b + c, f) == Filter(a, f) + Filter(b, f) + Filter(c, f)
  {
    FilterConcat(a + b, c, f);
    FilterConcat(a, b, f);
  }

  /** Filtering three pieces, the middle one of which loses everything. */
  lemma FilterAroundEmpty<T>(a: seq<T>, b: seq<T>, c: seq<T>, f: T -> bool)
    requires Filter(b, f) == []
    ensures Filter(a + b + c, f) == Filter(a, f) + Filter(c, f)
  {
    FilterConcat(a + b, c, f);
    FilterConcat(a, b, f);
    assert Filter(a, f) + [] == Filter(a, f);
  }

  lemma {:induction false} FilterKeepsAll<T>(s: seq<T>, f: T -> bool)
    requires forall i :: 0 <= i < |s| ==> f(s[i])
    ensures Filter(s, f) == s
  {
    if s != [] {
      FilterKeepsAll(s[..|s| - 1], f);
      assert s == s[..|s| - 1] + [s[|s| - 1]];
    }
  }

  lemma {:induction false} FilterDropsAll<T>(s: seq<T>, f: T -> bool)
    requires forall i :: 0 <= i < |s| ==> !f(s[i])
    ensures Filter(s, f) == []
  {
    if s != [] {
      FilterDropsAll(s[..|s| - 1], f);
    }
  }

  lemma TakeSnoc<T>(s: seq<T>, i: nat)
    requires i < |s|
    ensures s[..i + 1] == s[..i] + [s[i]]
  {
  }

  /** A non-empty sequence is its prefix followed by its last element. */
  lemma SnocSplit<T>(s: seq<T>)
    requires s != []
    ensures s == s[..|s| - 1] + [s[|s| - 1]]
  {
    assert (s[..|s| - 1] + [s[|s| - 1]])[|s| - 1] == s[|s| - 1];
  }

  lemma TakeAll<T>(s: seq<T>)
    ensures s[..|s|] == s
  {
  }

  lemma ConcatAssoc<T>(a: seq<T>, b: seq<T>, c: seq<T>)
    ensures a + (b + c) == a + b + c
  {
  }

  lemma ConcatAssoc4<T>(a: seq<T>, b: seq<T>, c: seq<T>, d: seq<T>)
    ensures a + (b + c + d) == a + b + c + d
  {
  }

  /** `s.map(f)`. */
  function Map<T, U>(s: seq<T>, f: T -> U): (r: seq<U>)
    ensures |r| == |s|
    ensures forall i :: 0 <= i < |s| ==> r[i] == f(s[i])
  {
    seq(|s|, i requires 0 <= i < |s| => f(s[i]))
  }

  lemma MapThree<T, U>(s: seq<T>, f: T -> U, x: U, y: U, z: U)
    requires |s| == 3 && f(s[0]) == x && f(s[1]) == y && f(s[2]) == z
    ensures Map(s, f) == [x, y, z]
  {
  }

  lemma MapTake<T, U>(s: seq<T>, f: T -> U, k: nat)
    requires k <= |s|
    ensures Map(s, f)[..k] == Map(s[..k], f)
  {
  }

  /** Two filters with disjoint tests together keep what the filter by either test keeps. */
  lemma {:induction false} FilterUnion<T>(s: seq<T>, f: T -> bool, g: T -> bool, h: T -> bool)
    requires forall x :: h(x) == (f(x) || g(x))
    requires forall x :: !(f(x) && g(x))
    ensures multiset(Filter(s, f)) + multiset(Filter(s, g)) == multiset(Filter(s, h))
  {
    if s != [] {
      FilterUnion(s[..|s| - 1], f, g, h);
    }
  }

  lemma MapConcat<T, U>(a: seq<T>, b: seq<T>, f: T -> U)
    ensures Map(a + b, f) == Map(a, f) + Map(b, f)
  {
  }

  /** `ss.flat()`: the concatenation of the inner sequences, in order. */
  function Flatten<T>(ss: seq<seq<T>>): seq<T>
  {
    if ss == [] then [] else Flatten(ss[..|ss| - 1]) + ss[|ss| - 1]
  }

  lemma {:induction false} FlattenConcat<T>(a: seq<seq<T>>, b: seq<seq<T>>)
    ensures Flatten(a + b) == Flatten(a) + Flatten(b)
  {
    if b == [] {
      assert a + b == a;
    } else {
      var init, last := b[..|b| - 1], b[|b| - 1];
      assert (a + b)[..|a + b| - 1] == a + init;
      assert (a + b)[|a + b| - 1] == last;
      FlattenConcat(a, init);
      ConcatAssoc(Flatten(a), Flatten(init), last);
    }
  }

  lemma FlattenSnoc<T>(ss: seq<seq<T>>)
    requires ss != []
    ensures Flatten(ss) == Flatten(ss[..|ss| - 1]) + ss[|ss| - 1]
  {
  }

  lemma FlattenSingle<T>(s: seq<T>)
    ensures Flatten([s]) == s
  {
    assert [s][..0] == [];
  }

  /** Filtering twice is filtering by both tests. */
  lemma {:induction false} FilterFilter<T>(s: seq<T>, f: T -> bool, g: T -> bool, h: T -> bool)
    requires forall x :: h(x) == (f(x) && g(x))
    ensures Filter(Filter(s, f), g) == Filter(s, h)
  {
    if s != [] {
      var init, x := s[..|s| - 1], s[|s| - 1];
      FilterFilter(init, f, g, h);
      FilterConcat(Filter(init, f), if f(x) then [x] else [], g);
      assert ([x])[..0] == [];
    }
  }
}

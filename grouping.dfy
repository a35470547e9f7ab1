/**
  * `groupImports` and `sortImportSpecifiers` (src/utils.ts): records other than side
  * effects are bucketed by priority in a `Map`, each bucket is sorted by key, and the
  * buckets are returned by increasing priority.
  */
module Grouping {
  import opened Strings
  import opened Seqs
  import opened Types
  import opened Sorting
  import opened Classify

  /** `ImportGroup` of `src/types.ts`: `kind` and `moduleType` are its first member's. */
  datatype ImportGroup = ImportGroup(kind: ImportType, moduleType: ModuleType, imports: seq<ImportInfo>, priority: int)

  function KeyOf(info: ImportInfo): string
  {
    info.sortKey
  }

  function Priority(info: ImportInfo): int
  {
    GetImportGroupPriority(info)
  }

  function PriorityOf(g: ImportGroup): int
  {
    g.priority
  }

  function ImportsOf(g: ImportGroup): seq<ImportInfo>
  {
    g.imports
  }

  predicate NotSideEffect(info: ImportInfo)
  {
    !info.isSideEffect
  }

  function HasPriority(p: int): ImportInfo -> bool
  {
    info => Priority(info) == p
  }

  /** The records of `s` with priority `p`, in order. */
  function Members(s: seq<ImportInfo>, p: int): seq<ImportInfo>
  {
    Filter(s, HasPriority(p))
  }

  /** Some record of `s` has priority `p`. */
  predicate Seen(s: seq<ImportInfo>, p: int)
  {
    exists k :: 0 <= k < |s| && Priority(s[k]) == p
  }

  lemma SeenAppend(s: seq<ImportInfo>, x: ImportInfo)
    ensures forall p :: Seen(s + [x], p) <==> Seen(s, p) || Priority(x) == p
  {
    forall p
      ensures Seen(s + [x], p) <==> Seen(s, p) || Priority(x) == p
    {
      if Seen(s + [x], p) {
        var k :| 0 <= k < |s + [x]| && Priority((s + [x])[k]) == p;
        if k < |s| {
          assert s[k] == (s + [x])[k];
        }
      }
      if Seen(s, p) {
        var k :| 0 <= k < |s| && Priority(s[k]) == p;
        assert (s + [x])[k] == s[k];
      }
      assert (s + [x])[|s|] == x;
    }
  }

  /**
    * The records that are the first of their priority, in order: the order in which the
    * `Map` of `groupImports` receives its keys.
    */
  function FirstOfEach(s: seq<ImportInfo>): seq<ImportInfo>
  {
    if s == [] then []
    else
      var f := FirstOfEach(s[..|s| - 1]);
      if Seen(s[..|s| - 1], Priority(s[|s| - 1])) then f else f + [s[|s| - 1]]
  }

  lemma FirstOfEachAppend(s: seq<ImportInfo>, x: ImportInfo)
    ensures FirstOfEach(s + [x]) == if Seen(s, Priority(x)) then FirstOfEach(s) else FirstOfEach(s) + [x]
  {
    assert (s + [x])[..|s|] == s;
  }

  /** The first records cover every priority of the input, each once. */
  lemma {:induction false} FirstOfEachSeen(s: seq<ImportInfo>)
    ensures forall p :: Seen(FirstOfEach(s), p) <==> Seen(s, p)
    ensures DistinctKeys(FirstOfEach(s), Priority)
  {
    if s != [] {
      var init, x := s[..|s| - 1], s[|s| - 1];
      var f := FirstOfEach(init);
      SnocSplit(s);
      FirstOfEachSeen(init);
      FirstOfEachAppend(init, x);
      SeenAppend(init, x);
      if !Seen(init, Priority(x)) {
        SeenAppend(f, x);
        forall j | 0 <= j < |f|
          ensures Priority(f[j]) != Priority(x)
        {
          assert Seen(f, Priority(f[j]));
        }
      }
    }
  }

  /** Each first record is the first member of its priority. */
  lemma {:induction false} FirstOfEachFirst(s: seq<ImportInfo>)
    ensures forall j :: 0 <= j < |FirstOfEach(s)| ==>
      Members(s, Priority(FirstOfEach(s)[j])) != [] && Members(s, Priority(FirstOfEach(s)[j]))[0] == FirstOfEach(s)[j]
  {
    if s != [] {
      var init, x := s[..|s| - 1], s[|s| - 1];
      SnocSplit(s);
      FirstOfEachFirst(init);
      FirstOfEachAppend(init, x);
      MembersAppend(init, x);
      if !Seen(init, Priority(x)) {
        MembersUnseen(init, Priority(x));
      }
    }
  }

  lemma MembersAppend(s: seq<ImportInfo>, x: ImportInfo)
    ensures forall p :: Members(s + [x], p) == Members(s, p) + (if Priority(x) == p then [x] else [])
  {
    forall p
      ensures Members(s + [x], p) == Members(s, p) + (if Priority(x) == p then [x] else [])
    {
      assert (s + [x])[..|s|] == s;
    }
  }

  lemma MembersUnseen(s: seq<ImportInfo>, p: int)
    requires !Seen(s, p)
    ensures Members(s, p) == []
  {
    FilterDropsAll(s, HasPriority(p));
  }

  /** The group whose first record is `first`, its members sorted by key. */
  function GroupOf(s: seq<ImportInfo>, first: ImportInfo): ImportGroup
  {
    ImportGroup(first.importType, first.moduleType, SortBy(Members(s, Priority(first)), KeyOf), Priority(first))
  }

  function GroupBuilder(s: seq<ImportInfo>): ImportInfo -> ImportGroup
  {
    first => GroupOf(s, first)
  }

  /** What `groupImports` returns: the groups in increasing priority. */
  function Grouped(imports: seq<ImportInfo>): seq<ImportGroup>
  {
    var ns := Filter(imports, NotSideEffect);
    SortByInt(Map(FirstOfEach(ns), GroupBuilder(ns)), PriorityOf)
  }

  /** The group as the first loop of `groupImports` leaves it: members in input order. */
  function RawGroup(s: seq<ImportInfo>, first: ImportInfo): ImportGroup
  {
    ImportGroup(first.importType, first.moduleType, Members(s, Priority(first)), Priority(first))
  }

  /** One turn of the grouping loop, as it affects the order of first appearance. */
  lemma GroupStepOrder(
    s: seq<ImportInfo>, x: ImportInfo, byPriority: map<int, ImportGroup>, order: seq<int>)
    requires order == Map(FirstOfEach(s), Priority)
    requires forall p :: p in byPriority <==> p in order
    ensures Seen(s, Priority(x)) <==> Priority(x) in byPriority
    ensures Priority(x) in byPriority ==> Map(FirstOfEach(s + [x]), Priority) == order
    ensures Priority(x) !in byPriority ==> Map(FirstOfEach(s + [x]), Priority) == order + [Priority(x)]
  {
    var p := Priority(x);
    var firsts := FirstOfEach(s);
    FirstOfEachSeen(s);
    FirstOfEachAppend(s, x);
    if Seen(firsts, p) {
      var k :| 0 <= k < |firsts| && Priority(firsts[k]) == p;
      assert order[k] == p;
    }
    if p in order {
      var k :| 0 <= k < |order| && order[k] == p;
      assert Priority(firsts[k]) == p;
    }
    MapConcat(firsts, [x], Priority);
  }

  /** One turn of the grouping loop: the map and the order after `x` is pushed. */
  lemma {:induction false} GroupStep(
    s: seq<ImportInfo>, x: ImportInfo, byPriority: map<int, ImportGroup>, order: seq<int>)
    requires order == Map(FirstOfEach(s), Priority)
    requires forall p :: p in byPriority <==> p in order
    requires forall j :: 0 <= j < |order| ==> byPriority[order[j]] == RawGroup(s, FirstOfEach(s)[j])
    ensures Seen(s, Priority(x)) <==> Priority(x) in byPriority
    ensures var p := Priority(x);
      var order' := if p in byPriority then order else order + [p];
      var seeded := if p in byPriority then byPriority else byPriority[p := ImportGroup(x.importType, x.moduleType, [], p)];
      var byPriority' := seeded[p := seeded[p].(imports := seeded[p].imports + [x])];
      && order' == Map(FirstOfEach(s + [x]), Priority)
      && (forall q :: q in byPriority' <==> q in order')
      && (forall j :: 0 <= j < |order'| ==> byPriority'[order'[j]] == RawGroup(s + [x], FirstOfEach(s + [x])[j]))
  {
    var p := Priority(x);
    GroupStepOrder(s, x, byPriority, order);
    var order' := if p in byPriority then order else order + [p];
    var seeded := if p in byPriority then byPriority else byPriority[p := ImportGroup(x.importType, x.moduleType, [], p)];
    var byPriority' := seeded[p := seeded[p].(imports := seeded[p].imports + [x])];
    forall j | 0 <= j < |order'|
      ensures byPriority'[order'[j]] == RawGroup(s + [x], FirstOfEach(s + [x])[j])
    {
      if j < |order| {
        var q := order[j];
        assert order'[j] == q;
        GroupStepEarlier(s, x, q, FirstOfEach(s)[j], j);
        if p != q {
          assert byPriority'[q] == byPriority[q];
        }
      } else {
        GroupStepNew(s, x);
        assert |FirstOfEach(s + [x])| == |order'|;
      }
    }
  }

  /** A group already in the map gains `x` exactly when it has `x`'s priority. */
  lemma GroupStepEarlier(s: seq<ImportInfo>, x: ImportInfo, q: int, first: ImportInfo, j: int)
    requires 0 <= j < |FirstOfEach(s)| && FirstOfEach(s)[j] == first && Priority(first) == q
    ensures FirstOfEach(s + [x])[j] == first
    ensures RawGroup(s + [x], first)
      == RawGroup(s, first).(imports := RawGroup(s, first).imports + (if Priority(x) == q then [x] else []))
  {
    FirstOfEachAppend(s, x);
    MembersAppend(s, x);
  }

  /** A priority seen for the first time starts a group holding `x` alone. */
  lemma GroupStepNew(s: seq<ImportInfo>, x: ImportInfo)
    requires !Seen(s, Priority(x))
    ensures FirstOfEach(s + [x]) == FirstOfEach(s) + [x]
    ensures RawGroup(s + [x], x) == ImportGroup(x.importType, x.moduleType, [x], Priority(x))
  {
    FirstOfEachAppend(s, x);
    MembersAppend(s, x);
    MembersUnseen(s, Priority(x));
    assert Members(s + [x], Priority(x)) == [] + [x];
  }

  /** The first loop of `groupImports`: one pass filling the `Map`, keys kept in insertion order. */
  method FillGroups(ns: seq<ImportInfo>) returns (byPriority: map<int, ImportGroup>, order: seq<int>)
    ensures order == Map(FirstOfEach(ns), Priority)
    ensures forall p :: p in byPriority <==> p in order
    ensures forall j :: 0 <= j < |order| ==> byPriority[order[j]] == RawGroup(ns, FirstOfEach(ns)[j])
  {
    byPriority, order := map[], [];
    for i := 0 to |ns|
      invariant order == Map(FirstOfEach(ns[..i]), Priority)
      invariant forall p :: p in byPriority <==> p in order
      invariant forall j :: 0 <= j < |order| ==> byPriority[order[j]] == RawGroup(ns[..i], FirstOfEach(ns[..i])[j])
    {
      var info := ns[i];
      var p := Priority(info);
      GroupStep(ns[..i], info, byPriority, order);
      TakeSnoc(ns, i);
      if p !in byPriority {
        byPriority := byPriority[p := ImportGroup(info.importType, info.moduleType, [], p)];
        order := order + [p];
      }
      byPriority := byPriority[p := byPriority[p].(imports := byPriority[p].imports + [info])];
    }
    TakeAll(ns);
  }

  /** The second loop of `groupImports`: every group sorted by key. */
  method SortGroupMembers(ns: seq<ImportInfo>, byPriority: map<int, ImportGroup>, order: seq<int>)
    returns (sorted: map<int, ImportGroup>)
    requires order == Map(FirstOfEach(ns), Priority)
    requires forall p :: p in byPriority <==> p in order
    requires forall j :: 0 <= j < |order| ==> byPriority[order[j]] == RawGroup(ns, FirstOfEach(ns)[j])
    ensures forall p :: p in sorted <==> p in order
    ensures forall j :: 0 <= j < |order| ==> sorted[order[j]] == GroupOf(ns, FirstOfEach(ns)[j])
  {
    var firsts := FirstOfEach(ns);
    OrderDistinct(ns, order);
    sorted := byPriority;
    for j := 0 to |order|
      invariant sorted.Keys == byPriority.Keys
      invariant forall k :: 0 <= k < j ==> sorted[order[k]] == GroupOf(ns, firsts[k])
      invariant forall k :: j <= k < |order| ==> sorted[order[k]] == RawGroup(ns, firsts[k])
    {
      var p := order[j];
      var group := sorted[p];
      sorted := sorted[p := group.(imports := SortBy(group.imports, KeyOf))];
    }
  }

  /** No priority is listed twice in the order of first appearance. */
  lemma OrderDistinct(ns: seq<ImportInfo>, order: seq<int>)
    requires order == Map(FirstOfEach(ns), Priority)
    ensures forall k, m :: 0 <= k < |order| && 0 <= m < |order| && k != m ==> order[k] != order[m]
  {
    FirstOfEachSeen(ns);
  }

  /**
    * `groupImports`: a `Map` from priority to group filled in one pass, each group then
    * sorted by key, and the groups (`Array.from(groups.values())`) sorted by priority.
    */
  method GroupImports(imports: seq<ImportInfo>) returns (groups: seq<ImportGroup>)
    ensures groups == Grouped(imports)
  {
    var ns := Filter(imports, NotSideEffect);
    var byPriority, order := FillGroups(ns);
    byPriority := SortGroupMembers(ns, byPriority, order);
    var firsts := FirstOfEach(ns);
    var values: seq<ImportGroup> := [];
    for j := 0 to |order|
      invariant values == Map(firsts[..j], GroupBuilder(ns))
    {
      var group := byPriority[order[j]];
      BuildStep(ns, firsts, values, group, j);
      values := values + [group];
    }
    TakeAll(firsts);
    groups := SortByInt(values, PriorityOf);
  }

  lemma BuildStep(ns: seq<ImportInfo>, firsts: seq<ImportInfo>, values: seq<ImportGroup>, group: ImportGroup, j: nat)
    requires j < |firsts| && values == Map(firsts[..j], GroupBuilder(ns)) && group == GroupOf(ns, firsts[j])
    ensures values + [group] == Map(firsts[..j + 1], GroupBuilder(ns))
  {
    TakeSnoc(firsts, j);
    MapConcat(firsts[..j], [firsts[j]], GroupBuilder(ns));
    assert Map([firsts[j]], GroupBuilder(ns)) == [group];
  }

  // ------------------------------------------------------------ what the groups are

  /** The priorities of the groups, in increasing order. */
  function Priorities(ns: seq<ImportInfo>): seq<int>
  {
    Map(SortByInt(FirstOfEach(ns), Priority), Priority)
  }

  lemma GroupingAsMap(imports: seq<ImportInfo>)
    ensures var ns := Filter(imports, NotSideEffect);
      Grouped(imports) == Map(SortByInt(FirstOfEach(ns), Priority), GroupBuilder(ns))
  {
    var ns := Filter(imports, NotSideEffect);
    SortByIntMap(FirstOfEach(ns), GroupBuilder(ns), Priority, PriorityOf);
  }

  /** The priorities are exactly those of the records, strictly increasing. */
  lemma PrioritiesSpec(ns: seq<ImportInfo>)
    ensures StrictlyIncreasing(Priorities(ns), Id)
    ensures forall p :: p in Priorities(ns) <==> Seen(ns, p)
  {
    var firsts := FirstOfEach(ns);
    FirstOfEachSeen(ns);
    SortByIntStrict(firsts, Priority);
    forall p
      ensures p in Priorities(ns) <==> Seen(ns, p)
    {
      PriorityListed(ns, p);
    }
  }

  lemma PriorityListed(ns: seq<ImportInfo>, p: int)
    ensures p in Priorities(ns) <==> Seen(ns, p)
  {
    var firsts := FirstOfEach(ns);
    var sorted := SortByInt(firsts, Priority);
    var ps := Priorities(ns);
    FirstOfEachSeen(ns);
    if p in ps {
      var k :| 0 <= k < |ps| && ps[k] == p;
      assert sorted[k] in multiset(firsts);
      var j :| 0 <= j < |firsts| && firsts[j] == sorted[k];
      assert Seen(firsts, p);
    }
    if Seen(ns, p) {
      assert Seen(firsts, p);
      var j :| 0 <= j < |firsts| && Priority(firsts[j]) == p;
      assert firsts[j] in multiset(sorted);
      var k :| 0 <= k < |sorted| && sorted[k] == firsts[j];
      assert ps[k] == p;
    }
  }

  /** The groups come in strictly increasing priority. */
  lemma GroupingIncreasing(imports: seq<ImportInfo>)
    ensures StrictlyIncreasing(Grouped(imports), PriorityOf)
  {
    var ns := Filter(imports, NotSideEffect);
    GroupingAsMap(imports);
    PrioritiesSpec(ns);
    var gs := Grouped(imports);
    forall i, j | 0 <= i < j < |gs|
      ensures gs[i].priority < gs[j].priority
    {
      assert gs[i].priority == Priorities(ns)[i] && gs[j].priority == Priorities(ns)[j];
      assert Id(Priorities(ns)[i]) < Id(Priorities(ns)[j]);
    }
  }

  /**
    * The group at index `i` holds exactly the non-side-effect records of its priority,
    * sorted by key; its kind and module type are those of the first of them.
    */
  lemma GroupAt(imports: seq<ImportInfo>, i: nat)
    requires i < |Grouped(imports)|
    ensures var ns := Filter(imports, NotSideEffect);
      var g := Grouped(imports)[i];
      && Members(ns, g.priority) != []
      && g.imports == SortBy(Members(ns, g.priority), KeyOf)
      && g.kind == Members(ns, g.priority)[0].importType
      && g.moduleType == Members(ns, g.priority)[0].moduleType
  {
    var ns := Filter(imports, NotSideEffect);
    var firsts := FirstOfEach(ns);
    var sorted := SortByInt(firsts, Priority);
    GroupingAsMap(imports);
    FirstOfEachFirst(ns);
    assert sorted[i] in multiset(firsts);
    var j :| 0 <= j < |firsts| && firsts[j] == sorted[i];
  }

  /** Every priority some record has is the priority of a group, and only those are. */
  lemma GroupingCovers(imports: seq<ImportInfo>, p: int)
    ensures var ns := Filter(imports, NotSideEffect);
      var gs := Grouped(imports);
      Seen(ns, p) <==> exists i :: 0 <= i < |gs| && gs[i].priority == p
  {
    var ns := Filter(imports, NotSideEffect);
    var gs := Grouped(imports);
    var ps := Priorities(ns);
    GroupedPriorities(imports);
    PrioritiesSpec(ns);
    if Seen(ns, p) {
      var k :| 0 <= k < |ps| && ps[k] == p;
      assert gs[k].priority == p;
    }
    if exists i :: 0 <= i < |gs| && gs[i].priority == p {
      var i :| 0 <= i < |gs| && gs[i].priority == p;
      assert ps[i] == p;
    }
  }

  /** The groups carry the sorted priorities, one each. */
  lemma GroupedPriorities(imports: seq<ImportInfo>)
    ensures var gs := Grouped(imports);
      var ps := Priorities(Filter(imports, NotSideEffect));
      |gs| == |ps| && forall i :: 0 <= i < |gs| ==> gs[i].priority == ps[i]
  {
    GroupingAsMap(imports);
  }

  // --------------------------------------------------------- the flattened groups

  /** The records of the groups, group after group: what the rule pushes from each group. */
  function Flat(gs: seq<ImportGroup>): seq<ImportInfo>
  {
    Flatten(Map(gs, ImportsOf))
  }

  lemma FlatSnoc(gs: seq<ImportGroup>)
    requires gs != []
    ensures Flat(gs) == Flat(gs[..|gs| - 1]) + gs[|gs| - 1].imports
  {
    MapTake(gs, ImportsOf, |gs| - 1);
  }

  /** The members of each priority of `ps` in turn, sorted by key. */
  function Layout(ns: seq<ImportInfo>, ps: seq<int>): seq<ImportInfo>
  {
    if ps == [] then [] else Layout(ns, ps[..|ps| - 1]) + SortBy(Members(ns, ps[|ps| - 1]), KeyOf)
  }

  lemma {:induction false} FlatMapGroups(ns: seq<ImportInfo>, fs: seq<ImportInfo>)
    ensures Flat(Map(fs, GroupBuilder(ns))) == Layout(ns, Map(fs, Priority))
  {
    if fs != [] {
      var n := |fs| - 1;
      FlatMapGroups(ns, fs[..n]);
      MapTake(fs, GroupBuilder(ns), n);
      MapTake(fs, Priority, n);
      FlatSnoc(Map(fs, GroupBuilder(ns)));
    }
  }

  /** The flattened groups are the members of each priority, by increasing priority. */
  lemma FlatGrouping(imports: seq<ImportInfo>)
    ensures var ns := Filter(imports, NotSideEffect);
      Flat(Grouped(imports)) == Layout(ns, Priorities(ns))
  {
    var ns := Filter(imports, NotSideEffect);
    GroupingAsMap(imports);
    FlatMapGroups(ns, SortByInt(FirstOfEach(ns), Priority));
  }

  function PriorityIn(ps: seq<int>): ImportInfo -> bool
  {
    info => Priority(info) in ps
  }

  lemma {:induction false} LayoutMultiset(ns: seq<ImportInfo>, ps: seq<int>)
    requires StrictlyIncreasing(ps, Id)
    ensures multiset(Layout(ns, ps)) == multiset(Filter(ns, PriorityIn(ps)))
  {
    if ps == [] {
      FilterDropsAll(ns, PriorityIn(ps));
    } else {
      var init, q := ps[..|ps| - 1], ps[|ps| - 1];
      LayoutMultiset(ns, init);
      forall x
        ensures !(PriorityIn(init)(x) && HasPriority(q)(x))
      {
        if Priority(x) in init {
          var k :| 0 <= k < |init| && init[k] == Priority(x);
          assert Id(ps[k]) < Id(ps[|ps| - 1]);
        }
      }
      FilterUnion(ns, PriorityIn(init), HasPriority(q), PriorityIn(ps));
    }
  }

  /** Every record of the input lands in exactly one group: the groups flatten to a permutation. */
  lemma GroupingPermutation(imports: seq<ImportInfo>)
    ensures multiset(Flat(Grouped(imports))) == multiset(Filter(imports, NotSideEffect))
  {
    var ns := Filter(imports, NotSideEffect);
    var ps := Priorities(ns);
    FlatGrouping(imports);
    PrioritiesSpec(ns);
    LayoutMultiset(ns, ps);
    forall i | 0 <= i < |ns|
      ensures PriorityIn(ps)(ns[i])
    {
      assert Seen(ns, Priority(ns[i]));
    }
    FilterKeepsAll(ns, PriorityIn(ps));
  }

  /** Records are ordered by priority, and by key within a priority. */
  predicate GroupedOrder(s: seq<ImportInfo>)
  {
    forall i, j :: 0 <= i < j < |s| ==>
      || Priority(s[i]) < Priority(s[j])
      || (Priority(s[i]) == Priority(s[j]) && NotAfter(s[i].sortKey, s[j].sortKey))
  }

  lemma MembersHavePriority(ns: seq<ImportInfo>, p: int)
    ensures forall x :: x in SortBy(Members(ns, p), KeyOf) ==> Priority(x) == p
  {
    var m := Members(ns, p);
    forall x | x in SortBy(m, KeyOf)
      ensures Priority(x) == p
    {
      assert x in multiset(m);
      var k :| 0 <= k < |m| && m[k] == x;
    }
  }

  lemma {:induction false} LayoutPriorities(ns: seq<ImportInfo>, ps: seq<int>)
    ensures forall x :: x in Layout(ns, ps) ==> Priority(x) in ps
  {
    if ps != [] {
      var init, q := ps[..|ps| - 1], ps[|ps| - 1];
      LayoutPriorities(ns, init);
      MembersHavePriority(ns, q);
      forall x | x in init
        ensures x in ps
      {
        var k :| 0 <= k < |init| && init[k] == x;
        assert ps[k] == x;
      }
    }
  }

  /** Two runs in grouped order, every priority of the first below every one of the second. */
  lemma GroupedOrderConcat(a: seq<ImportInfo>, b: seq<ImportInfo>)
    requires GroupedOrder(a) && GroupedOrder(b)
    requires forall x, y :: x in a && y in b ==> Priority(x) < Priority(y)
    ensures GroupedOrder(a + b)
  {
    var c := a + b;
    forall i, j | 0 <= i < j < |c|
      ensures || Priority(c[i]) < Priority(c[j])
              || (Priority(c[i]) == Priority(c[j]) && NotAfter(c[i].sortKey, c[j].sortKey))
    {
      if j < |a| {
        assert c[i] == a[i] && c[j] == a[j];
      } else if i < |a| {
        assert c[i] in a && c[j] in b;
      } else {
        assert c[i] == b[i - |a|] && c[j] == b[j - |a|];
      }
    }
  }

  lemma MembersOrdered(ns: seq<ImportInfo>, p: int)
    ensures GroupedOrder(SortBy(Members(ns, p), KeyOf))
  {
    MembersHavePriority(ns, p);
  }

  lemma {:induction false} LayoutOrdered(ns: seq<ImportInfo>, ps: seq<int>)
    requires StrictlyIncreasing(ps, Id)
    ensures GroupedOrder(Layout(ns, ps))
  {
    if ps != [] {
      var init, q := ps[..|ps| - 1], ps[|ps| - 1];
      assert StrictlyIncreasing(init, Id);
      LayoutOrdered(ns, init);
      LayoutPriorities(ns, init);
      MembersHavePriority(ns, q);
      MembersOrdered(ns, q);
      forall x | x in init
        ensures x < q
      {
        var k :| 0 <= k < |init| && init[k] == x;
        assert Id(ps[k]) < Id(ps[|ps| - 1]);
      }
      GroupedOrderConcat(Layout(ns, init), SortBy(Members(ns, q), KeyOf));
    }
  }

  /** The flattened groups are ordered by priority, then by key. */
  lemma GroupingOrdered(imports: seq<ImportInfo>)
    ensures GroupedOrder(Flat(Grouped(imports)))
  {
    var ns := Filter(imports, NotSideEffect);
    FlatGrouping(imports);
    PrioritiesSpec(ns);
    LayoutOrdered(ns, Priorities(ns));
  }

  // ------------------------------------------------------------- grouping is stable

  lemma SeenMembers(s: seq<ImportInfo>, p: int)
    ensures Seen(s, p) <==> Members(s, p) != []
  {
    FilterMultiset(s, HasPriority(p));
    if Seen(s, p) {
      var k :| 0 <= k < |s| && Priority(s[k]) == p;
      assert s[k] in Members(s, p);
    }
    if Members(s, p) != [] {
      var x := Members(s, p)[0];
      assert x in s;
      var k :| 0 <= k < |s| && s[k] == x;
    }
  }

  lemma MembersOfBlock(ns: seq<ImportInfo>, q: int, p: int)
    ensures Members(SortBy(Members(ns, q), KeyOf), p) == if p == q then SortBy(Members(ns, q), KeyOf) else []
  {
    var b := SortBy(Members(ns, q), KeyOf);
    MembersHavePriority(ns, q);
    if p == q {
      forall i | 0 <= i < |b|
        ensures HasPriority(p)(b[i])
      {
        assert b[i] in b;
      }
      FilterKeepsAll(b, HasPriority(p));
    } else {
      forall i | 0 <= i < |b|
        ensures !HasPriority(p)(b[i])
      {
        assert b[i] in b;
      }
      FilterDropsAll(b, HasPriority(p));
    }
  }

  lemma LastIsNew(ps: seq<int>)
    requires ps != [] && StrictlyIncreasing(ps, Id)
    ensures ps[|ps| - 1] !in ps[..|ps| - 1]
  {
    var init := ps[..|ps| - 1];
    forall k | 0 <= k < |init|
      ensures init[k] != ps[|ps| - 1]
    {
      assert init[k] == ps[k];
      assert Id(ps[k]) < Id(ps[|ps| - 1]);
    }
  }

  /** Within a layout, the records of one priority are its sorted members, or none. */
  lemma {:induction false} MembersOfLayout(ns: seq<ImportInfo>, ps: seq<int>, p: int)
    requires StrictlyIncreasing(ps, Id)
    ensures Members(Layout(ns, ps), p) == if p in ps then SortBy(Members(ns, p), KeyOf) else []
  {
    if ps != [] {
      var init, q := ps[..|ps| - 1], ps[|ps| - 1];
      assert StrictlyIncreasing(init, Id);
      MembersOfLayout(ns, init, p);
      FilterConcat(Layout(ns, init), SortBy(Members(ns, q), KeyOf), HasPriority(p));
      MembersOfBlock(ns, q, p);
      LastIsNew(ps);
      SnocSplit(ps);
    }
  }

  lemma {:induction false} LayoutSame(a: seq<ImportInfo>, b: seq<ImportInfo>, ps: seq<int>)
    requires forall i :: 0 <= i < |ps| ==> SortBy(Members(a, ps[i]), KeyOf) == SortBy(Members(b, ps[i]), KeyOf)
    ensures Layout(a, ps) == Layout(b, ps)
  {
    if ps != [] {
      LayoutSame(a, b, ps[..|ps| - 1]);
    }
  }

  /** Grouping records that are already grouped changes nothing. */
  lemma GroupingIdempotent(imports: seq<ImportInfo>)
    ensures Flat(Grouped(Flat(Grouped(imports)))) == Flat(Grouped(imports))
  {
    var ns := Filter(imports, NotSideEffect);
    var ps := Priorities(ns);
    var l := Flat(Grouped(imports));
    FlatGrouping(imports);
    PrioritiesSpec(ns);
    GroupingPermutation(imports);
    FilterMultiset(imports, NotSideEffect);
    forall i | 0 <= i < |l|
      ensures NotSideEffect(l[i])
    {
      assert l[i] in multiset(ns);
    }
    FilterKeepsAll(l, NotSideEffect);
    FlatGrouping(l);
    PrioritiesSpec(l);
    forall p
      ensures p in Priorities(l) <==> p in ps
    {
      MembersOfLayout(ns, ps, p);
      SeenMembers(l, p);
      SeenMembers(ns, p);
    }
    StrictlyIncreasingUnique(Priorities(l), ps);
    forall i | 0 <= i < |ps|
      ensures SortBy(Members(l, ps[i]), KeyOf) == SortBy(Members(ns, ps[i]), KeyOf)
    {
      MembersOfLayout(ns, ps, ps[i]);
      SortBySorted(SortBy(Members(ns, ps[i]), KeyOf), KeyOf);
    }
    LayoutSame(l, ns, ps);
  }

  /** `sortImportSpecifiers`: a copy of the specifiers sorted by key. */
  function SortImportSpecifiers(specifiers: seq<Specifier>): (r: seq<Specifier>)
    ensures multiset(r) == multiset(specifiers)
    ensures SortedBy(r, SpecifierKey)
    ensures forall k :: WithKey(r, SpecifierKey, k) == WithKey(specifiers, SpecifierKey, k)
  {
    forall k ensures WithKey(SortBy(specifiers, SpecifierKey), SpecifierKey, k) == WithKey(specifiers, SpecifierKey, k) {
      SortByStable(specifiers, SpecifierKey, k);
    }
    SortBy(specifiers, SpecifierKey)
  }

  function SpecifierKey(s: Specifier): string
  {
    s.sortKey
  }
}

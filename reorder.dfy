/**
  * The reorder decision of `sort-import-groups`: the sections in rendering order, each
  * section sorted by `groupImports` unless it holds only side effects, and the
  * `needsReordering` flag.
  */
module Reorder {
  import opened Seqs
  import opened Types
  import opened Grouping
  import opened Pools

  /** Body sections, then the grouped type section, then the style-sheet section. */
  function AllSections(infos: seq<ImportInfo>, options: Options): seq<seq<ImportInfo>>
  {
    var types := TypePool(infos);
    var css := StylePool(infos, options);
    BodySections(BodyPool(infos, options))
      + (if |types| > 0 then [Flat(Grouped(types))] else [])
      + (if options.groupStyleImports && |css| > 0 then [css] else [])
  }

  /** The pushes of each group's records, in group order. */
  method FlattenGroups(groups: seq<ImportGroup>) returns (flat: seq<ImportInfo>)
    ensures flat == Flat(groups)
  {
    flat := [];
    for i := 0 to |groups|
      invariant flat == Flat(groups[..i])
    {
      flat := flat + groups[i].imports;
      FlatSnoc(groups[..i + 1]);
      assert groups[..i + 1][..i] == groups[..i];
    }
    TakeAll(groups);
  }

  /** Pooling, sectioning, and the type and style-sheet sections appended. */
  method CollectSections(infos: seq<ImportInfo>, options: Options) returns (sections: seq<seq<ImportInfo>>)
    ensures sections == AllSections(infos, options)
  {
    var typeImports, cssImports, nonCssImports := SplitPools(infos, options);
    sections := BuildSections(nonCssImports);
    if |typeImports| > 0 {
      var typeGroups := GroupImports(typeImports);
      var sortedTypeImports := FlattenGroups(typeGroups);
      sections := sections + [sortedTypeImports];
    }
    if options.groupStyleImports && |cssImports| > 0 {
      sections := sections + [cssImports];
    }
  }

  predicate AllSideEffect(section: seq<ImportInfo>)
  {
    forall i :: 0 <= i < |section| ==> section[i].isSideEffect
  }

  /** A lone side effect or a non-empty section of side effects is kept as it is. */
  predicate PassesThrough(section: seq<ImportInfo>)
  {
    IsSideEffectSingleton(section) || (|section| > 0 && AllSideEffect(section))
  }

  /** A section in the order the fix writes it. */
  function SortedSection(section: seq<ImportInfo>): seq<ImportInfo>
  {
    if PassesThrough(section) then section else Flat(Grouped(section))
  }

  /** Some position of `section` holds another record in `sorted`, or none at all. */
  predicate Differs(section: seq<ImportInfo>, sorted: seq<ImportInfo>)
  {
    exists i :: 0 <= i < |section| && (i >= |sorted| || section[i] != sorted[i])
  }

  predicate OutOfOrder(section: seq<ImportInfo>)
  {
    !PassesThrough(section) && Differs(section, SortedSection(section))
  }

  /** The comparison loop over one section, which stops at the first difference. */
  method SectionDiffers(section: seq<ImportInfo>, sorted: seq<ImportInfo>) returns (d: bool)
    ensures d <==> Differs(section, sorted)
  {
    d := false;
    var i := 0;
    while i < |section|
      invariant 0 <= i <= |section|
      invariant !d
      invariant i <= |sorted| && section[..i] == sorted[..i]
    {
      if i >= |sorted| || section[i] != sorted[i] {
        d := true;
        assert 0 <= i < |section| && (i >= |sorted| || section[i] != sorted[i]);
        return;
      }
      assert section[..i + 1] == section[..i] + [section[i]];
      assert sorted[..i + 1] == sorted[..i] + [sorted[i]];
      i := i + 1;
    }
    forall j | 0 <= j < |section|
      ensures j < |sorted| && section[j] == sorted[j]
    {
      assert section[j] == section[..i][j];
    }
  }

  /** One turn of the loop over the sections: the sorted section and whether it moved a record. */
  method SortSection(section: seq<ImportInfo>) returns (sortedSection: seq<ImportInfo>, d: bool)
    ensures sortedSection == SortedSection(section)
    ensures d <==> OutOfOrder(section)
  {
    if |section| == 1 && section[0].isSideEffect {
      sortedSection, d := section, false;
    } else if |section| > 0 && AllSideEffect(section) {
      sortedSection, d := section, false;
    } else {
      var groups := GroupImports(section);
      sortedSection := FlattenGroups(groups);
      d := SectionDiffers(section, sortedSection);
    }
  }

  /** The loop over the sections that builds `sortedSections` and sets `needsReordering`. */
  method SortSections(sections: seq<seq<ImportInfo>>) returns (sortedSections: seq<seq<ImportInfo>>, needsReordering: bool)
    ensures sortedSections == Map(sections, SortedSection)
    ensures needsReordering <==> exists k :: 0 <= k < |sections| && OutOfOrder(sections[k])
  {
    sortedSections := [];
    needsReordering := false;
    var k := 0;
    while k < |sections|
      invariant k <= |sections|
      invariant sortedSections == Map(sections[..k], SortedSection)
      invariant needsReordering == Any(sections[..k], OutOfOrder)
    {
      var section := sections[k];
      var sortedSection, d := SortSection(section);
      sortedSections := sortedSections + [sortedSection];
      needsReordering := needsReordering || d;
      SortSectionsStep(sections, k);
      k := k + 1;
    }
    TakeAll(sections);
    assert needsReordering == Any(sections, OutOfOrder);
  }

  lemma SortSectionsStep(sections: seq<seq<ImportInfo>>, k: nat)
    requires k < |sections|
    ensures Map(sections[..k + 1], SortedSection) == Map(sections[..k], SortedSection) + [SortedSection(sections[k])]
    ensures Any(sections[..k + 1], OutOfOrder) == (Any(sections[..k], OutOfOrder) || OutOfOrder(sections[k]))
  {
    TakeSnoc(sections, k);
    MapConcat(sections[..k], [sections[k]], SortedSection);
    assert Map([sections[k]], SortedSection) == [SortedSection(sections[k])];
    AnySnoc(sections[..k], sections[k], OutOfOrder);
  }

  /** The whole-file comparison made when style sheets are grouped. */
  method FlattenedDiffers(infos: seq<ImportInfo>, sortedFlattened: seq<ImportInfo>) returns (d: bool)
    ensures d <==> sortedFlattened != infos
  {
    if |infos| != |sortedFlattened| {
      return true;
    }
    d := false;
    var i := 0;
    while i < |infos|
      invariant 0 <= i <= |infos|
      invariant !d
      invariant forall j :: 0 <= j < i ==> infos[j] == sortedFlattened[j]
    {
      if infos[i] != sortedFlattened[i] {
        d := true;
        return;
      }
      i := i + 1;
    }
    assert infos == sortedFlattened;
  }

  /** `needsReordering` once both comparisons are made. */
  predicate NeedsReordering(infos: seq<ImportInfo>, options: Options)
  {
    var sections := AllSections(infos, options);
    || (exists k :: 0 <= k < |sections| && OutOfOrder(sections[k]))
    || (options.groupStyleImports && Flatten(Map(sections, SortedSection)) != infos)
  }

  /** The reorder decision of `Program:exit`, with the sorted sections the fix renders. */
  method DecideReordering(infos: seq<ImportInfo>, options: Options)
    returns (sortedSections: seq<seq<ImportInfo>>, needsReordering: bool)
    ensures sortedSections == Map(AllSections(infos, options), SortedSection)
    ensures needsReordering <==> NeedsReordering(infos, options)
  {
    var sections := CollectSections(infos, options);
    sortedSections, needsReordering := SortSections(sections);
    if !needsReordering && options.groupStyleImports {
      needsReordering := FlattenedDiffers(infos, Flatten(sortedSections));
    }
  }

  // ------------------------------------------------------------------ properties

  /** For a sorted section of the same length, a difference is simply inequality. */
  lemma DiffersIsInequality(section: seq<ImportInfo>, sorted: seq<ImportInfo>)
    requires |section| == |sorted|
    ensures Differs(section, sorted) <==> section != sorted
  {
    if section != sorted {
      var i :| 0 <= i < |section| && section[i] != sorted[i];
    }
  }

  /** A run without side effects is out of order exactly when grouping would move a record. */
  lemma RunOutOfOrder(section: seq<ImportInfo>)
    requires |section| > 0 && NoSideEffect(section)
    ensures OutOfOrder(section) <==> Flat(Grouped(section)) != section
  {
    var l := Flat(Grouped(section));
    FilterKeepsAll(section, NotSideEffect);
    GroupingPermutation(section);
    assert |multiset(l)| == |multiset(section)|;
    NotPassing(section);
    assert SortedSection(section) == l;
    DiffersIsInequality(section, l);
  }

  lemma NotPassing(section: seq<ImportInfo>)
    requires |section| > 0 && NoSideEffect(section)
    ensures !PassesThrough(section)
  {
    assert !section[0].isSideEffect;
  }

  /** Sorting a sorted section changes nothing. */
  lemma SortedSectionIdempotent(section: seq<ImportInfo>)
    ensures SortedSection(SortedSection(section)) == SortedSection(section)
  {
    if !PassesThrough(section) {
      var l := Flat(Grouped(section));
      GroupingIdempotent(section);
      GroupedHasNoSideEffect(section);
      if l != [] {
        NotPassing(l);
      }
    }
  }

  lemma GroupedHasNoSideEffect(s: seq<ImportInfo>)
    ensures NoSideEffect(Flat(Grouped(s)))
  {
    var l := Flat(Grouped(s));
    GroupingPermutation(s);
    FilterMultiset(s, NotSideEffect);
    forall i | 0 <= i < |l|
      ensures !l[i].isSideEffect
    {
      assert l[i] in multiset(Filter(s, NotSideEffect));
    }
  }

  /** The grouped type section is left as it is by the sorting loop. */
  lemma TypeSectionKept(types: seq<ImportInfo>)
    ensures SortedSection(Flat(Grouped(types))) == Flat(Grouped(types))
  {
    var l := Flat(Grouped(types));
    GroupedHasNoSideEffect(types);
    if !PassesThrough(l) {
      GroupingIdempotent(types);
    }
  }

  function SortedFlat(ss: seq<seq<ImportInfo>>): seq<ImportInfo>
  {
    Flatten(Map(ss, SortedSection))
  }

  lemma {:induction false} SortedFlatConcat(a: seq<seq<ImportInfo>>, b: seq<seq<ImportInfo>>)
    ensures SortedFlat(a + b) == SortedFlat(a) + SortedFlat(b)
  {
    MapConcat(a, b, SortedSection);
    FlattenConcat(Map(a, SortedSection), Map(b, SortedSection));
  }

  /** Sorting a body section keeps its records. */
  lemma BodySectionKept(section: seq<ImportInfo>)
    requires WellFormed(section)
    ensures multiset(SortedSection(section)) == multiset(section)
  {
    if !PassesThrough(section) {
      FilterKeepsAll(section, NotSideEffect);
      GroupingPermutation(section);
    }
  }

  lemma {:induction false} SortedFlatPermutation(ss: seq<seq<ImportInfo>>)
    requires forall k :: 0 <= k < |ss| ==> WellFormed(ss[k])
    ensures multiset(SortedFlat(ss)) == multiset(Flatten(ss))
  {
    if ss != [] {
      var init := ss[..|ss| - 1];
      SortedFlatPermutation(init);
      SortedFlatSnoc(ss);
      FlattenSnoc(ss);
      BodySectionKept(ss[|ss| - 1]);
    }
  }

  /** The sorted sections of a run of side-effect-free records hold no side effect. */
  lemma SortedSectionSideEffects(section: seq<ImportInfo>)
    requires WellFormed(section)
    ensures Filter(SortedSection(section), IsSideEffectRecord) == Filter(section, IsSideEffectRecord)
  {
    if !PassesThrough(section) {
      var l := Flat(Grouped(section));
      GroupedHasNoSideEffect(section);
      FilterDropsAll(l, IsSideEffectRecord);
      FilterDropsAll(section, IsSideEffectRecord);
    }
  }

  predicate IsSideEffectRecord(info: ImportInfo)
  {
    info.isSideEffect
  }

  lemma {:induction false} SortedFlatSideEffects(ss: seq<seq<ImportInfo>>)
    requires forall k :: 0 <= k < |ss| ==> WellFormed(ss[k])
    ensures Filter(SortedFlat(ss), IsSideEffectRecord) == Filter(Flatten(ss), IsSideEffectRecord)
  {
    if ss != [] {
      var init, last := ss[..|ss| - 1], ss[|ss| - 1];
      SortedFlatSideEffects(init);
      SortedFlatSnoc(ss);
      FlattenSnoc(ss);
      SortedSectionSideEffects(last);
      FilterConcat(SortedFlat(init), SortedSection(last), IsSideEffectRecord);
      FilterConcat(Flatten(init), last, IsSideEffectRecord);
    }
  }

  lemma SortedFlatSnoc(ss: seq<seq<ImportInfo>>)
    requires ss != []
    ensures SortedFlat(ss) == SortedFlat(ss[..|ss| - 1]) + SortedSection(ss[|ss| - 1])
  {
    FlattenSnoc(Map(ss, SortedSection));
    MapTake(ss, SortedSection, |ss| - 1);
  }

  lemma AllSectionsSplit(infos: seq<ImportInfo>, options: Options)
    ensures SortedFlat(AllSections(infos, options))
      == SortedFlat(BodySections(BodyPool(infos, options))) + Flat(Grouped(TypePool(infos))) + StylePool(infos, options)
  {
    var types := TypePool(infos);
    var css := StylePool(infos, options);
    var body := BodySections(BodyPool(infos, options));
    var t := if |types| > 0 then [Flat(Grouped(types))] else [];
    var c := if options.groupStyleImports && |css| > 0 then [css] else [];
    assert AllSections(infos, options) == body + t + c;
    SortedFlatConcat(body + t, c);
    SortedFlatConcat(body, t);
    TypePart(types);
    StylePart(infos, options);
  }

  lemma TypePart(types: seq<ImportInfo>)
    ensures SortedFlat(if |types| > 0 then [Flat(Grouped(types))] else []) == Flat(Grouped(types))
  {
    if |types| > 0 {
      TypeSectionKept(types);
      FlattenSingle(Flat(Grouped(types)));
      assert Map([Flat(Grouped(types))], SortedSection) == [Flat(Grouped(types))];
    } else {
      assert Filter(types, NotSideEffect) == [];
      assert Grouped(types) == [];
    }
  }

  lemma StylePart(infos: seq<ImportInfo>, options: Options)
    ensures var css := StylePool(infos, options);
      SortedFlat(if options.groupStyleImports && |css| > 0 then [css] else []) == css
  {
    var css := StylePool(infos, options);
    if css != [] {
      FilterMultiset(infos, InStylePool(options));
      assert css[0] in css;
      if options.groupStyleImports {
        StyleSectionPasses(infos, options);
        FlattenSingle(css);
        assert Map([css], SortedSection) == [css];
      }
    }
  }

  lemma StyleSectionPasses(infos: seq<ImportInfo>, options: Options)
    requires StylePool(infos, options) != []
    ensures PassesThrough(StylePool(infos, options))
  {
    var css := StylePool(infos, options);
    FilterMultiset(infos, InStylePool(options));
    forall i | 0 <= i < |css|
      ensures css[i].isSideEffect
    {
      assert css[i] in css;
    }
  }

  /**
    * The fix writes every record exactly once, as long as no record is a type-only import
    * without specifiers (`groupImports` drops those from the type section).
    */
  lemma FixKeepsEveryImport(infos: seq<ImportInfo>, options: Options)
    requires forall i :: 0 <= i < |infos| ==> !(infos[i].isTypeOnly && infos[i].isSideEffect)
    ensures multiset(Flatten(Map(AllSections(infos, options), SortedSection))) == multiset(infos)
  {
    AllSectionsSplit(infos, options);
    BodyRecordsKept(BodyPool(infos, options));
    TypeRecordsKept(infos);
    PoolsPartition(infos, options);
  }

  lemma BodyRecordsKept(body: seq<ImportInfo>)
    ensures multiset(SortedFlat(BodySections(body))) == multiset(body)
  {
    BodySectionsSpec(body);
    SortedFlatPermutation(BodySections(body));
  }

  lemma TypeRecordsKept(infos: seq<ImportInfo>)
    requires forall i :: 0 <= i < |infos| ==> !(infos[i].isTypeOnly && infos[i].isSideEffect)
    ensures multiset(Flat(Grouped(TypePool(infos)))) == multiset(TypePool(infos))
  {
    var types := TypePool(infos);
    GroupingPermutation(types);
    FilterMultiset(infos, IsTypeRecord);
    forall i | 0 <= i < |types|
      ensures NotSideEffect(types[i])
    {
      assert types[i] in multiset(infos);
    }
    FilterKeepsAll(types, NotSideEffect);
  }

  /** A side effect of the body pool. */
  function BodySideEffect(options: Options): ImportInfo -> bool
  {
    (info: ImportInfo) => InBodyPool(options)(info) && info.isSideEffect
  }

  /**
    * In the fixed order the side effects are those of the body, in their original order,
    * followed by the style sheets in their original order; type-only imports without
    * specifiers are the only other side effects, and they are dropped.
    */
  lemma SideEffectsKeepOrder(infos: seq<ImportInfo>, options: Options)
    ensures Filter(Flatten(Map(AllSections(infos, options), SortedSection)), IsSideEffectRecord)
      == Filter(infos, BodySideEffect(options)) + StylePool(infos, options)
  {
    var css := StylePool(infos, options);
    var sorted := SortedFlat(BodySections(BodyPool(infos, options)));
    var types := Flat(Grouped(TypePool(infos)));
    AllSectionsSplit(infos, options);
    BodySideEffects(infos, options);
    TypeSideEffectsDropped(TypePool(infos));
    StyleSideEffects(infos, options);
    FilterAroundEmpty(sorted, types, css, IsSideEffectRecord);
  }

  lemma TypeSideEffectsDropped(types: seq<ImportInfo>)
    ensures Filter(Flat(Grouped(types)), IsSideEffectRecord) == []
  {
    GroupedHasNoSideEffect(types);
    FilterDropsAll(Flat(Grouped(types)), IsSideEffectRecord);
  }

  lemma BodySideEffects(infos: seq<ImportInfo>, options: Options)
    ensures Filter(SortedFlat(BodySections(BodyPool(infos, options))), IsSideEffectRecord)
      == Filter(infos, BodySideEffect(options))
  {
    var body := BodyPool(infos, options);
    BodySectionsSpec(body);
    SortedFlatSideEffects(BodySections(body));
    FilterFilter(infos, InBodyPool(options), IsSideEffectRecord, BodySideEffect(options));
  }

  lemma StyleSideEffects(infos: seq<ImportInfo>, options: Options)
    ensures Filter(StylePool(infos, options), IsSideEffectRecord) == StylePool(infos, options)
  {
    var css := StylePool(infos, options);
    FilterMultiset(infos, InStylePool(options));
    forall i | 0 <= i < |css|
      ensures IsSideEffectRecord(css[i])
    {
      assert css[i] in multiset(infos);
    }
    FilterKeepsAll(css, IsSideEffectRecord);
  }

  /** Every section the fix writes is sorted: sorting it again changes nothing. */
  lemma FixedSectionsStable(infos: seq<ImportInfo>, options: Options)
    ensures var ss := Map(AllSections(infos, options), SortedSection);
      forall k :: 0 <= k < |ss| ==> SortedSection(ss[k]) == ss[k]
  {
    var sections := AllSections(infos, options);
    forall k | 0 <= k < |sections|
      ensures SortedSection(SortedSection(sections[k])) == SortedSection(sections[k])
    {
      SortedSectionIdempotent(sections[k]);
    }
  }
}

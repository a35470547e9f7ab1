/**
  * The first half of `Program:exit` in `sort-import-groups`: the analysed records are
  * split into a type pool, a style-sheet pool and a body pool, and the body pool is cut
  * into sections at its side-effect imports.
  */
module Pools {
  import opened Strings
  import opened Seqs
  import opened Types
  import opened Classify

  // --------------------------------------------------------------------- the pools

  function EndsWithExtension(source: string): string -> bool
  {
    ext => EndsWith(source, ext)
  }

  /** `cssExtensions.some((ext) => source.endsWith(ext))`. */
  predicate IsStyleFile(source: string)
  {
    Any(StyleExtensions, EndsWithExtension(source))
  }

  /** The extension list of the pooling agrees with the one `analyzeImport` spells out. */
  lemma StyleFileAgrees(source: string)
    ensures IsStyleFile(source) <==> IsStyleSource(source)
  {
    var e := StyleExtensions;
    assert e[0] == ".css" && e[1] == ".scss" && e[2] == ".sass" && e[3] == ".less";
    if IsStyleSource(source) {
      if EndsWith(source, ".css") {
        assert EndsWithExtension(source)(e[0]);
      } else if EndsWith(source, ".scss") {
        assert EndsWithExtension(source)(e[1]);
      } else if EndsWith(source, ".sass") {
        assert EndsWithExtension(source)(e[2]);
      } else {
        assert EndsWithExtension(source)(e[3]);
      }
    }
  }

  predicate IsTypeRecord(info: ImportInfo)
  {
    info.isTypeOnly
  }

  /** `isCssImport` of the pooling loop. */
  predicate IsStyleImport(info: ImportInfo, options: Options)
  {
    options.groupStyleImports && info.isSideEffect && IsStyleFile(info.source)
  }

  function InStylePool(options: Options): ImportInfo -> bool
  {
    (info: ImportInfo) => !info.isTypeOnly && IsStyleImport(info, options)
  }

  function InBodyPool(options: Options): ImportInfo -> bool
  {
    (info: ImportInfo) => !info.isTypeOnly && !IsStyleImport(info, options)
  }

  function TypePool(infos: seq<ImportInfo>): seq<ImportInfo>
  {
    Filter(infos, IsTypeRecord)
  }

  function StylePool(infos: seq<ImportInfo>, options: Options): seq<ImportInfo>
  {
    Filter(infos, InStylePool(options))
  }

  function BodyPool(infos: seq<ImportInfo>, options: Options): seq<ImportInfo>
  {
    Filter(infos, InBodyPool(options))
  }

  /** The pooling loop: each record goes to the type, style-sheet or body pool. */
  method SplitPools(infos: seq<ImportInfo>, options: Options)
    returns (typeImports: seq<ImportInfo>, cssImports: seq<ImportInfo>, nonCssImports: seq<ImportInfo>)
    ensures typeImports == TypePool(infos)
    ensures cssImports == StylePool(infos, options)
    ensures nonCssImports == BodyPool(infos, options)
  {
    typeImports, cssImports, nonCssImports := [], [], [];
    for i := 0 to |infos|
      invariant typeImports == TypePool(infos[..i])
      invariant cssImports == StylePool(infos[..i], options)
      invariant nonCssImports == BodyPool(infos[..i], options)
    {
      var info := infos[i];
      var isTypeImport := info.isTypeOnly;
      var isCssImport := options.groupStyleImports && info.isSideEffect && IsStyleFile(info.source);
      if isTypeImport {
        typeImports := typeImports + [info];
      } else if isCssImport {
        cssImports := cssImports + [info];
      } else {
        nonCssImports := nonCssImports + [info];
      }
      TakeSnoc(infos, i);
    }
    TakeAll(infos);
  }

  /** Every record lands in exactly one pool. */
  lemma PoolsPartition(infos: seq<ImportInfo>, options: Options)
    ensures multiset(TypePool(infos)) + multiset(StylePool(infos, options)) + multiset(BodyPool(infos, options))
      == multiset(infos)
  {
    var notType := (info: ImportInfo) => !info.isTypeOnly;
    FilterUnion(infos, InStylePool(options), InBodyPool(options), notType);
    var all := (info: ImportInfo) => true;
    FilterUnion(infos, IsTypeRecord, notType, all);
    FilterKeepsAll(infos, all);
  }

  /** The style-sheet pool holds exactly the style-sheet side effects, and only when the option is on. */
  lemma StylePoolContents(infos: seq<ImportInfo>, options: Options)
    ensures forall x :: x in StylePool(infos, options) <==>
      x in infos && !x.isTypeOnly && x.isSideEffect && IsStyleSource(x.source) && options.groupStyleImports
  {
    FilterMultiset(infos, InStylePool(options));
    forall x: ImportInfo
      ensures IsStyleFile(x.source) <==> IsStyleSource(x.source)
    {
      StyleFileAgrees(x.source);
    }
  }

  // ------------------------------------------------------------------ the sections

  /** The sectioning loop's state: the finished sections and the open run. */
  datatype Sectioning = Sectioning(sections: seq<seq<ImportInfo>>, current: seq<ImportInfo>)

  /** A side effect closes the open run, if any, and forms a section of its own. */
  function SectionStep(st: Sectioning, info: ImportInfo): Sectioning
  {
    if info.isSideEffect then
      Sectioning((if |st.current| > 0 then st.sections + [st.current] else st.sections) + [[info]], [])
    else
      st.(current := st.current + [info])
  }

  function SectionState(body: seq<ImportInfo>): Sectioning
  {
    if body == [] then Sectioning([], [])
    else SectionStep(SectionState(body[..|body| - 1]), body[|body| - 1])
  }

  /** The body sections: the finished sections and the last run, if any. */
  function BodySections(body: seq<ImportInfo>): seq<seq<ImportInfo>>
  {
    var st := SectionState(body);
    if |st.current| > 0 then st.sections + [st.current] else st.sections
  }

  /** The sectioning loop. */
  method BuildSections(body: seq<ImportInfo>) returns (sections: seq<seq<ImportInfo>>)
    ensures sections == BodySections(body)
  {
    sections := [];
    var currentSection: seq<ImportInfo> := [];
    for i := 0 to |body|
      invariant Sectioning(sections, currentSection) == SectionState(body[..i])
    {
      var info := body[i];
      if info.isSideEffect {
        if |currentSection| > 0 {
          sections := sections + [currentSection];
          currentSection := [];
        }
        sections := sections + [[info]];
      } else {
        currentSection := currentSection + [info];
      }
      TakeSnoc(body, i);
    }
    TakeAll(body);
    if |currentSection| > 0 {
      sections := sections + [currentSection];
    }
  }

  predicate IsSideEffectSingleton(section: seq<ImportInfo>)
  {
    |section| == 1 && section[0].isSideEffect
  }

  predicate NoSideEffect(section: seq<ImportInfo>)
  {
    forall i :: 0 <= i < |section| ==> !section[i].isSideEffect
  }

  /** A section is a lone side effect or a non-empty run without side effects. */
  predicate WellFormed(section: seq<ImportInfo>)
  {
    IsSideEffectSingleton(section) || (|section| > 0 && NoSideEffect(section))
  }

  /** No two runs are adjacent: every boundary has a lone side effect on one side. */
  predicate Maximal(sections: seq<seq<ImportInfo>>)
  {
    forall k :: 0 <= k < |sections| - 1 ==> IsSideEffectSingleton(sections[k]) || IsSideEffectSingleton(sections[k + 1])
  }

  predicate StateInvariant(st: Sectioning)
  {
    && (forall k :: 0 <= k < |st.sections| ==> WellFormed(st.sections[k]))
    && Maximal(st.sections)
    && NoSideEffect(st.current)
    && (st.sections != [] ==> IsSideEffectSingleton(st.sections[|st.sections| - 1]))
  }

  lemma StepKeepsInvariant(st: Sectioning, x: ImportInfo)
    requires StateInvariant(st)
    ensures StateInvariant(SectionStep(st, x))
  {
    if x.isSideEffect {
      var closed := if |st.current| > 0 then st.sections + [st.current] else st.sections;
      var next := closed + [[x]];
      forall k | 0 <= k < |next|
        ensures WellFormed(next[k])
      {
        if k < |st.sections| {
          assert next[k] == st.sections[k];
        }
      }
      forall k | 0 <= k < |next| - 1
        ensures IsSideEffectSingleton(next[k]) || IsSideEffectSingleton(next[k + 1])
      {
        if k + 1 < |st.sections| {
          assert next[k] == st.sections[k] && next[k + 1] == st.sections[k + 1];
        } else if k + 1 == |st.sections| {
          assert next[k] == st.sections[k];
        } else {
          assert next[k + 1] == [x];
        }
      }
    }
  }

  lemma StepKeepsContents(st: Sectioning, x: ImportInfo)
    ensures Flatten(SectionStep(st, x).sections) + SectionStep(st, x).current
      == Flatten(st.sections) + st.current + [x]
  {
    if x.isSideEffect {
      var closed := if |st.current| > 0 then st.sections + [st.current] else st.sections;
      FlattenSnoc(closed + [[x]]);
      assert (closed + [[x]])[..|closed|] == closed;
      if |st.current| > 0 {
        FlattenSnoc(closed);
        assert closed[..|st.sections|] == st.sections;
      }
    }
  }

  lemma {:induction false} SectionStateInvariant(body: seq<ImportInfo>)
    ensures StateInvariant(SectionState(body))
    ensures Flatten(SectionState(body).sections) + SectionState(body).current == body
  {
    if body != [] {
      var init, x := body[..|body| - 1], body[|body| - 1];
      SectionStateInvariant(init);
      StepKeepsInvariant(SectionState(init), x);
      StepKeepsContents(SectionState(init), x);
      SnocSplit(body);
    }
  }

  /**
    * Sectioning loses and reorders nothing, and it cuts exactly at the side effects: each
    * side effect is a section of its own and each maximal run between them is one section.
    */
  lemma BodySectionsSpec(body: seq<ImportInfo>)
    ensures Flatten(BodySections(body)) == body
    ensures forall k :: 0 <= k < |BodySections(body)| ==> WellFormed(BodySections(body)[k])
    ensures Maximal(BodySections(body))
  {
    var st := SectionState(body);
    SectionStateInvariant(body);
    if |st.current| > 0 {
      FlattenSnoc(st.sections + [st.current]);
      assert (st.sections + [st.current])[..|st.sections|] == st.sections;
    }
  }
}

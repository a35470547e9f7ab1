/**
  * The `sort-import-groups` rule: it collects every import declaration of a file and, when
  * the program has been visited, either reports that the imports are out of order (with a
  * fix that rewrites all of them) or reports the first blank-line problem between two
  * neighbouring imports.
  */
module SortImportGroups {
  import opened Seqs
  import opened Types
  import opened Classify
  import opened Grouping
  import opened Format
  import opened Pools
  import opened Reorder
  import opened BlankLines
  import opened Render

  /** The options a configuration passes; an absent key keeps the rule's default. */
  datatype GivenOptions = GivenOptions(
    localPatterns: Option<seq<string>>,
    builtinModulePrefixes: Option<seq<string>>,
    groupStyleImports: Option<bool>)

  /** The defaults spread under the configured options. */
  function Merged(given: GivenOptions): (o: Options)
    ensures given.localPatterns.Some? ==> o.localPatterns == given.localPatterns.value
    ensures given.localPatterns.None? ==> o.localPatterns == DefaultOptions.localPatterns
    ensures given.builtinModulePrefixes.Some? ==> o.builtinModulePrefixes == given.builtinModulePrefixes.value
    ensures given.builtinModulePrefixes.None? ==> o.builtinModulePrefixes == DefaultOptions.builtinModulePrefixes
    ensures given.groupStyleImports.Some? ==> o.groupStyleImports == given.groupStyleImports.value
    ensures given.groupStyleImports.None? ==> o.groupStyleImports
  {
    Options(
      if given.localPatterns.Some? then given.localPatterns.value else [],
      if given.builtinModulePrefixes.Some? then given.builtinModulePrefixes.value else ["node:", "bun:"],
      if given.groupStyleImports.Some? then given.groupStyleImports.value else true)
  }

  /** `analyzeImport` with the rule's options, as `imports.map` applies it. */
  function Analyzer(options: Options): Declaration -> ImportInfo
  {
    d => AnalyzeImport(d, options)
  }

  function Infos(decls: seq<Declaration>, options: Options): seq<ImportInfo>
  {
    Map(decls, Analyzer(options))
  }

  /** Some declaration holds an inline `type` specifier. */
  predicate AnyInlineType(decls: seq<Declaration>)
  {
    exists i :: 0 <= i < |decls| && HasInlineType(decls[i])
  }

  /** From the start of the first declaration to the end of the last. */
  function ImportsRange(decls: seq<Declaration>): Range
    requires |decls| > 0
  {
    Range(decls[0].range.start, decls[|decls| - 1].range.end)
  }

  /** The sections the fix writes, each sorted. */
  function FixSections(infos: seq<ImportInfo>, options: Options): seq<seq<ImportInfo>>
  {
    Map(AllSections(infos, options), SortedSection)
  }

  /**
    * The report for the analysed imports: out of order, with the fix over `whole`, reported
    * on `first`, or else the first blank-line problem.
    */
  function InfosReport(infos: seq<ImportInfo>, options: Options, first: Range, whole: Range,
                       hasFollowingStatements: bool): Option<Report>
  {
    if NeedsReordering(infos, options) then
      Some(Report(ImportGroupsNotSorted, first,
        Fix(whole, FixText(FixSections(infos, options), hasFollowingStatements, true))))
    else FirstGapReport(infos, 1)
  }

  /** The report of `Program:exit` for the declarations `decls`, if any. */
  function GroupsReport(decls: seq<Declaration>, options: Options, hasFollowingStatements: bool): Option<Report>
  {
    if |decls| <= 1 || AnyInlineType(decls) then None
    else InfosReport(Infos(decls, options), options, decls[0].range, ImportsRange(decls), hasFollowingStatements)
  }

  /** What `Program:exit` does once the imports are analysed. */
  method ReportInfos(importInfos: seq<ImportInfo>, options: Options, first: Range, whole: Range,
                     hasFollowingStatements: bool) returns (report: Option<Report>)
    ensures report == InfosReport(importInfos, options, first, whole, hasFollowingStatements)
  {
    var sortedSections, needsReordering := DecideReordering(importInfos, options);
    if !needsReordering {
      report := CheckBlankLines(importInfos);
      if report.Some? {
        return;
      }
    }
    if needsReordering {
      var text := RenderFix(sortedSections, hasFollowingStatements);
      return Some(Report(ImportGroupsNotSorted, first, Fix(whole, text)));
    }
    return None;
  }

  /** The rule's state: its options and the declarations visited so far. */
  class GroupsRule {
    const options: Options
    var imports: seq<Declaration>

    /** `create`: the options are merged with the defaults and no import is seen yet. */
    constructor (given: GivenOptions)
      ensures options == Merged(given) && imports == []
    {
      options := Merged(given);
      imports := [];
    }

    /** The `ImportDeclaration` visitor. */
    method ImportDeclaration(node: Declaration)
      modifies this
      ensures imports == old(imports) + [node]
    {
      imports := imports + [node];
    }

    /** `Program:exit`; whether statements follow the last import is given. */
    method ProgramExit(hasFollowingStatements: bool) returns (report: Option<Report>)
      ensures report == GroupsReport(imports, options, hasFollowingStatements)
    {
      if |imports| <= 1 {
        return None;
      }
      if AnyInlineType(imports) {
        return None;
      }
      var importInfos := Map(imports, Analyzer(options));
      var range := Range(imports[0].range.start, imports[|imports| - 1].range.end);
      report := ReportInfos(importInfos, options, imports[0].range, range, hasFollowingStatements);
    }
  }

  // ------------------------------------------------------------------ properties

  /**
    * With two imports or more and no inline `type` specifier, the rule reports out-of-order
    * imports exactly when they need reordering, a blank-line problem exactly when they are in
    * order and some neighbouring pair has a gap that is not the expected one, and nothing
    * exactly when they are in order and every gap is the expected one.
    */
  lemma ReportKinds(decls: seq<Declaration>, options: Options, hasFollowingStatements: bool)
    requires |decls| > 1 && !AnyInlineType(decls)
    ensures var r := GroupsReport(decls, options, hasFollowingStatements);
      var infos := Infos(decls, options);
      && (r.Some? && r.value.messageId == ImportGroupsNotSorted <==> NeedsReordering(infos, options))
      && (r.None? <==> !NeedsReordering(infos, options) && forall j :: 1 <= j < |infos| ==> GapOk(infos, j))
      && (r.Some? && r.value.messageId != ImportGroupsNotSorted ==>
            r.value.messageId in {MissingBlankLine, UnexpectedBlankLine})
  {
    InfosReportKinds(Infos(decls, options), options, decls[0].range, ImportsRange(decls), hasFollowingStatements);
  }

  lemma InfosReportKinds(infos: seq<ImportInfo>, options: Options, first: Range, whole: Range,
                         hasFollowingStatements: bool)
    ensures var r := InfosReport(infos, options, first, whole, hasFollowingStatements);
      && (r.Some? && r.value.messageId == ImportGroupsNotSorted <==> NeedsReordering(infos, options))
      && (r.None? <==> !NeedsReordering(infos, options) && forall j :: 1 <= j < |infos| ==> GapOk(infos, j))
      && (r.Some? && r.value.messageId != ImportGroupsNotSorted ==>
            r.value.messageId in {MissingBlankLine, UnexpectedBlankLine})
  {
    if !NeedsReordering(infos, options) {
      GapReportKinds(infos);
    }
  }

  /** The blank-line check finds nothing exactly when every gap is the expected one. */
  lemma GapReportKinds(infos: seq<ImportInfo>)
    ensures var r := FirstGapReport(infos, 1);
      && (r.None? <==> forall j :: 1 <= j < |infos| ==> GapOk(infos, j))
      && (r.Some? ==> r.value.messageId in {MissingBlankLine, UnexpectedBlankLine})
  {
    FirstGapReportSpec(infos, 1);
    var r := FirstGapReport(infos, 1);
    if r.Some? {
      var j :| 1 <= j < |infos| && !GapOk(infos, j) && forall m :: 1 <= m < j ==> GapOk(infos, m);
      GapReportSpec(infos[j - 1], infos[j]);
    }
  }

  /** A single import, or an inline `type` specifier anywhere, is left to other rules. */
  lemma SkippedDeclarations(decls: seq<Declaration>, options: Options, hasFollowingStatements: bool)
    requires |decls| <= 1 || AnyInlineType(decls)
    ensures GroupsReport(decls, options, hasFollowingStatements).None?
  {
  }

  /**
    * The out-of-order report is on the first import and its fix replaces everything from
    * the first import to the last.
    */
  lemma ReorderReportSpan(decls: seq<Declaration>, options: Options, hasFollowingStatements: bool)
    requires |decls| > 1
    ensures var r := GroupsReport(decls, options, hasFollowingStatements);
      r.Some? && r.value.messageId == ImportGroupsNotSorted ==>
        r.value.node == decls[0].range
        && r.value.fix.range.start == decls[0].range.start
        && r.value.fix.range.end == decls[|decls| - 1].range.end
  {
    var infos := Infos(decls, options);
    var r := GroupsReport(decls, options, hasFollowingStatements);
    if r.Some? && r.value.messageId == ImportGroupsNotSorted && !NeedsReordering(infos, options) {
      ReportKinds(decls, options, hasFollowingStatements);
    }
  }

  /**
    * The lines of the fix the rule writes: their statements are those of the sorted
    * sections in order, one per import of the file except type-only imports without
    * specifiers, and neither the first nor the last line is blank. (Two blank lines in a row
    * are ruled out only for the corrected lines: `CorrectedLinesTidy`.)
    */
  lemma FixLinesSpec(infos: seq<ImportInfo>, options: Options)
    requires forall i :: 0 <= i < |infos| ==> !(infos[i].isTypeOnly && infos[i].isSideEffect)
    ensures var ss := FixSections(infos, options);
      var lines := Lines(ss, |ss|, true);
      && Filter(lines, IsStatementLine) == Map(Flatten(ss), Statement)
      && multiset(Flatten(ss)) == multiset(infos)
      && NoBlankEnds(lines)
  {
    var ss := FixSections(infos, options);
    LinesStatements(ss, |ss|, true);
    assert ss[..|ss|] == ss;
    FixedSectionsStable(infos, options);
    assert Map(ss, SortedSection) == ss;
    FixKeepsEveryImport(infos, options);
    WrittenLinesFramed(ss);
  }

  /**
    * The fixed imports are in order: analysed again, no section is out of order, so a second
    * pass reports no reordering of any section.
    */
  lemma FixedSectionsInOrder(infos: seq<ImportInfo>, options: Options)
    ensures var ss := FixSections(infos, options);
      forall k :: 0 <= k < |ss| ==> !OutOfOrder(ss[k])
  {
    var ss := FixSections(infos, options);
    FixedSectionsStable(infos, options);
    forall k | 0 <= k < |ss|
      ensures !OutOfOrder(ss[k])
    {
      assert SortedSection(ss[k]) == ss[k];
    }
  }
}

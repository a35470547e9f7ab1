/**
  * The fix text of `sort-import-groups`: the sorted sections written out statement by
  * statement, with blank lines between groups and around the side-effect sections, and a
  * final line break when code follows the imports.
  *
  * The rule pushes a blank line before the style-sheet and the type section after any
  * line, even when the side-effect import before it has already pushed one, and even
  * between a lone side effect and the style-sheet section, whose imports the blank-line
  * check wants on adjacent lines. `Lines` takes `asWritten` to model both the rule as
  * written, which the methods below implement, and the corrected rendering, which pushes
  * those blank lines only after a statement that is not a lone side effect's.
  */
module Render {
  import opened Strings
  import opened Seqs
  import opened Types
  import opened Grouping
  import opened Format
  import opened Pools
  import opened Reorder
  import opened BlankLines

  /** Neither a lone side effect nor a section of side effects (an empty section included). */
  predicate IsRegular(section: seq<ImportInfo>)
  {
    !IsSideEffectSingleton(section) && !AllSideEffect(section)
  }

  predicate AllTypeOnly(section: seq<ImportInfo>)
  {
    forall i :: 0 <= i < |section| ==> section[i].isTypeOnly
  }

  /** The lines of some groups: each group's statements, with a blank line between groups. */
  function GroupLines(gs: seq<ImportGroup>): seq<string>
  {
    if gs == [] then []
    else
      var init := gs[..|gs| - 1];
      GroupLines(init) + (if |init| > 0 then [""] else []) + Map(gs[|gs| - 1].imports, Statement)
  }

  /** The blank line pushed before a style-sheet or type section, as the rule writes it. */
  function BlankAsWritten(result: seq<string>): seq<string>
  {
    if |result| > 0 then [""] else []
  }

  /** The same blank line, pushed only when the last line is a statement. */
  function BlankCorrected(result: seq<string>): seq<string>
  {
    if |result| > 0 && result[|result| - 1] != "" then [""] else []
  }

  function Lead(result: seq<string>, asWritten: bool): seq<string>
  {
    if asWritten then BlankAsWritten(result) else BlankCorrected(result)
  }

  /**
    * The blank line before the style-sheet section: as written, after any line; corrected,
    * only after a statement and not right after a lone side effect.
    */
  function StyleSheetLead(ss: seq<seq<ImportInfo>>, k: nat, result: seq<string>, asWritten: bool): (lead: seq<string>)
    requires k < |ss|
    ensures lead == [] || lead == Lead(result, asWritten)
  {
    if k > 0 && (asWritten || !IsSideEffectSingleton(ss[k - 1])) then Lead(result, asWritten) else []
  }

  /** The lines the rendering loop pushes for section `k`, after the lines `result`. */
  function SectionLines(ss: seq<seq<ImportInfo>>, k: nat, result: seq<string>, asWritten: bool): seq<string>
    requires k < |ss|
  {
    var section := ss[k];
    if IsSideEffectSingleton(section) then
      (if k > 0 && IsRegular(ss[k - 1]) && |result| > 0 then [""] else [])
      + [Statement(section[0])]
      + (if k + 1 < |ss| && IsRegular(ss[k + 1]) then [""] else [])
    else if |section| > 0 && AllSideEffect(section) then
      (if k > 0 && (asWritten || !IsSideEffectSingleton(ss[k - 1])) then Lead(result, asWritten) else [])
      + Map(section, Statement)
    else if |section| > 0 && AllTypeOnly(section) then
      (if k > 0 then Lead(result, asWritten) else []) + GroupLines(Grouped(section))
    else
      GroupLines(Grouped(section))
  }

  /** The lines pushed for the first `n` sections. */
  function Lines(ss: seq<seq<ImportInfo>>, n: nat, asWritten: bool): seq<string>
    requires n <= |ss|
  {
    if n == 0 then []
    else
      var result := Lines(ss, n - 1, asWritten);
      result + SectionLines(ss, n - 1, result, asWritten)
  }

  /** The lines joined, and a final line break unless the last section is all side effects. */
  function FixText(ss: seq<seq<ImportInfo>>, hasFollowingStatements: bool, asWritten: bool): string
  {
    Join(Lines(ss, |ss|, asWritten), "\n")
      + (if hasFollowingStatements && !(|ss| > 0 && AllSideEffect(ss[|ss| - 1])) then "\n" else "")
  }

  // ------------------------------------------------------------------ the methods

  /** `result.push(formatImportStatement(...))` for each record in turn. */
  method PushStatements(result: seq<string>, infos: seq<ImportInfo>) returns (r: seq<string>)
    ensures r == result + Map(infos, Statement)
  {
    r := result;
    for i := 0 to |infos|
      invariant r == result + Map(infos[..i], Statement)
    {
      var text := FormatImportStatement(infos[i]);
      r := r + [text];
      MapConcat(infos[..i], [infos[i]], Statement);
      TakeSnoc(infos, i);
    }
    TakeAll(infos);
  }

  /** The loop over the groups of a section, with a blank line before every group but the first. */
  method PushGroupLines(result: seq<string>, groups: seq<ImportGroup>) returns (r: seq<string>)
    ensures r == result + GroupLines(groups)
  {
    r := result;
    for groupIndex := 0 to |groups|
      invariant r == result + GroupLines(groups[..groupIndex])
    {
      ghost var before := r;
      if groupIndex > 0 {
        r := r + [""];
      }
      ghost var separated := r;
      r := PushStatements(r, groups[groupIndex].imports);
      GroupLinesSnoc(result, before, separated, r, groups, groupIndex);
    }
    TakeAll(groups);
  }

  lemma GroupLinesSnoc(result: seq<string>, before: seq<string>, separated: seq<string>, after: seq<string>,
                       gs: seq<ImportGroup>, i: nat)
    requires i < |gs|
    requires before == result + GroupLines(gs[..i])
    requires separated == before + (if i > 0 then [""] else [])
    requires after == separated + Map(gs[i].imports, Statement)
    ensures after == result + GroupLines(gs[..i + 1])
  {
    var sep: seq<string> := if i > 0 then [""] else [];
    var m := Map(gs[i].imports, Statement);
    assert gs[..i + 1][..i] == gs[..i];
    assert GroupLines(gs[..i + 1]) == GroupLines(gs[..i]) + sep + m;
    ConcatAssoc4(result, GroupLines(gs[..i]), sep, m);
  }

  /** The body of the rendering loop for section `k`. */
  method RenderSection(ss: seq<seq<ImportInfo>>, k: nat, result: seq<string>) returns (r: seq<string>)
    requires k < |ss|
    ensures r == result + SectionLines(ss, k, result, true)
  {
    var section := ss[k];
    if |section| == 1 && section[0].isSideEffect {
      r := RenderSideEffect(ss, k, result);
    } else if |section| > 0 && AllSideEffect(section) {
      r := RenderStyleSheets(ss, k, result);
    } else {
      r := RenderGroups(ss, k, result);
    }
  }

  /** A lone side effect, with a blank line on each side that borders a regular section. */
  method RenderSideEffect(ss: seq<seq<ImportInfo>>, k: nat, result: seq<string>) returns (r: seq<string>)
    requires k < |ss| && IsSideEffectSingleton(ss[k])
    ensures r == result + SectionLines(ss, k, result, true)
  {
    var prevSectionIsRegular := k > 0 && IsRegular(ss[k - 1]);
    var nextSectionIsRegular := k + 1 < |ss| && IsRegular(ss[k + 1]);
    r := result;
    if prevSectionIsRegular && |r| > 0 {
      r := r + [""];
    }
    var text := FormatImportStatement(ss[k][0]);
    r := r + [text];
    if nextSectionIsRegular {
      r := r + [""];
    }
  }

  /** The style-sheet section: its statements in pool order, after a blank line. */
  method RenderStyleSheets(ss: seq<seq<ImportInfo>>, k: nat, result: seq<string>) returns (r: seq<string>)
    requires k < |ss| && !IsSideEffectSingleton(ss[k]) && |ss[k]| > 0 && AllSideEffect(ss[k])
    ensures r == result + SectionLines(ss, k, result, true)
  {
    ghost var lead := if k > 0 then BlankAsWritten(result) else [];
    r := result;
    if k > 0 && |r| > 0 {
      r := r + [""];
    }
    assert r == result + lead;
    r := PushStatements(r, ss[k]);
    ConcatAssoc(result, lead, Map(ss[k], Statement));
    StyleSheetLines(ss, k, result);
  }

  /** The lines of the style-sheet section: a blank line after any line, then its statements. */
  lemma StyleSheetLines(ss: seq<seq<ImportInfo>>, k: nat, result: seq<string>)
    requires k < |ss| && !IsSideEffectSingleton(ss[k]) && |ss[k]| > 0 && AllSideEffect(ss[k])
    ensures SectionLines(ss, k, result, true)
      == (if k > 0 then BlankAsWritten(result) else []) + Map(ss[k], Statement)
  {
  }

  /** The type section, after a blank line, or a regular section: its groups' statements. */
  method RenderGroups(ss: seq<seq<ImportInfo>>, k: nat, result: seq<string>) returns (r: seq<string>)
    requires k < |ss| && !IsSideEffectSingleton(ss[k]) && !(|ss[k]| > 0 && AllSideEffect(ss[k]))
    ensures r == result + SectionLines(ss, k, result, true)
  {
    var section := ss[k];
    ghost var lead := if |section| > 0 && AllTypeOnly(section) && k > 0 then BlankAsWritten(result) else [];
    r := result;
    if |section| > 0 && AllTypeOnly(section) {
      if k > 0 && |r| > 0 {
        r := r + [""];
      }
    }
    assert r == result + lead;
    var groups := GroupImports(section);
    r := PushGroupLines(r, groups);
    ConcatAssoc(result, lead, GroupLines(groups));
    GroupsSectionLines(ss, k, result, true);
  }

  /** The rendering loop: each section's lines in turn. */
  method RenderLines(sortedSections: seq<seq<ImportInfo>>) returns (result: seq<string>)
    ensures result == Lines(sortedSections, |sortedSections|, true)
  {
    result := [];
    for sectionIndex := 0 to |sortedSections|
      invariant result == Lines(sortedSections, sectionIndex, true)
    {
      result := RenderSection(sortedSections, sectionIndex, result);
    }
  }

  /** The fix text the rule writes over the imports. */
  method RenderFix(sortedSections: seq<seq<ImportInfo>>, hasFollowingStatements: bool) returns (text: string)
    ensures text == FixText(sortedSections, hasFollowingStatements, true)
  {
    var result := RenderLines(sortedSections);
    text := Join(result, "\n");
    if hasFollowingStatements {
      var isLastSectionSideEffect := |sortedSections| > 0 && AllSideEffect(sortedSections[|sortedSections| - 1]);
      if !isLastSectionSideEffect {
        text := text + "\n";
      }
    }
  }

  // ------------------------------------------------------------------ properties

  predicate IsStatementLine(line: string)
  {
    line != ""
  }

  /** No two blank lines in a row. */
  ghost predicate NoDoubleBlank(lines: seq<string>)
  {
    forall i, j :: 0 <= i < j < |lines| && j == i + 1 ==> lines[i] != "" || lines[j] != ""
  }

  /** Not empty, and neither the first nor the last line is blank. */
  predicate Framed(lines: seq<string>)
  {
    |lines| > 0 && lines[0] != "" && lines[|lines| - 1] != ""
  }

  lemma StatementLine(info: ImportInfo)
    ensures Statement(info) != ""
  {
    assert |Statement(info)| >= |"import "|;
  }

  lemma StatementsFilled(infos: seq<ImportInfo>)
    ensures forall i :: 0 <= i < |infos| ==> Map(infos, Statement)[i] != ""
    ensures Filter(Map(infos, Statement), IsStatementLine) == Map(infos, Statement)
  {
    forall i | 0 <= i < |infos|
      ensures Map(infos, Statement)[i] != ""
    {
      StatementLine(infos[i]);
    }
    FilterKeepsAll(Map(infos, Statement), IsStatementLine);
  }

  /** Two blocks without double blanks, not both blank where they meet, make one. */
  lemma NoDoubleBlankConcat(a: seq<string>, b: seq<string>)
    requires NoDoubleBlank(a) && NoDoubleBlank(b)
    requires |a| > 0 && |b| > 0 ==> a[|a| - 1] != "" || b[0] != ""
    ensures NoDoubleBlank(a + b)
  {
    var c := a + b;
    forall i, j | 0 <= i < j < |c| && j == i + 1
      ensures c[i] != "" || c[j] != ""
    {
      if j < |a| {
        assert c[i] == a[i] && c[j] == a[j];
      } else if j == |a| {
        assert c[i] == a[|a| - 1] && c[j] == b[0];
      } else {
        assert c[i] == b[i - |a|] && c[j] == b[j - |a|];
      }
    }
  }

  /**
    * The lines of non-empty groups: no two blank lines in a row, and, when there is a group,
    * a statement first and last.
    */
  lemma {:induction false} GroupLinesShape(gs: seq<ImportGroup>)
    requires forall i :: 0 <= i < |gs| ==> |gs[i].imports| > 0
    ensures NoDoubleBlank(GroupLines(gs))
    ensures gs != [] ==> Framed(GroupLines(gs))
  {
    if gs != [] {
      var init := gs[..|gs| - 1];
      var block := Map(gs[|gs| - 1].imports, Statement);
      GroupLinesShape(init);
      StatementsFilled(gs[|gs| - 1].imports);
      var sep: seq<string> := if |init| > 0 then [""] else [];
      NoDoubleBlankConcat(GroupLines(init), sep);
      NoDoubleBlankConcat(GroupLines(init) + sep, block);
      assert GroupLines(gs) == GroupLines(init) + sep + block;
    }
  }

  /** The statement lines of some groups are those of their records, group after group. */
  lemma {:induction false} GroupLinesStatements(gs: seq<ImportGroup>)
    ensures Filter(GroupLines(gs), IsStatementLine) == Map(Flat(gs), Statement)
  {
    if gs != [] {
      var init, last := gs[..|gs| - 1], gs[|gs| - 1];
      GroupLinesStatements(init);
      GroupLinesStep(gs);
    }
  }

  lemma GroupLinesStep(gs: seq<ImportGroup>)
    requires gs != []
    requires Filter(GroupLines(gs[..|gs| - 1]), IsStatementLine) == Map(Flat(gs[..|gs| - 1]), Statement)
    ensures Filter(GroupLines(gs), IsStatementLine) == Map(Flat(gs), Statement)
  {
    var init, last := gs[..|gs| - 1], gs[|gs| - 1];
    var sep: seq<string> := if |init| > 0 then [""] else [];
    var m := Map(last.imports, Statement);
    assert GroupLines(gs) == GroupLines(init) + sep + m;
    StatementsFilled(last.imports);
    BlankFiltered(sep);
    FilterAroundEmpty(GroupLines(init), sep, m, IsStatementLine);
    FlatSnoc(gs);
    MapConcat(Flat(init), last.imports, Statement);
  }

  /** Every group `groupImports` makes holds a record. */
  lemma GroupsHoldRecords(section: seq<ImportInfo>)
    ensures forall i :: 0 <= i < |Grouped(section)| ==> |Grouped(section)[i].imports| > 0
  {
    var gs := Grouped(section);
    forall i | 0 <= i < |gs|
      ensures |gs[i].imports| > 0
    {
      GroupAt(section, i);
    }
  }

  /** Some group exists unless every record is a side effect. */
  lemma GroupedNonEmpty(section: seq<ImportInfo>)
    requires !AllSideEffect(section)
    ensures Grouped(section) != []
  {
    var j :| 0 <= j < |section| && !section[j].isSideEffect;
    var l := Flat(Grouped(section));
    GroupingPermutation(section);
    FilterMultiset(section, NotSideEffect);
    var x := section[j];
    assert x in section && NotSideEffect(x);
    assert x in Filter(section, NotSideEffect);
    assert x in multiset(l);
    NoGroupsNoRecords();
  }

  lemma NoGroupsNoRecords()
    ensures Flat([]) == []
  {
    assert Map([], ImportsOf) == [];
  }

  lemma BlankFiltered(b: seq<string>)
    requires b == [] || b == [""]
    ensures Filter(b, IsStatementLine) == []
  {
    if b != [] {
      assert b[..0] == [];
    }
  }

  lemma LeadIsBlank(result: seq<string>, asWritten: bool)
    ensures Lead(result, asWritten) == [] || Lead(result, asWritten) == [""]
  {
  }

  /** The statement lines pushed for a section are its records' statements, in fix order. */
  lemma SectionStatements(ss: seq<seq<ImportInfo>>, k: nat, result: seq<string>, asWritten: bool)
    requires k < |ss|
    ensures Filter(SectionLines(ss, k, result, asWritten), IsStatementLine) == Map(SortedSection(ss[k]), Statement)
  {
    if IsSideEffectSingleton(ss[k]) {
      SideEffectStatements(ss, k, result, asWritten);
    } else {
      LeadIsBlank(result, asWritten);
      if |ss[k]| > 0 && AllSideEffect(ss[k]) {
        StyleSheetStatements(ss, k, result, asWritten);
      } else {
        var lead: seq<string> := if k > 0 then Lead(result, asWritten) else [];
        BlankFiltered(lead);
        GroupStatements(ss, k, lead, result, asWritten);
      }
    }
  }

  lemma SideEffectStatements(ss: seq<seq<ImportInfo>>, k: nat, result: seq<string>, asWritten: bool)
    requires k < |ss| && IsSideEffectSingleton(ss[k])
    ensures Filter(SectionLines(ss, k, result, asWritten), IsStatementLine) == Map(SortedSection(ss[k]), Statement)
  {
    var section := ss[k];
    var lead: seq<string> := if k > 0 && IsRegular(ss[k - 1]) && |result| > 0 then [""] else [];
    var trail: seq<string> := if k + 1 < |ss| && IsRegular(ss[k + 1]) then [""] else [];
    assert SectionLines(ss, k, result, asWritten) == lead + [Statement(section[0])] + trail;
    assert SortedSection(section) == [section[0]];
    LoneStatementFiltered(lead, section[0], trail);
  }

  /** A statement between blank leads and trails filters back to the statement. */
  lemma LoneStatementFiltered(lead: seq<string>, info: ImportInfo, trail: seq<string>)
    requires lead == [] || lead == [""]
    requires trail == [] || trail == [""]
    ensures Filter(lead + [Statement(info)] + trail, IsStatementLine) == Map([info], Statement)
  {
    BlankFiltered(lead);
    BlankFiltered(trail);
    StatementsFilled([info]);
    assert Map([info], Statement) == [Statement(info)];
    FilterConcat3(lead, [Statement(info)], trail, IsStatementLine);
  }

  lemma StyleSheetStatements(ss: seq<seq<ImportInfo>>, k: nat, result: seq<string>, asWritten: bool)
    requires k < |ss| && !IsSideEffectSingleton(ss[k]) && |ss[k]| > 0 && AllSideEffect(ss[k])
    ensures Filter(SectionLines(ss, k, result, asWritten), IsStatementLine) == Map(SortedSection(ss[k]), Statement)
  {
    var lead := StyleSheetLead(ss, k, result, asWritten);
    LeadIsBlank(result, asWritten);
    BlankFiltered(lead);
    StyleSheetSectionLines(ss, k, result, asWritten);
    assert SortedSection(ss[k]) == ss[k];
    BlankLeadFiltered(lead, ss[k]);
  }

  /** Statements after a blank lead filter back to the statements. */
  lemma BlankLeadFiltered(lead: seq<string>, infos: seq<ImportInfo>)
    requires Filter(lead, IsStatementLine) == []
    ensures Filter(lead + Map(infos, Statement), IsStatementLine) == Map(infos, Statement)
  {
    var block := Map(infos, Statement);
    StatementsFilled(infos);
    FilterConcat(lead, block, IsStatementLine);
    assert Filter(lead + block, IsStatementLine) == [] + block;
  }

  lemma GroupStatements(ss: seq<seq<ImportInfo>>, k: nat, lead: seq<string>, result: seq<string>, asWritten: bool)
    requires k < |ss| && !IsSideEffectSingleton(ss[k]) && !(|ss[k]| > 0 && AllSideEffect(ss[k]))
    requires lead == (if k > 0 then Lead(result, asWritten) else []) && Filter(lead, IsStatementLine) == []
    ensures Filter(SectionLines(ss, k, result, asWritten), IsStatementLine) == Map(SortedSection(ss[k]), Statement)
  {
    var section := ss[k];
    GroupLinesStatements(Grouped(section));
    if |section| > 0 && AllTypeOnly(section) {
      FilterConcat(lead, GroupLines(Grouped(section)), IsStatementLine);
    }
  }

  /**
    * The statement lines of the fix text are the statements of the records in the order of
    * the sorted sections, whether or not the blank lines are the corrected ones.
    */
  lemma {:induction false} LinesStatements(ss: seq<seq<ImportInfo>>, n: nat, asWritten: bool)
    requires n <= |ss|
    ensures Filter(Lines(ss, n, asWritten), IsStatementLine) == Map(SortedFlat(ss[..n]), Statement)
  {
    if n == 0 {
      assert ss[..0] == [];
      assert Map([], SortedSection) == [];
    } else {
      LinesStatements(ss, n - 1, asWritten);
      LinesStatementsNext(ss, n, asWritten);
    }
  }

  lemma LinesStatementsNext(ss: seq<seq<ImportInfo>>, n: nat, asWritten: bool)
    requires 0 < n <= |ss|
    requires Filter(Lines(ss, n - 1, asWritten), IsStatementLine) == Map(SortedFlat(ss[..n - 1]), Statement)
    ensures Filter(Lines(ss, n, asWritten), IsStatementLine) == Map(SortedFlat(ss[..n]), Statement)
  {
    LinesStep(ss, n, asWritten);
    SectionFiltered(ss, n - 1, Lines(ss, n - 1, asWritten), asWritten);
    SortedFlatTake(ss, n);
    MapConcat(SortedFlat(ss[..n - 1]), SortedSection(ss[n - 1]), Statement);
  }

  /** Section `k` adds the statements of its sorted records to the statement lines. */
  lemma SectionFiltered(ss: seq<seq<ImportInfo>>, k: nat, result: seq<string>, asWritten: bool)
    requires k < |ss|
    ensures Filter(result + SectionLines(ss, k, result, asWritten), IsStatementLine)
      == Filter(result, IsStatementLine) + Map(SortedSection(ss[k]), Statement)
  {
    SectionStatements(ss, k, result, asWritten);
    FilterConcat(result, SectionLines(ss, k, result, asWritten), IsStatementLine);
  }

  lemma SortedFlatTake(ss: seq<seq<ImportInfo>>, n: nat)
    requires 0 < n <= |ss|
    ensures SortedFlat(ss[..n]) == SortedFlat(ss[..n - 1]) + SortedSection(ss[n - 1])
  {
    assert ss[..n] == ss[..n - 1] + [ss[n - 1]];
    SortedFlatConcat(ss[..n - 1], [ss[n - 1]]);
    FlattenSingle(SortedSection(ss[n - 1]));
    assert Map([ss[n - 1]], SortedSection) == [SortedSection(ss[n - 1])];
  }

  /**
    * What holds of the lines after `k` sections, as written or corrected: no blank line
    * first, and a blank line last only when the next section is a regular one.
    */
  ghost predicate FramedSoFar(ss: seq<seq<ImportInfo>>, k: nat, lines: seq<string>)
  {
    StartsWithStatement(lines) && BlankLastBeforeRegular(ss, k, lines)
  }

  predicate StartsWithStatement(lines: seq<string>)
  {
    |lines| > 0 ==> lines[0] != ""
  }

  /** A blank last line only when section `k`, which comes next, is a regular one. */
  ghost predicate BlankLastBeforeRegular(ss: seq<seq<ImportInfo>>, k: nat, lines: seq<string>)
  {
    |lines| > 0 && lines[|lines| - 1] == "" ==> k < |ss| && IsRegular(ss[k])
  }

  /** Neither the first nor the last line is blank. */
  predicate NoBlankEnds(lines: seq<string>)
  {
    |lines| > 0 ==> lines[0] != "" && lines[|lines| - 1] != ""
  }

  /** What holds of the corrected lines after `k` sections: framed, and no two blank lines in a row. */
  ghost predicate TidySoFar(ss: seq<seq<ImportInfo>>, k: nat, lines: seq<string>)
  {
    NoDoubleBlank(lines) && FramedSoFar(ss, k, lines)
  }

  /** Appending a block that starts with a statement when nothing precedes it. */
  lemma AppendFramedBlock(ss: seq<seq<ImportInfo>>, k: nat, a: seq<string>, b: seq<string>)
    requires k < |ss| && FramedSoFar(ss, k, a)
    requires |a| == 0 && |b| > 0 ==> b[0] != ""
    requires |b| > 0 && b[|b| - 1] == "" ==> k + 1 < |ss| && IsRegular(ss[k + 1])
    requires |b| == 0 && |a| > 0 ==> a[|a| - 1] != ""
    ensures FramedSoFar(ss, k + 1, a + b)
  {
    if |a| > 0 {
      assert (a + b)[0] == a[0];
    }
    if |b| > 0 {
      assert (a + b)[|a + b| - 1] == b[|b| - 1];
    } else {
      assert a + b == a;
    }
  }

  /** Appending a block that starts with a statement, or follows one. */
  lemma AppendBlock(ss: seq<seq<ImportInfo>>, k: nat, a: seq<string>, b: seq<string>)
    requires k < |ss| && TidySoFar(ss, k, a) && NoDoubleBlank(b)
    requires |a| > 0 && |b| > 0 ==> a[|a| - 1] != "" || b[0] != ""
    requires |a| == 0 && |b| > 0 ==> b[0] != ""
    requires |b| > 0 && b[|b| - 1] == "" ==> k + 1 < |ss| && IsRegular(ss[k + 1])
    requires |b| == 0 && |a| > 0 ==> a[|a| - 1] != ""
    ensures TidySoFar(ss, k + 1, a + b)
  {
    NoDoubleBlankConcat(a, b);
    AppendFramedBlock(ss, k, a, b);
  }

  lemma SideEffectKeepsTidy(ss: seq<seq<ImportInfo>>, k: nat, result: seq<string>)
    requires k < |ss| && IsSideEffectSingleton(ss[k]) && TidySoFar(ss, k, result)
    ensures TidySoFar(ss, k + 1, result + SectionLines(ss, k, result, false))
  {
    var st := Statement(ss[k][0]);
    StatementLine(ss[k][0]);
    var lead: seq<string> := if k > 0 && IsRegular(ss[k - 1]) && |result| > 0 then [""] else [];
    var trail: seq<string> := if k + 1 < |ss| && IsRegular(ss[k + 1]) then [""] else [];
    var b := lead + [st] + trail;
    assert b == SectionLines(ss, k, result, false);
    assert forall i :: 0 <= i < |b| && b[i] == "" ==> i == 0 || i == |b| - 1;
    AppendBlock(ss, k, result, b);
  }

  lemma StyleSheetSectionLines(ss: seq<seq<ImportInfo>>, k: nat, result: seq<string>, asWritten: bool)
    requires k < |ss| && !IsSideEffectSingleton(ss[k]) && |ss[k]| > 0 && AllSideEffect(ss[k])
    ensures SectionLines(ss, k, result, asWritten) == StyleSheetLead(ss, k, result, asWritten) + Map(ss[k], Statement)
  {
  }

  lemma StyleSheetsKeepTidy(ss: seq<seq<ImportInfo>>, k: nat, result: seq<string>)
    requires k < |ss| && !IsSideEffectSingleton(ss[k]) && |ss[k]| > 0 && AllSideEffect(ss[k])
    requires TidySoFar(ss, k, result)
    ensures TidySoFar(ss, k + 1, result + SectionLines(ss, k, result, false))
  {
    var lead := StyleSheetLead(ss, k, result, false);
    var block := Map(ss[k], Statement);
    StatementsFilled(ss[k]);
    var b := lead + block;
    StyleSheetSectionLines(ss, k, result, false);
    assert forall i :: 0 <= i < |b| && b[i] == "" ==> i == 0 && |lead| == 1;
    AppendBlock(ss, k, result, b);
  }

  lemma GroupsKeepTidy(ss: seq<seq<ImportInfo>>, k: nat, result: seq<string>)
    requires k < |ss| && !IsSideEffectSingleton(ss[k]) && !(|ss[k]| > 0 && AllSideEffect(ss[k]))
    requires TidySoFar(ss, k, result)
    ensures TidySoFar(ss, k + 1, result + SectionLines(ss, k, result, false))
  {
    GroupsSectionLines(ss, k, result, false);
    GroupsBlockTidy(ss, k, result);
  }

  /** The lines of a section of groups: the blank line of a type section, then the groups. */
  lemma GroupsSectionLines(ss: seq<seq<ImportInfo>>, k: nat, result: seq<string>, asWritten: bool)
    requires k < |ss| && !IsSideEffectSingleton(ss[k]) && !(|ss[k]| > 0 && AllSideEffect(ss[k]))
    ensures SectionLines(ss, k, result, asWritten)
      == (if |ss[k]| > 0 && AllTypeOnly(ss[k]) && k > 0 then Lead(result, asWritten) else [])
      + GroupLines(Grouped(ss[k]))
  {
    var section := ss[k];
    if |section| > 0 && AllTypeOnly(section) {
      assert SectionLines(ss, k, result, asWritten)
        == (if k > 0 then Lead(result, asWritten) else []) + GroupLines(Grouped(section));
    } else {
      assert SectionLines(ss, k, result, asWritten) == GroupLines(Grouped(section));
    }
  }

  lemma GroupsBlockTidy(ss: seq<seq<ImportInfo>>, k: nat, result: seq<string>)
    requires k < |ss| && !(|ss[k]| > 0 && AllSideEffect(ss[k]))
    requires TidySoFar(ss, k, result)
    ensures TidySoFar(ss, k + 1, result
      + ((if |ss[k]| > 0 && AllTypeOnly(ss[k]) && k > 0 then Lead(result, false) else [])
      + GroupLines(Grouped(ss[k]))))
  {
    var section := ss[k];
    var gl := GroupLines(Grouped(section));
    var lead := if |section| > 0 && AllTypeOnly(section) && k > 0 then Lead(result, false) else [];
    if section == [] {
      assert Filter(section, NotSideEffect) == [];
      assert gl == [];
      assert lead + gl == [];
    } else {
      GroupBlockShape(section);
      AppendFramed(ss, k, result, lead, gl);
    }
  }

  /** The lines of the groups of a section that is not all side effects are framed. */
  lemma GroupBlockShape(section: seq<ImportInfo>)
    requires section != [] && !AllSideEffect(section)
    ensures NoDoubleBlank(GroupLines(Grouped(section))) && Framed(GroupLines(Grouped(section)))
  {
    GroupsHoldRecords(section);
    GroupedNonEmpty(section);
    GroupLinesShape(Grouped(section));
  }

  /** Appending framed lines, after at most the blank line pushed only after a statement. */
  lemma AppendFramed(ss: seq<seq<ImportInfo>>, k: nat, result: seq<string>, lead: seq<string>, block: seq<string>)
    requires k < |ss| && TidySoFar(ss, k, result)
    requires lead == [] || lead == BlankCorrected(result)
    requires NoDoubleBlank(block) && Framed(block)
    ensures TidySoFar(ss, k + 1, result + (lead + block))
  {
    NoDoubleBlankConcat(lead, block);
    AppendBlock(ss, k, result, lead + block);
  }

  /** Each section keeps the corrected lines tidy. */
  lemma SectionKeepsTidy(ss: seq<seq<ImportInfo>>, k: nat, result: seq<string>)
    requires k < |ss| && TidySoFar(ss, k, result)
    ensures TidySoFar(ss, k + 1, result + SectionLines(ss, k, result, false))
  {
    if IsSideEffectSingleton(ss[k]) {
      SideEffectKeepsTidy(ss, k, result);
    } else if |ss[k]| > 0 && AllSideEffect(ss[k]) {
      StyleSheetsKeepTidy(ss, k, result);
    } else {
      GroupsKeepTidy(ss, k, result);
    }
  }

  lemma {:induction false} LinesTidy(ss: seq<seq<ImportInfo>>, n: nat)
    requires n <= |ss|
    ensures TidySoFar(ss, n, Lines(ss, n, false))
  {
    if n > 0 {
      LinesTidy(ss, n - 1);
      LinesTidyNext(ss, n);
    }
  }

  lemma LinesTidyNext(ss: seq<seq<ImportInfo>>, n: nat)
    requires 0 < n <= |ss|
    requires TidySoFar(ss, n - 1, Lines(ss, n - 1, false))
    ensures TidySoFar(ss, n, Lines(ss, n, false))
  {
    LinesStep(ss, n, false);
    SectionStepTidy(ss, n, Lines(ss, n - 1, false), Lines(ss, n, false));
  }

  lemma SectionStepTidy(ss: seq<seq<ImportInfo>>, n: nat, result: seq<string>, lines: seq<string>)
    requires 0 < n <= |ss| && TidySoFar(ss, n - 1, result)
    requires lines == result + SectionLines(ss, n - 1, result, false)
    ensures TidySoFar(ss, n, lines)
  {
    SectionKeepsTidy(ss, n - 1, result);
  }

  lemma LinesStep(ss: seq<seq<ImportInfo>>, n: nat, asWritten: bool)
    requires 0 < n <= |ss|
    ensures Lines(ss, n, asWritten) == Lines(ss, n - 1, asWritten) + SectionLines(ss, n - 1, Lines(ss, n - 1, asWritten), asWritten)
  {
  }

  /**
    * The corrected fix text never holds two blank lines in a row, and starts and ends with
    * a statement.
    */
  lemma CorrectedLinesTidy(ss: seq<seq<ImportInfo>>)
    ensures var lines := Lines(ss, |ss|, false);
      NoDoubleBlank(lines) && (|lines| > 0 ==> lines[0] != "" && lines[|lines| - 1] != "")
  {
    LinesTidy(ss, |ss|);
    TidyEnds(ss, Lines(ss, |ss|, false));
  }

  /** Tidy after the last section: no double blank, and no blank line first or last. */
  lemma TidyEnds(ss: seq<seq<ImportInfo>>, lines: seq<string>)
    requires TidySoFar(ss, |ss|, lines)
    ensures NoDoubleBlank(lines) && (|lines| > 0 ==> lines[0] != "" && lines[|lines| - 1] != "")
  {
  }

  // ------------------------------------------------- framing, as written or corrected

  lemma LeadAfterNothing(asWritten: bool)
    ensures Lead([], asWritten) == []
  {
  }

  lemma SideEffectKeepsFramed(ss: seq<seq<ImportInfo>>, k: nat, result: seq<string>, asWritten: bool)
    requires k < |ss| && IsSideEffectSingleton(ss[k]) && FramedSoFar(ss, k, result)
    ensures FramedSoFar(ss, k + 1, result + SectionLines(ss, k, result, asWritten))
  {
    var st := Statement(ss[k][0]);
    StatementLine(ss[k][0]);
    var lead: seq<string> := if k > 0 && IsRegular(ss[k - 1]) && |result| > 0 then [""] else [];
    var trail: seq<string> := if k + 1 < |ss| && IsRegular(ss[k + 1]) then [""] else [];
    var b := lead + [st] + trail;
    assert b == SectionLines(ss, k, result, asWritten);
    AppendFramedBlock(ss, k, result, b);
  }

  lemma StyleSheetsKeepFramed(ss: seq<seq<ImportInfo>>, k: nat, result: seq<string>, asWritten: bool)
    requires k < |ss| && !IsSideEffectSingleton(ss[k]) && |ss[k]| > 0 && AllSideEffect(ss[k])
    requires FramedSoFar(ss, k, result)
    ensures FramedSoFar(ss, k + 1, result + SectionLines(ss, k, result, asWritten))
  {
    var lead := StyleSheetLead(ss, k, result, asWritten);
    var block := Map(ss[k], Statement);
    StatementsFilled(ss[k]);
    StyleSheetSectionLines(ss, k, result, asWritten);
    LeadAfterNothing(asWritten);
    var b := lead + block;
    assert b[|b| - 1] == block[|block| - 1];
    assert |result| == 0 ==> b == block;
    AppendFramedBlock(ss, k, result, b);
  }

  lemma GroupsKeepFramed(ss: seq<seq<ImportInfo>>, k: nat, result: seq<string>, asWritten: bool)
    requires k < |ss| && !IsSideEffectSingleton(ss[k]) && !(|ss[k]| > 0 && AllSideEffect(ss[k]))
    requires FramedSoFar(ss, k, result)
    ensures FramedSoFar(ss, k + 1, result + SectionLines(ss, k, result, asWritten))
  {
    var lead := if |ss[k]| > 0 && AllTypeOnly(ss[k]) && k > 0 then Lead(result, asWritten) else [];
    GroupsSectionLines(ss, k, result, asWritten);
    if ss[k] == [] {
      EmptySectionFramed(ss, k, result, lead);
    } else {
      GroupsBlockFramed(ss, k, result, lead, asWritten);
    }
  }

  /** An empty section pushes nothing, and the lines before it do not end blank. */
  lemma EmptySectionFramed(ss: seq<seq<ImportInfo>>, k: nat, result: seq<string>, lead: seq<string>)
    requires k < |ss| && ss[k] == [] && lead == [] && FramedSoFar(ss, k, result)
    ensures FramedSoFar(ss, k + 1, result + (lead + GroupLines(Grouped(ss[k]))))
  {
    assert Filter(ss[k], NotSideEffect) == [];
    assert FirstOfEach([]) == [];
    assert |Grouped(ss[k])| == 0;
    assert GroupLines(Grouped(ss[k])) == [];
    assert lead + [] == [];
    AppendFramedBlock(ss, k, result, []);
  }

  lemma GroupsBlockFramed(ss: seq<seq<ImportInfo>>, k: nat, result: seq<string>, lead: seq<string>, asWritten: bool)
    requires k < |ss| && ss[k] != [] && !AllSideEffect(ss[k]) && FramedSoFar(ss, k, result)
    requires lead == [] || lead == Lead(result, asWritten)
    ensures FramedSoFar(ss, k + 1, result + (lead + GroupLines(Grouped(ss[k]))))
  {
    GroupBlockShape(ss[k]);
    LeadBlockFramed(ss, k, result, lead, GroupLines(Grouped(ss[k])), asWritten);
  }

  /** A framed block after at most a lead blank line keeps the lines framed. */
  lemma LeadBlockFramed(ss: seq<seq<ImportInfo>>, k: nat, result: seq<string>, lead: seq<string>, gl: seq<string>, asWritten: bool)
    requires k < |ss| && FramedSoFar(ss, k, result) && Framed(gl)
    requires lead == [] || lead == Lead(result, asWritten)
    ensures FramedSoFar(ss, k + 1, result + (lead + gl))
  {
    LeadAfterNothing(asWritten);
    var b := lead + gl;
    assert b[|b| - 1] == gl[|gl| - 1];
    assert |result| == 0 ==> b == gl;
    AppendFramedBlock(ss, k, result, b);
  }

  /** Each section keeps the lines framed, as written or corrected. */
  lemma SectionKeepsFramed(ss: seq<seq<ImportInfo>>, k: nat, result: seq<string>, asWritten: bool)
    requires k < |ss| && FramedSoFar(ss, k, result)
    ensures FramedSoFar(ss, k + 1, result + SectionLines(ss, k, result, asWritten))
  {
    if IsSideEffectSingleton(ss[k]) {
      SideEffectKeepsFramed(ss, k, result, asWritten);
    } else if |ss[k]| > 0 && AllSideEffect(ss[k]) {
      StyleSheetsKeepFramed(ss, k, result, asWritten);
    } else {
      GroupsKeepFramed(ss, k, result, asWritten);
    }
  }

  /** The lines the rule writes for the first `n` sections are framed. */
  ghost predicate WrittenFramed(ss: seq<seq<ImportInfo>>, n: nat)
    requires n <= |ss|
  {
    FramedSoFar(ss, n, Lines(ss, n, true))
  }

  /** The lines as the rule writes them are framed after every section. */
  lemma {:induction false} LinesFramed(ss: seq<seq<ImportInfo>>, n: nat)
    requires n <= |ss|
    ensures WrittenFramed(ss, n)
  {
    if n > 0 {
      LinesFramed(ss, n - 1);
      LinesFramedNext(ss, n);
    }
  }

  lemma LinesFramedNext(ss: seq<seq<ImportInfo>>, n: nat)
    requires 0 < n <= |ss|
    ensures WrittenFramed(ss, n - 1) ==> WrittenFramed(ss, n)
  {
    if WrittenFramed(ss, n - 1) {
      LinesStep(ss, n, true);
      SectionStepFramed(ss, n, Lines(ss, n - 1, true), Lines(ss, n, true));
    }
  }

  lemma SectionStepFramed(ss: seq<seq<ImportInfo>>, n: nat, result: seq<string>, lines: seq<string>)
    requires 0 < n <= |ss| && FramedSoFar(ss, n - 1, result)
    requires lines == result + SectionLines(ss, n - 1, result, true)
    ensures FramedSoFar(ss, n, lines)
  {
    SectionKeepsFramed(ss, n - 1, result, true);
  }

  /** The fix text as the rule writes it starts and ends with a statement. */
  lemma WrittenLinesFramed(ss: seq<seq<ImportInfo>>)
    ensures NoBlankEnds(Lines(ss, |ss|, true))
  {
    LinesFramed(ss, |ss|);
    FramedEnds(ss);
  }

  /** Framed after the last section: no blank line first or last. */
  lemma FramedEnds(ss: seq<seq<ImportInfo>>)
    requires WrittenFramed(ss, |ss|)
    ensures NoBlankEnds(Lines(ss, |ss|, true))
  {
  }

  /**
    * Where the loop reaches the style-sheet section, the blank line the rule pushes there
    * is the one pushed only after a statement.
    */
  lemma StyleSheetBlankAfterStatement(ss: seq<seq<ImportInfo>>, k: nat)
    requires k < |ss| && !IsSideEffectSingleton(ss[k]) && |ss[k]| > 0 && AllSideEffect(ss[k])
    ensures BlankAsWritten(Lines(ss, k, true)) == BlankCorrected(Lines(ss, k, true))
  {
    LinesFramed(ss, k);
    FramedBeforeIrregular(ss, k);
  }

  /** Lines framed before a section that is not regular do not end with a blank line. */
  lemma FramedBeforeIrregular(ss: seq<seq<ImportInfo>>, k: nat)
    requires k < |ss| && !IsRegular(ss[k]) && WrittenFramed(ss, k)
    ensures BlankAsWritten(Lines(ss, k, true)) == BlankCorrected(Lines(ss, k, true))
  {
    var lines := Lines(ss, k, true);
    assert FramedSoFar(ss, k, lines);
  }

  // ------------------------------------------- a side effect before the type section

  /** The lines of the fix for the records `infos`, in the order they appear in the file. */
  function FixLines(infos: seq<ImportInfo>, options: Options, asWritten: bool): seq<string>
  {
    var ss := Map(AllSections(infos, options), SortedSection);
    Lines(ss, |ss|, asWritten)
  }

  lemma ExamplePools(se: ImportInfo, t: ImportInfo, options: Options)
    requires se.isSideEffect && !se.isTypeOnly && !IsStyleFile(se.source)
    requires t.isTypeOnly && !t.isSideEffect
    ensures TypePool([t, se]) == [t]
    ensures StylePool([t, se], options) == []
    ensures BodyPool([t, se], options) == [se]
  {
    FilterPair(t, se, IsTypeRecord);
    FilterPair(t, se, InStylePool(options));
    FilterPair(t, se, InBodyPool(options));
    assert !IsStyleImport(se, options);
  }

  lemma ExampleBody(se: ImportInfo)
    requires se.isSideEffect
    ensures BodySections([se]) == [[se]]
  {
    assert [se][..0] == [];
    assert SectionState([se]) == Sectioning([[se]], []);
  }

  lemma ExampleTypeSection(t: ImportInfo)
    requires !t.isSideEffect
    ensures Flat(Grouped([t])) == [t]
    ensures SortedSection([t]) == [t]
  {
    LoneRecordGrouped(t);
    assert !AllSideEffect([t]) by { assert ![t][0].isSideEffect; }
    assert !IsSideEffectSingleton([t]);
  }

  lemma LoneRecordGrouped(t: ImportInfo)
    requires !t.isSideEffect
    ensures Flat(Grouped([t])) == [t]
  {
    FilterSingle(t, NotSideEffect);
    GroupingPermutation([t]);
    SingletonMultiset(Flat(Grouped([t])), t);
  }

  lemma ExampleAll(se: ImportInfo, t: ImportInfo, options: Options)
    requires se.isSideEffect && !se.isTypeOnly && !IsStyleFile(se.source)
    requires t.isTypeOnly && !t.isSideEffect
    ensures AllSections([t, se], options) == [[se], [t]]
  {
    ExamplePools(se, t, options);
    ExampleBody(se);
    ExampleTypeSection(t);
  }

  lemma ExampleSections(se: ImportInfo, t: ImportInfo, options: Options)
    requires se.isSideEffect && !se.isTypeOnly && !IsStyleFile(se.source)
    requires t.isTypeOnly && !t.isSideEffect
    ensures var ss := Map(AllSections([t, se], options), SortedSection);
      |ss| == 2 && ss[0] == [se] && ss[1] == [t]
  {
    ExampleAll(se, t, options);
    ExampleTypeSection(t);
    LoneSideEffectKept(se);
  }

  lemma LoneSideEffectKept(se: ImportInfo)
    requires se.isSideEffect
    ensures SortedSection([se]) == [se]
  {
  }

  /** The lines of a lone side effect that a regular section follows. */
  lemma LeadingSideEffectLines(ss: seq<seq<ImportInfo>>, se: ImportInfo, asWritten: bool)
    requires |ss| == 2 && ss[0] == [se] && se.isSideEffect && IsRegular(ss[1])
    ensures Lines(ss, |ss| - 1, asWritten) == [Statement(se), ""]
  {
    assert Lines(ss, 0, asWritten) == [];
  }

  /** The lines of a lone type-only import that follows another section. */
  lemma TrailingTypeLines(ss: seq<seq<ImportInfo>>, t: ImportInfo, result: seq<string>, asWritten: bool)
    requires |ss| == 2 && ss[1] == [t] && t.isTypeOnly && !t.isSideEffect
    ensures SectionLines(ss, |ss| - 1, result, asWritten) == Lead(result, asWritten) + GroupLines(Grouped([t]))
  {
    assert !AllSideEffect([t]) by { assert ![t][0].isSideEffect; }
    assert AllTypeOnly([t]);
  }

  /** The lines of a lone type-only import: its one statement. */
  lemma TypeGroupLines(t: ImportInfo)
    requires !t.isSideEffect
    ensures var g := GroupLines(Grouped([t])); |g| > 0 && g[0] != ""
  {
    assert !AllSideEffect([t]) by { assert ![t][0].isSideEffect; }
    GroupsHoldRecords([t]);
    GroupedNonEmpty([t]);
    GroupLinesShape(Grouped([t]));
  }

  /** The lines of a lone side effect section followed by a lone type-only section. */
  lemma TwoSectionLines(ss: seq<seq<ImportInfo>>, se: ImportInfo, t: ImportInfo, asWritten: bool)
    requires |ss| == 2 && ss[0] == [se] && ss[1] == [t]
    requires se.isSideEffect && t.isTypeOnly && !t.isSideEffect
    ensures Lines(ss, |ss|, asWritten)
      == [Statement(se), ""] + Lead([Statement(se), ""], asWritten) + GroupLines(Grouped([t]))
  {
    assert IsRegular(ss[1]) by {
      assert !AllSideEffect([t]) by { assert ![t][0].isSideEffect; }
    }
    LeadingSideEffectLines(ss, se, asWritten);
    TrailingTypeLines(ss, t, [Statement(se), ""], asWritten);
    LinesStep(ss, |ss|, asWritten);
    ConcatAssoc([Statement(se), ""], Lead([Statement(se), ""], asWritten), GroupLines(Grouped([t])));
  }

  /** The fix lines of a lone side effect followed by a lone type-only import. */
  lemma ExampleLines(se: ImportInfo, t: ImportInfo, options: Options, asWritten: bool)
    requires se.isSideEffect && !se.isTypeOnly && !IsStyleFile(se.source)
    requires t.isTypeOnly && !t.isSideEffect
    ensures FixLines([t, se], options, asWritten)
      == [Statement(se), ""] + Lead([Statement(se), ""], asWritten) + GroupLines(Grouped([t]))
  {
    ExampleSections(se, t, options);
    TwoSectionLines(Map(AllSections([t, se], options), SortedSection), se, t, asWritten);
  }

  /** The fix writes the side effect first, so the flattened comparison finds a difference. */
  lemma ExampleReordered(se: ImportInfo, t: ImportInfo, options: Options)
    requires se.isSideEffect && !se.isTypeOnly && !IsStyleFile(se.source)
    requires t.isTypeOnly && !t.isSideEffect
    requires options.groupStyleImports
    ensures NeedsReordering([t, se], options)
  {
    ExampleSections(se, t, options);
    var ss := Map(AllSections([t, se], options), SortedSection);
    FlattenTwo(ss);
    assert Flatten(ss)[0] == se != t;
    FlattenedDiffer([t, se], options);
  }

  lemma FlattenTwo<T>(ss: seq<seq<T>>)
    requires |ss| == 2
    ensures Flatten(ss) == ss[0] + ss[1]
  {
    assert ss[..1][..0] == [];
    assert Flatten(ss[..1]) == Flatten(ss[..1][..0]) + ss[0];
    assert Flatten(ss) == Flatten(ss[..1]) + ss[1];
  }

  /** A fix that writes the records in another order needs reordering. */
  lemma FlattenedDiffer(infos: seq<ImportInfo>, options: Options)
    requires options.groupStyleImports
    requires Flatten(Map(AllSections(infos, options), SortedSection)) != infos
    ensures NeedsReordering(infos, options)
  {
  }

  /**
    * A type-only import written before a side effect: the rule reports them out of order,
    * and as the rule is written the fix text holds two blank lines in a row, after the
    * side effect.
    */
  lemma DoubleBlankAsWritten(se: ImportInfo, t: ImportInfo, options: Options)
    requires se.isSideEffect && !se.isTypeOnly && !IsStyleFile(se.source)
    requires t.isTypeOnly && !t.isSideEffect
    requires options.groupStyleImports
    ensures NeedsReordering([t, se], options)
    ensures [Statement(se), "", ""] <= FixLines([t, se], options, true)
  {
    ExampleReordered(se, t, options);
    ExampleLines(se, t, options, true);
    BlankAfterBlank(Statement(se), GroupLines(Grouped([t])), FixLines([t, se], options, true));
  }

  lemma BlankAfterBlank(st: string, g: seq<string>, lines: seq<string>)
    requires lines == [st, ""] + Lead([st, ""], true) + g
    ensures [st, "", ""] <= lines
  {
    assert lines == [st, "", ""] + g;
  }

  /** The corrected fix text of the same imports has one blank line between the two. */
  lemma OneBlankCorrected(se: ImportInfo, t: ImportInfo, options: Options)
    requires se.isSideEffect && !se.isTypeOnly && !IsStyleFile(se.source)
    requires t.isTypeOnly && !t.isSideEffect
    ensures var lines := FixLines([t, se], options, false);
      |lines| > 2 && lines[0] == Statement(se) && lines[1] == "" && lines[2] != ""
  {
    ExampleLines(se, t, options, false);
    TypeGroupLines(t);
    OneBlankBetween(Statement(se), GroupLines(Grouped([t])), FixLines([t, se], options, false));
  }

  lemma OneBlankBetween(st: string, g: seq<string>, lines: seq<string>)
    requires lines == [st, ""] + Lead([st, ""], false) + g
    requires |g| > 0 && g[0] != ""
    ensures |lines| > 2 && lines[0] == st && lines[1] == "" && lines[2] != ""
  {
    assert lines == [st, ""] + g;
  }

  // ------------------------------------------ a side effect before the style sheets

  /** A side effect that is not a style sheet, and two style sheets the options group. */
  predicate StyleExample(se: ImportInfo, c1: ImportInfo, c2: ImportInfo, options: Options)
  {
    && options.groupStyleImports
    && se.isSideEffect && !se.isTypeOnly && !IsStyleFile(se.source)
    && c1.isSideEffect && !c1.isTypeOnly && IsStyleFile(c1.source)
    && c2.isSideEffect && !c2.isTypeOnly && IsStyleFile(c2.source)
  }

  lemma StylePoolsOf(infos: seq<ImportInfo>, se: ImportInfo, c1: ImportInfo, c2: ImportInfo, options: Options)
    requires StyleExample(se, c1, c2, options)
    requires infos == [c1, c2, se] || infos == [se, c1, c2]
    ensures TypePool(infos) == []
    ensures StylePool(infos, options) == [c1, c2]
    ensures BodyPool(infos, options) == [se]
  {
    assert IsStyleImport(c1, options) && IsStyleImport(c2, options) && !IsStyleImport(se, options);
    FilterTriple(infos[0], infos[1], infos[2], IsTypeRecord);
    FilterTriple(infos[0], infos[1], infos[2], InStylePool(options));
    FilterTriple(infos[0], infos[1], infos[2], InBodyPool(options));
    FilterPair(infos[0], infos[1], IsTypeRecord);
    FilterPair(infos[0], infos[1], InStylePool(options));
    FilterPair(infos[0], infos[1], InBodyPool(options));
  }

  /** In either order, the lone side effect is one section and the style sheets the next. */
  lemma StyleSections(infos: seq<ImportInfo>, se: ImportInfo, c1: ImportInfo, c2: ImportInfo, options: Options)
    requires StyleExample(se, c1, c2, options)
    requires infos == [c1, c2, se] || infos == [se, c1, c2]
    ensures AllSections(infos, options) == [[se], [c1, c2]]
    ensures Map(AllSections(infos, options), SortedSection) == [[se], [c1, c2]]
  {
    StylePoolsOf(infos, se, c1, c2, options);
    SectionsOfStylePools(infos, se, c1, c2, options);
    StyleSectionsPass(se, c1, c2);
  }

  lemma SectionsOfStylePools(infos: seq<ImportInfo>, se: ImportInfo, c1: ImportInfo, c2: ImportInfo, options: Options)
    requires options.groupStyleImports && se.isSideEffect
    requires TypePool(infos) == [] && StylePool(infos, options) == [c1, c2] && BodyPool(infos, options) == [se]
    ensures AllSections(infos, options) == [[se], [c1, c2]]
  {
    ExampleBody(se);
  }

  lemma StyleSectionsPass(se: ImportInfo, c1: ImportInfo, c2: ImportInfo)
    requires se.isSideEffect && c1.isSideEffect && c2.isSideEffect
    ensures Map([[se], [c1, c2]], SortedSection) == [[se], [c1, c2]]
  {
    LoneSideEffectKept(se);
    assert PassesThrough([c1, c2]);
    assert Map([[se], [c1, c2]], SortedSection) == [SortedSection([se]), SortedSection([c1, c2])];
  }

  /** The lines of a lone side effect and then two style sheets. */
  lemma StyleLines(ss: seq<seq<ImportInfo>>, se: ImportInfo, c1: ImportInfo, c2: ImportInfo, asWritten: bool)
    requires |ss| == 2 && ss[0] == [se] && ss[1] == [c1, c2]
    requires se.isSideEffect && c1.isSideEffect && c2.isSideEffect
    ensures Lines(ss, |ss|, asWritten)
      == [Statement(se)] + (if asWritten then [""] else []) + [Statement(c1), Statement(c2)]
  {
    assert AllSideEffect(ss[1]) && !IsSideEffectSingleton(ss[1]);
    assert Lines(ss, 0, asWritten) == [];
    assert Lines(ss, 1, asWritten) == [Statement(se)];
    assert Map([c1, c2], Statement) == [Statement(c1), Statement(c2)];
    LinesStep(ss, 2, asWritten);
  }

  /** Side effects share one priority, so the blank-line check wants them on adjacent lines. */
  lemma SideEffectsAdjacent(a: ImportInfo, b: ImportInfo)
    requires a.isSideEffect && b.isSideEffect
    ensures Priority(a) == Priority(b) && ExpectedGap(a, b) == 1
  {
  }

  /**
    * A lone side effect written after two style sheets: the rule reports them out of order,
    * and as the rule is written its fix puts a blank line between the side effect and the
    * first style sheet. Imports in that order need no reordering, so a second pass reaches
    * the blank-line check, which wants those two on adjacent lines and reports the fix's
    * blank line.
    */
  lemma StyleBlankAsWritten(se: ImportInfo, c1: ImportInfo, c2: ImportInfo, options: Options)
    requires StyleExample(se, c1, c2, options)
    ensures NeedsReordering([c1, c2, se], options)
    ensures FixLines([c1, c2, se], options, true) == [Statement(se), "", Statement(c1), Statement(c2)]
    ensures !NeedsReordering([se, c1, c2], options)
    ensures ExpectedGap(se, c1) == 1
  {
    StyleReorderedOnce(se, c1, c2, options);
    StyleWrittenLines(se, c1, c2, options);
    SideEffectsAdjacent(se, c1);
  }

  /** Out of order as written, in order once the side effect comes first. */
  lemma StyleReorderedOnce(se: ImportInfo, c1: ImportInfo, c2: ImportInfo, options: Options)
    requires StyleExample(se, c1, c2, options)
    ensures NeedsReordering([c1, c2, se], options)
    ensures !NeedsReordering([se, c1, c2], options)
  {
    StyleReordered(se, c1, c2, options);
    InOrderAgain(se, c1, c2, options);
  }

  lemma StyleWrittenLines(se: ImportInfo, c1: ImportInfo, c2: ImportInfo, options: Options)
    requires StyleExample(se, c1, c2, options)
    ensures FixLines([c1, c2, se], options, true) == [Statement(se), "", Statement(c1), Statement(c2)]
  {
    StyleFixLines(se, c1, c2, options, true);
  }

  lemma StyleFixLines(se: ImportInfo, c1: ImportInfo, c2: ImportInfo, options: Options, asWritten: bool)
    requires StyleExample(se, c1, c2, options)
    ensures FixLines([c1, c2, se], options, asWritten)
      == [Statement(se)] + (if asWritten then [""] else []) + [Statement(c1), Statement(c2)]
  {
    StyleSections([c1, c2, se], se, c1, c2, options);
    StyleLines([[se], [c1, c2]], se, c1, c2, asWritten);
  }

  lemma StyleReordered(se: ImportInfo, c1: ImportInfo, c2: ImportInfo, options: Options)
    requires StyleExample(se, c1, c2, options)
    ensures NeedsReordering([c1, c2, se], options)
  {
    StyleSections([c1, c2, se], se, c1, c2, options);
    FlattenTwo([[se], [c1, c2]]);
    assert Flatten([[se], [c1, c2]])[0] == se != c1;
    FlattenedDiffer([c1, c2, se], options);
  }

  lemma InOrderAgain(se: ImportInfo, c1: ImportInfo, c2: ImportInfo, options: Options)
    requires StyleExample(se, c1, c2, options)
    ensures !NeedsReordering([se, c1, c2], options)
  {
    var ss := [[se], [c1, c2]];
    StyleSections([se, c1, c2], se, c1, c2, options);
    StyleSectionsInPlace(se, c1, c2);
    SortedInPlace([se, c1, c2], options, ss);
  }

  /** The two sections pass through the section sort and flatten back to the records. */
  lemma StyleSectionsInPlace(se: ImportInfo, c1: ImportInfo, c2: ImportInfo)
    requires se.isSideEffect && c1.isSideEffect && c2.isSideEffect
    ensures forall k :: 0 <= k < 2 ==> PassesThrough([[se], [c1, c2]][k])
    ensures Flatten(Map([[se], [c1, c2]], SortedSection)) == [se, c1, c2]
  {
    assert PassesThrough([se]) && PassesThrough([c1, c2]);
    StyleSectionsPass(se, c1, c2);
    FlattenTwo([[se], [c1, c2]]);
  }

  /** Records already in the order of their sorted sections need no reordering. */
  lemma SortedInPlace(infos: seq<ImportInfo>, options: Options, sections: seq<seq<ImportInfo>>)
    requires sections == AllSections(infos, options)
    requires forall k :: 0 <= k < |sections| ==> PassesThrough(sections[k])
    requires Flatten(Map(sections, SortedSection)) == infos
    ensures !NeedsReordering(infos, options)
  {
  }

  /**
    * The corrected fix text of the same imports writes the side effect and the style sheets
    * on adjacent lines, as the blank-line check wants.
    */
  lemma AdjacentSideEffectsCorrected(se: ImportInfo, c1: ImportInfo, c2: ImportInfo, options: Options)
    requires StyleExample(se, c1, c2, options)
    ensures FixLines([c1, c2, se], options, false) == [Statement(se), Statement(c1), Statement(c2)]
    ensures ExpectedGap(se, c1) == 1 && ExpectedGap(c1, c2) == 1
  {
    StyleFixLines(se, c1, c2, options, false);
    SideEffectsAdjacent(se, c1);
    SideEffectsAdjacent(c1, c2);
  }
}

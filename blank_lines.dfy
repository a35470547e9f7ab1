/**
  * The blank-line check of `sort-import-groups`, made when no section needs reordering:
  * neighbouring imports of one priority band sit on consecutive lines, and neighbouring
  * imports of two bands are separated by exactly one blank line. The first offending pair
  * is reported and the check stops.
  */
module BlankLines {
  import opened Types
  import opened Grouping

  /** How far the current import starts below the line where the previous one ends. */
  function LineGap(prev: ImportInfo, cur: ImportInfo): int
  {
    cur.node.startLine - prev.node.endLine
  }

  /** The line gap the rule accepts: 2 between two bands, 1 inside a band. */
  function ExpectedGap(prev: ImportInfo, cur: ImportInfo): int
  {
    if Priority(prev) != Priority(cur) then 2 else 1
  }

  /** The text between the previous import's last token and the current one's first. */
  function Between(prev: ImportInfo, cur: ImportInfo): Range
  {
    Range(prev.node.range.end, cur.node.range.start)
  }

  /** The report one neighbouring pair draws, if any. */
  function GapReport(prev: ImportInfo, cur: ImportInfo): Option<Report>
  {
    if Priority(prev) != Priority(cur) then
      if LineGap(prev, cur) != 2 then
        Some(Report(if LineGap(prev, cur) < 2 then MissingBlankLine else UnexpectedBlankLine, cur.node.range,
          Fix(Between(prev, cur), "\n\n")))
      else None
    else if LineGap(prev, cur) != 1 then
      Some(Report(UnexpectedBlankLine, cur.node.range, Fix(Between(prev, cur), "\n")))
    else None
  }

  /** `n` line breaks. */
  function Newlines(n: nat): string
  {
    if n == 0 then "" else Newlines(n - 1) + "\n"
  }

  /**
    * A pair is reported exactly when its gap is not the expected one; the report is on the
    * current import, says a blank line is missing only when the gap is too small between
    * two bands, and its fix puts exactly the expected number of line breaks between the two.
    */
  lemma GapReportSpec(prev: ImportInfo, cur: ImportInfo)
    ensures GapReport(prev, cur).None? <==> LineGap(prev, cur) == ExpectedGap(prev, cur)
    ensures GapReport(prev, cur).Some? ==> GapReport(prev, cur).value.node == cur.node.range
    ensures GapReport(prev, cur).Some? ==>
      (GapReport(prev, cur).value.messageId == MissingBlankLine <==> Priority(prev) != Priority(cur) && LineGap(prev, cur) < 2)
    ensures GapReport(prev, cur).Some? ==>
      GapReport(prev, cur).value.messageId in {MissingBlankLine, UnexpectedBlankLine}
    ensures GapReport(prev, cur).Some? ==>
      GapReport(prev, cur).value.fix == Fix(Between(prev, cur), Newlines(ExpectedGap(prev, cur)))
  {
    assert Newlines(1) == "\n";
    assert Newlines(2) == "\n\n";
  }

  /** The report of the first offending pair from position `i` on. */
  function FirstGapReport(infos: seq<ImportInfo>, i: nat): Option<Report>
    requires i >= 1
    decreases |infos| - i
  {
    if i >= |infos| then None
    else if GapReport(infos[i - 1], infos[i]).Some? then GapReport(infos[i - 1], infos[i])
    else FirstGapReport(infos, i + 1)
  }

  /** The loop over neighbouring pairs, which returns at the first report. */
  method CheckBlankLines(infos: seq<ImportInfo>) returns (report: Option<Report>)
    ensures report == FirstGapReport(infos, 1)
  {
    var i := 1;
    while i < |infos|
      invariant 1 <= i
      invariant FirstGapReport(infos, 1) == FirstGapReport(infos, i)
      decreases |infos| - i
    {
      var prevImport := infos[i - 1];
      var currentImport := infos[i];
      var lineGap := currentImport.node.startLine - prevImport.node.endLine;
      var prevPriority := Priority(prevImport);
      var currentPriority := Priority(currentImport);
      var between := Range(prevImport.node.range.end, currentImport.node.range.start);
      if prevPriority != currentPriority {
        if lineGap != 2 {
          var messageId := if lineGap < 2 then MissingBlankLine else UnexpectedBlankLine;
          return Some(Report(messageId, currentImport.node.range, Fix(between, "\n\n")));
        }
      } else {
        if lineGap != 1 {
          return Some(Report(UnexpectedBlankLine, currentImport.node.range, Fix(between, "\n")));
        }
      }
      i := i + 1;
    }
    return None;
  }

  /** The pair ending at position `j` has the expected gap. */
  predicate GapOk(infos: seq<ImportInfo>, j: int)
    requires 1 <= j < |infos|
  {
    LineGap(infos[j - 1], infos[j]) == ExpectedGap(infos[j - 1], infos[j])
  }

  /**
    * No report means every neighbouring pair has its expected gap; a report is the one of
    * the first pair whose gap is off.
    */
  lemma {:induction false} FirstGapReportSpec(infos: seq<ImportInfo>, i: nat)
    requires i >= 1
    ensures FirstGapReport(infos, i).None? <==> forall j :: i <= j < |infos| ==> GapOk(infos, j)
    ensures FirstGapReport(infos, i).Some? ==>
      exists j :: i <= j < |infos| && !GapOk(infos, j) && forall m :: i <= m < j ==> GapOk(infos, m)
    ensures forall j :: i <= j < |infos| && !GapOk(infos, j) && (forall m :: i <= m < j ==> GapOk(infos, m)) ==>
      FirstGapReport(infos, i) == GapReport(infos[j - 1], infos[j])
    decreases |infos| - i
  {
    if i < |infos| {
      GapReportSpec(infos[i - 1], infos[i]);
      FirstGapReportSpec(infos, i + 1);
      if GapOk(infos, i) {
        assert FirstGapReport(infos, i) == FirstGapReport(infos, i + 1);
        if FirstGapReport(infos, i).Some? {
          var j :| i + 1 <= j < |infos| && !GapOk(infos, j) && forall m :: i + 1 <= m < j ==> GapOk(infos, m);
          assert forall m :: i <= m < j ==> GapOk(infos, m);
        }
      } else {
        assert FirstGapReport(infos, i) == GapReport(infos[i - 1], infos[i]);
      }
    }
  }
}

/**
  * The `sort-import-names` rule (src/rules/sort-import-names.ts): inside one import
  * declaration the specifiers must appear in sort-key order, optionally ignoring case; a
  * declaration whose specifiers are out of order is reported with a fix that rewrites it
  * with the specifiers sorted.
  */
module SortImportNames {
  import opened Strings
  import opened Seqs
  import opened Types
  import opened Sorting
  import opened SortKeys
  import opened Classify
  import opened Grouping
  import opened Format

  /** The `caseInsensitive` option after the default `false` is spread under the configured one. */
  function CaseInsensitive(given: Option<bool>): (ci: bool)
    ensures ci <==> given == Some(true)
  {
    if given.Some? then given.value else false
  }

  /** `createSortKeyWithCase`: the name is lower-cased first when case is ignored. */
  function KeyWithCase(name: string, caseInsensitive: bool): string
  {
    if caseInsensitive then SortKey(ToLower(name)) else SortKey(name)
  }

  /**
    * One specifier as the rule's own `analyzeImportSpecifiers` records it: as the shared
    * analysis does, except that its key honours `caseInsensitive`.
    */
  function AnalyzeNameSpecifier(spec: EsSpecifier, caseInsensitive: bool): (r: Specifier)
    ensures var shared := AnalyzeSpecifier(spec);
      r.name == shared.name && r.alias == shared.alias && r.isType == shared.isType
    ensures spec.DefaultSpecifier? ==> r.sortKey == KeyWithCase(spec.local, caseInsensitive)
    ensures spec.NamespaceSpecifier? ==> r.sortKey == KeyWithCase("*", caseInsensitive)
    ensures spec.NamedSpecifier? && spec.imported != "default" ==>
      r.sortKey == KeyWithCase(spec.imported, caseInsensitive)
    ensures !caseInsensitive ==> r == AnalyzeSpecifier(spec)
  {
    var name := SpecifierName(spec);
    var alias := SpecifierAlias(spec);
    Specifier(name, alias, IsInlineType(spec), KeyWithCase(KeySource(name, alias), caseInsensitive))
  }

  function NameAnalyzer(caseInsensitive: bool): EsSpecifier -> Specifier
  {
    spec => AnalyzeNameSpecifier(spec, caseInsensitive)
  }

  /** The rule's `analyzeImportSpecifiers`: one record per specifier, in order. */
  function AnalyzeNameSpecifiers(specs: seq<EsSpecifier>, caseInsensitive: bool): (r: seq<Specifier>)
    ensures |r| == |specs|
    ensures forall i :: 0 <= i < |specs| ==> r[i] == AnalyzeNameSpecifier(specs[i], caseInsensitive)
  {
    Map(specs, NameAnalyzer(caseInsensitive))
  }

  // ------------------------------------------------------------ formatImportSpecifiers

  /** `formatImportSpecifiers`: the specifier list of the fixed statement. */
  function FormatSpecifiers(specs: seq<Specifier>): string
  {
    if |specs| == 0 then ""
    else if |specs| == 1 then
      if IsDefaultEntry(specs[0]) then AliasOr(specs[0].alias, "default")
      else if IsNamespaceEntry(specs[0]) then "* as " + AliasOr(specs[0].alias, "*")
      else "{ " + NamedText(specs[0]) + " }"
    else Join(PartList(CollectParts(specs)), ", ")
  }

  /**
    * `formatImportSpecifiers`: a lone specifier is printed on its own, more go through the
    * specifier loop and the `importParts` pushes that `formatImportStatement` also uses.
    */
  method FormatImportSpecifiers(specifiers: seq<Specifier>) returns (text: string)
    ensures text == FormatSpecifiers(specifiers)
  {
    if |specifiers| == 0 {
      return "";
    }
    if |specifiers| == 1 {
      var spec := specifiers[0];
      if spec.name == "default" {
        return AliasOr(spec.alias, "default");
      } else if spec.name == "*" {
        return "* as " + AliasOr(spec.alias, "*");
      } else {
        return if Truthy(spec.alias) then "{ " + spec.name + " as " + spec.alias.value + " }"
          else "{ " + spec.name + " }";
      }
    }
    var p := CollectSpecifierParts(specifiers);
    var importParts := AssembleParts(p);
    text := Join(importParts, ", ");
  }

  // ------------------------------------------------------------ the visitor

  /** `a[i] !== b[i]`, where a position past the end of `b` reads `undefined`. */
  predicate DiffersAt(a: seq<Specifier>, b: seq<Specifier>, i: nat)
    requires i < |a|
  {
    i >= |b| || a[i] != b[i]
  }

  /** The two orders differ at some position of `a`. */
  predicate Differs(a: seq<Specifier>, b: seq<Specifier>)
  {
    exists i :: 0 <= i < |a| && DiffersAt(a, b, i)
  }

  /** The `needsSorting` loop, which stops at the first position where the orders differ. */
  method NeedsSorting(specifiers: seq<Specifier>, sortedSpecifiers: seq<Specifier>) returns (needsSorting: bool)
    ensures needsSorting <==> Differs(specifiers, sortedSpecifiers)
  {
    needsSorting := false;
    var i := 0;
    while i < |specifiers|
      invariant 0 <= i <= |specifiers|
      invariant forall j :: 0 <= j < i ==> j < |sortedSpecifiers| && specifiers[j] == sortedSpecifiers[j]
    {
      if i >= |sortedSpecifiers| || specifiers[i] != sortedSpecifiers[i] {
        needsSorting := true;
        assert DiffersAt(specifiers, sortedSpecifiers, i);
        return;
      }
      i := i + 1;
    }
  }

  function ImportKeyword(kind: Kind): string
  {
    if kind == KindType then "import type" else "import"
  }

  /** The text the fix writes over the declaration; the source literal is kept as written. */
  function FixText(d: Declaration, sorted: seq<Specifier>): string
  {
    ImportKeyword(d.kind) + " " + FormatSpecifiers(sorted) + " from " + d.raw + ";"
  }

  /**
    * The report for one declaration. The records are compared by value where the source
    * compares objects by identity; the two agree, because a stable sort of records already
    * in key order returns them all in place.
    */
  function NamesReport(d: Declaration, caseInsensitive: bool): Option<Report>
  {
    if |d.specifiers| <= 1 || HasInlineType(d) then None
    else
      var specs := AnalyzeNameSpecifiers(d.specifiers, caseInsensitive);
      var sorted := SortImportSpecifiers(specs);
      if Differs(specs, sorted) then
        Some(Report(ImportNamesNotSorted, d.range, Fix(d.range, FixText(d, sorted))))
      else None
  }

  /** The `ImportDeclaration` visitor. */
  method CheckDeclaration(d: Declaration, caseInsensitive: bool) returns (report: Option<Report>)
    ensures report == NamesReport(d, caseInsensitive)
  {
    if |d.specifiers| == 0 {
      return None;
    }
    if |d.specifiers| <= 1 {
      return None;
    }
    if HasInlineType(d) {
      return None;
    }
    var specifiers := AnalyzeNameSpecifiers(d.specifiers, caseInsensitive);
    var sortedSpecifiers := SortImportSpecifiers(specifiers);
    var needsSorting := NeedsSorting(specifiers, sortedSpecifiers);
    report := None;
    if needsSorting {
      var sortedSpecifiersText := FormatImportSpecifiers(sortedSpecifiers);
      var newImportText := ImportKeyword(d.kind) + " " + sortedSpecifiersText + " from " + d.raw + ";";
      report := Some(Report(ImportNamesNotSorted, d.range, Fix(d.range, newImportText)));
    }
  }

  // ------------------------------------------------------------------ properties

  /** Case-sensitive keys tell every two names apart. */
  lemma CaseSensitiveKeys(a: string, b: string)
    ensures KeyWithCase(a, false) == KeyWithCase(b, false) <==> a == b
  {
    if SortKey(a) == SortKey(b) {
      SortKeyInjective(a, b);
    }
  }

  /** Case-insensitive keys are equal exactly when the names are equal but for case. */
  lemma CaseBlindKeys(a: string, b: string)
    ensures KeyWithCase(a, true) == KeyWithCase(b, true) <==> ToLower(a) == ToLower(b)
  {
    if SortKey(ToLower(a)) == SortKey(ToLower(b)) {
      SortKeyInjective(ToLower(a), ToLower(b));
    }
  }

  /** Without `caseInsensitive` the rule's analysis is the shared `analyzeImportSpecifiers`. */
  lemma CaseSensitiveAnalysisShared(specs: seq<EsSpecifier>)
    ensures AnalyzeNameSpecifiers(specs, false) == AnalyzeImportSpecifiers(specs)
  {
  }

  /** The written order differs from the key-sorted one exactly when it is not in key order. */
  lemma DiffersIffUnsorted(specs: seq<Specifier>)
    ensures Differs(specs, SortImportSpecifiers(specs)) <==> !SortedBy(specs, SpecifierKey)
  {
    var sorted := SortImportSpecifiers(specs);
    if SortedBy(specs, SpecifierKey) {
      SortBySorted(specs, SpecifierKey);
    } else {
      assert sorted != specs;
      var i :| 0 <= i < |specs| && specs[i] != sorted[i];
      assert DiffersAt(specs, sorted, i);
    }
  }

  /**
    * A declaration is reported exactly when it has two specifiers or more, none of them an
    * inline `type`, and their keys are not in order; the report and its fix cover the
    * whole declaration.
    */
  lemma NamesReportSpec(d: Declaration, caseInsensitive: bool)
    ensures var r := NamesReport(d, caseInsensitive);
      && (r.Some? <==>
            (|d.specifiers| > 1 && !HasInlineType(d)
             && !SortedBy(AnalyzeNameSpecifiers(d.specifiers, caseInsensitive), SpecifierKey)))
      && (r.Some? ==>
            (r.value.messageId == ImportNamesNotSorted
             && r.value.node == d.range && r.value.fix.range == d.range))
  {
    DiffersIffUnsorted(AnalyzeNameSpecifiers(d.specifiers, caseInsensitive));
  }

  /**
    * The rule prints a specifier list as `formatImportStatement` prints it: its lone
    * specifier in braces, like the loop there does, is the same text.
    */
  lemma FormatMatchesClause(specs: seq<Specifier>, source: string)
    requires |specs| > 0
    ensures FormatSpecifiers(specs) + " from " + Quoted(source) + ";" == Clause(specs, source)
  {
    if |specs| == 1 && !IsDefaultEntry(specs[0]) && !IsNamespaceEntry(specs[0]) {
      var braced := "{ " + NamedText(specs[0]) + " }";
      assert CollectParts(specs) == AddSpecifier(CollectParts([]), specs[0]) by {
        assert specs[..0] == [];
      }
      assert CollectParts(specs).named == [NamedText(specs[0])];
      assert Join([NamedText(specs[0])], ", ") == NamedText(specs[0]);
      assert PartList(CollectParts(specs)) == [braced];
      assert Join([braced], ", ") == braced;
    }
  }

  /**
    * For a source literal written in single quotes, the fix is the statement
    * `formatImportStatement` renders for the declaration's records: `import`, `type ` for a
    * type-only declaration, and the sorted specifiers.
    */
  lemma FixMatchesStatement(d: Declaration, caseInsensitive: bool)
    requires d.raw == Quoted(d.source)
    ensures var r := NamesReport(d, caseInsensitive);
      var sorted := SortImportSpecifiers(AnalyzeNameSpecifiers(d.specifiers, caseInsensitive));
      r.Some? ==> r.value.fix.text == "import " + TypePrefix(d.kind == KindType) + Clause(sorted, d.source)
  {
    var sorted := SortImportSpecifiers(AnalyzeNameSpecifiers(d.specifiers, caseInsensitive));
    if |sorted| > 0 {
      FixTextClause(d, sorted);
    }
  }

  lemma FixTextClause(d: Declaration, sorted: seq<Specifier>)
    requires d.raw == Quoted(d.source) && |sorted| > 0
    ensures FixText(d, sorted) == "import " + TypePrefix(d.kind == KindType) + Clause(sorted, d.source)
  {
    FormatMatchesClause(sorted, d.source);
    var tail := FormatSpecifiers(sorted) + " from " + d.raw + ";";
    assert FixText(d, sorted) == ImportKeyword(d.kind) + " " + tail;
    assert ImportKeyword(d.kind) + " " == "import " + TypePrefix(d.kind == KindType);
  }

  /** Named specifiers alone are printed as one braced list, in the order given. */
  lemma FormatNamedOnly(specs: seq<Specifier>)
    requires |specs| > 0
    requires forall i :: 0 <= i < |specs| ==> IsNamedEntry(specs[i])
    ensures FormatSpecifiers(specs) == "{ " + Join(Map(specs, NamedText), ", ") + " }"
  {
    if |specs| == 1 {
      assert Map(specs, NamedText) == [NamedText(specs[0])];
      assert Join([NamedText(specs[0])], ", ") == NamedText(specs[0]);
    } else {
      CollectPartsSpec(specs);
      FilterKeepsAll(specs, IsNamedEntry);
      FilterDropsAll(specs, IsDefaultEntry);
      FilterDropsAll(specs, IsNamespaceEntry);
      var braced := "{ " + Join(Map(specs, NamedText), ", ") + " }";
      assert PartList(CollectParts(specs)) == [braced];
      assert Join([braced], ", ") == braced;
    }
  }

  function Named(name: string): EsSpecifier
  {
    NamedSpecifier(name, name, KindValue)
  }

  /** Ignoring case, `B, c, a` is out of order and is rewritten as `a, B, c`. */
  lemma CaseInsensitiveExample(d: Declaration)
    requires d.specifiers == [Named("B"), Named("c"), Named("a")]
    requires d.kind == KindValue && d.raw == "'module'"
    ensures NamesReport(d, true) == Some(Report(ImportNamesNotSorted, d.range,
      Fix(d.range, "import { a, B, c } from 'module';")))
  {
    var b, c, a := Letter("B", "b"), Letter("c", "c"), Letter("a", "a");
    ExampleRecords(d.specifiers, b, c, a);
    ExampleSorted(b, c, a);
    ExampleNoInlineType(d);
    ExampleText([a, b, c]);
    ExampleFixText(d, [a, b, c]);
    ReportWith(d, true, [b, c, a], [a, b, c]);
  }

  lemma ExampleFixText(d: Declaration, sorted: seq<Specifier>)
    requires d.kind == KindValue && d.raw == "'module'" && FormatSpecifiers(sorted) == "{ a, B, c }"
    ensures FixText(d, sorted) == "import { a, B, c } from 'module';"
  {
  }

  lemma ExampleNoInlineType(d: Declaration)
    requires d.specifiers == [Named("B"), Named("c"), Named("a")]
    ensures !HasInlineType(d)
  {
    assert forall i :: 0 <= i < |d.specifiers| ==> d.specifiers[i].kind == KindValue;
  }

  /** The report, once the records and their sorted order are known. */
  lemma ReportWith(d: Declaration, caseInsensitive: bool, specs: seq<Specifier>, sorted: seq<Specifier>)
    requires |d.specifiers| > 1 && !HasInlineType(d)
    requires AnalyzeNameSpecifiers(d.specifiers, caseInsensitive) == specs
    requires SortImportSpecifiers(specs) == sorted && specs[0] != sorted[0]
    ensures NamesReport(d, caseInsensitive) == Some(Report(ImportNamesNotSorted, d.range, Fix(d.range, FixText(d, sorted))))
  {
    assert DiffersAt(specs, sorted, 0);
  }

  /** The record of an unaliased named specifier `name`, keyed by the single letter `key`. */
  function Letter(name: string, key: string): Specifier
  {
    Specifier(name, None, false, "2" + key)
  }

  lemma LetterKey(name: string, lower: string)
    requires |name| == 1 && |lower| == 1 && 'a' <= lower[0] <= 'z'
    requires IsUpper(name[0]) || name == lower
    requires IsUpper(name[0]) ==> name[0] as int + 32 == lower[0] as int
    ensures AnalyzeNameSpecifier(Named(name), true) == Letter(name, lower)
  {
    assert ToLower(name) == lower;
    assert SortKey(lower) == SortKey(lower[..0]) + Unit(lower[0]);
    assert lower[..0] == [];
  }

  lemma ExampleRecords(specs: seq<EsSpecifier>, b: Specifier, c: Specifier, a: Specifier)
    requires specs == [Named("B"), Named("c"), Named("a")]
    requires b == Letter("B", "b") && c == Letter("c", "c") && a == Letter("a", "a")
    ensures AnalyzeNameSpecifiers(specs, true) == [b, c, a]
  {
    LetterRecord(specs[0], "B", "b");
    LetterRecord(specs[1], "c", "c");
    LetterRecord(specs[2], "a", "a");
    MapThree(specs, NameAnalyzer(true), b, c, a);
  }

  lemma LetterRecord(spec: EsSpecifier, name: string, lower: string)
    requires spec == Named(name)
    requires |name| == 1 && |lower| == 1 && 'a' <= lower[0] <= 'z'
    requires IsUpper(name[0]) || name == lower
    requires IsUpper(name[0]) ==> name[0] as int + 32 == lower[0] as int
    ensures NameAnalyzer(true)(spec) == Letter(name, lower)
  {
    LetterKey(name, lower);
  }

  lemma ExampleSorted(b: Specifier, c: Specifier, a: Specifier)
    requires b == Letter("B", "b") && c == Letter("c", "c") && a == Letter("a", "a")
    ensures SortImportSpecifiers([b, c, a]) == [a, b, c]
  {
    assert Less(b.sortKey, c.sortKey) && Less(a.sortKey, b.sortKey);
    assert [b, c, a][..2] == [b, c];
    assert [b, c][..1] == [b];
    assert [b][..0] == [];
    assert SortBy([b], SpecifierKey) == [b];
    assert SortBy([b, c], SpecifierKey) == Insert(c, [b], SpecifierKey) == [b, c];
  }

  lemma ExampleText(sorted: seq<Specifier>)
    requires sorted == [Letter("a", "a"), Letter("B", "b"), Letter("c", "c")]
    ensures FormatSpecifiers(sorted) == "{ a, B, c }"
  {
    FormatNamedOnly(sorted);
    assert Map(sorted, NamedText) == ["a", "B", "c"];
    assert Join(["a", "B", "c"], ", ") == "a, B, c" by {
      assert ["a", "B", "c"][1..] == ["B", "c"];
      assert ["B", "c"][1..] == ["c"];
    }
  }

  /**
    * A default binding whose key sorts after a named one is reported, yet the fix prints
    * the default first, as it was written: `r, { A }` is reported and rewritten to the
    * same text, so the report outlives its fix.
    */
  lemma DefaultWrittenFirstExample(d: Declaration)
    requires d.specifiers == [DefaultSpecifier("r"), Named("A")]
    requires d.kind == KindValue && d.raw == "'m'"
    ensures NamesReport(d, false) == Some(Report(ImportNamesNotSorted, d.range,
      Fix(d.range, "import r, { A } from 'm';")))
  {
    var lower := Specifier("default", Some("r"), false, "2r");
    var upper := Specifier("A", None, false, "1a");
    DefaultFirstRecords(d.specifiers, lower, upper);
    DefaultFirstSorted(lower, upper);
    DefaultFirstNoInlineType(d);
    DefaultFirstText([upper, lower]);
    DefaultFirstFixText(d, [upper, lower]);
    ReportWith(d, false, [lower, upper], [upper, lower]);
  }

  lemma DefaultFirstNoInlineType(d: Declaration)
    requires d.specifiers == [DefaultSpecifier("r"), Named("A")]
    ensures !HasInlineType(d)
  {
    assert forall i :: 0 <= i < |d.specifiers| ==> !IsInlineType(d.specifiers[i]);
  }

  lemma DefaultFirstRecords(specs: seq<EsSpecifier>, lower: Specifier, upper: Specifier)
    requires specs == [DefaultSpecifier("r"), Named("A")]
    requires lower == Specifier("default", Some("r"), false, "2r")
    requires upper == Specifier("A", None, false, "1a")
    ensures AnalyzeNameSpecifiers(specs, false) == [lower, upper]
  {
    DefaultRecord(specs[0], lower);
    UpperRecord(specs[1], upper);
    MapPair(specs[0], specs[1], NameAnalyzer(false));
    assert specs == [specs[0], specs[1]];
  }

  lemma DefaultRecord(spec: EsSpecifier, lower: Specifier)
    requires spec == DefaultSpecifier("r")
    requires lower == Specifier("default", Some("r"), false, "2r")
    ensures NameAnalyzer(false)(spec) == lower
  {
    LowerKey();
    assert KeySource("default", Some("r")) == "r";
    assert NameAnalyzer(false)(spec) == AnalyzeNameSpecifier(spec, false);
  }

  lemma LowerKey()
    ensures SortKey("r") == "2r"
  {
    OneLetterKey("r");
    assert IsLower('r') && ClassDigit('r') == '2' && Normalised('r') == 'r';
  }

  lemma UpperRecord(spec: EsSpecifier, upper: Specifier)
    requires spec == Named("A")
    requires upper == Specifier("A", None, false, "1a")
    ensures NameAnalyzer(false)(spec) == upper
  {
    UpperKey();
    assert KeySource("A", None) == "A";
    assert NameAnalyzer(false)(spec) == AnalyzeNameSpecifier(spec, false);
  }

  lemma UpperKey()
    ensures SortKey("A") == "1a"
  {
    OneLetterKey("A");
    assert IsUpper('A') && ClassDigit('A') == '1' && Normalised('A') == 'a';
  }

  lemma OneLetterKey(name: string)
    requires |name| == 1
    ensures SortKey(name) == Unit(name[0])
  {
    assert name[..0] == [];
  }

  lemma DefaultFirstSorted(lower: Specifier, upper: Specifier)
    requires lower == Specifier("default", Some("r"), false, "2r")
    requires upper == Specifier("A", None, false, "1a")
    ensures SortImportSpecifiers([lower, upper]) == [upper, lower]
  {
    assert Less(upper.sortKey, lower.sortKey);
    assert [lower, upper][..1] == [lower];
    assert [lower][..0] == [];
    assert SortBy([lower], SpecifierKey) == [lower];
  }

  lemma DefaultFirstText(sorted: seq<Specifier>)
    requires sorted == [Specifier("A", None, false, "1a"), Specifier("default", Some("r"), false, "2r")]
    ensures FormatSpecifiers(sorted) == "r, { A }"
  {
    assert sorted[..1] == [sorted[0]];
    assert sorted[..1][..0] == [];
    assert CollectParts(sorted[..1]) == Parts([], None, ["A"]);
    assert CollectParts(sorted) == Parts(["r"], None, ["A"]);
    assert Join(["A"], ", ") == "A";
    var p := Parts(["r"], None, ["A"]);
    assert |p.defaults| > 0 && p.defaults[0] == "r" && "r" != "";
    assert !Truthy(p.namespace);
    assert "{ " + Join(p.named, ", ") + " }" == "{ A }";
    assert PartList(p) == ["r", "{ A }"];
    assert ["r", "{ A }"][1..] == ["{ A }"];
  }

  lemma DefaultFirstFixText(d: Declaration, sorted: seq<Specifier>)
    requires d.kind == KindValue && d.raw == "'m'" && FormatSpecifiers(sorted) == "r, { A }"
    ensures FixText(d, sorted) == "import r, { A } from 'm';"
  {
  }
}

/**
  * The `separate-type-imports` rule: a value declaration holding inline `type` specifiers
  * is reported, and its fix moves those specifiers into an `import type` declaration of
  * their own, keeping the value bindings in a second declaration when there are any.
  */
module SeparateTypeImports {
  import opened Strings
  import opened Seqs
  import opened Types
  import Format

  /** A value binding: a default, a namespace, or a named specifier not marked `type`. */
  predicate IsValueSpecifier(s: EsSpecifier)
  {
    !IsInlineType(s)
  }

  predicate IsValueNamed(s: EsSpecifier)
  {
    s.NamedSpecifier? && s.kind != KindType
  }

  predicate IsDefault(s: EsSpecifier)
  {
    s.DefaultSpecifier?
  }

  predicate IsNamespace(s: EsSpecifier)
  {
    s.NamespaceSpecifier?
  }

  predicate IsNamed(s: EsSpecifier)
  {
    s.NamedSpecifier?
  }

  /** `hasInlineTypeImport`. */
  predicate HasInlineTypeImport(d: Declaration)
  {
    exists i :: 0 <= i < |d.specifiers| && IsInlineType(d.specifiers[i])
  }

  /** `hasValueImport`: a named value specifier, or a default or namespace one. */
  predicate HasValueImport(d: Declaration)
  {
    || (exists i :: 0 <= i < |d.specifiers| && IsValueNamed(d.specifiers[i]))
    || (exists i :: 0 <= i < |d.specifiers| && (IsDefault(d.specifiers[i]) || IsNamespace(d.specifiers[i])))
  }

  /** `getAllTypeSpecifiers`. */
  function TypeSpecifiers(d: Declaration): seq<EsSpecifier>
  {
    Filter(d.specifiers, IsInlineType)
  }

  /** `getAllValueSpecifiers`. */
  function ValueSpecifiers(d: Declaration): seq<EsSpecifier>
  {
    Filter(d.specifiers, IsValueSpecifier)
  }

  // ------------------------------------------------------------------ the fix text

  /** `imported as local` when the specifier renames, `imported` otherwise. */
  function BindingText(imported: string, local: string): string
  {
    if local != imported then imported + " as " + local else imported
  }

  function NamedBinding(s: EsSpecifier): string
    requires s.NamedSpecifier?
  {
    BindingText(s.imported, s.local)
  }

  /** The text the value loop pushes for one value specifier. */
  function ValueText(s: EsSpecifier): string
  {
    match s
    case DefaultSpecifier(local) => local
    case NamespaceSpecifier(local) => "* as " + local
    case NamedSpecifier(imported, local, _) => BindingText(imported, local)
  }

  /** The bindings of named specifiers, in order. */
  function NamedBindings(specs: seq<EsSpecifier>): seq<string>
  {
    if specs == [] then []
    else
      var last := specs[|specs| - 1];
      NamedBindings(specs[..|specs| - 1]) + (if last.NamedSpecifier? then [NamedBinding(last)] else [])
  }

  /** The `import type` statement of the type specifiers. */
  function TypeStatement(d: Declaration): string
  {
    "import type { " + Join(NamedBindings(TypeSpecifiers(d)), ", ") + " } from " + Format.Quoted(d.source) + ";"
  }

  /** `array.find(p)`: the first element satisfying `p`. */
  function First(specs: seq<EsSpecifier>, p: EsSpecifier -> bool): (r: Option<EsSpecifier>)
    ensures r.Some? ==> r.value in specs && p(r.value)
    ensures r.None? <==> forall i :: 0 <= i < |specs| ==> !p(specs[i])
    ensures r.Some? ==> exists i :: 0 <= i < |specs| && specs[i] == r.value && forall j :: 0 <= j < i ==> !p(specs[j])
  {
    if specs == [] then None
    else if p(specs[0]) then Some(specs[0])
    else
      var r := First(specs[1..], p);
      assert forall i :: 0 < i < |specs| ==> specs[i] == specs[1..][i - 1];
      if r.Some? then
        var k :| 0 <= k < |specs[1..]| && specs[1..][k] == r.value && forall j :: 0 <= j < k ==> !p(specs[1..][j]);
        assert specs[k + 1] == r.value;
        r
      else r
  }

  /** The parts of the value statement: the default, the namespace, then the braced names. */
  function ValueParts(values: seq<EsSpecifier>): seq<string>
  {
    var defaultImport := First(values, IsDefault);
    var namespaceImport := First(values, IsNamespace);
    var namedImports := Filter(values, IsNamed);
    (if defaultImport.Some? then [defaultImport.value.local] else [])
    + (if namespaceImport.Some? then ["* as " + namespaceImport.value.local] else [])
    + (if |namedImports| > 0 then ["{ " + Join(NamedBindings(namedImports), ", ") + " }"] else [])
  }

  /** `import <parts> from '<source>';` for the value specifiers `values`. */
  function ValueStatementOf(values: seq<EsSpecifier>, source: string): string
  {
    "import " + Join(ValueParts(values), ", ") + " from " + Format.Quoted(source) + ";"
  }

  /** The value statement, empty when there is no value binding. */
  function ValueStatement(d: Declaration): string
  {
    var values := ValueSpecifiers(d);
    if |values| > 0 then ValueStatementOf(values, d.source) else ""
  }

  /** The replacement of a mixed declaration. */
  function MixedText(d: Declaration): string
  {
    var valueStatement := ValueStatement(d);
    if valueStatement != "" then TypeStatement(d) + "\n" + valueStatement else TypeStatement(d)
  }

  /** The report the `ImportDeclaration` visitor makes for `d`, if any. */
  function SeparateReport(d: Declaration): Option<Report>
  {
    if d.kind == KindType || !HasInlineTypeImport(d) then None
    else if HasValueImport(d) then Some(Report(MixedImport, d.range, Fix(d.range, MixedText(d))))
    else Some(Report(SeparateTypeImport, d.range, Fix(d.range, TypeStatement(d))))
  }

  // ------------------------------------------------------------------ the methods

  /** `typeSpecifiers.map(...)` followed by the join of the type statement. */
  method BuildTypeStatement(d: Declaration) returns (statement: string)
    ensures statement == TypeStatement(d)
  {
    var typeSpecifiers := TypeSpecifiers(d);
    var typeImports := NamedBindings(typeSpecifiers);
    statement := "import type { " + Join(typeImports, ", ") + " } from " + Format.Quoted(d.source) + ";";
  }

  /** The fix of a mixed declaration: the value loop, then the parts of the value statement. */
  method BuildMixedReplacement(d: Declaration) returns (replacement: string)
    ensures replacement == MixedText(d)
  {
    var valueSpecifiers := ValueSpecifiers(d);
    var typeImportStatement := BuildTypeStatement(d);
    var valueImports: seq<string> := [];
    for i := 0 to |valueSpecifiers|
      invariant valueImports == Map(valueSpecifiers[..i], ValueText)
    {
      var spec := valueSpecifiers[i];
      if spec.DefaultSpecifier? {
        valueImports := valueImports + [spec.local];
      } else if spec.NamespaceSpecifier? {
        valueImports := valueImports + ["* as " + spec.local];
      } else {
        valueImports := valueImports + [BindingText(spec.imported, spec.local)];
      }
      TakeSnoc(valueSpecifiers, i);
    }
    var valueImportStatement := "";
    if |valueImports| > 0 {
      valueImportStatement := BuildValueStatement(valueSpecifiers, d.source);
      assert |valueImportStatement| > 0;
    }
    replacement := if valueImportStatement != "" then typeImportStatement + "\n" + valueImportStatement
      else typeImportStatement;
  }

  /** The parts of the value statement, pushed in turn, and the statement they make. */
  method BuildValueStatement(valueSpecifiers: seq<EsSpecifier>, source: string) returns (statement: string)
    ensures statement == ValueStatementOf(valueSpecifiers, source)
  {
    var defaultImport := First(valueSpecifiers, IsDefault);
    var namespaceImport := First(valueSpecifiers, IsNamespace);
    var namedImports := Filter(valueSpecifiers, IsNamed);
    var parts: seq<string> := [];
    if defaultImport.Some? {
      parts := parts + [defaultImport.value.local];
    }
    if namespaceImport.Some? {
      parts := parts + ["* as " + namespaceImport.value.local];
    }
    if |namedImports| > 0 {
      var namedParts := NamedBindings(namedImports);
      parts := parts + ["{ " + Join(namedParts, ", ") + " }"];
    }
    assert parts == ValueParts(valueSpecifiers) by {
      assert [] + (if defaultImport.Some? then [defaultImport.value.local] else [])
        == (if defaultImport.Some? then [defaultImport.value.local] else []);
    }
    statement := "import " + Join(parts, ", ") + " from " + Format.Quoted(source) + ";";
  }

  /** The `ImportDeclaration` visitor. */
  method CheckDeclaration(d: Declaration) returns (report: Option<Report>)
    ensures report == SeparateReport(d)
  {
    if d.kind == KindType {
      return None;
    }
    var hasInlineTypes := HasInlineTypeImport(d);
    var hasValues := HasValueImport(d);
    if hasInlineTypes {
      if hasValues {
        var replacement := BuildMixedReplacement(d);
        report := Some(Report(MixedImport, d.range, Fix(d.range, replacement)));
      } else {
        var statement := BuildTypeStatement(d);
        report := Some(Report(SeparateTypeImport, d.range, Fix(d.range, statement)));
      }
    } else {
      report := None;
    }
  }

  // ------------------------------------------------------------------ properties

  /** The two tests pick out exactly the specifiers the two filters keep. */
  lemma SpecifierKinds(d: Declaration)
    ensures HasInlineTypeImport(d) <==> TypeSpecifiers(d) != []
    ensures HasValueImport(d) <==> ValueSpecifiers(d) != []
  {
    FilterNonEmpty(d.specifiers, IsInlineType);
    FilterNonEmpty(d.specifiers, IsValueSpecifier);
    ValueTests(d);
  }

  /** `hasValueImport` holds exactly when some specifier is a value specifier. */
  lemma ValueTests(d: Declaration)
    ensures HasValueImport(d) <==> exists i :: 0 <= i < |d.specifiers| && IsValueSpecifier(d.specifiers[i])
  {
    if exists i :: 0 <= i < |d.specifiers| && IsValueSpecifier(d.specifiers[i]) {
      var i :| 0 <= i < |d.specifiers| && IsValueSpecifier(d.specifiers[i]);
      assert IsValueNamed(d.specifiers[i]) || IsDefault(d.specifiers[i]) || IsNamespace(d.specifiers[i]);
    }
  }

  /** Every specifier is a type specifier or a value specifier, and not both. */
  lemma SpecifiersPartition(d: Declaration)
    ensures multiset(TypeSpecifiers(d)) + multiset(ValueSpecifiers(d)) == multiset(d.specifiers)
  {
    FilterComplement(d.specifiers, IsInlineType, IsValueSpecifier);
  }

  /**
    * Only a value declaration with an inline `type` specifier is reported, on the whole
    * declaration, which the fix replaces; the message says the declaration is mixed exactly
    * when it also binds values, and then the fix is the type statement, a line break and a
    * value statement; otherwise it is the type statement alone.
    */
  lemma ReportSpec(d: Declaration)
    ensures var r := SeparateReport(d);
      && (r.Some? <==> d.kind != KindType && TypeSpecifiers(d) != [])
      && (r.Some? ==> r.value.node == d.range && r.value.fix.range == d.range)
      && (r.Some? ==> (r.value.messageId == MixedImport <==> ValueSpecifiers(d) != []))
      && (r.Some? && r.value.messageId == MixedImport ==>
            r.value.fix.text == TypeStatement(d) + "\n" + ValueStatement(d)
            && |ValueStatement(d)| > 7 && ValueStatement(d)[..7] == "import ")
      && (r.Some? && r.value.messageId != MixedImport ==>
            r.value.messageId == SeparateTypeImport && r.value.fix.text == TypeStatement(d))
  {
    SpecifierKinds(d);
    var v := ValueStatement(d);
    if ValueSpecifiers(d) != [] {
      var rest := Join(ValueParts(ValueSpecifiers(d)), ", ") + " from " + Format.Quoted(d.source) + ";";
      assert v == "import " + rest;
      assert v[..7] == "import ";
    }
  }

  /** A type specifier without its `type` mark. */
  function Unmarked(s: EsSpecifier): EsSpecifier
  {
    if s.NamedSpecifier? then s.(kind := KindValue) else s
  }

  /** The declaration the type statement of the fix stands for. */
  function TypeDeclaration(d: Declaration): Declaration
  {
    d.(specifiers := Map(TypeSpecifiers(d), Unmarked), kind := KindType)
  }

  function Present(o: Option<EsSpecifier>): seq<EsSpecifier>
  {
    if o.Some? then [o.value] else []
  }

  /** The specifiers the value statement lists: the default, the namespace, the names. */
  function ValueBindings(values: seq<EsSpecifier>): seq<EsSpecifier>
  {
    Present(First(values, IsDefault)) + Present(First(values, IsNamespace)) + Filter(values, IsNamed)
  }

  /** The declaration the value statement of the fix stands for. */
  function ValueDeclaration(d: Declaration): Declaration
  {
    d.(specifiers := ValueBindings(ValueSpecifiers(d)))
  }

  /**
    * How an import declaration that binds `decl.specifiers` is written: `import`, `type ` for
    * a type declaration, then its default bindings, its namespace bindings and its named
    * bindings in braces, separated by commas, and the quoted source.
    */
  function DeclarationText(decl: Declaration): string
  {
    "import " + (if decl.kind == KindType then "type " else "")
    + Join(ClauseParts(decl.specifiers), ", ") + " from " + Format.Quoted(decl.source) + ";"
  }

  function ClauseParts(specs: seq<EsSpecifier>): seq<string>
  {
    var named := Filter(specs, IsNamed);
    Map(Filter(specs, IsDefault), ValueText) + Map(Filter(specs, IsNamespace), ValueText)
    + (if named != [] then ["{ " + Join(Map(named, ValueText), ", ") + " }"] else [])
  }

  /**
    * The fix writes exactly the declarations it stands for: the type declaration, and after a
    * line break the value declaration when values remain.
    */
  lemma FixWritesDeclarations(d: Declaration)
    ensures var r := SeparateReport(d);
      r.Some? ==>
        r.value.fix.text ==
          if ValueSpecifiers(d) != [] then DeclarationText(TypeDeclaration(d)) + "\n" + DeclarationText(ValueDeclaration(d))
          else DeclarationText(TypeDeclaration(d))
  {
    ReportSpec(d);
    SpecifierKinds(d);
    if SeparateReport(d).Some? {
      TypeStatementWritesDeclaration(d);
      if ValueSpecifiers(d) != [] {
        ValueStatementWritesDeclaration(d);
      }
    }
  }

  lemma TypeStatementWritesDeclaration(d: Declaration)
    requires TypeSpecifiers(d) != []
    ensures TypeStatement(d) == DeclarationText(TypeDeclaration(d))
  {
    var ts := TypeSpecifiers(d);
    var td := TypeDeclaration(d);
    UnmarkedClause(ts);
    assert td.kind == KindType && td.source == d.source && td.specifiers == Map(ts, Unmarked);
    BracedText(TypeStatement(d), DeclarationText(td), NamedBindings(ts), ClauseParts(td.specifiers), d.source);
  }

  /** The clause of the unmarked type specifiers is their bindings in braces. */
  lemma UnmarkedClause(ts: seq<EsSpecifier>)
    requires ts != [] && forall i :: 0 <= i < |ts| ==> ts[i].NamedSpecifier?
    ensures ClauseParts(Map(ts, Unmarked)) == ["{ " + Join(NamedBindings(ts), ", ") + " }"]
  {
    var specs := Map(ts, Unmarked);
    assert forall i :: 0 <= i < |specs| ==> specs[i] == Unmarked(ts[i]) && IsNamed(specs[i]);
    FilterDropsAll(specs, IsDefault);
    FilterDropsAll(specs, IsNamespace);
    FilterKeepsAll(specs, IsNamed);
    NamedBindingsText(ts);
    assert Map(specs, ValueText) == Map(ts, ValueText);
  }

  lemma BracedText(v: string, t: string, bindings: seq<string>, clause: seq<string>, source: string)
    requires clause == ["{ " + Join(bindings, ", ") + " }"]
    requires v == "import type { " + Join(bindings, ", ") + " } from " + Format.Quoted(source) + ";"
    requires t == "import " + "type " + Join(clause, ", ") + " from " + Format.Quoted(source) + ";"
    ensures v == t
  {
  }

  lemma ValueStatementWritesDeclaration(d: Declaration)
    requires ValueSpecifiers(d) != [] && d.kind != KindType
    ensures ValueStatement(d) == DeclarationText(ValueDeclaration(d))
  {
    var values := ValueSpecifiers(d);
    var vd := ValueDeclaration(d);
    ValueBindingsParts(values);
    assert vd.kind != KindType && vd.source == d.source && vd.specifiers == ValueBindings(values);
    TextOfClause(ValueStatement(d), DeclarationText(vd), ValueParts(values), ClauseParts(vd.specifiers), d.source);
  }

  lemma TextOfClause(v: string, t: string, parts: seq<string>, clause: seq<string>, source: string)
    requires parts == clause
    requires v == "import " + Join(parts, ", ") + " from " + Format.Quoted(source) + ";"
    requires t == "import " + "" + Join(clause, ", ") + " from " + Format.Quoted(source) + ";"
    ensures v == t
  {
  }

  /** The parts the value statement writes are the clause of the bindings it lists. */
  lemma ValueBindingsParts(values: seq<EsSpecifier>)
    ensures ValueParts(values) == ClauseParts(ValueBindings(values))
  {
    var d, n := First(values, IsDefault), First(values, IsNamespace);
    var fd, fn := Present(d), Present(n);
    var named := Filter(values, IsNamed);
    BindingsFiltered(fd, fn, named);
    assert Map(fd, ValueText) == (if d.Some? then [d.value.local] else []);
    assert Map(fn, ValueText) == (if n.Some? then ["* as " + n.value.local] else []);
    NamedBindingsText(named);
  }

  /** Filtering the listed bindings by kind gives back each of the three parts. */
  lemma BindingsFiltered(fd: seq<EsSpecifier>, fn: seq<EsSpecifier>, named: seq<EsSpecifier>)
    requires forall i :: 0 <= i < |fd| ==> IsDefault(fd[i])
    requires forall i :: 0 <= i < |fn| ==> IsNamespace(fn[i])
    requires forall i :: 0 <= i < |named| ==> IsNamed(named[i])
    ensures Filter(fd + fn + named, IsDefault) == fd
    ensures Filter(fd + fn + named, IsNamespace) == fn
    ensures Filter(fd + fn + named, IsNamed) == named
  {
    FilterConcat3(fd, fn, named, IsDefault);
    FilterConcat3(fd, fn, named, IsNamespace);
    FilterConcat3(fd, fn, named, IsNamed);
    FilterKeepsAll(fd, IsDefault);
    FilterDropsAll(fd, IsNamespace);
    FilterDropsAll(fd, IsNamed);
    FilterDropsAll(fn, IsDefault);
    FilterKeepsAll(fn, IsNamespace);
    FilterDropsAll(fn, IsNamed);
    FilterDropsAll(named, IsDefault);
    FilterDropsAll(named, IsNamespace);
    FilterKeepsAll(named, IsNamed);
  }

  /** For named specifiers, the bindings are the specifiers' value texts. */
  lemma {:induction false} NamedBindingsText(specs: seq<EsSpecifier>)
    requires forall i :: 0 <= i < |specs| ==> specs[i].NamedSpecifier?
    ensures NamedBindings(specs) == Map(specs, ValueText)
  {
    if specs != [] {
      var init := specs[..|specs| - 1];
      NamedBindingsText(init);
      SnocSplit(specs);
      MapConcat(init, [specs[|specs| - 1]], ValueText);
    }
  }

  /** Neither declaration of the fix holds an inline `type` specifier, so neither is reported. */
  lemma FixedDeclarationsClean(d: Declaration)
    ensures !HasInlineType(TypeDeclaration(d)) && SeparateReport(TypeDeclaration(d)) == None
    ensures !HasInlineType(ValueDeclaration(d)) && SeparateReport(ValueDeclaration(d)) == None
  {
    TypeDeclarationClean(d);
    ValueBindingsClean(ValueSpecifiers(d));
  }

  lemma TypeDeclarationClean(d: Declaration)
    ensures !HasInlineType(TypeDeclaration(d))
  {
    var specs := TypeDeclaration(d).specifiers;
    forall i | 0 <= i < |specs|
      ensures !IsInlineType(specs[i])
    {
      assert specs[i] == Unmarked(TypeSpecifiers(d)[i]);
    }
  }

  lemma ValueBindingsClean(values: seq<EsSpecifier>)
    requires forall i :: 0 <= i < |values| ==> IsValueSpecifier(values[i])
    ensures forall i :: 0 <= i < |ValueBindings(values)| ==> !IsInlineType(ValueBindings(values)[i])
  {
    var named := Filter(values, IsNamed);
    FilterMultiset(values, IsNamed);
    var head := Present(First(values, IsDefault)) + Present(First(values, IsNamespace));
    assert forall x :: x in head ==> x in values;
    assert forall x :: x in named ==> x in values;
    assert forall x :: x in values ==> !IsInlineType(x);
  }

  /**
    * Given what the syntax allows, at most one default and one namespace specifier, the two
    * declarations of the fix bind every specifier of the original exactly once.
    */
  lemma FixKeepsEveryBinding(d: Declaration)
    requires |Filter(d.specifiers, IsDefault)| <= 1 && |Filter(d.specifiers, IsNamespace)| <= 1
    ensures multiset(TypeSpecifiers(d)) + multiset(ValueDeclaration(d).specifiers) == multiset(d.specifiers)
  {
    var specs := d.specifiers;
    var values := ValueSpecifiers(d);
    FilterFilter(specs, IsValueSpecifier, IsDefault, IsDefault);
    FilterFilter(specs, IsValueSpecifier, IsNamespace, IsNamespace);
    FilterFilter(specs, IsValueSpecifier, IsNamed, IsValueNamed);
    FirstOfAtMostOne(values, IsDefault);
    FirstOfAtMostOne(values, IsNamespace);
    FilterUnion(specs, IsDefault, IsNamespace, IsDefaultOrNamespace);
    FilterUnion(specs, IsDefaultOrNamespace, IsValueNamed, IsValueSpecifier);
    SpecifiersPartition(d);
  }

  predicate IsDefaultOrNamespace(s: EsSpecifier)
  {
    s.DefaultSpecifier? || s.NamespaceSpecifier?
  }

  /** With at most one match, `find` yields what `filter` keeps. */
  lemma FirstOfAtMostOne(s: seq<EsSpecifier>, p: EsSpecifier -> bool)
    requires |Filter(s, p)| <= 1
    ensures Filter(s, p) == Present(First(s, p))
  {
    var r := First(s, p);
    if r.None? {
      FilterDropsAll(s, p);
    } else {
      var f := Filter(s, p);
      FilterMultiset(s, p);
      assert r.value in f;
      assert |f| == 1 && f[0] == r.value;
      assert f == [r.value];
    }
  }

  // ------------------------------------------------------------------ the binding text

  /** An identifier: not empty and without a space. */
  predicate IsName(n: string)
  {
    |n| > 0 && forall i :: 0 <= i < |n| ==> n[i] != ' '
  }

  /** The position of the first space, or the length when there is none. */
  function SpaceIndex(t: string): (k: nat)
    ensures k <= |t|
    ensures forall i :: 0 <= i < k ==> t[i] != ' '
    ensures k < |t| ==> t[k] == ' '
  {
    if t == [] then 0
    else if t[0] == ' ' then 0
    else 1 + SpaceIndex(t[1..])
  }

  /** Reads a binding back: `imported as local`, or one name imported under itself. */
  function ParseBinding(t: string): (string, string)
  {
    var k := SpaceIndex(t);
    if k == |t| then (t, t)
    else if k + 4 <= |t| then (t[..k], t[k + 4..])
    else (t[..k], "")
  }

  /** Reading a binding text back gives the imported and the local name. */
  lemma BindingRoundTrip(imported: string, local: string)
    requires IsName(imported) && IsName(local)
    ensures ParseBinding(BindingText(imported, local)) == (imported, local)
  {
    var t := BindingText(imported, local);
    if local != imported {
      assert t == imported + (" as " + local);
      SpaceAfterName(imported, " as " + local);
      assert t[..|imported|] == imported;
      assert t[|imported| + 4..] == local;
    } else {
      SpaceAfterName(imported, "");
      assert imported + "" == imported;
    }
  }

  lemma {:induction false} SpaceAfterName(n: string, rest: string)
    requires forall i :: 0 <= i < |n| ==> n[i] != ' '
    requires rest == [] || rest[0] == ' '
    ensures SpaceIndex(n + rest) == |n|
  {
    if n != [] {
      assert (n + rest)[1..] == n[1..] + rest;
      SpaceAfterName(n[1..], rest);
    } else {
      assert n + rest == rest;
    }
  }
}

/**
  * The analysis half of `src/utils.ts`: module classification, import classification,
  * specifier analysis, the record-level sort key and the group priority of a record.
  */
module Classify {
  import opened Strings
  import opened Seqs
  import opened Types
  import opened SortKeys

  // ---------------------------------------------------------------- getModuleType

  /** `prefixes.some((p) => source.startsWith(p))`. */
  function StartsWithAny(source: string, prefixes: seq<string>): bool
  {
    Any(prefixes, (p: string) => StartsWith(source, p))
  }

  /**
    * Built-in prefixes are checked first, then the local patterns, then relative and
    * absolute paths; anything else is an external package.
    */
  function GetModuleType(source: string, options: Options): (t: ModuleType)
    ensures t == Builtin <==>
      exists i :: 0 <= i < |options.builtinModulePrefixes| && StartsWith(source, options.builtinModulePrefixes[i])
    ensures t == LocalPattern <==>
      && (forall i :: 0 <= i < |options.builtinModulePrefixes| ==> !StartsWith(source, options.builtinModulePrefixes[i]))
      && (exists i :: 0 <= i < |options.localPatterns| && StartsWith(source, options.localPatterns[i]))
    ensures t == Local <==>
      && (forall i :: 0 <= i < |options.builtinModulePrefixes| ==> !StartsWith(source, options.builtinModulePrefixes[i]))
      && (forall i :: 0 <= i < |options.localPatterns| ==> !StartsWith(source, options.localPatterns[i]))
      && (StartsWith(source, ".") || StartsWith(source, "/"))
    ensures t == External <==>
      && (forall i :: 0 <= i < |options.builtinModulePrefixes| ==> !StartsWith(source, options.builtinModulePrefixes[i]))
      && (forall i :: 0 <= i < |options.localPatterns| ==> !StartsWith(source, options.localPatterns[i]))
      && !StartsWith(source, ".") && !StartsWith(source, "/")
  {
    if StartsWithAny(source, options.builtinModulePrefixes) then Builtin
    else if StartsWithAny(source, options.localPatterns) then LocalPattern
    else if StartsWith(source, ".") || StartsWith(source, "/") then Local
    else External
  }

  /** With the default options `node:` and `bun:` are built in. */
  lemma BuiltinExamples()
    ensures GetModuleType("node:fs", DefaultOptions) == Builtin
    ensures GetModuleType("bun:test", DefaultOptions) == Builtin
  {
    assert StartsWith("node:fs", DefaultOptions.builtinModulePrefixes[0]);
    assert StartsWith("bun:test", DefaultOptions.builtinModulePrefixes[1]);
  }

  /** A relative path is local and a bare package name external. */
  lemma LocalAndExternalExamples()
    ensures GetModuleType("./utils", DefaultOptions) == Local
    ensures GetModuleType("react", DefaultOptions) == External
  {
    FirstCharMismatch("./utils", "node:");
    FirstCharMismatch("./utils", "bun:");
    FirstCharMismatch("react", "node:");
    FirstCharMismatch("react", "bun:");
    FirstCharMismatch("react", ".");
    FirstCharMismatch("react", "/");
    assert StartsWith("./utils", ".");
  }

  /** A configured pattern makes `@/utils` a local-pattern import. */
  lemma LocalPatternExample()
    ensures GetModuleType("@/utils", DefaultOptions.(localPatterns := ["@/"])) == LocalPattern
  {
    FirstCharMismatch("@/utils", "node:");
    FirstCharMismatch("@/utils", "bun:");
    assert StartsWith("@/utils", ['@', '/']);
  }

  // ------------------------------------------------------------- analyzeImportType

  predicate HasDefaultSpecifier(specs: seq<EsSpecifier>)
  {
    Any(specs, (s: EsSpecifier) => s.DefaultSpecifier?)
  }

  predicate HasNamedSpecifier(specs: seq<EsSpecifier>)
  {
    Any(specs, (s: EsSpecifier) => s.NamedSpecifier?)
  }

  predicate HasNamespaceSpecifier(specs: seq<EsSpecifier>)
  {
    Any(specs, (s: EsSpecifier) => s.NamespaceSpecifier?)
  }

  /** A declaration without specifiers is a side effect; a namespace wins; named beats default. */
  function AnalyzeImportType(specs: seq<EsSpecifier>): (t: ImportType)
    ensures t == SideEffect <==> |specs| == 0
    ensures t == Namespace <==> exists i :: 0 <= i < |specs| && specs[i].NamespaceSpecifier?
    ensures t == Default <==>
      && (forall i :: 0 <= i < |specs| ==> !specs[i].NamespaceSpecifier? && !specs[i].NamedSpecifier?)
      && (exists i :: 0 <= i < |specs| && specs[i].DefaultSpecifier?)
    ensures t == Named <==>
      && (forall i :: 0 <= i < |specs| ==> !specs[i].NamespaceSpecifier?)
      && (exists i :: 0 <= i < |specs| && specs[i].NamedSpecifier?)
    ensures t != Type
  {
    if |specs| == 0 then SideEffect
    else
      var hasDefault := HasDefaultSpecifier(specs);
      var hasNamed := HasNamedSpecifier(specs);
      var hasNamespace := HasNamespaceSpecifier(specs);
      if hasNamespace then Namespace
      else if hasDefault && !hasNamed then Default
      else if hasNamed && !hasDefault then Named
      else
        assert specs[0].DefaultSpecifier? || specs[0].NamedSpecifier?;
        Named
  }

  // ------------------------------------------------------- analyzeImportSpecifiers

  /** `default`, `*`, or the imported name of a named specifier. */
  function SpecifierName(spec: EsSpecifier): string
  {
    match spec
    case DefaultSpecifier(_) => "default"
    case NamespaceSpecifier(_) => "*"
    case NamedSpecifier(imported, _, _) => imported
  }

  /** The local name, kept for a named specifier only when it renames. */
  function SpecifierAlias(spec: EsSpecifier): Option<string>
  {
    match spec
    case DefaultSpecifier(local) => Some(local)
    case NamespaceSpecifier(local) => Some(local)
    case NamedSpecifier(imported, local, _) => if local != imported then Some(local) else None
  }

  /** `alias ?? fallback`. */
  function AliasOr(alias: Option<string>, fallback: string): string
  {
    if alias.Some? then alias.value else fallback
  }

  /** The text a specifier's key is built from: the local name for `default`, else the name. */
  function KeySource(name: string, alias: Option<string>): string
  {
    if name == "default" then AliasOr(alias, "default") else name
  }

  /** One specifier as `analyzeImportSpecifiers` records it. */
  function AnalyzeSpecifier(spec: EsSpecifier): (r: Specifier)
    ensures r.isType <==> IsInlineType(spec)
    ensures spec.NamedSpecifier? && spec.imported != "default" ==> r.sortKey == SortKey(spec.imported)
    ensures spec.DefaultSpecifier? ==> r.name == "default" && r.sortKey == SortKey(spec.local)
    ensures spec.NamespaceSpecifier? ==> r.name == "*" && r.sortKey == SortKey("*")
    ensures r.alias.Some? <==> !spec.NamedSpecifier? || spec.local != spec.imported
  {
    var name := SpecifierName(spec);
    var alias := SpecifierAlias(spec);
    Specifier(name, alias, IsInlineType(spec), SortKey(KeySource(name, alias)))
  }

  function AnalyzeImportSpecifiers(specs: seq<EsSpecifier>): (r: seq<Specifier>)
    ensures |r| == |specs|
    ensures forall i :: 0 <= i < |specs| ==> r[i] == AnalyzeSpecifier(specs[i])
  {
    Map(specs, AnalyzeSpecifier)
  }

  /** A renamed named specifier is keyed by the name it imports, never by its local name. */
  lemma KeyIgnoresAlias(imported: string, a: string, b: string, k: Kind)
    requires imported != "default"
    ensures AnalyzeSpecifier(NamedSpecifier(imported, a, k)).sortKey
         == AnalyzeSpecifier(NamedSpecifier(imported, b, k)).sortKey
  {
  }

  // ----------------------------------------------------------------- analyzeImport

  /** The extensions `analyzeImport` and the CSS pool treat as style sheets. */
  const StyleExtensions: seq<string> := [".css", ".scss", ".sass", ".less"]

  predicate IsStyleSource(source: string)
  {
    EndsWith(source, ".css") || EndsWith(source, ".scss") || EndsWith(source, ".sass") || EndsWith(source, ".less")
  }

  predicate IsNamedEntry(s: Specifier)
  {
    s.name != "default" && s.name != "*"
  }

  /** `specifiers.find((s) => s.name === name)`. */
  function FindByName(specs: seq<Specifier>, name: string): (r: Option<Specifier>)
    ensures r.Some? ==> r.value in specs && r.value.name == name
    ensures r.None? <==> forall i :: 0 <= i < |specs| ==> specs[i].name != name
    ensures r.Some? ==> exists i :: 0 <= i < |specs| && specs[i] == r.value && forall j :: 0 <= j < i ==> specs[j].name != name
  {
    if specs == [] then None
    else if specs[0].name == name then Some(specs[0])
    else
      var r := FindByName(specs[1..], name);
      assert forall i :: 0 < i < |specs| ==> specs[i] == specs[1..][i - 1];
      if r.Some? then
        var k :| 0 <= k < |specs[1..]| && specs[1..][k] == r.value && forall j :: 0 <= j < k ==> specs[1..][j] != r.value;
        assert specs[k + 1] == r.value;
        r
      else r
  }

  /** `(999 - count).toString().padStart(3, '0')`. */
  function CountPrefix(count: int): string
  {
    PadStart(IntToString(999 - count), 3, '0')
  }

  function RecordSortKey(source: string, importType: ImportType, specs: seq<Specifier>): string
  {
    if importType == SideEffect then
      (if IsStyleSource(source) then "zzz_" else "") + SortKey(source)
    else if importType == Default then
      var d := FindByName(specs, "default");
      SortKey(if d.Some? then AliasOr(d.value.alias, "default") else "default")
    else if importType == Namespace then
      var n := FindByName(specs, "*");
      SortKey(if n.Some? then AliasOr(n.value.alias, "*") else "*")
    else
      var named := Filter(specs, IsNamedEntry);
      if |named| > 0 then CountPrefix(|named|) + named[0].sortKey
      else SortKey(source)
  }

  /** The full record of one declaration. */
  function AnalyzeImport(d: Declaration, options: Options): (r: ImportInfo)
    ensures r.node == d && r.source == d.source
    ensures r.isSideEffect <==> |d.specifiers| == 0
    ensures r.isTypeOnly <==> d.kind == KindType
    ensures r.isSideEffect <==> r.importType == SideEffect
    ensures |r.specifiers| == |d.specifiers|
  {
    var importType := AnalyzeImportType(d.specifiers);
    var specifiers := AnalyzeImportSpecifiers(d.specifiers);
    ImportInfo(
      d, d.source, specifiers, importType, GetModuleType(d.source, options),
      RecordSortKey(d.source, importType, specifiers), d.kind == KindType, importType == SideEffect)
  }

  /** The number of named specifiers of a record. */
  function NamedCount(info: ImportInfo): nat
  {
    |Filter(info.specifiers, IsNamedEntry)|
  }

  /** A named record with named specifiers is keyed by their count, then by the first one. */
  lemma NamedKey(d: Declaration, options: Options)
    requires AnalyzeImport(d, options).importType == Named
    requires NamedCount(AnalyzeImport(d, options)) > 0
    ensures var r := AnalyzeImport(d, options);
      r.sortKey == CountPrefix(NamedCount(r)) + Filter(r.specifiers, IsNamedEntry)[0].sortKey
  {
    var r := AnalyzeImport(d, options);
    assert r.sortKey == RecordSortKey(d.source, r.importType, r.specifiers);
  }

  /**
    * Between two named records, the one with more named specifiers sorts first, whatever
    * its names (for up to 999 specifiers, where the three-place count prefix is exact).
    */
  lemma MoreNamedFirst(a: Declaration, b: Declaration, options: Options)
    requires AnalyzeImport(a, options).importType == Named
    requires AnalyzeImport(b, options).importType == Named
    requires 1 <= NamedCount(AnalyzeImport(b, options)) < NamedCount(AnalyzeImport(a, options)) <= 999
    ensures Less(AnalyzeImport(a, options).sortKey, AnalyzeImport(b, options).sortKey)
  {
    var ra, rb := AnalyzeImport(a, options), AnalyzeImport(b, options);
    NamedKey(a, options);
    NamedKey(b, options);
    CountPrefixLess(NamedCount(ra), NamedCount(rb),
      Filter(ra.specifiers, IsNamedEntry)[0].sortKey, Filter(rb.specifiers, IsNamedEntry)[0].sortKey);
  }

  lemma CountPrefixLess(m: int, n: int, a: string, b: string)
    requires 1 <= n < m <= 999
    ensures Less(CountPrefix(m) + a, CountPrefix(n) + b)
  {
    var pm, pn: nat := 999 - m, 999 - n;
    assert CountPrefix(m) == PadStart(IntToString(pm), 3, '0');
    assert CountPrefix(n) == PadStart(IntToString(pn), 3, '0');
    PaddedLess(pm, pn, a, b);
  }

  /** The key of a style-sheet side effect sorts after that of any other side effect. */
  lemma StyleSideEffectsLast(a: Declaration, b: Declaration, options: Options)
    requires |a.specifiers| == 0 && |b.specifiers| == 0
    requires !IsStyleSource(a.source) && IsStyleSource(b.source)
    ensures Less(AnalyzeImport(a, options).sortKey, AnalyzeImport(b, options).sortKey)
  {
    SideEffectKey(a, options);
    SideEffectKey(b, options);
    StyleKeyLast(a.source, b.source);
  }

  /** A side effect is keyed by its source, behind `zzz_` for a style sheet. */
  lemma SideEffectKey(d: Declaration, options: Options)
    requires |d.specifiers| == 0
    ensures AnalyzeImport(d, options).sortKey
      == (if IsStyleSource(d.source) then "zzz_" + SortKey(d.source) else SortKey(d.source))
  {
  }

  lemma StyleKeyLast(source: string, style: string)
    ensures Less(SortKey(source), "zzz_" + SortKey(style))
  {
    var ka, kb := SortKey(source), "zzz_" + SortKey(style);
    if |ka| > 0 {
      assert ka[0] == ClassDigit(source[0]);
      LessAtFirstDifference(ka, kb, 0);
    }
  }

  /** A default record is keyed by its local name. */
  lemma DefaultKeyedByLocal(local: string, source: string, raw: string, kind: Kind, range: Range, l0: int, l1: int, options: Options)
    ensures AnalyzeImport(Declaration(source, raw, [DefaultSpecifier(local)], kind, range, l0, l1), options).sortKey == SortKey(local)
  {
    AnalyzedKey(Declaration(source, raw, [DefaultSpecifier(local)], kind, range, l0, l1), options);
    LoneDefaultKey(source, local);
  }

  lemma AnalyzedKey(d: Declaration, options: Options)
    ensures AnalyzeImport(d, options).sortKey
      == RecordSortKey(d.source, AnalyzeImportType(d.specifiers), AnalyzeImportSpecifiers(d.specifiers))
  {
  }

  lemma LoneDefaultKey(source: string, local: string)
    ensures RecordSortKey(source, AnalyzeImportType([DefaultSpecifier(local)]), AnalyzeImportSpecifiers([DefaultSpecifier(local)]))
      == SortKey(local)
  {
    var s := AnalyzeSpecifier(DefaultSpecifier(local));
    assert AnalyzeImportType([DefaultSpecifier(local)]) == Default;
    assert AnalyzeImportSpecifiers([DefaultSpecifier(local)]) == [s];
    assert FindByName([s], "default") == Some(s);
  }

  // ------------------------------------------------------- getImportGroupPriority

  /**
    * The bucket of a record: side effects last (1000), type-only records in 60..65, and
    * value records by module type, namespace imports of non-built-in modules in 50..52.
    */
  function GetImportGroupPriority(info: ImportInfo): (p: int)
    ensures info.isSideEffect ==> p == 1000
    ensures !info.isSideEffect && info.isTypeOnly ==> 60 <= p <= 65
    ensures !info.isSideEffect && !info.isTypeOnly ==> 10 <= p <= 52
    ensures !info.isSideEffect && !info.isTypeOnly && info.importType == Namespace && info.moduleType != Builtin
            ==> 50 <= p <= 52
    ensures !info.isSideEffect && !info.isTypeOnly && info.importType != Namespace ==> p <= 45
  {
    if info.isSideEffect then 1000
    else if info.isTypeOnly then
      match info.moduleType
      case External => 60
      case LocalPattern => 61
      case Local => 62
      case Builtin => 65
    else
      match info.moduleType
      case Builtin =>
        (match info.importType
         case Named => 10
         case Default => 11
         case _ => 15)
      case External =>
        (match info.importType
         case Named => 20
         case Default => 21
         case Namespace => 50
         case _ => 25)
      case LocalPattern =>
        (match info.importType
         case Named => 30
         case Default => 31
         case Namespace => 51
         case _ => 35)
      case Local =>
        (match info.importType
         case Named => 40
         case Default => 41
         case Namespace => 52
         case _ => 45)
  }

  /** Side effects sort after type-only records, which sort after every value record. */
  lemma PriorityBands(a: ImportInfo, b: ImportInfo)
    ensures !a.isSideEffect && b.isSideEffect ==> GetImportGroupPriority(a) < GetImportGroupPriority(b)
    ensures !a.isSideEffect && !a.isTypeOnly && !b.isSideEffect && b.isTypeOnly
            ==> GetImportGroupPriority(a) < GetImportGroupPriority(b)
  {
  }

  /**
    * A priority names one bucket: records sharing a priority share their module type and
    * whether they are type-only, and among value records also their import type (up to
    * the catch-all bucket of each module type).
    */
  lemma SamePriority(a: ImportInfo, b: ImportInfo)
    requires !a.isSideEffect && !b.isSideEffect
    requires GetImportGroupPriority(a) == GetImportGroupPriority(b)
    ensures a.moduleType == b.moduleType
    ensures a.isTypeOnly == b.isTypeOnly
    ensures !a.isTypeOnly && (a.importType == Named || a.importType == Default) ==> a.importType == b.importType
    ensures !a.isTypeOnly && a.importType == Namespace && a.moduleType != Builtin ==> b.importType == Namespace
  {
  }

  /** Within one module type, named imports come before default imports, and those before namespaces. */
  lemma NamedBeforeDefaultBeforeNamespace(a: ImportInfo, b: ImportInfo, c: ImportInfo)
    requires !a.isSideEffect && !b.isSideEffect && !c.isSideEffect
    requires !a.isTypeOnly && !b.isTypeOnly && !c.isTypeOnly
    requires a.moduleType == b.moduleType == c.moduleType
    requires a.importType == Named && b.importType == Default && c.importType == Namespace
    ensures GetImportGroupPriority(a) < GetImportGroupPriority(b) < GetImportGroupPriority(c)
  {
  }

  /** The order of the value bands: built-in, external, local-pattern, then local modules. */
  function ModuleRank(m: ModuleType): nat
  {
    match m
    case Builtin => 0
    case External => 1
    case LocalPattern => 2
    case Local => 3
  }

  /** The order of the type-only buckets: external, local-pattern, local, then built-in modules. */
  function TypeOnlyRank(m: ModuleType): nat
  {
    match m
    case External => 0
    case LocalPattern => 1
    case Local => 2
    case Builtin => 3
  }

  /**
    * For value records of one import type, the priority follows the module type: one
    * earlier in the order of the bands has exactly the smaller priority.
    */
  lemma ModuleTypeOrder(a: ImportInfo, b: ImportInfo)
    requires !a.isSideEffect && !a.isTypeOnly && !b.isSideEffect && !b.isTypeOnly
    requires a.importType == b.importType
    ensures ModuleRank(a.moduleType) < ModuleRank(b.moduleType)
            <==> GetImportGroupPriority(a) < GetImportGroupPriority(b)
  {
  }

  /**
    * Whatever their import types, a value record of an earlier band comes first, unless
    * one of the two is a namespace import of a non-built-in module, which the namespace
    * band after every other value band takes.
    */
  lemma ModuleBands(a: ImportInfo, b: ImportInfo)
    requires !a.isSideEffect && !a.isTypeOnly && !b.isSideEffect && !b.isTypeOnly
    requires !(a.importType == Namespace && a.moduleType != Builtin)
    requires !(b.importType == Namespace && b.moduleType != Builtin)
    requires ModuleRank(a.moduleType) < ModuleRank(b.moduleType)
    ensures GetImportGroupPriority(a) < GetImportGroupPriority(b)
  {
  }

  /**
    * Type-only records are ordered by module type alone: external, local-pattern, local,
    * then built-in modules.
    */
  lemma TypeOnlyModuleOrder(a: ImportInfo, b: ImportInfo)
    requires !a.isSideEffect && a.isTypeOnly && !b.isSideEffect && b.isTypeOnly
    ensures TypeOnlyRank(a.moduleType) < TypeOnlyRank(b.moduleType)
            <==> GetImportGroupPriority(a) < GetImportGroupPriority(b)
    ensures a.moduleType == b.moduleType <==> GetImportGroupPriority(a) == GetImportGroupPriority(b)
  {
  }
}

/**
  * `formatImportStatement` (src/utils.ts): an analysed record rendered back to the text of
  * one import statement. The specifier loop it shares with `formatImportSpecifiers` of
  * `sort-import-names` is `CollectSpecifierParts` here.
  */
module Format {
  import opened Strings
  import opened Seqs
  import opened Types
  import opened Sorting
  import opened Classify
  import opened SortKeys
  import opened Grouping

  /**
    * What the specifier loop collects: the default bindings, the namespace binding of the
    * last `*` specifier, and the named bindings, each list in specifier order.
    */
  datatype Parts = Parts(defaults: seq<string>, namespace: Option<string>, named: seq<string>)

  /** A JavaScript string value that is truthy: present and not empty. */
  predicate Truthy(s: Option<string>)
  {
    s.Some? && s.value != ""
  }

  /** `${x}` in a template literal, where an absent alias prints as `undefined`. */
  function Interpolated(s: Option<string>): string
  {
    if s.Some? then s.value else "undefined"
  }

  predicate IsDefaultEntry(s: Specifier)
  {
    s.name == "default"
  }

  predicate IsNamespaceEntry(s: Specifier)
  {
    s.name == "*"
  }

  function DefaultText(s: Specifier): string
  {
    AliasOr(s.alias, "default")
  }

  function NamespaceText(s: Specifier): string
  {
    "* as " + Interpolated(s.alias)
  }

  /** `name as alias` when the alias is truthy, the bare name otherwise. */
  function NamedText(s: Specifier): string
  {
    if Truthy(s.alias) then s.name + " as " + s.alias.value else s.name
  }

  /** One turn of the specifier loop. */
  function AddSpecifier(p: Parts, s: Specifier): Parts
  {
    if IsDefaultEntry(s) then p.(defaults := p.defaults + [DefaultText(s)])
    else if IsNamespaceEntry(s) then p.(namespace := Some(NamespaceText(s)))
    else p.(named := p.named + [NamedText(s)])
  }

  /** The parts the loop has collected after the specifiers `specs`. */
  function CollectParts(specs: seq<Specifier>): Parts
  {
    if specs == [] then Parts([], None, [])
    else AddSpecifier(CollectParts(specs[..|specs| - 1]), specs[|specs| - 1])
  }

  /** The specifier loop of `formatImportStatement` and `formatImportSpecifiers`. */
  method CollectSpecifierParts(specs: seq<Specifier>) returns (p: Parts)
    ensures p == CollectParts(specs)
  {
    var defaults: seq<string> := [];
    var namespace: Option<string> := None;
    var named: seq<string> := [];
    for i := 0 to |specs|
      invariant Parts(defaults, namespace, named) == CollectParts(specs[..i])
    {
      var spec := specs[i];
      if spec.name == "default" {
        defaults := defaults + [AliasOr(spec.alias, "default")];
      } else if spec.name == "*" {
        namespace := Some("* as " + Interpolated(spec.alias));
      } else {
        var text := if Truthy(spec.alias) then spec.name + " as " + spec.alias.value else spec.name;
        named := named + [text];
      }
      TakeSnoc(specs, i);
    }
    TakeAll(specs);
    p := Parts(defaults, namespace, named);
  }

  /**
    * The loop collects every default binding and every named binding in specifier order,
    * and keeps the binding of the last namespace specifier.
    */
  lemma CollectPartsSpec(specs: seq<Specifier>)
    ensures CollectParts(specs).defaults == Map(Filter(specs, IsDefaultEntry), DefaultText)
    ensures CollectParts(specs).named == Map(Filter(specs, IsNamedEntry), NamedText)
    ensures var ns := Filter(specs, IsNamespaceEntry);
      CollectParts(specs).namespace == if ns == [] then None else Some(NamespaceText(ns[|ns| - 1]))
  {
    CollectedDefaults(specs);
    CollectedNamed(specs);
    CollectedNamespace(specs);
  }

  lemma {:induction false} CollectedDefaults(specs: seq<Specifier>)
    ensures CollectParts(specs).defaults == Map(Filter(specs, IsDefaultEntry), DefaultText)
  {
    if specs != [] {
      var init, s := specs[..|specs| - 1], specs[|specs| - 1];
      CollectedDefaults(init);
      MapConcat(Filter(init, IsDefaultEntry), [s], DefaultText);
    }
  }

  lemma {:induction false} CollectedNamed(specs: seq<Specifier>)
    ensures CollectParts(specs).named == Map(Filter(specs, IsNamedEntry), NamedText)
  {
    if specs != [] {
      var init, s := specs[..|specs| - 1], specs[|specs| - 1];
      CollectedNamed(init);
      MapConcat(Filter(init, IsNamedEntry), [s], NamedText);
    }
  }

  lemma {:induction false} CollectedNamespace(specs: seq<Specifier>)
    ensures var ns := Filter(specs, IsNamespaceEntry);
      CollectParts(specs).namespace == if ns == [] then None else Some(NamespaceText(ns[|ns| - 1]))
  {
    if specs != [] {
      CollectedNamespace(specs[..|specs| - 1]);
    }
  }

  /** `importParts`: the first default if truthy, the namespace, then the braced named list. */
  function PartList(p: Parts): seq<string>
  {
    (if |p.defaults| > 0 && p.defaults[0] != "" then [p.defaults[0]] else [])
    + (if Truthy(p.namespace) then [p.namespace.value] else [])
    + (if |p.named| > 0 then ["{ " + Join(p.named, ", ") + " }"] else [])
  }

  function TypePrefix(isTypeOnly: bool): string
  {
    if isTypeOnly then "type " else ""
  }

  function Quoted(source: string): string
  {
    "'" + source + "'"
  }

  /** What follows `import ` and the type prefix, for specifiers already sorted. */
  function Clause(sorted: seq<Specifier>, source: string): string
  {
    if |sorted| == 0 then Quoted(source) + ";"
    else if |sorted| == 1 && IsDefaultEntry(sorted[0]) then
      AliasOr(sorted[0].alias, "default") + " from " + Quoted(source) + ";"
    else if |sorted| == 1 && IsNamespaceEntry(sorted[0]) then
      "* as " + AliasOr(sorted[0].alias, "*") + " from " + Quoted(source) + ";"
    else
      Join(PartList(CollectParts(sorted)), ", ") + " from " + Quoted(source) + ";"
  }

  /** The statement `formatImportStatement` renders for a record. */
  function Statement(info: ImportInfo): string
  {
    if info.isSideEffect then "import " + Quoted(info.source) + ";"
    else "import " + TypePrefix(info.isTypeOnly) + Clause(SortImportSpecifiers(info.specifiers), info.source)
  }

  /** The pushes into `importParts`. */
  method AssembleParts(p: Parts) returns (importParts: seq<string>)
    ensures importParts == PartList(p)
  {
    importParts := [];
    if |p.defaults| > 0 {
      var firstDefault := p.defaults[0];
      if firstDefault != "" {
        importParts := importParts + [firstDefault];
      }
    }
    if Truthy(p.namespace) {
      importParts := importParts + [p.namespace.value];
    }
    if |p.named| > 0 {
      importParts := importParts + ["{ " + Join(p.named, ", ") + " }"];
    }
  }

  /**
    * `formatImportStatement` after the type prefix is chosen and the specifiers are sorted:
    * the text that follows `import ` and the prefix.
    */
  method FormatClause(sorted: seq<Specifier>, source: string) returns (clause: string)
    ensures clause == Clause(sorted, source)
  {
    var tail := " from " + Quoted(source) + ";";
    if |sorted| == 0 {
      return Quoted(source) + ";";
    }
    if |sorted| == 1 {
      var spec := sorted[0];
      if spec.name == "default" {
        return AliasOr(spec.alias, "default") + tail;
      } else if spec.name == "*" {
        return "* as " + AliasOr(spec.alias, "*") + tail;
      }
    }
    var p := CollectSpecifierParts(sorted);
    var importParts := AssembleParts(p);
    clause := Join(importParts, ", ") + tail;
  }

  /** `formatImportStatement`. */
  method FormatImportStatement(info: ImportInfo) returns (text: string)
    ensures text == Statement(info)
  {
    if info.isSideEffect {
      return "import " + Quoted(info.source) + ";";
    }
    var typePrefix := if info.isTypeOnly then "type " else "";
    var sorted := SortImportSpecifiers(info.specifiers);
    var clause := FormatClause(sorted, info.source);
    text := "import " + typePrefix + clause;
  }

  // ------------------------------------------------------------------ properties

  /** A side-effect record renders as a bare `import '<source>';` whatever else it holds. */
  lemma SideEffectStatement(info: ImportInfo)
    requires info.isSideEffect
    ensures Statement(info) == "import '" + info.source + "';"
  {
  }

  /** The only difference the type-only flag makes is the `type ` after `import `. */
  lemma TypeOnlyPrefix(info: ImportInfo)
    requires !info.isSideEffect
    ensures var v := Statement(info.(isTypeOnly := false));
      && |v| >= 7 && v[..7] == "import "
      && Statement(info.(isTypeOnly := true)) == "import type " + v[7..]
  {
    var c := Clause(SortImportSpecifiers(info.specifiers), info.source);
    assert Statement(info.(isTypeOnly := false)) == "import " + "" + c;
    assert Statement(info.(isTypeOnly := true)) == "import " + "type " + c;
    SplitAt("import ", c);
  }

  lemma SplitAt(a: string, b: string)
    ensures |a + b| >= |a| && (a + b)[..|a|] == a && (a + b)[|a|..] == b
  {
  }

  /** The named bindings are printed in key order, whatever order they were written in. */
  lemma NamedInKeyOrder(specs: seq<Specifier>)
    ensures var sorted := SortImportSpecifiers(specs);
      && CollectParts(sorted).named == Map(Filter(sorted, IsNamedEntry), NamedText)
      && SortedBy(Filter(sorted, IsNamedEntry), SpecifierKey)
      && multiset(Filter(sorted, IsNamedEntry)) == multiset(Filter(specs, IsNamedEntry))
  {
    var sorted := SortImportSpecifiers(specs);
    CollectPartsSpec(sorted);
    FilterSorted(sorted, IsNamedEntry, SpecifierKey);
    FilterPermutation(sorted, specs, IsNamedEntry);
  }

  /** Filtering two permutations of each other gives permutations of each other. */
  lemma FilterPermutation(a: seq<Specifier>, b: seq<Specifier>, f: Specifier -> bool)
    requires multiset(a) == multiset(b)
    ensures multiset(Filter(a, f)) == multiset(Filter(b, f))
  {
    FilterCount(a, f);
    FilterCount(b, f);
  }

  /** `Filter` keeps every copy of an element that satisfies `f`, and no other. */
  lemma {:induction false} FilterCount(s: seq<Specifier>, f: Specifier -> bool)
    ensures forall x :: multiset(Filter(s, f))[x] == if f(x) then multiset(s)[x] else 0
  {
    if s != [] {
      var init, y := s[..|s| - 1], s[|s| - 1];
      FilterCount(init, f);
      SnocSplit(s);
    }
  }

  /** A lone default or namespace binding is printed without braces. */
  lemma LoneBinding(info: ImportInfo)
    requires !info.isSideEffect && !info.isTypeOnly
    requires |info.specifiers| == 1 && info.specifiers[0].alias.Some?
    requires IsDefaultEntry(info.specifiers[0]) || IsNamespaceEntry(info.specifiers[0])
    ensures var s := info.specifiers[0];
      Statement(info)
        == "import " + ((if IsNamespaceEntry(s) then "* as " else "") + s.alias.value + " from " + Quoted(info.source) + ";")
  {
    SortSingle(info.specifiers);
    assert "import " + TypePrefix(false) == "import ";
  }

  lemma SortSingle(specs: seq<Specifier>)
    requires |specs| == 1
    ensures SortImportSpecifiers(specs) == specs
  {
    assert specs[..0] == [];
  }

  /** A default binding comes first, then the namespace, then the braced named list. */
  lemma PartsInOrder(p: Parts, d: string, n: string, named: seq<string>)
    requires |p.defaults| > 0 && p.defaults[0] == d && d != ""
    requires p.namespace == Some(n) && n != ""
    requires p.named == named && named != []
    ensures Join(PartList(p), ", ") == d + ", " + n + ", { " + Join(named, ", ") + " }"
  {
    var braced := "{ " + Join(named, ", ") + " }";
    assert PartList(p) == [d, n, braced];
    assert Join([braced], ", ") == braced;
    assert [d, n, braced][1..] == [n, braced];
    assert [n, braced][1..] == [braced];
    assert Join([n, braced], ", ") == n + ", " + braced;
    assert Join([d, n, braced], ", ") == d + ", " + (n + ", " + braced);
  }
}

/**
  * The records the import-ordering rules work on: the parsed import declaration they
  * receive, the analysed `ImportInfo` and `ImportSpecifier` records of `src/types.ts`,
  * the options of `sort-import-groups`, and the reports a rule emits.
  */
module Types {

  datatype Option<T> = None | Some(value: T)

  /** A character range `[start, end)` of the file being linted. */
  datatype Range = Range(start: int, end: int)

  /** `importKind` of a declaration or of a named specifier. */
  datatype Kind = KindValue | KindType

  /** The three ESTree specifier nodes; names are identifiers. */
  datatype EsSpecifier =
    | DefaultSpecifier(local: string)
    | NamespaceSpecifier(local: string)
    | NamedSpecifier(imported: string, local: string, kind: Kind)

  /**
    * A parsed `ImportDeclaration`: the module name (`source.value`), the source literal as
    * written (`getText(source)`, quotes included), its specifiers, its own `importKind`,
    * its character range and the lines of its first and last token. Two declarations of
    * one file never share a range, so equality of declarations is identity of nodes.
    */
  datatype Declaration = Declaration(
    source: string,
    raw: string,
    specifiers: seq<EsSpecifier>,
    kind: Kind,
    range: Range,
    startLine: int,
    endLine: int)

  datatype ModuleType = Builtin | External | LocalPattern | Local

  /** `ImportType`; the analysis never yields `Type`, which the enum still declares. */
  datatype ImportType = Named | Default | Namespace | SideEffect | Type

  /** `ImportSpecifier` of `src/types.ts`; `name` is `default` or `*` for those specifiers. */
  datatype Specifier = Specifier(name: string, alias: Option<string>, isType: bool, sortKey: string)

  /** `ImportInfo` of `src/types.ts`. */
  datatype ImportInfo = ImportInfo(
    node: Declaration,
    source: string,
    specifiers: seq<Specifier>,
    importType: ImportType,
    moduleType: ModuleType,
    sortKey: string,
    isTypeOnly: bool,
    isSideEffect: bool)

  /** The options `sort-import-groups` passes down, after its defaults are applied. */
  datatype Options = Options(
    localPatterns: seq<string>,
    builtinModulePrefixes: seq<string>,
    groupStyleImports: bool)

  const DefaultOptions := Options([], ["node:", "bun:"], true)

  datatype MessageId =
    | ImportGroupsNotSorted
    | UnexpectedBlankLine
    | MissingBlankLine
    | SeparateTypeImport
    | MixedImport
    | ImportNamesNotSorted

  /** Replace the text in `range` by `text`. */
  datatype Fix = Fix(range: Range, text: string)

  /** One `context.report` call: the message, the range of the reported node and its fix. */
  datatype Report = Report(messageId: MessageId, node: Range, fix: Fix)

  /** A named specifier marked `type` inside a value declaration. */
  predicate IsInlineType(s: EsSpecifier)
  {
    s.NamedSpecifier? && s.kind == KindType
  }

  /** The declaration holds an inline `type` specifier. */
  predicate HasInlineType(d: Declaration)
  {
    exists i :: 0 <= i < |d.specifiers| && IsInlineType(d.specifiers[i])
  }
}

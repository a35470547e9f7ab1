# eslint-plugin-pretty-import, modelled in Dafny

This project models the import-ordering core of the ESLint plugin
`eslint-plugin-pretty-import` and proves properties of that model. The core is made of:

- the helpers of `src/utils.ts`:
  - the character-class sort key;
  - module and import classification;
  - the analysis of a declaration into an `ImportInfo` record;
  - group priorities;
  - grouping by priority;
  - specifier sorting;
  - statement formatting.
- the `sort-import-groups` rule. It collects every import declaration and, on `Program:exit`, takes these steps:
  - it splits the records into a body pool, a type-only pool and a style-sheet pool;
  - it cuts the body pool into sections at every side-effect import;
  - it sorts each section by group;
  - it decides whether the file needs reordering;
  - it reports either the reordering, with a fix that rewrites every import, or the first blank-line problem between two neighbouring imports.
- the `separate-type-imports` rule. It rewrites a value declaration with inline `type` specifiers into an `import type` statement, followed by a value statement when value bindings remain.
- the `sort-import-names` rule. It reports a declaration whose specifiers are not in sort-key order, with an optional case-insensitive key, and rewrites the specifier list in order.

Modules:

| module | models |
|---|---|
| `Types` | the data model: declarations, specifiers, `ImportInfo`, options, reports |
| `Strings` | the string operations the source uses |
| `Seqs` | generic sequence lemmas |
| `Sorting` | `Array.prototype.sort` as a stable insertion sort, with its properties |
| `SortKeys` | `createSortKey` |
| `Classify` | `getModuleType`, `analyzeImportType`, `analyzeImportSpecifiers`, `analyzeImport`, `getImportGroupPriority` |
| `Grouping` | `groupImports` and `sortImportSpecifiers` |
| `Format` | `formatImportStatement` |
| `Pools` | the pool split and sectioning of `Program:exit` |
| `Reorder` | the per-section sort and the reorder decision |
| `BlankLines` | the blank-line check |
| `Render` | the fix text |
| `SortImportGroups` | the rule object with its `create` and its visitors |
| `SeparateTypeImports` | the `separate-type-imports` rule |
| `SortImportNames` | the `sort-import-names` rule |

How parts of the source are modelled:

- Loops that build lists are methods with loop invariants. Each method is proved equal to a function, and the properties are lemmas about those functions.
- The `sort-import-groups` rule object is a class. Its `imports` list is a field that the declaration visitor appends to.
- `localeCompare` is modelled as ordinal comparison of characters (`Strings.Less`). Under that order, the sort keys give the ordering the comments of `createSortKey` describe: symbols, then capitals, then lower-case letters.
- `Array.prototype.sort` is stable. It is modelled as a stable insertion sort (`Sorting.SortBy`, `Sorting.SortByInt`).
- Node identity (`!==` on records) is value equality. A declaration carries its character range, and no two declarations of a file share one.

The code is followed where other material disagrees with it:

- The style-sheet section is written in file order. It is not sorted by module name.
- `getModuleType` returns `LocalPattern` for a source that matches a local pattern. `test/utils.test.ts:27` expects `Local` for that source.
- `getImportGroupPriority` (`src/utils.ts:220-277`) gives 21 to an external default import, 62 to a local type-only import and 1000 to a side effect. `test/utils.test.ts:118`, `136` and `154` expect 40, 90 and 100 for those records. The model gives the code's values (Classify.GetImportGroupPriority).

## Model

| member | source | states |
|---|---|---|
| Strings.LessTotal | src/utils.ts:312 | two different strings are ordered one way or the other, so the comparison used for sorting is total |
| Strings.LessTransitive | src/utils.ts:312 | the comparison used for sorting is transitive |
| Strings.PadStart | src/utils.ts:183 | the padded text has the requested width (or the original length) and ends with the original text |
| Strings.PaddedLess | src/utils.ts:183 | of two numbers up to 999 padded to three digits, the smaller gives the smaller text, whatever follows it |
| Strings.ToLower | src/rules/sort-import-names.ts:45 | lower-casing keeps the length and lowers each character in place |
| SortKeys.SortKey | src/utils.ts:14-31 | the key has two characters per name character: the class digit (0 symbol, 1 capital, 2 otherwise), then the character with capitals lowered |
| SortKeys.CreateSortKey | src/utils.ts:14-31 | the character loop builds exactly that key |
| SortKeys.SortKeyInjective | src/utils.ts:14-31 | two names with the same key are the same name |
| SortKeys.ClassOrder | src/utils.ts:17-28 | a name whose first character is in a lower class sorts first (symbols before capitals before lower case) |
| SortKeys.SameFirst | src/utils.ts:14-31 | names sharing a first character compare as their remainders do |
| SortKeys.KeyOrderExample | test/utils.test.ts:155-166 | `$` before `B` before `a` before `z` |
| Classify.GetModuleType | src/utils.ts:41-61 | builtin iff a builtin prefix matches; local pattern iff no builtin prefix matches and a local pattern does; local iff neither matches and the source starts with `.` or `/`; external otherwise |
| Classify.BuiltinExamples | src/utils.ts:42-46 | `node:fs` and `bun:test` are builtin under the default prefixes |
| Classify.LocalAndExternalExamples | src/utils.ts:55-60 | `./utils` is local and `react` is external |
| Classify.LocalPatternExample | src/utils.ts:48-53 | `@/utils` is a local-pattern module when `@/` is configured |
| Classify.AnalyzeImportType | src/utils.ts:70-92 | side effect iff there is no specifier; namespace iff there is a namespace specifier; default iff only default specifiers; named iff a named specifier and no namespace; never `Type` |
| Classify.AnalyzeSpecifier | src/utils.ts:104-139 | `type` marks only inline-type named specifiers; a default is keyed by its local name, a namespace by `*`, a named one by its imported name; an alias is kept iff it differs from the imported name |
| Classify.AnalyzeImportSpecifiers | src/utils.ts:101-141 | one record per specifier, in order |
| Classify.KeyIgnoresAlias | src/utils.ts:122-138 | renaming a named import does not change its sort key |
| Classify.FindByName | src/utils.ts:168-172 | the first record with the name, or none exactly when no record has it |
| Classify.AnalyzeImport | src/utils.ts:151-201 | the record keeps the node and source; side effect iff no specifiers; type-only iff the declaration is `import type`; one record per specifier |
| Classify.NamedKey | src/utils.ts:175-185 | a named import is keyed by the padded inverted count of its named specifiers followed by the first one's key |
| Classify.MoreNamedFirst | src/utils.ts:179-184 | a named import with more named specifiers sorts before one with fewer |
| Classify.CountPrefixLess | src/utils.ts:183 | for counts of 1 to 999, a larger count gives a smaller prefix, whatever follows |
| Classify.StyleSideEffectsLast | src/utils.ts:161-166 | a style-sheet side effect sorts after every other side effect |
| Classify.DefaultKeyedByLocal | src/utils.ts:167-170 | a default import is keyed by its local name |
| Classify.GetImportGroupPriority | src/utils.ts:220-280 | side effects get 1000; type-only imports 60-65; value imports 10-52; non-builtin namespaces 50-52; other value imports at most 45 |
| Classify.PriorityBands | src/utils.ts:220-280 | value imports come before type-only imports, and both before side effects |
| Classify.SamePriority | src/utils.ts:235-279 | imports of equal priority share module type and type-only flag, and named/default/namespace kind where the priority tells them apart |
| Classify.NamedBeforeDefaultBeforeNamespace | src/utils.ts:245-276 | within one module type: named, then default, then namespace |
| Classify.ModuleTypeOrder | src/utils.ts:245-278 | for value imports of one import type, a module type earlier in built-in, external, local-pattern, local has exactly the smaller priority |
| Classify.ModuleBands | src/utils.ts:227-278 | a value import of an earlier module band comes first whatever the import types, except namespaces of non-built-in modules |
| Classify.TypeOnlyModuleOrder | src/utils.ts:235-243 | type-only imports: external, local-pattern, local, then built-in; equal priority iff same module type |
| Sorting.SortBy | src/utils.ts:312 | the sort result is a permutation of its input and ordered by key |
| Sorting.SortByStable | src/utils.ts:312 | records with equal keys keep their relative order |
| Sorting.SortBySorted | src/utils.ts:327 | an input already in key order is returned unchanged |
| Sorting.SortByInt | src/utils.ts:316 | the priority sort is a permutation and ordered by priority |
| Sorting.SortByIntStrict | src/utils.ts:316 | distinct priorities come out strictly increasing |
| Grouping.FillGroups | src/utils.ts:295-308 | the map holds one group per priority met, in first-seen order, each seeded from its first member and holding all its members in input order |
| Grouping.GroupStep | src/utils.ts:296-307 | one iteration of the filling loop keeps that invariant |
| Grouping.SortGroupMembers | src/utils.ts:311-313 | each group's members end up sorted by key |
| Grouping.GroupImports | src/utils.ts:289-317 | the method computes the grouping function `Grouped` |
| Grouping.GroupingAsMap | src/utils.ts:289-317 | the groups are the first-seen records sorted by priority, each expanded into its group |
| Grouping.PrioritiesSpec | src/utils.ts:316 | the group priorities are strictly increasing and are exactly the priorities present |
| Grouping.GroupingIncreasing | src/utils.ts:316 | the groups come out in strictly increasing priority |
| Grouping.GroupAt | src/utils.ts:298-313 | each group holds its priority's records sorted by key, and takes kind and module type from the first of them |
| Grouping.GroupingCovers | src/utils.ts:293-308 | there is a group for a priority iff some non-side-effect import has it |
| Grouping.GroupedPriorities | src/utils.ts:316 | group i has the i-th present priority |
| Grouping.GroupingPermutation | src/utils.ts:293-316 | the groups' records, flattened, are exactly the non-side-effect imports |
| Grouping.GroupingOrdered | src/utils.ts:311-316 | the flattened groups are ordered by priority, then by key |
| Grouping.GroupingIdempotent | src/utils.ts:289-317 | grouping the flattened groups again gives the same order |
| Grouping.SortImportSpecifiers | src/utils.ts:326-328 | the specifiers are permuted into key order, and equal keys keep their order |
| Format.CollectSpecifierParts | src/utils.ts:366-377 | the loop computes the defaults, the namespace and the named parts |
| Format.CollectPartsSpec | src/utils.ts:362-377 | default texts and named texts in specifier order; the namespace part from the last namespace specifier |
| Format.AssembleParts | src/utils.ts:379-392 | the parts are the first non-empty default, the namespace, then the braced named list |
| Format.FormatClause | src/utils.ts:345-394 | the clause after `import` and the type prefix, for sorted specifiers |
| Format.FormatImportStatement | src/utils.ts:337-395 | the method computes the statement text `Statement` |
| Format.SideEffectStatement | src/utils.ts:340-342 | a side effect is written as `import '<source>';` |
| Format.TypeOnlyPrefix | src/utils.ts:344 | a type-only import is the value statement with `type ` inserted after `import ` |
| Format.NamedInKeyOrder | src/utils.ts:345-376 | the named part lists exactly the named specifiers, in key order |
| Format.LoneBinding | src/utils.ts:351-359 | a lone default or namespace specifier is written without braces |
| Format.SortSingle | src/utils.ts:326-328 | a single specifier is left as it is |
| Format.PartsInOrder | src/utils.ts:379-394 | default, namespace and named parts are joined with `, ` in that order |
| Pools.StyleFileAgrees | src/rules/sort-import-groups.ts:88-96 | the rule's style-sheet test agrees with the one of `analyzeImport` |
| Pools.SplitPools | src/rules/sort-import-groups.ts:88-107 | the loop fills the type, style-sheet and body pools |
| Pools.PoolsPartition | src/rules/sort-import-groups.ts:94-107 | every record lands in exactly one pool |
| Pools.StylePoolContents | src/rules/sort-import-groups.ts:96-103 | the style-sheet pool holds exactly the value side effects of style sheets, when style grouping is on |
| Pools.BuildSections | src/rules/sort-import-groups.ts:109-127 | the sectioning loop computes `BodySections` |
| Pools.StepKeepsInvariant | src/rules/sort-import-groups.ts:112-123 | one sectioning step keeps the sections well formed and maximal |
| Pools.SectionStateInvariant | src/rules/sort-import-groups.ts:109-127 | after the loop, sections and open run hold the body in order |
| Pools.BodySectionsSpec | src/rules/sort-import-groups.ts:109-127 | the sections concatenate back to the body; each is a lone side effect or a run without side effects; no two runs are adjacent |
| Reorder.FlattenGroups | src/rules/sort-import-groups.ts:132-136 | the pushes give the groups' records in group order |
| Reorder.CollectSections | src/rules/sort-import-groups.ts:109-144 | body sections, then the grouped type section, then the style-sheet section |
| Reorder.SectionDiffers | src/rules/sort-import-groups.ts:166-171 | the comparison loop finds a difference iff a position of the section holds another record in the sorted one |
| Reorder.SortSection | src/rules/sort-import-groups.ts:150-172 | one section sorted, and whether it was out of order |
| Reorder.SortSections | src/rules/sort-import-groups.ts:146-173 | all sections sorted, and the flag set iff some section is out of order |
| Reorder.FlattenedDiffers | src/rules/sort-import-groups.ts:179-189 | the flattened comparison finds a difference iff the sequences differ |
| Reorder.DecideReordering | src/rules/sort-import-groups.ts:146-190 | the sorted sections and the reorder decision |
| Reorder.DiffersIsInequality | src/rules/sort-import-groups.ts:166-171 | for equal lengths, the positional loop detects exactly inequality |
| Reorder.RunOutOfOrder | src/rules/sort-import-groups.ts:156-171 | a run is out of order iff grouping it changes it |
| Reorder.SortedSectionIdempotent | src/rules/sort-import-groups.ts:149-164 | sorting a sorted section changes nothing |
| Reorder.TypeSectionKept | src/rules/sort-import-groups.ts:129-139 | the grouped type section passes the section sort unchanged |
| Reorder.StyleSectionPasses | src/rules/sort-import-groups.ts:141-155 | the style-sheet section is never re-sorted |
| Reorder.AllSectionsSplit | src/rules/sort-import-groups.ts:109-144 | the fix writes the body, then the types, then the style sheets |
| Reorder.SortedFlatPermutation | src/rules/sort-import-groups.ts:149-164 | sorting well-formed sections permutes their records |
| Reorder.BodyRecordsKept | src/rules/sort-import-groups.ts:109-164 | the body pool's records all reach the fix |
| Reorder.TypeRecordsKept | src/rules/sort-import-groups.ts:129-139 | the type pool's records all reach the fix |
| Reorder.FixKeepsEveryImport | src/rules/sort-import-groups.ts:88-164 | the fix's records are a permutation of the file's imports |
| Reorder.SideEffectsKeepOrder | src/rules/sort-import-groups.ts:109-164 | the body's side effects keep their order, and the style sheets follow them |
| Reorder.FixedSectionsStable | src/rules/sort-import-groups.ts:149-164 | every section of the fix is already sorted |
| BlankLines.GapReportSpec | src/rules/sort-import-groups.ts:196-242 | a pair is reported iff its line gap is not the expected one (2 between priorities, 1 within); missing-blank iff priorities differ and the gap is under 2; the fix replaces the gap by the expected newlines |
| BlankLines.CheckBlankLines | src/rules/sort-import-groups.ts:192-244 | the loop returns the first pair's report |
| BlankLines.FirstGapReportSpec | src/rules/sort-import-groups.ts:195-243 | no report iff every pair is fine; otherwise the report of the first bad pair |
| Render.PushStatements | src/rules/sort-import-groups.ts:295-297 | each record's statement is pushed in turn |
| Render.PushGroupLines | src/rules/sort-import-groups.ts:306-317 | each group's statements, with a blank line before every group but the first |
| Render.RenderSection | src/rules/sort-import-groups.ts:267-336 | the lines pushed for one section, as the rule writes them |
| Render.RenderSideEffect | src/rules/sort-import-groups.ts:274-288 | a lone side effect, with a blank line before it after a regular section and after it before one |
| Render.RenderStyleSheets | src/rules/sort-import-groups.ts:289-298 | a side-effect section: a blank line when it is not the first section and lines were pushed, then its statements in pool order |
| Render.RenderGroups | src/rules/sort-import-groups.ts:299-335 | a type section after a blank line when it is not the first section and lines were pushed, or a regular section; then its groups' statements, with a blank line between groups |
| Render.RenderLines | src/rules/sort-import-groups.ts:265-336 | the loop over the sections computes the as-written `Lines`, whose properties are the `Render` and `SortImportGroups.FixLinesSpec` lemmas |
| Render.RenderFix | src/rules/sort-import-groups.ts:265-345 | the as-written lines joined with newlines, plus a final newline when code follows and the last section is not all side effects |
| Render.GroupLinesShape | src/rules/sort-import-groups.ts:323-334 | group lines have no two blank lines in a row and do not start or end blank |
| Render.GroupLinesStatements | src/rules/sort-import-groups.ts:323-334 | the non-blank group lines are the statements of the flattened groups |
| Render.SectionStatements | src/rules/sort-import-groups.ts:267-336 | the non-blank lines of a section are its sorted records' statements |
| Render.LinesStatements | src/rules/sort-import-groups.ts:265-336 | the non-blank fix lines are the statements of every sorted record, in order |
| Render.SectionKeepsTidy | src/rules/sort-import-groups.ts:274-335 | rendering a section with the corrected blank lines keeps the lines free of double blanks |
| Render.LinesTidy | src/rules/sort-import-groups.ts:265-336 | after each section, the corrected lines have no double blank and no leading blank, and end blank only before a regular section |
| Render.CorrectedLinesTidy | src/rules/sort-import-groups.ts:265-336 | the corrected fix lines never hold two blank lines in a row and neither start nor end blank |
| Render.SectionKeepsFramed | src/rules/sort-import-groups.ts:274-335 | as written or corrected, a section keeps the lines from starting blank, and leaves them ending blank only before a regular section |
| Render.LinesFramed | src/rules/sort-import-groups.ts:265-336 | after each section of the lines the rule writes, no leading blank, and a trailing blank only before a regular section |
| Render.WrittenLinesFramed | src/rules/sort-import-groups.ts:265-336 | the fix lines the rule writes neither start nor end blank |
| Render.StyleSheetBlankAfterStatement | src/rules/sort-import-groups.ts:289-293 | where the loop reaches the style-sheet section, the rule's blank line is pushed only after a statement, as in the corrected rendering |
| Render.ExampleSections | src/rules/sort-import-groups.ts:88-164 | a type-only import followed by a plain side effect gives the sections: side effect, then type |
| Render.ExampleReordered | src/rules/sort-import-groups.ts:175-190 | those two imports need reordering |
| Render.ExampleLines | src/rules/sort-import-groups.ts:265-336 | their fix lines: the side effect, a blank, the lead of the type section, the type statement |
| Render.DoubleBlankAsWritten | src/rules/sort-import-groups.ts:285-303 | as written, the reordering fix of those imports holds two blank lines after the side effect |
| Render.OneBlankCorrected | src/rules/sort-import-groups.ts:285-303 | corrected, it holds exactly one |
| Render.StyleSections | src/rules/sort-import-groups.ts:88-164 | two style sheets and a plain side effect, in either order, give the sections: side effect, then style sheets |
| Render.StyleReorderedOnce | src/rules/sort-import-groups.ts:146-190 | style sheets before the side effect need reordering; the side effect before them does not |
| Render.StyleFixLines | src/rules/sort-import-groups.ts:265-298 | their fix lines: the side effect, a blank line only as written, then the style sheets |
| Render.SideEffectsAdjacent | src/rules/sort-import-groups.ts:204-241 | side effects share a priority, so the blank-line check wants them on adjacent lines |
| Render.StyleBlankAsWritten | src/rules/sort-import-groups.ts:289-293 | as written, the fix separates the side effect from the style sheets by a blank line, which the next pass reports |
| Render.AdjacentSideEffectsCorrected | src/rules/sort-import-groups.ts:289-293 | corrected, the side effect and the style sheets are on adjacent lines |
| SortImportGroups.Merged | src/rules/sort-import-groups.ts:57-62 | a configured option replaces its default, and an absent one keeps it |
| SortImportGroups.GroupsRule.constructor | src/rules/sort-import-groups.ts:56-64 | the options are merged and no import is collected |
| SortImportGroups.GroupsRule.ImportDeclaration | src/rules/sort-import-groups.ts:67-69 | the visitor appends the declaration |
| SortImportGroups.GroupsRule.ProgramExit | src/rules/sort-import-groups.ts:71-258 | `Program:exit` yields the report of the collected declarations |
| SortImportGroups.ReportInfos | src/rules/sort-import-groups.ts:146-258 | the reorder report with the fix text the rule writes, or else the first blank-line report |
| SortImportGroups.ReportKinds | src/rules/sort-import-groups.ts:71-258 | a reorder report iff reordering is needed; no report iff no reordering and every gap is fine; any other report is a blank-line report |
| SortImportGroups.InfosReportKinds | src/rules/sort-import-groups.ts:192-258 | the same, for analysed records |
| SortImportGroups.GapReportKinds | src/rules/sort-import-groups.ts:192-244 | the gap check reports nothing iff every gap is fine, and otherwise a blank-line message |
| SortImportGroups.SkippedDeclarations | src/rules/sort-import-groups.ts:72-84 | at most one import, or any inline type specifier: no report |
| SortImportGroups.ReorderReportSpan | src/rules/sort-import-groups.ts:246-258 | the reorder report is on the first import, and its fix spans first to last import |
| SortImportGroups.FixLinesSpec | src/rules/sort-import-groups.ts:265-336 | the fix lines the rule writes hold every import's statement once, in section order, with no blank at either end |
| SortImportGroups.FixedSectionsInOrder | src/rules/sort-import-groups.ts:146-173 | no section of the fix is out of order |
| SeparateTypeImports.First | src/rules/separate-type-imports.ts:102-103 | the first matching specifier, or none iff no specifier matches |
| SeparateTypeImports.BuildTypeStatement | src/rules/separate-type-imports.ts:71-79 | the `import type { ... }` statement of the type specifiers |
| SeparateTypeImports.BuildValueStatement | src/rules/separate-type-imports.ts:81-128 | the value statement: default, namespace, then braced named bindings |
| SeparateTypeImports.BuildMixedReplacement | src/rules/separate-type-imports.ts:68-133 | the type statement, then a newline and the value statement when value bindings remain |
| SeparateTypeImports.CheckDeclaration | src/rules/separate-type-imports.ts:51-158 | the visitor computes the report |
| SeparateTypeImports.SpecifierKinds | src/rules/separate-type-imports.ts:21-48 | inline types are present iff the type list is non-empty, and values iff the value list is |
| SeparateTypeImports.ValueTests | src/rules/separate-type-imports.ts:27-33 | the value test holds iff some specifier is a value binding |
| SeparateTypeImports.SpecifiersPartition | src/rules/separate-type-imports.ts:35-48 | type and value specifiers split the specifiers |
| SeparateTypeImports.ReportSpec | src/rules/separate-type-imports.ts:51-158 | a report iff a value declaration has inline types; mixed iff values remain; the fix text for each case |
| SeparateTypeImports.FixWritesDeclarations | src/rules/separate-type-imports.ts:68-154 | the fix text is the written form of two declarations: the type declaration of the type specifiers with their `type` marks dropped, and, after a line break when values remain, the value declaration of the first default, the first namespace and the named value specifiers |
| SeparateTypeImports.FixedDeclarationsClean | src/rules/separate-type-imports.ts:68-154 | the two declarations the fix writes (SeparateTypeImports.FixWritesDeclarations) have no inline type and are not reported again |
| SeparateTypeImports.FixKeepsEveryBinding | src/rules/separate-type-imports.ts:68-133 | the two declarations the fix writes (SeparateTypeImports.FixWritesDeclarations) bind exactly the original specifiers, each once |
| SeparateTypeImports.FirstOfAtMostOne | src/rules/separate-type-imports.ts:102-104 | with at most one match, `find` returns all matches |
| SeparateTypeImports.BindingRoundTrip | src/rules/separate-type-imports.ts:74-76 | a binding text reads back as its imported and local names |
| SortImportNames.CaseInsensitive | src/rules/sort-import-names.ts:38-41 | case-insensitive only when configured so |
| SortImportNames.AnalyzeNameSpecifier | src/rules/sort-import-names.ts:43-89 | the shared record, keyed with the case option; identical to the shared analysis when case matters |
| SortImportNames.AnalyzeNameSpecifiers | src/rules/sort-import-names.ts:50-90 | one record per specifier, in order |
| SortImportNames.FormatImportSpecifiers | src/rules/sort-import-names.ts:92-143 | the method computes the specifier text |
| SortImportNames.NeedsSorting | src/rules/sort-import-names.ts:172-178 | the loop sets the flag iff some position differs |
| SortImportNames.CheckDeclaration | src/rules/sort-import-names.ts:146-197 | the visitor computes the report |
| SortImportNames.CaseSensitiveKeys | src/rules/sort-import-names.ts:43-48 | case-sensitive keys are equal iff the names are |
| SortImportNames.CaseBlindKeys | src/rules/sort-import-names.ts:43-48 | case-insensitive keys are equal iff the lowered names are |
| SortImportNames.CaseSensitiveAnalysisShared | src/rules/sort-import-names.ts:50-90 | case-sensitive analysis is the shared analysis of `src/utils.ts` |
| SortImportNames.DiffersIffUnsorted | src/rules/sort-import-names.ts:168-178 | the rule finds a difference iff the specifiers are not in key order |
| SortImportNames.NamesReportSpec | src/rules/sort-import-names.ts:146-197 | a report iff there are two or more specifiers, no inline type, and they are not in key order; it and its fix span the declaration |
| SortImportNames.FormatMatchesClause | src/rules/sort-import-names.ts:92-143 | the specifier text plus the source is the clause `formatImportStatement` writes |
| SortImportNames.FixMatchesStatement | src/rules/sort-import-names.ts:180-194 | the fix text is `import`, the type prefix and the sorted clause |
| SortImportNames.FormatNamedOnly | src/rules/sort-import-names.ts:110-142 | named specifiers alone are written as one braced list |
| SortImportNames.CaseInsensitiveExample | test/rules/sort-import-names.test.ts:147-153 | `{ B, c, a }` is reported and fixed to `{ a, B, c }` |
| SortImportNames.DefaultWrittenFirstExample | src/rules/sort-import-names.ts:180-194 | `import r, { A }` is reported, and its fix text is the same statement |

## Left out

- ESLint plumbing is not modelled: rule metadata, schemas, message texts, `context.report`, the fixer object and AST traversal. A declaration is a value holding what the rules read from the AST: source, raw source text, specifiers, `importKind`, range and lines. A report is a value holding the message id, the node range and the fix.
- Parsing the file is not modelled. `hasFollowingStatements`, which comes from a lookup in `program.body`, is a parameter of `SortImportGroups.GroupsRule.ProgramExit`.
- `localeCompare` is modelled as ordinal comparison of characters. Locale collation, which can order punctuation and letters differently, is not modelled.
- `toLowerCase` lowers only `A` to `Z` in the model (`Strings.ToLower`). The regular-expression classes of `createSortKey` are ASCII in the source too.
- Missing token positions are not modelled: `loc` is always present, and the blank-line fix always finds its tokens. The `?? 0` fallbacks and the `return null` fixes therefore have no counterpart.
- The `default` branch of `analyzeImportSpecifiers` has no counterpart, because the three specifier kinds are the only ones. The `999` fallback of `getImportGroupPriority` has none either, because there are only four module types.
- Reorder.FixKeepsEveryImport: requires that no record is both type-only and a side effect (`import type {} from 'x'`, no specifiers). `groupImports` drops such a record from the type section, so the fix would lose it.
- Reorder.TypeRecordsKept: requires the same, for the same reason.
- SortImportGroups.FixLinesSpec: requires the same, for the same reason.
- SeparateTypeImports.FixKeepsEveryBinding: requires at most one default and one namespace specifier. The rewrite keeps only the first of each, and JavaScript syntax never allows more.
- Classify.MoreNamedFirst: holds only for counts of 1 to 999. The three-digit prefix no longer orders larger counts.
- Classify.CountPrefixLess: holds only for counts of 1 to 999, for the same reason. For counts 1000 and 1001 the prefixes are `0-1` and `0-2`, which order the other way.
- SortImportGroups.FixedSectionsInOrder: idempotence of `sort-import-groups` is not proved. The lemma shows only that no section of the fix is out of order, not that a second pass reports nothing: the blank lines of the fix can themselves draw a blank-line report (Render.StyleBlankAsWritten).
- Idempotence of `sort-import-names` is not proved. It does not hold: SortImportNames.DefaultWrittenFirstExample shows a declaration whose fix text is the declaration itself, so the rule reports it again after every fix.
- Non-core files are not part of this model: `src/index.ts`, `src/types.ts` (its types are in `Types`), the configurations, the example and the test helpers.

## Findings

| source | as written | input that shows it | evidently intended | confidence | as-written member | corrected member |
|---|---|---|---|---|---|---|
| src/rules/sort-import-groups.ts:285-287, src/rules/sort-import-groups.ts:299-303 | a lone side effect followed by a regular section pushes a blank line after itself, and the type section then pushes another blank line whenever lines were already pushed | `import type { T } from 'm';` followed by `import './setup';`: reordering is needed, and the fix writes the side effect, two blank lines, then the type import | one blank line between sections: the type and style-sheet sections push a blank line only after a statement | not executed | Render.DoubleBlankAsWritten | Render.OneBlankCorrected |
| src/rules/sort-import-groups.ts:289-293, src/rules/sort-import-groups.ts:225-241 | the style-sheet section pushes a blank line whenever lines were already pushed, also right after a lone side effect, while the blank-line check gives all side effects one priority and wants them on adjacent lines | `import './a.css';`, `import './b.css';`, then `import './setup';`: reordering is needed, the fix writes `./setup`, a blank line, then the two style sheets; that order needs no reordering, so the next pass reports the blank line as unexpected | the fix passes the rule's own blank-line check: no blank line between a lone side effect and the style-sheet section after it | not executed | Render.StyleBlankAsWritten | Render.AdjacentSideEffectsCorrected |

The rule model renders its fix as the rule is written (Render.RenderFix, `Lines` with `asWritten` set). The corrected rendering, `Lines` with `asWritten` unset, fixes both rows: Render.CorrectedLinesTidy proves that its lines never hold two blank lines in a row.

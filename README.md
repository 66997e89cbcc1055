# Code-generation text builders of the Ignite web console, and the Hadoop user-name mappers

This project models the text builders that the Apache Ignite web console uses to write Java, XML and properties files. It also models the pure helpers around them and the two user-name mappers of the Hadoop accelerator. It proves properties of the model.

The web console has two near-duplicate builders:

- **`$generatorCommon.builder`** (generator-common.js) keeps an array of output lines. Its state:
  - `deep`: the indentation depth;
  - `needEmptyLine`: a deferred blank line;
  - `lineStart`;
  - `imports`: a registry from short class name to full class name;
  - `datasources`;
  - a safe-block snapshot (`safeDeep`, `safeNeedEmptyLine`, `safeImports`, `safeDatasources`, `safePoint`), which `startSafeBlock` takes and `rollbackSafeBlock` restores.

  Its `importClass` is lenient: on a short-name clash it returns the full name. Its `generateImports` drops `java.lang` classes and sorts the lines.
- **`exports.builder`** (common.js) keeps an array of tokens. Indentation units and `"\n"` are separate elements. Its `importClass` is strict: it reports a conflict. Its `generateImports` neither filters nor sorts.

Each builder has two layers:

- a pure model of its state and operations: `LineModel` and `TokenModel`;
- a class with the source's fields: `LineBuilder.Builder` and `TokenBuilder.Builder`. Every method of the class promises that its new state is the model function applied to the old state.

The lemmas about the model cover these facts:

- matched blocks restore the depth;
- blank-line requests collapse;
- output only grows outside a safe block;
- a rollback restores the snapshot exactly;
- the registry keeps each short name bound to at most one class;
- the import text is exactly the registered classes (sorted and filtered in one builder, in any order in the other).

The helpers are in separate modules:

| module | helpers |
|---|---|
| `DateFormat` | `addLeadingZero` (a loop) and `formatDate`, with a parser proving the format is a round trip |
| `JavaNames` | `toJavaName` and `javaBuildInClass` |
| `Js` | `isDefined` |
| `LegacyGenerator` | `hasProperty` and `generateProperties` |
| `GeneratorCommon` | `jdbcDialectClassName`, `dataSourceClassName`, `igfsDataCache` and `igfsMetaCache` |

`addLeadingZero` and `formatDate` have the same text in both files, so `DateFormat` models both. The rows below cite generator-common.js. The copy in common.js is at lines 31-51.

`UserNameMappers` models `BasicUserNameMapper`, a dictionary with a default and a start-time check, and `ConstantUserNameMapper`. Each is a class with the Java fields. Java `null` is `None`.

## Model

| member | source | states |
|---|---|---|
| DateFormat.Padded | modules/control-center-web/src/main/js/helpers/generator/generator-common.js:22-31 | padding: the result has length max(len, minSize), ends with the input, has only '0' before it, and is the input itself when the input is already long enough |
| DateFormat.ScalarText | modules/control-center-web/src/main/js/helpers/generator/generator-common.js:23-24 | the text the loop starts from: a string as it is, a number as its decimal text (specified through AddLeadingZero) |
| DateFormat.DecimalText | modules/control-center-web/src/main/js/helpers/generator/generator-common.js:24 | `'' + n` for an integer: a '-' before the digits of a negative number, the digits of NatText otherwise |
| DateFormat.AddLeadingZero | modules/control-center-web/src/main/js/helpers/generator/generator-common.js:22-31 | the `while` loop that prepends '0' yields exactly the padded decimal text of the number or string given |
| DateFormat.Zeros | modules/control-center-web/src/main/js/helpers/generator/generator-common.js:26-28 | the prefix the loop builds: max(k, 0) characters, all '0' |
| DateFormat.ZerosCons | modules/control-center-web/src/main/js/helpers/generator/generator-common.js:27 | one more '0' in front is one more zero in the prefix (the loop step) |
| DateFormat.NatText | modules/control-center-web/src/main/js/helpers/generator/generator-common.js:23-24 | the decimal text of a number (`'' + numberStr`) is non-empty, all digits, one digit exactly below 10, at most two below 100 |
| DateFormat.DigitsValueOfNatText | modules/control-center-web/src/main/js/helpers/generator/generator-common.js:23-24 | the decimal text of n reads back as n |
| DateFormat.FormatDateRoundTrip | modules/control-center-web/src/main/js/helpers/generator/generator-common.js:34-41 | for every calendar date, reading `mm/dd/yyyy HH:MM` back gives the same date; month is `getMonth()+1` and each two-digit field is padded to 2 |
| DateFormat.FormatDate | modules/control-center-web/src/main/js/helpers/generator/generator-common.js:34-41 | `mm/dd/yyyy HH:MM` with the month as `getMonth()+1`; its meaning is stated by FormatDateRoundTrip, FormatDateParts and FormatDateExample |
| DateFormat.FormatDateParts | modules/control-center-web/src/main/js/helpers/generator/generator-common.js:34-41 | the text is month+1, '/', day, '/', year, ' ', hour, ':', minute, with each field except the year padded to two digits |
| DateFormat.TwoDigitsOf | modules/control-center-web/src/main/js/helpers/generator/generator-common.js:35-40 | a field below 100 padded to 2 is two digits that read back as the field |
| DateFormat.TwoDigitsSmall | modules/control-center-web/src/main/js/helpers/generator/generator-common.js:35-40 | a field below 10 gets exactly one leading '0' |
| DateFormat.ParseDateFields | modules/control-center-web/src/main/js/helpers/generator/generator-common.js:40 | round-trip helper, not in the source: any text of the shape `dd/dd/d+ dd:dd` parses into its five fields |
| DateFormat.ParseByChars | modules/control-center-web/src/main/js/helpers/generator/generator-common.js:40 | round-trip helper, not in the source: the parser reads the fields from their fixed character positions |
| DateFormat.TimestampChars | modules/control-center-web/src/main/js/helpers/generator/generator-common.js:40 | the characters of the concatenated text sit at the positions the format gives them |
| DateFormat.ParseFormattedFields | modules/control-center-web/src/main/js/helpers/generator/generator-common.js:34-41 | the padded fields of a calendar date parse back into that date |
| DateFormat.FormatDateExample | modules/control-center-web/src/main/js/helpers/generator/generator-common.js:34-41 | 9:07 on 5 January 2015 (month 0) formats as "01/05/2015 09:07" |
| Text.Split | modules/control-center-web/src/main/js/helpers/generator/generator-common.js:85-87 | round-trip helper, not in the source: `split` of a one-character separator, the inverse used to state what `asString` keeps; it yields at least one piece |
| Text.SplitJoin | modules/control-center-web/src/main/js/helpers/generator/generator-common.js:85-87 | lines without the separator, joined by it, split back into the same lines |
| Text.Join | modules/control-center-web/src/main/js/helpers/generator/generator-common.js:86 | `parts.join(sep)`, used by `asString` and both `generateImports`; specified through SplitJoin, AsStringSplits and SortedImportsText |
| Text.Repeat | modules/control-center-web/src/main/js/helpers/generator/generator-common.js:90 | `_.repeat(s, n)` has n times the length of s |
| Text.LastIndexOf | modules/control-center-web/src/main/js/helpers/generator/generator-common.js:156 | `lastIndexOf` returns the last position of the character, or -1 when there is none |
| Text.LexLeqTotal | modules/control-center-web/src/main/js/helpers/generator/generator-common.js:181 | the default string order of `sort()` relates any two strings |
| Text.LexLeqReflexive | modules/control-center-web/src/main/js/helpers/generator/generator-common.js:181 | the order relates each string to itself |
| Text.LexLeqAntisymmetric | modules/control-center-web/src/main/js/helpers/generator/generator-common.js:181 | two strings each no greater than the other are equal |
| Text.LexLeqTransitive | modules/control-center-web/src/main/js/helpers/generator/generator-common.js:181 | the order is transitive |
| Text.Insert | modules/control-center-web/src/main/js/helpers/generator/generator-common.js:181 | inserting into a sorted sequence keeps it sorted and adds exactly that element |
| Text.SortStrings | modules/control-center-web/src/main/js/helpers/generator/generator-common.js:181 | `sort()` yields a sorted permutation of its input |
| Text.SortedUnique | modules/control-center-web/src/main/js/helpers/generator/generator-common.js:181 | two sorted permutations of one collection are equal, so the sorted import text is determined by the registry |
| Text.SortedHeadLeast | modules/control-center-web/src/main/js/helpers/generator/generator-common.js:181 | the head of a sorted sequence is no greater than any of its elements |
| ClassNames.ShortName | modules/control-center-web/src/main/js/helpers/generator/generator-common.js:156-158 | the short name is a suffix of the full name; it holds no '.' when the name has a '.' after its first character; otherwise it is the whole name |
| ClassNames.Registered | modules/control-center-web/src/main/js/helpers/generator/generator-common.js:160 | `this.imports[shortName]` is truthy: a key bound to "" counts as free (used in the contracts of WithImport and ImportedName) |
| ClassNames.WithImport | modules/control-center-web/src/main/js/helpers/generator/generator-common.js:160-167 | a free short name gets the class; a taken one leaves the registry as it was |
| ClassNames.WithImportWellKeyed | modules/control-center-web/src/main/js/helpers/generator/generator-common.js:153-168 | registering keeps every entry under its own class's short name, so no short name is bound to two classes |
| ClassNames.WithImportIdempotent | modules/control-center-web/src/main/js/helpers/generator/generator-common.js:153-168 | registering a class twice is the same as registering it once |
| ClassNames.StatementsRemove | modules/web-control-center/src/main/js/routes/generator/common.js:140-149 | the bag of import lines does not depend on the order the keys come in |
| ClassNames.Statement | modules/control-center-web/src/main/js/helpers/generator/generator-common.js:178 | the line `import X;` for a class |
| ClassNames.IsJavaLang | modules/control-center-web/src/main/js/helpers/generator/generator-common.js:177 | `lastIndexOf('java.lang.', 0) == 0`: the class name starts with `java.lang.` |
| ClassNames.StatementsCount | modules/web-control-center/src/main/js/routes/generator/common.js:140-149 | without the `java.lang` filter there is exactly one line per registry entry |
| ClassNames.StatementsCover | modules/control-center-web/src/main/js/helpers/generator/generator-common.js:173-184 | every registered class has its `import X;` line unless it is a skipped `java.lang` class |
| ClassNames.StatementsSound | modules/control-center-web/src/main/js/helpers/generator/generator-common.js:173-184 | every import line names a registered class, never a `java.lang` class when those are skipped |
| ClassNames.StatementsSingle | modules/control-center-web/src/main/js/helpers/generator/generator-common.js:173-184 | a one-entry registry contributes exactly that entry's line |
| ClassNames.StatementsPair | modules/control-center-web/src/main/js/helpers/generator/generator-common.js:173-184 | a two-entry registry contributes exactly both entries' lines |
| LineModel.New | modules/control-center-web/src/main/js/helpers/generator/generator-common.js:49-63 | a new builder has the given depth, no lines, a line start, no blank-line debt, empty imports, data sources and vars, an empty snapshot with safe point -1, and satisfies the invariant |
| LineModel.Indent | modules/control-center-web/src/main/js/helpers/generator/generator-common.js:90 | `_.repeat('    ', deep)`, nothing below depth 1 (specified by IndentOneLevel) |
| LineModel.Append | modules/control-center-web/src/main/js/helpers/generator/generator-common.js:89-93 | `append` pushes exactly one element (the indentation when at a line start, then s), keeps earlier lines and changes no other field |
| LineModel.Line | modules/control-center-web/src/main/js/helpers/generator/generator-common.js:95-108 | an empty s pushes nothing; a non-empty s pushes one "" when a blank line is owed, then the indented s; either way the debt is cleared, `lineStart` is set and nothing else changes |
| LineModel.StartBlock | modules/control-center-web/src/main/js/helpers/generator/generator-common.js:110-125 | the header is written like `line` at the old depth, and then the depth goes up by one |
| LineModel.EndBlock | modules/control-center-web/src/main/js/helpers/generator/generator-common.js:127-136 | the depth goes down by one before the footer, which is indented at the new depth; the blank-line debt and everything else are untouched |
| LineModel.EmptyLineIfNeeded | modules/control-center-web/src/main/js/helpers/generator/generator-common.js:138-145 | with a debt, one "" is pushed, the debt is cleared and `lineStart` set, nothing else changes; without one, nothing changes |
| LineModel.ImportedName | modules/control-center-web/src/main/js/helpers/generator/generator-common.js:153-168 | `importClass` returns the short name when it is free or bound to the same class, and the full name when it is bound to another class |
| LineModel.ImportClass | modules/control-center-web/src/main/js/helpers/generator/generator-common.js:153-168 | only the registry changes, as registering the class describes |
| LineModel.StartSafeBlock | modules/control-center-web/src/main/js/helpers/generator/generator-common.js:65-71 | the snapshot holds the current depth, blank-line debt, imports, data sources and line count; nothing else changes |
| LineModel.RollbackSafeBlock | modules/control-center-web/src/main/js/helpers/generator/generator-common.js:73-83 | without an open safe point nothing changes; with one, the lines are cut back to it, depth, debt, imports and data sources take their saved values, the safe point becomes -1, and nothing else changes |
| LineModel.RollbackRestores | modules/control-center-web/src/main/js/helpers/generator/generator-common.js:65-83 | after `startSafeBlock`, any calls and `rollbackSafeBlock`: lines, depth, blank-line debt, imports and data sources are as before; the safe point is -1, so a second rollback does nothing; `lineStart` and `vars` keep what the block left |
| LineModel.RunExtends | modules/control-center-web/src/main/js/helpers/generator/generator-common.js:89-168 | outside a safe block, calls only add lines at the end and never touch the snapshot |
| LineModel.ApplyExtends | modules/control-center-web/src/main/js/helpers/generator/generator-common.js:89-168 | each call other than the safe-block pair leaves earlier lines and the snapshot as they were |
| LineModel.RunDepth | modules/control-center-web/src/main/js/helpers/generator/generator-common.js:110-136 | the depth after a call sequence is the start depth plus the blocks opened minus those closed |
| LineModel.MatchedBlock | modules/control-center-web/src/main/js/helpers/generator/generator-common.js:110-136 | around a balanced body, `startBlock`/`endBlock` restore the depth, indent the footer like the header and keep earlier lines |
| LineModel.BlockLayout | modules/control-center-web/src/main/js/helpers/generator/generator-common.js:85-136 | a header, a body line and a footer written into a fresh builder give the lines header, four spaces + body, footer and the text joined by "\n" |
| LineModel.BlockLines | modules/control-center-web/src/main/js/helpers/generator/generator-common.js:95-136 | the lines of that header, body and footer sequence |
| LineModel.LineFresh | modules/control-center-web/src/main/js/helpers/generator/generator-common.js:95-108 | at a line start with no debt, `line(s)` pushes exactly the indented s |
| LineModel.IndentOneLevel | modules/control-center-web/src/main/js/helpers/generator/generator-common.js:90 | depth 0 has no indentation and depth 1 exactly four spaces |
| LineModel.RunAppend | modules/control-center-web/src/main/js/helpers/generator/generator-common.js:89-168 | running two call sequences one after the other is running their concatenation |
| LineModel.RunKeepsLineStart | modules/control-center-web/src/main/js/helpers/generator/generator-common.js:89-168 | no operation clears `lineStart` (`append` never does in this builder) |
| LineModel.ApplyConsistent | modules/control-center-web/src/main/js/helpers/generator/generator-common.js:65-168 | every operation keeps the invariant: the registry is well keyed, and so is the snapshot registry |
| LineModel.RunConsistent | modules/control-center-web/src/main/js/helpers/generator/generator-common.js:65-168 | every call sequence keeps the invariant |
| LineModel.RequestsSetFlag | modules/control-center-web/src/main/js/helpers/generator/generator-common.js:95-108 | any number of blank-line requests (`needEmptyLine = true`) only set the flag |
| LineModel.BlankLinesCollapse | modules/control-center-web/src/main/js/helpers/generator/generator-common.js:95-108 | n >= 1 blank-line requests before a line give exactly one "" before it |
| LineModel.EmptyLineOnce | modules/control-center-web/src/main/js/helpers/generator/generator-common.js:138-145 | two `emptyLineIfNeeded` in a row are one, and a line after it gets no second blank line |
| LineModel.ImportResolves | modules/control-center-web/src/main/js/helpers/generator/generator-common.js:153-168 | the name `importClass` returns refers to the class: either bound to it in the new registry or the full name itself |
| LineModel.AsStringSplits | modules/control-center-web/src/main/js/helpers/generator/generator-common.js:85-87 | `asString` of lines without breaks splits back into those lines |
| LineModel.AsString | modules/control-center-web/src/main/js/helpers/generator/generator-common.js:85-87 | the lines joined by "\n"; AsStringSplits states that the lines can be read back from it |
| LineModel.SortedImportsText | modules/control-center-web/src/main/js/helpers/generator/generator-common.js:173-184 | sorting the import lines of the non-`java.lang` entries and joining them by "\n" gives the import text |
| LineModel.ImportsTextUnique | modules/control-center-web/src/main/js/helpers/generator/generator-common.js:173-184 | a registry has exactly one import text |
| LineModel.ExampleStatements | modules/control-center-web/src/main/js/helpers/generator/generator-common.js:173-184 | `java.lang.A` yields no line and `x.B` yields `import x.B;` |
| LineModel.ImportsTextExample | modules/control-center-web/src/main/js/helpers/generator/generator-common.js:173-184 | the import text of that registry is exactly "import x.B;" |
| LineBuilder.Builder.constructor | modules/control-center-web/src/main/js/helpers/generator/generator-common.js:49-63 | the fields are those of a new builder for the given depth |
| LineBuilder.Builder.StartSafeBlock | modules/control-center-web/src/main/js/helpers/generator/generator-common.js:65-71 | the new state is the model's `startSafeBlock` of the old one |
| LineBuilder.Builder.RollbackSafeBlock | modules/control-center-web/src/main/js/helpers/generator/generator-common.js:73-83 | the new state is the model's `rollbackSafeBlock` of the old one |
| LineBuilder.Builder.AsString | modules/control-center-web/src/main/js/helpers/generator/generator-common.js:85-87 | the text splits back into the lines when no line holds a break |
| LineBuilder.Builder.Append | modules/control-center-web/src/main/js/helpers/generator/generator-common.js:89-93 | the new state is the model's `append` |
| LineBuilder.Builder.Line | modules/control-center-web/src/main/js/helpers/generator/generator-common.js:95-108 | the new state is the model's `line` |
| LineBuilder.Builder.StartBlock | modules/control-center-web/src/main/js/helpers/generator/generator-common.js:110-125 | the new state is the model's `startBlock` |
| LineBuilder.Builder.EndBlock | modules/control-center-web/src/main/js/helpers/generator/generator-common.js:127-136 | the new state is the model's `endBlock` |
| LineBuilder.Builder.EmptyLineIfNeeded | modules/control-center-web/src/main/js/helpers/generator/generator-common.js:138-145 | the new state is the model's `emptyLineIfNeeded` |
| LineBuilder.Builder.ImportClass | modules/control-center-web/src/main/js/helpers/generator/generator-common.js:153-168 | the registry changes as the model says, and the returned name is the short name or, on a clash, the full name |
| LineBuilder.Builder.GenerateImports | modules/control-center-web/src/main/js/helpers/generator/generator-common.js:173-184 | the returned text is the registry's import text: the sorted `import X;` lines of the non-`java.lang` classes joined by "\n" |
| TokenModel.IndentTokens | modules/web-control-center/src/main/js/routes/generator/common.js:61-62 | max(deep, 0) indentation tokens, each four spaces |
| TokenModel.New | modules/web-control-center/src/main/js/routes/generator/common.js:53-57 | no tokens, depth 0, at a line start, no blank-line debt, no imports |
| TokenModel.ConcatAppend | modules/web-control-center/src/main/js/routes/generator/common.js:53-70 | the text of two token runs is the text of one followed by the other |
| TokenModel.ConcatIndent | modules/web-control-center/src/main/js/routes/generator/common.js:61-62 | the indentation tokens spell the same text as the other builder's indentation |
| TokenModel.Append | modules/web-control-center/src/main/js/routes/generator/common.js:59-70 | at a line start, `deep` indentation tokens and then s are pushed; otherwise only s; `lineStart` is cleared and nothing else changes |
| TokenModel.Line | modules/web-control-center/src/main/js/routes/generator/common.js:72-80 | a non-empty s is appended, then "\n" is pushed and `lineStart` set; the rest is unchanged |
| TokenModel.StartBlock | modules/web-control-center/src/main/js/routes/generator/common.js:82-91 | the header is a `line` at the old depth, then the depth goes up by one; blank-line debt and imports are kept |
| TokenModel.EndBlock | modules/web-control-center/src/main/js/routes/generator/common.js:93-103 | the depth goes down by one, then the footer is a `line` at the new depth; blank-line debt and imports are kept |
| TokenModel.EmptyLineIfNeeded | modules/web-control-center/src/main/js/routes/generator/common.js:105-115 | returns true exactly when a blank line was owed; then one "\n" is pushed, the debt cleared and imports kept, otherwise nothing changes |
| TokenModel.StrictImport | modules/web-control-center/src/main/js/routes/generator/common.js:119-138 | fails exactly when the short name is bound to another class, with "Class name conflict: <old> and <new>"; otherwise returns the short name |
| TokenModel.ConflictMessage | modules/web-control-center/src/main/js/routes/generator/common.js:131 | the thrown text "Class name conflict: <old> and <new>" |
| TokenModel.ImportClass | modules/web-control-center/src/main/js/routes/generator/common.js:119-138 | on a conflict nothing changes; otherwise the class is registered |
| TokenModel.ImportIdempotent | modules/web-control-center/src/main/js/routes/generator/common.js:119-138 | registering a second time succeeds with the same name and changes nothing |
| TokenModel.ImportKeepsEntries | modules/web-control-center/src/main/js/routes/generator/common.js:119-138 | a registered short name keeps its class whatever is imported next |
| TokenModel.ImportsLines | modules/web-control-center/src/main/js/routes/generator/common.js:140-149 | the import lines are one per entry, cover every registered class and name only registered classes, in no particular order |
| TokenModel.RunDepth | modules/web-control-center/src/main/js/routes/generator/common.js:82-103 | the depth after a call sequence is the start depth plus blocks opened minus blocks closed |
| TokenModel.ApplyExtends | modules/web-control-center/src/main/js/routes/generator/common.js:59-138 | every operation only adds tokens at the end |
| TokenModel.AppendExtends | modules/web-control-center/src/main/js/routes/generator/common.js:59-70 | `append` keeps the earlier tokens |
| TokenModel.LineExtends | modules/web-control-center/src/main/js/routes/generator/common.js:72-80 | `line` keeps the earlier tokens |
| TokenModel.RunExtends | modules/web-control-center/src/main/js/routes/generator/common.js:59-138 | a call sequence only adds tokens at the end |
| TokenModel.MatchedBlock | modules/web-control-center/src/main/js/routes/generator/common.js:82-103 | around a balanced body, a block restores the depth and writes its header at that depth; the footer is indented like the header when the body ended its last line, and joins that line unindented when the body ended with a bare `append` |
| TokenModel.LineText | modules/web-control-center/src/main/js/routes/generator/common.js:59-80 | at a line start, `line(s)` adds the indentation, s and "\n" to the text |
| TokenModel.LineAtTop | modules/web-control-center/src/main/js/routes/generator/common.js:59-80 | at depth 0 and a line start, `line(s)` pushes s (when non-empty) and "\n", and nothing else changes |
| TokenBuilder.Builder.constructor | modules/web-control-center/src/main/js/routes/generator/common.js:53-57 | the fields are those of a new builder |
| TokenBuilder.Builder.Append | modules/web-control-center/src/main/js/routes/generator/common.js:59-70 | the `for` loop over the depth and the push of s give the model's `append` |
| TokenBuilder.Builder.Line | modules/web-control-center/src/main/js/routes/generator/common.js:72-80 | the new state is the model's `line` |
| TokenBuilder.Builder.StartBlock | modules/web-control-center/src/main/js/routes/generator/common.js:82-91 | the new state is the model's `startBlock` |
| TokenBuilder.Builder.EndBlock | modules/web-control-center/src/main/js/routes/generator/common.js:93-103 | the new state is the model's `endBlock` |
| TokenBuilder.Builder.EmptyLineIfNeeded | modules/web-control-center/src/main/js/routes/generator/common.js:105-115 | the result and the new state are the model's `emptyLineIfNeeded` |
| TokenBuilder.Builder.ImportClass | modules/web-control-center/src/main/js/routes/generator/common.js:119-138 | returns the short name or the conflict error, and changes the registry only on success |
| TokenBuilder.Builder.GenerateImports | modules/web-control-center/src/main/js/routes/generator/common.js:140-149 | the text is one `import X;` line per entry, joined by "\n", in the order the keys are visited |
| Js.IsDefined | modules/web-control-center/src/main/js/routes/generator/common.js:20-22 | false exactly for undefined and null; true for every boolean, number, string and object |
| Js.TruthyIsDefined | modules/web-control-center/src/main/js/routes/generator/common.js:20-22 | every truthy value is defined, but 0, "" and false are defined and not truthy |
| JavaNames.FirstNonWord | modules/web-control-center/src/main/js/routes/generator/common.js:283 | the start of the first character outside `[A-Za-z_0-9]`; everything before it is a word character |
| JavaNames.ReplaceFirstRun | modules/web-control-center/src/main/js/routes/generator/common.js:283 | `replace` without the `g` flag: the first run becomes one '_' (specified by ToJavaNameShape) |
| JavaNames.UpperFirst | modules/web-control-center/src/main/js/routes/generator/common.js:285 | the first character upper-cased, the rest kept (specified by UpperFirstShape and UpperFirstIdempotent) |
| JavaNames.ToJavaName | modules/web-control-center/src/main/js/routes/generator/common.js:282-286 | the conversion as written; its meaning is stated by ToJavaNameShape, ToJavaNameOfWord, ToJavaNameIsWord and ToJavaNameIdempotent |
| JavaNames.RunEnd | modules/web-control-center/src/main/js/routes/generator/common.js:283 | the end of the run of non-word characters |
| JavaNames.UpperChar | modules/web-control-center/src/main/js/routes/generator/common.js:285 | lower-case ASCII letters become upper-case; every other character is kept |
| JavaNames.ToJavaNameOfWord | modules/web-control-center/src/main/js/routes/generator/common.js:282-286 | a name of word characters only has just its first character upper-cased |
| JavaNames.ToJavaNameShape | modules/web-control-center/src/main/js/routes/generator/common.js:282-286 | only the first run of non-word characters becomes one '_'; the first character is upper-cased and the rest is unchanged |
| JavaNames.UpperFirstSplice | modules/web-control-center/src/main/js/routes/generator/common.js:282-286 | upper-casing after the replacement changes only the first character |
| JavaNames.UpperFirstShape | modules/web-control-center/src/main/js/routes/generator/common.js:285 | upper-casing the first character keeps the length and the other characters |
| JavaNames.UpperCharKeepsWord | modules/web-control-center/src/main/js/routes/generator/common.js:285 | upper-casing keeps a word character a word character |
| JavaNames.ToJavaNameIsWord | modules/web-control-center/src/main/js/routes/generator/common.js:282-286 | a name with at most one run of non-word characters becomes a string of word characters `[A-Za-z_0-9]` only (not necessarily a Java identifier: "" and a leading digit stay) |
| JavaNames.UpperFirstIdempotent | modules/web-control-center/src/main/js/routes/generator/common.js:285 | upper-casing the first character twice is doing it once |
| JavaNames.ToJavaNameIdempotent | modules/web-control-center/src/main/js/routes/generator/common.js:282-286 | for such a name `toJavaName` is idempotent |
| JavaNames.ToJavaNameExample | modules/web-control-center/src/main/js/routes/generator/common.js:282-286 | as written, "my x-y" becomes "My_x-y": only the first run is replaced and the result still holds a non-word character |
| JavaNames.ReplaceAllRuns | modules/web-control-center/src/main/js/routes/generator/common.js:283 | corrected half of the `toJavaName` finding: the replacement with the `g` flag leaves word characters only, is no longer than its input and keeps a word unchanged |
| JavaNames.ToJavaNameAll | modules/web-control-center/src/main/js/routes/generator/common.js:282-286 | corrected `toJavaName`: every run replaced, then the first character upper-cased (specified by the three lemmas below) |
| JavaNames.ToJavaNameAllIsWord | modules/web-control-center/src/main/js/routes/generator/common.js:282-286 | the corrected conversion turns every name into word characters only |
| JavaNames.ToJavaNameAllAgrees | modules/web-control-center/src/main/js/routes/generator/common.js:282-286 | wherever the source's single replacement already leaves word characters, the corrected conversion gives the same name |
| JavaNames.ToJavaNameAllExample | modules/web-control-center/src/main/js/routes/generator/common.js:282-286 | corrected, "a b-c" becomes "A_b_c" |
| JavaNames.BuildInPackage | modules/web-control-center/src/main/js/routes/generator/common.js:177-191 | each built-in class sits in a non-empty package |
| JavaNames.BuildInEntryAsWritten | modules/web-control-center/src/main/js/routes/generator/common.js:177-191 | the table as written has the same keys as the intended one and differs from it only at `BigDecimal` |
| JavaNames.JavaBuildInClassAsWritten | modules/web-control-center/src/main/js/routes/generator/common.js:193-200 | as written, an unknown name is returned unchanged |
| JavaNames.BigDecimalAsWritten | modules/web-control-center/src/main/js/routes/generator/common.js:178 | as written, `BigDecimal` resolves to `java.math.Boolean`, whose short name is not `BigDecimal` |
| JavaNames.JavaBuildInClass | modules/web-control-center/src/main/js/routes/generator/common.js:193-200 | over the corrected table: an unknown name is returned unchanged, and a built-in one resolves to a full name whose short name is the argument; for the table as written see JavaBuildInClassAsWritten and BigDecimalAsWritten |
| JavaNames.BuildInEntryKeyed | modules/web-control-center/src/main/js/routes/generator/common.js:177-191 | every entry of the intended table has its own key as short name |
| JavaNames.KeyHasNoDot | modules/web-control-center/src/main/js/routes/generator/common.js:177-191 | no key of the table holds a '.' |
| JavaNames.ShortNameInPackage | modules/control-center-web/src/main/js/helpers/generator/generator-common.js:156-158 | the short name of `pkg.Cls` is `Cls` |
| JavaNames.ShortNameAfter | modules/control-center-web/src/main/js/helpers/generator/generator-common.js:156-158 | the short name is the text after the last '.' when that is past the first character |
| JavaNames.LastDot | modules/control-center-web/src/main/js/helpers/generator/generator-common.js:156 | `lastIndexOf('.')` finds the last '.' |
| LegacyGenerator.HasProperty | modules/web-control-center/src/main/js/routes/generator/common.js:265-274 | true exactly when some property name of the descriptor has a truthy value in the object |
| LegacyGenerator.ProbeCache | modules/web-control-center/src/main/js/routes/generator/common.js:301-305 | what one cache contributes: nothing without a selected kind or without a truthy dialect, the bean of its factory, or the error when the selected kind has no factory (specified through BeansOf and PropertiesFails) |
| LegacyGenerator.BeansOf | modules/web-control-center/src/main/js/routes/generator/common.js:300-306 | the scan fails exactly when some cache selects a kind with no factory; otherwise it collects exactly the beans of the caches whose factory has a truthy dialect |
| LegacyGenerator.Dedup | modules/web-control-center/src/main/js/routes/generator/common.js:307-308 | `_.contains` before `push` keeps each bean once and keeps every bean |
| LegacyGenerator.BeanText | modules/web-control-center/src/main/js/routes/generator/common.js:310-312 | `beanId + '...'`: the bean id, or "undefined" when it is unset |
| LegacyGenerator.GroupTokens | modules/web-control-center/src/main/js/routes/generator/common.js:310-313 | the tokens of one data source: three property lines, each followed by "\n", then an empty line (specified by GroupText and WriteGroup) |
| LegacyGenerator.Header | modules/web-control-center/src/main/js/routes/generator/common.js:321 | `'# ' + comment + '\n\n'`, with the comment as a parameter |
| LegacyGenerator.PropertyLine | modules/web-control-center/src/main/js/routes/generator/common.js:310-312 | each property line is never empty, so `line` always writes it, and starts with the bean id |
| LegacyGenerator.GroupText | modules/web-control-center/src/main/js/routes/generator/common.js:310-313 | each data source writes its url, user name and password lines and then an empty line |
| LegacyGenerator.PropertiesNone | modules/web-control-center/src/main/js/routes/generator/common.js:297-323 | the result is undefined exactly when no cache selects a store factory with a dialect (and none is broken) |
| LegacyGenerator.PropertiesFails | modules/web-control-center/src/main/js/routes/generator/common.js:301-304 | the generation fails exactly when a cache selects a kind it has no factory for |
| LegacyGenerator.Properties | modules/web-control-center/src/main/js/routes/generator/common.js:294-323 | corrected `generateProperties`, tokens joined by "": the header and one group per distinct bean, undefined without one, the error of a broken cache (specified by PropertiesNone, PropertiesFails and GenerateProperties) |
| LegacyGenerator.PropertiesAsWritten | modules/web-control-center/src/main/js/routes/generator/common.js:294-323 | `generateProperties` as written, whose `res.join()` puts ',' between all tokens; PropertiesAsWrittenExample shows where it differs from Properties |
| LegacyGenerator.MySqlTokens | modules/web-control-center/src/main/js/routes/generator/common.js:298-323 | one MySQL POJO store with bean `ds` yields one group of lines |
| LegacyGenerator.PropertiesAsWrittenExample | modules/web-control-center/src/main/js/routes/generator/common.js:321 | as written (`res.join()`), position 30 of that file is ',' where the intended text has "\n" |
| LegacyGenerator.GenerateProperties | modules/web-control-center/src/main/js/routes/generator/common.js:294-323 | the loop over the caches returns exactly the intended file: the header, then one group per distinct data source, or undefined, or the error |
| LegacyGenerator.WriteGroup | modules/web-control-center/src/main/js/routes/generator/common.js:310-313 | the four `line` calls push exactly the group's tokens and change nothing else |
| LegacyGenerator.ScanStep | modules/web-control-center/src/main/js/routes/generator/common.js:300-317 | one more cache extends the scan by that cache's contribution |
| LegacyGenerator.DedupStep | modules/web-control-center/src/main/js/routes/generator/common.js:307-308 | one more bean is pushed exactly when it is not yet in the list |
| LegacyGenerator.GroupsTokensStep | modules/web-control-center/src/main/js/routes/generator/common.js:310-313 | one more data source adds its group at the end |
| LegacyGenerator.BrokenPrefix | modules/web-control-center/src/main/js/routes/generator/common.js:301-304 | the first broken cache decides the error |
| GeneratorCommon.JdbcDialectClassName | modules/control-center-web/src/main/js/helpers/generator/generator-common.js:218-233 | a known database gets its dialect class; any other gets "Unknown database: " and its name |
| GeneratorCommon.DataSourceClassName | modules/control-center-web/src/main/js/helpers/generator/generator-common.js:258-273 | a known database gets its data source class; any other gets "Unknown database: " and its name |
| GeneratorCommon.SameDatabases | modules/control-center-web/src/main/js/helpers/generator/generator-common.js:218-266 | both tables know the same databases |
| GeneratorCommon.GroupSize | modules/control-center-web/src/main/js/helpers/generator/generator-common.js:243 | `affinnityGroupSize || 512`: 512 when unset or 0, otherwise the given size, so never 0 |
| GeneratorCommon.IgfsDataCache | modules/control-center-web/src/main/js/helpers/generator/generator-common.js:236-245 | name `<igfs>-data`, partitioned, transactional, full sync, 0 backups and the group size |
| GeneratorCommon.IgfsMetaCache | modules/control-center-web/src/main/js/helpers/generator/generator-common.js:248-255 | name `<igfs>-meta`, replicated, transactional, full sync, no backups and no group size |
| GeneratorCommon.IgfsCacheNamesDistinct | modules/control-center-web/src/main/js/helpers/generator/generator-common.js:236-255 | a data cache and a meta cache never share a name, and distinct IGFS give distinct names |
| UserNameMappers.BasicUserNameMapper.constructor | modules/hadoop/src/main/java/org/apache/ignite/hadoop/util/BasicUserNameMapper.java:35-38 | a new mapper has null mappings and a null default |
| UserNameMappers.BasicUserNameMapper.Map | modules/hadoop/src/main/java/org/apache/ignite/hadoop/util/BasicUserNameMapper.java:41-47 | a key mapped to a non-null value gives that value; any other name, null included, gives the default |
| UserNameMappers.BasicUserNameMapper.Start | modules/hadoop/src/main/java/org/apache/ignite/hadoop/util/BasicUserNameMapper.java:50-53 | fails exactly when the mappings are null, whatever the default |
| UserNameMappers.BasicUserNameMapper.Stop | modules/hadoop/src/main/java/org/apache/ignite/hadoop/util/BasicUserNameMapper.java:56-58 | changes nothing |
| UserNameMappers.BasicUserNameMapper.SetMappings | modules/hadoop/src/main/java/org/apache/ignite/hadoop/util/BasicUserNameMapper.java:65-76 | `getMappings` then returns the map set, and the default is kept |
| UserNameMappers.BasicUserNameMapper.SetDefaultUserName | modules/hadoop/src/main/java/org/apache/ignite/hadoop/util/BasicUserNameMapper.java:87-98 | `getDefaultUserName` then returns the name set, and the mappings are kept |
| UserNameMappers.EmptyMappingsConstant | modules/hadoop/src/test/java/org/apache/ignite/hadoop/util/BasicUserNameMapperSelfTest.java:62-78 | with empty mappings every name maps to the default |
| UserNameMappers.NullEntryFallsBack | modules/hadoop/src/main/java/org/apache/ignite/hadoop/util/BasicUserNameMapper.java:41-47 | a key mapped to null falls back to the default |
| UserNameMappers.MappingsCase | modules/hadoop/src/test/java/org/apache/ignite/hadoop/util/BasicUserNameMapperSelfTest.java:85-103 | with mappings {"1" -> "101"} start passes, "1" maps to "101", and null, "" and "2" map to the default |
| UserNameMappers.NullMappingsCase | modules/hadoop/src/test/java/org/apache/ignite/hadoop/util/BasicUserNameMapperSelfTest.java:39-55 | with null mappings start fails |
| UserNameMappers.ConstantUserNameMapper.constructor | modules/hadoop/src/main/java/org/apache/ignite/hadoop/util/ConstantUserNameMapper.java:33 | a new mapper has a null user name |
| UserNameMappers.ConstantUserNameMapper.Map | modules/hadoop/src/main/java/org/apache/ignite/hadoop/util/ConstantUserNameMapper.java:36-38 | every name, null included, maps to the configured user name |
| UserNameMappers.ConstantUserNameMapper.SetUserName | modules/hadoop/src/main/java/org/apache/ignite/hadoop/util/ConstantUserNameMapper.java:47-58 | `getUserName` then returns the name set (null allowed), and every name maps to it |
| UserNameMappers.ConstantMapIgnoresName | modules/hadoop/src/main/java/org/apache/ignite/hadoop/util/ConstantUserNameMapper.java:36-38 | any two names map to the same user name |

## Left out

- `mainComment` in both files reads the wall clock through `new Date()`. `formatDate` takes a date record of integers instead, and `generateProperties` takes the comment text as a parameter.
- `$dataStructures.fullClassName` in generator-common.js `importClass` is a foreign function. The model takes the identity: the caller passes the resolved class name.
- lodash is not modelled. `_.cloneDeep` is a value copy, `_.repeat` is `Text.Repeat`, `_.contains` is sequence membership and `_.forEach` is a loop.
- `toLocaleUpperCase` in `toJavaName` is modelled as ASCII upper-casing of the first character. Locale rules and non-ASCII letters are not modelled.
- TokenBuilder.Builder.GenerateImports: the key order of a JavaScript object is not modelled. The contract promises the lines as a bag, not their order.
- Text.SortStrings: `sort()` compares UTF-16 code units. The model compares `char` values, which agree on the Basic Multilingual Plane.
- JavaNames.ToJavaNameIsWord: the doc comment of `toJavaName` (common.js:276-280) promises a valid Java name. The code as written leaves every run after the first (see Findings), and neither it nor the corrected ToJavaNameAll guards against an empty name or a leading digit, so the model proves word characters only, not a Java identifier.
- LegacyGenerator.HasProperty: it visits the descriptor's keys in an unspecified order. The source's `for ... in` order does not affect the result, and the model does not fix it.
- The static descriptor tables (`EVICTION_POLICIES`, `MARSHALLERS`, `STORE_FACTORIES`, the SSL, connector and communication descriptors, `knownClasses` and so on) are constant data with no behaviour beyond lookup.
- `toString` of both mappers, and the `LifecycleAware` and `Serializable` plumbing, are not modelled.
- `karma.conf.js` is test-runner configuration with no logic.
- JavaNames.JavaBuildInClass, LineModel.ImportedName, LineModel.ImportClass, TokenModel.StrictImport, GeneratorCommon.JdbcDialectClassName, GeneratorCommon.DataSourceClassName, LegacyGenerator.HasProperty, LegacyGenerator.ProbeCache: JavaScript object lookups also find inherited keys such as `constructor` or `toString`, and the model's maps do not. For example, the source's lenient `importClass("a.constructor")` finds `Object.prototype.constructor`, returns "a.constructor" and registers nothing, while the model registers "constructor". The strict builder throws there, and `jdbcDialectClassName("toString")` returns a function where the model gives "Unknown database: toString".
- LineModel.StartSafeBlock: the source writes `safeDeep` through the closure variable `res` and the other snapshot fields through `this` (generator-common.js:66-70). The model assumes the method is called on the builder itself, where both name the same object.
- The builders' methods return the builder itself so calls can be chained. The model drops those return values.
- LegacyGenerator.Properties: bean ids are strings or undefined. The text of other values that JavaScript would concatenate (numbers, objects) is not modelled.
- LegacyGenerator.Properties: absent `caches` is treated as an empty list. A factory that is missing, null or undefined under the selected kind gives the `TypeError` of reading `dialect`, modelled as `MissingStoreFactory`. The store factories are a map from kind to factory, read as `cache.cacheStoreFactory[kind]`.
- DateFormat.AddLeadingZero: the argument is an integer of either sign or a string. NaN, fractions and exponent notation of JavaScript numbers are not modelled.
- LineModel.Line, TokenModel.Line: a call with no argument (`s` undefined) is modelled as the empty string, which `if (s)` treats the same way.
- UserNameMappers.BasicUserNameMapper.Map: it requires non-null mappings. The Java method would throw a `NullPointerException` without them, and `start()` rejects that configuration first.
- The `IgniteException` of `start()` is modelled as a failure outcome carrying the message.

## Findings

| source | as written | input that shows it | evidently intended | confidence | as-written member | corrected member |
|---|---|---|---|---|---|---|
| modules/web-control-center/src/main/js/routes/generator/common.js:321 | `res.join()` joins the builder's tokens with the default separator ',' | one cache with a MySQL POJO store factory and bean `ds`: a ',' precedes every "\n" token and follows every line's text | the tokens joined with "" (`res.join('')`), giving one property per line | not executed | LegacyGenerator.PropertiesAsWrittenExample | LegacyGenerator.GenerateProperties |
| modules/web-control-center/src/main/js/routes/generator/common.js:178 | the built-in class table maps `BigDecimal` to `java.math.Boolean` | `javaBuildInClass("BigDecimal")` returns "java.math.Boolean" | `java.math.BigDecimal`, whose short name is the key | not executed | JavaNames.BigDecimalAsWritten | JavaNames.BuildInEntryKeyed |
| modules/web-control-center/src/main/js/routes/generator/common.js:283 | the regex `/[^A-Za-z_0-9]+/` lacks the `g` flag, so only the first run of non-word characters becomes '_' | `toJavaName("my x-y")` returns "My_x-y", which still holds '-' | every run replaced (`/[^A-Za-z_0-9]+/g`), as the promised "valid java name" needs | not executed | JavaNames.ToJavaNameExample | JavaNames.ToJavaNameAllIsWord |

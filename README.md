# KConMapper — a Dafny model of the mapping-function generator

KConMapper is a Kotlin Symbol Processing (KSP) processor. A class annotated with
`@KConMapper(fromClasses = [...], toClasses = [...])` gets generated extension functions
`fun Source.toTarget(...) = Target(...)`. They feed the target's primary constructor from the
source's properties. A property matches when its name is the parameter name or one of the
aliases in its `@KConMapperProperty`, and its type fits. Constructor parameters that nothing
feeds become inputs of the function.

This project models that engine:

- **`KspModel`**: the KSP symbol graph the processor reads, as immutable values. This covers
  declarations, types and type arguments, type parameters with bounds, constructor parameters,
  properties with aliases and class declarations. The resolver's class lookup is a map. The
  diagnostics the logger would print are values.
- **`Extensions`**: `getName`, `compareByQualifiedName`, `compareByDeclaration`,
  `markedNullableAsString` and `logAndThrowError`.
- **`Seqs`**: insertion-ordered sets, which is how Kotlin's `mutableSetOf` and `Set.plus` behave.
- **`Imports`**: the class `PackageImports`. It has an insertion-ordered import set and the
  target type parameters. `AsFormattedImports` is proved against a specification of the text
  it writes.
- **`TypeCheck`**: `matches`, `evaluateKSTypeAssignable` and the supertype search
  `containsSupertype`.
- **`Arguments`**: the value types `MatchingArgument` and `ArgumentType`.
- **`Matching`**: `extractMatchingAndMissingConstructorArguments`. It is specified as pure
  functions (candidate verdicts, scans, fates of parameters) and implemented by methods whose
  loops are proved against them.
- **`Rendering`**: `getArgumentDeclarationLineEnding` and `convertTypeArgumentToString`, with a
  reference rendering of fully resolved types.
- **`GeneratorSpec`** and **`Generator`**: `generateMappingFunction`, split as follows:
  - the specification of the function text, its diagnostics and its imports;
  - the imperative builders (header, missing-argument declarations, assignments) that grow the
    text in loops and call `addImport`, each proved to produce the specified text and imports.
- **`VisitorSpec`** and **`Visitor`**: `KCMVisitor`. It reads the annotation, resolves the
  argument classes, runs the generator over `fromClasses` and then `toClasses` with one shared
  `PackageImports`, and lays out the generated file.
- **`Processor`**: `KCMSymbolProcessor.process`. It filters to valid class declarations, rejects
  unsupported class kinds with an error that ends the round, and visits everything else.
- **`Configuration`**: the option parser of `KConMapperConfiguration`.

Exceptions (`logAndThrowError`, a `first` with no match) are modelled as a `Failed` result that
propagates to the caller, together with the diagnostics logged before it.

## Model

Functions that only compute have no row of their own. The lemmas about them carry their rows:
- `GetName`, `TypeName`, `CompareByQualifiedName` and `CompareByDeclaration` are covered by the
  `Extensions` comparison lemmas.
- `ConvertTypeArgumentToString` is covered by the `Rendering.Convert…` lemmas.
- `ContainsSupertype` is covered by `SupertypePathIsFound` and `FoundSupertypeHasPath`.
- `Candidate` and `ScanProperties` are covered by the `Matching` candidate and scan lemmas.
- `ExtensionMapperFunction` and `MappingFunction` are covered by the `MappingFunction…` lemmas.
- `Visited` is covered by `VisitedFile` and `NoFileWithoutArgumentClasses`.
- `ProcessSymbol` and `ProcessAll` are covered by the `Processor` lemmas.
- `ToBoolean` and `FromOptions` are covered by the `Configuration` lemmas.

| member | source | states |
|---|---|---|
| Extensions.CompareByDeclarationIffSameNames | kconmapper-plugin/src/main/kotlin/de/yanneckreiss/kconmapper/processor/Extensions.kt:11-26 | for dot-free simple names, a type compares equal to a declaration exactly when its declaration has the same package and `getName` gives both the same name |
| Extensions.CompareByQualifiedNameIsEquivalence | kconmapper-plugin/src/main/kotlin/de/yanneckreiss/kconmapper/processor/Extensions.kt:22-26 | the qualified-name comparison is reflexive, symmetric and transitive |
| Extensions.CompareIgnoresEnclosingClasses | kconmapper-plugin/src/main/kotlin/de/yanneckreiss/kconmapper/processor/Extensions.kt:23-24 | declarations that differ only in their enclosing classes or origin compare equal |
| Extensions.CompareByQualifiedNameIffSameNames | kconmapper-plugin/src/main/kotlin/de/yanneckreiss/kconmapper/processor/Extensions.kt:22-26 | for simple names without dots, two declarations compare equal exactly when package and simple name are equal |
| Extensions.DottedSimpleNameCollides | kconmapper-plugin/src/main/kotlin/de/yanneckreiss/kconmapper/processor/Extensions.kt:23-25 | the joined string is ambiguous: package `a.b` with class `C` equals package `a` with simple name `b.C` |
| Extensions.MarkedNullableAsString | kconmapper-plugin/src/main/kotlin/de/yanneckreiss/kconmapper/processor/Extensions.kt:28 | the mark is `?` exactly when the type is nullable, and empty otherwise |
| Extensions.LogAndThrowError | kconmapper-plugin/src/main/kotlin/de/yanneckreiss/kconmapper/processor/Extensions.kt:14-18 | logs exactly one error naming the class and always throws with the same message |
| Seqs.Insert | kconmapper-ksp/src/main/kotlin/de/yanneckreiss/kconmapper/processor/visitor/PackageImports.kt:14-16 | adding to an insertion-ordered set keeps the old entries as a prefix, adds exactly the new element, and keeps the set free of duplicates |
| Seqs.InsertIdempotent | kconmapper-ksp/src/main/kotlin/de/yanneckreiss/kconmapper/processor/visitor/PackageImports.kt:14-16 | adding the same pair twice is the same as adding it once |
| Seqs.InsertAll | kconmapper-ksp/src/main/kotlin/de/yanneckreiss/kconmapper/processor/generator/MappingFunctionGenerator.kt:44 | adding a list to a set yields exactly the union, keeps the old entries as a prefix and introduces no duplicate |
| Seqs.InsertAllAppend | kconmapper-ksp/src/main/kotlin/de/yanneckreiss/kconmapper/processor/generator/MappingFunctionGenerator.kt:44 | adding two lists one after the other is adding their concatenation |
| Imports.TypeParamNames | kconmapper-ksp/src/main/kotlin/de/yanneckreiss/kconmapper/processor/visitor/PackageImports.kt:28 | the names list has one entry per type parameter, in order |
| Imports.ImportOfTypeIdentifiesDeclaration | kconmapper-ksp/src/main/kotlin/de/yanneckreiss/kconmapper/processor/visitor/PackageImports.kt:18-24 | two types add the same import pair exactly when `compareByDeclaration` identifies them, so the set keeps one entry per compared name |
| Imports.LinePieces | kconmapper-ksp/src/main/kotlin/de/yanneckreiss/kconmapper/processor/visitor/PackageImports.kt:30-38 | entry i contributes nothing when its class name is a type-parameter name, otherwise the line `import pkg.Class` |
| Imports.FormatStep | kconmapper-ksp/src/main/kotlin/de/yanneckreiss/kconmapper/processor/visitor/PackageImports.kt:30-42 | one loop iteration appends the entry's line, and the blank line only after the last entry when that entry is kept |
| Imports.KeptEntries | kconmapper-ksp/src/main/kotlin/de/yanneckreiss/kconmapper/processor/visitor/PackageImports.kt:28-35 | the kept entries are exactly the stored entries whose class name is not excluded, in their stored order |
| Imports.FormattedImportsAreKeptLines | kconmapper-ksp/src/main/kotlin/de/yanneckreiss/kconmapper/processor/visitor/PackageImports.kt:26-45 | apart from the final blank line, the text is one import line per kept entry, in insertion order |
| Imports.NothingExcludedWritesEveryEntry | kconmapper-ksp/src/main/kotlin/de/yanneckreiss/kconmapper/processor/visitor/PackageImports.kt:26-45 | with no type parameters, every entry is written and a blank line follows |
| Imports.KeptAllWhenNothingExcluded | kconmapper-ksp/src/main/kotlin/de/yanneckreiss/kconmapper/processor/visitor/PackageImports.kt:35 | with nothing excluded, every entry is kept |
| Imports.ExcludedLastEntryWritesNoBlankLine | kconmapper-ksp/src/main/kotlin/de/yanneckreiss/kconmapper/processor/visitor/PackageImports.kt:39-41 | when the last entry is a type-parameter name, no blank line is written after the imports |
| Imports.PackageImports.constructor | kconmapper-ksp/src/main/kotlin/de/yanneckreiss/kconmapper/processor/visitor/PackageImports.kt:10-12 | a new instance has no imports and no target type parameters |
| Imports.PackageImports.AddImport | kconmapper-ksp/src/main/kotlin/de/yanneckreiss/kconmapper/processor/visitor/PackageImports.kt:14-16 | the pair is added to the import set; the type parameters are unchanged |
| Imports.PackageImports.AddImportOfType | kconmapper-ksp/src/main/kotlin/de/yanneckreiss/kconmapper/processor/visitor/PackageImports.kt:18-24 | the type's (declaration package, simple name) pair is added; the type parameters are unchanged |
| Imports.PackageImports.AddTargetClassTypeParameters | kconmapper-ksp/src/main/kotlin/de/yanneckreiss/kconmapper/processor/generator/MappingFunctionGenerator.kt:44 | the type parameters are added to the stored set; the imports are unchanged |
| Imports.PackageImports.AsFormattedImports | kconmapper-ksp/src/main/kotlin/de/yanneckreiss/kconmapper/processor/visitor/PackageImports.kt:26-45 | the returned text is the formatted imports with the type-parameter names excluded |
| TypeCheck.Matches | kconmapper-ksp/src/main/kotlin/de/yanneckreiss/kconmapper/processor/generator/MappingFunctionGenerator.kt:404-419 | true exactly when both argument lists are empty or both are non-empty |
| TypeCheck.MatchesIsSymmetricAndIgnoresContents | kconmapper-ksp/src/main/kotlin/de/yanneckreiss/kconmapper/processor/generator/MappingFunctionGenerator.kt:404-406 | `matches` is symmetric and depends only on the list lengths |
| TypeCheck.EvaluateKSTypeAssignable | kconmapper-ksp/src/main/kotlin/de/yanneckreiss/kconmapper/processor/generator/MappingFunctionGenerator.kt:394-402 | assignable exactly when not (nullable source and non-null target) and (generic, or same qualified declaration and matching argument lists) |
| TypeCheck.AssignableKeepsNullSafety | kconmapper-ksp/src/main/kotlin/de/yanneckreiss/kconmapper/processor/generator/MappingFunctionGenerator.kt:399 | an accepted assignment from a nullable source always has a nullable target |
| TypeCheck.GenericModeChecksOnlyNullability | kconmapper-ksp/src/main/kotlin/de/yanneckreiss/kconmapper/processor/generator/MappingFunctionGenerator.kt:399-401 | in generic mode only nullability decides |
| TypeCheck.SupertypePathIsFound | kconmapper-ksp/src/main/kotlin/de/yanneckreiss/kconmapper/processor/generator/MappingFunctionGenerator.kt:343-351 | every chain of declared supertypes that ends at the searched declaration is found |
| TypeCheck.FoundSupertypeHasPath | kconmapper-ksp/src/main/kotlin/de/yanneckreiss/kconmapper/processor/generator/MappingFunctionGenerator.kt:343-351 | whatever the search finds lies at the end of a chain of declared supertypes |
| TypeCheck.UnresolvableDeclarationHasNoSupertype | kconmapper-ksp/src/main/kotlin/de/yanneckreiss/kconmapper/processor/generator/MappingFunctionGenerator.kt:344-345 | a declaration the resolver cannot look up has no supertypes |
| Matching.Aliases | kconmapper-ksp/src/main/kotlin/de/yanneckreiss/kconmapper/processor/generator/MappingFunctionGenerator.kt:264-267 | aliases are the first argument of a `KConMapperProperty` annotation on the property, and there are none when no annotation has that name |
| Matching.AliasesIsFirst | kconmapper-ksp/src/main/kotlin/de/yanneckreiss/kconmapper/processor/generator/MappingFunctionGenerator.kt:264-267 | the aliases come from the first `KConMapperProperty` annotation, whatever later ones carry |
| Matching.ReferencedTypeParameter | kconmapper-ksp/src/main/kotlin/de/yanneckreiss/kconmapper/processor/generator/MappingFunctionGenerator.kt:274-276 | finds a target type parameter named like the parameter's type, and finds none only when no such parameter exists |
| Matching.ExtractMatchingAndMissing | kconmapper-ksp/src/main/kotlin/de/yanneckreiss/kconmapper/processor/generator/MappingFunctionGenerator.kt:254 | a target without a primary constructor gives empty matched and missing lists and no warnings |
| Matching.CandidateIffNameMatches | kconmapper-ksp/src/main/kotlin/de/yanneckreiss/kconmapper/processor/generator/MappingFunctionGenerator.kt:271 | a property is a candidate exactly when its name or one of its aliases is the parameter name |
| Matching.AcceptedMatchShape | kconmapper-ksp/src/main/kotlin/de/yanneckreiss/kconmapper/processor/generator/MappingFunctionGenerator.kt:284-314 | an accepted match names the parameter and the property, respects nullability, and records a cast type exactly when the parameter's type is a target type parameter |
| Matching.NonGenericMatchNeedsSameDeclaration | kconmapper-ksp/src/main/kotlin/de/yanneckreiss/kconmapper/processor/generator/MappingFunctionGenerator.kt:302-314 | a non-generic match needs the same qualified declaration and matching argument lists, and records no cast |
| Matching.GenericBoundMatchCastsToBound | kconmapper-ksp/src/main/kotlin/de/yanneckreiss/kconmapper/processor/generator/MappingFunctionGenerator.kt:284-301 | when the first bound is a transitive supertype of the property's class and nullability allows it, the match casts to the bound's simple name plus `?` for a nullable target, and imports the bound when it is declared in source |
| Matching.RejectedCandidateWarnsOnce | kconmapper-ksp/src/main/kotlin/de/yanneckreiss/kconmapper/processor/generator/MappingFunctionGenerator.kt:315-322 | a candidate that fails both type checks yields exactly one mismatch warning |
| Matching.AssignableMonotoneInGenericity | kconmapper-ksp/src/main/kotlin/de/yanneckreiss/kconmapper/processor/generator/MappingFunctionGenerator.kt:394-402 | whatever is assignable in non-generic mode is assignable in generic mode |
| Matching.Verdicts | kconmapper-ksp/src/main/kotlin/de/yanneckreiss/kconmapper/processor/generator/MappingFunctionGenerator.kt:260-324 | the verdict list has one verdict per source property, in property order |
| Matching.LastAcceptedIsLast | kconmapper-ksp/src/main/kotlin/de/yanneckreiss/kconmapper/processor/generator/MappingFunctionGenerator.kt:260-324 | the last accepted verdict is the result and no later verdict is accepted; there is none exactly when no verdict is accepted |
| Matching.ScanMatchIsLastAccepted | kconmapper-ksp/src/main/kotlin/de/yanneckreiss/kconmapper/processor/generator/MappingFunctionGenerator.kt:260-324 | the scan over the properties keeps the last accepted candidate |
| Matching.LastAcceptedCandidateWins | kconmapper-ksp/src/main/kotlin/de/yanneckreiss/kconmapper/processor/generator/MappingFunctionGenerator.kt:284-314 | a match found by the scan is the argument of an accepted candidate after which no candidate is accepted |
| Matching.NoMatchIffNoneAccepted | kconmapper-ksp/src/main/kotlin/de/yanneckreiss/kconmapper/processor/generator/MappingFunctionGenerator.kt:260-326 | the scan finds no match exactly when no property is an accepted candidate |
| Matching.ScanMatchingStep | kconmapper-ksp/src/main/kotlin/de/yanneckreiss/kconmapper/processor/generator/MappingFunctionGenerator.kt:260-324 | each accepted candidate overwrites the current match, and any other candidate leaves it as it was |
| Matching.RejectedCountSnoc | kconmapper-ksp/src/main/kotlin/de/yanneckreiss/kconmapper/processor/generator/MappingFunctionGenerator.kt:315-322 | the count of rejected candidates grows by one exactly for a rejected property |
| Matching.OneWarningPerRejectedCandidate | kconmapper-ksp/src/main/kotlin/de/yanneckreiss/kconmapper/processor/generator/MappingFunctionGenerator.kt:315-322 | the scan logs as many warnings as there are rejected candidates |
| Matching.ScanMatchNamesParameter | kconmapper-ksp/src/main/kotlin/de/yanneckreiss/kconmapper/processor/generator/MappingFunctionGenerator.kt:260-324 | a match found for a parameter carries that parameter's name |
| Matching.ExtractStep | kconmapper-ksp/src/main/kotlin/de/yanneckreiss/kconmapper/processor/generator/MappingFunctionGenerator.kt:254-333 | each parameter appends its match to the matched list, or appends itself to the missing list when it has no match and no default |
| Matching.MissingKeepsOrder | kconmapper-ksp/src/main/kotlin/de/yanneckreiss/kconmapper/processor/generator/MappingFunctionGenerator.kt:328-330 | the missing list is a subsequence of the constructor parameters |
| Matching.MatchedKeepsOrder | kconmapper-ksp/src/main/kotlin/de/yanneckreiss/kconmapper/processor/generator/MappingFunctionGenerator.kt:326-327 | the matched names are a subsequence of the parameter names |
| Matching.FatesPartitionParameters | kconmapper-ksp/src/main/kotlin/de/yanneckreiss/kconmapper/processor/generator/MappingFunctionGenerator.kt:326-332 | matched, missing and dropped parameters add up to all parameters |
| Matching.FatesAreRecorded | kconmapper-ksp/src/main/kotlin/de/yanneckreiss/kconmapper/processor/generator/MappingFunctionGenerator.kt:326-332 | every matched parameter's argument is in the matched list, and every missing parameter is in the missing list |
| Matching.RecordedEntriesHaveTheirFate | kconmapper-ksp/src/main/kotlin/de/yanneckreiss/kconmapper/processor/generator/MappingFunctionGenerator.kt:326-332 | every entry of either list comes from a parameter with that fate |
| Matching.DroppedParameterIsInNeitherList | kconmapper-ksp/src/main/kotlin/de/yanneckreiss/kconmapper/processor/generator/MappingFunctionGenerator.kt:328 | with distinct parameter names, an unmatched parameter with a default is in neither list |
| Matching.ScanSourceProperties | kconmapper-ksp/src/main/kotlin/de/yanneckreiss/kconmapper/processor/generator/MappingFunctionGenerator.kt:258-324 | the inner loop's match, warnings and imports are those of the specified scan |
| Matching.ExtractMatchingAndMissingConstructorArguments | kconmapper-ksp/src/main/kotlin/de/yanneckreiss/kconmapper/processor/generator/MappingFunctionGenerator.kt:242-336 | the missing and matched lists, the warnings and the imports are those of the specification |
| Rendering.GetArgumentDeclarationLineEnding | kconmapper-ksp/src/main/kotlin/de/yanneckreiss/kconmapper/processor/generator/MappingFunctionGenerator.kt:443 | empty exactly when no line follows; otherwise a comma, followed by a space exactly when asked |
| Rendering.RenderedArguments | kconmapper-ksp/src/main/kotlin/de/yanneckreiss/kconmapper/processor/generator/MappingFunctionGenerator.kt:353-387 | one rendering per type argument from the given index on |
| Rendering.ConvertRendersResolvedArguments | kconmapper-ksp/src/main/kotlin/de/yanneckreiss/kconmapper/processor/generator/MappingFunctionGenerator.kt:353-387 | on fully resolved types the generator writes the arguments between diamonds, joined by `, `, recursively |
| Rendering.ConvertRendersRemainingArguments | kconmapper-ksp/src/main/kotlin/de/yanneckreiss/kconmapper/processor/generator/MappingFunctionGenerator.kt:371-386 | from any index, the rest of the arguments are written joined by `, ` and the diamond is closed |
| Rendering.ConvertStep | kconmapper-ksp/src/main/kotlin/de/yanneckreiss/kconmapper/processor/generator/MappingFunctionGenerator.kt:361-386 | one step of the recursion on a resolved argument |
| Rendering.ConvertRendersResolvedType | kconmapper-ksp/src/main/kotlin/de/yanneckreiss/kconmapper/processor/generator/MappingFunctionGenerator.kt:353-387 | a fully resolved type is written as its simple name with its nested arguments |
| Rendering.ConvertExtendsTypeText | kconmapper-ksp/src/main/kotlin/de/yanneckreiss/kconmapper/processor/generator/MappingFunctionGenerator.kt:353-387 | the text passed in is always kept as a prefix |
| Rendering.AbsentArgumentAfterSeparatorLeavesDiamondOpen | kconmapper-ksp/src/main/kotlin/de/yanneckreiss/kconmapper/processor/generator/MappingFunctionGenerator.kt:359-379 | a star or unresolved argument after a separator ends the text, leaving the diamond open |
| Rendering.StarAfterStringLeavesDiamondOpen | kconmapper-ksp/src/main/kotlin/de/yanneckreiss/kconmapper/processor/generator/MappingFunctionGenerator.kt:353-387 | `Pair<String, *>` nested inside a declaration is written as `Pair<String, ` |
| Rendering.NestedNullabilityIsDropped | kconmapper-ksp/src/main/kotlin/de/yanneckreiss/kconmapper/processor/generator/MappingFunctionGenerator.kt:366-367 | a nested `List<String?>` is written `List<String>` |
| GeneratorSpec.ExtensionFunctionNameParts | kconmapper-ksp/src/main/kotlin/de/yanneckreiss/kconmapper/processor/generator/MappingFunctionGenerator.kt:421-441 | the name is the source name, then `<Bound>` for the first bound of the first type parameter, `<>` when it has none, nothing for a non-generic source, then `.to` and the target name; the only import is that bound |
| GeneratorSpec.ArgumentTypes | kconmapper-ksp/src/main/kotlin/de/yanneckreiss/kconmapper/processor/generator/MappingFunctionGenerator.kt:196-211 | resolving the arguments fails exactly when one is non-star without a type |
| GeneratorSpec.ArgumentTypesMapsEachArgument | kconmapper-ksp/src/main/kotlin/de/yanneckreiss/kconmapper/processor/generator/MappingFunctionGenerator.kt:196-204 | a star becomes `Asterix` and a resolved argument becomes `ArgumentClass`, position by position |
| GeneratorSpec.LineEndingWithoutSpace | kconmapper-ksp/src/main/kotlin/de/yanneckreiss/kconmapper/processor/generator/MappingFunctionGenerator.kt:443 | without `addSpace` the ending is `,` or nothing |
| GeneratorSpec.MarkedRenderings | kconmapper-ksp/src/main/kotlin/de/yanneckreiss/kconmapper/processor/generator/MappingFunctionGenerator.kt:217-229 | each argument is rendered with its nested arguments and its own `?` mark |
| GeneratorSpec.DeclarationOfResolvedParameter | kconmapper-ksp/src/main/kotlin/de/yanneckreiss/kconmapper/processor/generator/MappingFunctionGenerator.kt:213-237 | a missing parameter with resolved arguments is declared as `\tname: Type<args>?` followed by `,` unless last, and a newline |
| GeneratorSpec.MissingArgumentDeclarationFails | kconmapper-ksp/src/main/kotlin/de/yanneckreiss/kconmapper/processor/generator/MappingFunctionGenerator.kt:196-211 | declaring a missing parameter fails exactly when one of its type arguments is unresolved, with the message naming the parameter |
| GeneratorSpec.AnyUnresolvedIffSome | kconmapper-ksp/src/main/kotlin/de/yanneckreiss/kconmapper/processor/generator/MappingFunctionGenerator.kt:120-127 | a recursive check for an unresolved parameter agrees with the existential one |
| GeneratorSpec.DeclarationsFailIffUnresolved | kconmapper-ksp/src/main/kotlin/de/yanneckreiss/kconmapper/processor/generator/MappingFunctionGenerator.kt:120-127 | the declarations fail exactly when some missing parameter has an unresolved argument |
| GeneratorSpec.DeclarationsFailIffAnyUnresolved | kconmapper-ksp/src/main/kotlin/de/yanneckreiss/kconmapper/processor/generator/MappingFunctionGenerator.kt:120-127 | the same, stated with the recursive check |
| GeneratorSpec.DeclarationsFailOnFirstUnresolved | kconmapper-ksp/src/main/kotlin/de/yanneckreiss/kconmapper/processor/generator/MappingFunctionGenerator.kt:120-127 | the exception names the first missing parameter with an unresolved argument |
| GeneratorSpec.DeclarationsSucceedWhenResolved | kconmapper-ksp/src/main/kotlin/de/yanneckreiss/kconmapper/processor/generator/MappingFunctionGenerator.kt:120-127 | with every argument resolved the declarations succeed |
| GeneratorSpec.DeclarationsStep | kconmapper-ksp/src/main/kotlin/de/yanneckreiss/kconmapper/processor/generator/MappingFunctionGenerator.kt:120-127 | after a failure nothing changes; otherwise the next parameter fails exactly when it is unresolved |
| GeneratorSpec.TypeParameterDeclarations | kconmapper-ksp/src/main/kotlin/de/yanneckreiss/kconmapper/processor/generator/MappingFunctionGenerator.kt:102-114 | one declaration per target type parameter, in order |
| GeneratorSpec.HeadWithInputsListIsJoined | kconmapper-ksp/src/main/kotlin/de/yanneckreiss/kconmapper/processor/generator/MappingFunctionGenerator.kt:99-118 | with missing parameters and a generic target, the head is `fun <T: Bound, ...> name(` with the declarations joined by `, ` |
| GeneratorSpec.HeadWithoutInputsListIsJoined | kconmapper-ksp/src/main/kotlin/de/yanneckreiss/kconmapper/processor/generator/MappingFunctionGenerator.kt:131-155 | with no missing parameters and a generic target, the head is `fun <T, ...> name() = Target(`, with no bounds printed |
| GeneratorSpec.MatchedAssignmentAlwaysEndsWithComma | kconmapper-ksp/src/main/kotlin/de/yanneckreiss/kconmapper/processor/generator/MappingFunctionGenerator.kt:160 | the condition for a matched line's comma is always true |
| GeneratorSpec.MatchedLines | kconmapper-ksp/src/main/kotlin/de/yanneckreiss/kconmapper/processor/generator/MappingFunctionGenerator.kt:159-169 | one assignment line per matched argument, in order |
| GeneratorSpec.PassThroughLines | kconmapper-ksp/src/main/kotlin/de/yanneckreiss/kconmapper/processor/generator/MappingFunctionGenerator.kt:172-175 | one pass-through line per missing parameter, in order |
| GeneratorSpec.PassThroughLinesAreJoined | kconmapper-ksp/src/main/kotlin/de/yanneckreiss/kconmapper/processor/generator/MappingFunctionGenerator.kt:172-175 | the pass-through lines are `\tp = p` joined by `,` and newlines, ending in a newline |
| GeneratorSpec.CommaLines | kconmapper-ksp/src/main/kotlin/de/yanneckreiss/kconmapper/processor/generator/MappingFunctionGenerator.kt:172-175 | each line ends in `,` and a newline except the last, which ends in a newline |
| GeneratorSpec.CommaLinesJoin | kconmapper-ksp/src/main/kotlin/de/yanneckreiss/kconmapper/processor/generator/MappingFunctionGenerator.kt:172-175 | the comma-terminated lines are the items joined by `,` and newlines, plus a final newline |
| GeneratorSpec.NoMatchingArgumentsWarningIff | kconmapper-ksp/src/main/kotlin/de/yanneckreiss/kconmapper/processor/generator/MappingFunctionGenerator.kt:87-97 | the no-matching-arguments warning is logged exactly when some parameters are missing and none is matched |
| GeneratorSpec.ExtractionWarningsAreMismatches | kconmapper-ksp/src/main/kotlin/de/yanneckreiss/kconmapper/processor/generator/MappingFunctionGenerator.kt:315-322 | every warning of the partition is a type-mismatch warning |
| GeneratorSpec.ExtractWarningsAreMismatches | kconmapper-ksp/src/main/kotlin/de/yanneckreiss/kconmapper/processor/generator/MappingFunctionGenerator.kt:315-322 | the same, over any list of parameters |
| GeneratorSpec.ScanWarningsAreMismatches | kconmapper-ksp/src/main/kotlin/de/yanneckreiss/kconmapper/processor/generator/MappingFunctionGenerator.kt:315-322 | the same, for one parameter's scan |
| GeneratorSpec.DeclarationDiagnosticsAreErrors | kconmapper-ksp/src/main/kotlin/de/yanneckreiss/kconmapper/processor/generator/MappingFunctionGenerator.kt:205-208 | declaring missing parameters logs only errors |
| GeneratorSpec.MappingFunctionImports | kconmapper-ksp/src/main/kotlin/de/yanneckreiss/kconmapper/processor/generator/MappingFunctionGenerator.kt:47-50 | the target and source classes are imported, and so is the type of every missing parameter when generation succeeds |
| GeneratorSpec.DeclarationsImportParameterTypes | kconmapper-ksp/src/main/kotlin/de/yanneckreiss/kconmapper/processor/generator/MappingFunctionGenerator.kt:193 | each declared missing parameter's type is imported |
| GeneratorSpec.MappingFunctionFailsIffUnresolved | kconmapper-ksp/src/main/kotlin/de/yanneckreiss/kconmapper/processor/generator/MappingFunctionGenerator.kt:34-60 | generation fails exactly when a missing parameter has an unresolved type argument |
| GeneratorSpec.MappingFunctionShape | kconmapper-ksp/src/main/kotlin/de/yanneckreiss/kconmapper/processor/generator/MappingFunctionGenerator.kt:87-177 | the function text starts with the head for its case and ends with `)` and a blank line |
| GeneratorSpec.MappingFunctionParts | kconmapper-ksp/src/main/kotlin/de/yanneckreiss/kconmapper/processor/generator/MappingFunctionGenerator.kt:87-177 | the function text is the head, then the declarations and the call opening, then the constructor call |
| GeneratorSpec.ConstructorCallCloses | kconmapper-ksp/src/main/kotlin/de/yanneckreiss/kconmapper/processor/generator/MappingFunctionGenerator.kt:177 | the constructor call ends with `)` and a blank line |
| Generator.GenerateExtensionFunctionName | kconmapper-ksp/src/main/kotlin/de/yanneckreiss/kconmapper/processor/generator/MappingFunctionGenerator.kt:421-441 | returns the specified name and adds the specified import |
| Generator.BoundedTypeParameterList | kconmapper-ksp/src/main/kotlin/de/yanneckreiss/kconmapper/processor/generator/MappingFunctionGenerator.kt:101-114 | writes the declarations separated by `, ` and imports the first bound of each type parameter |
| Generator.SeparatorStep | kconmapper-ksp/src/main/kotlin/de/yanneckreiss/kconmapper/processor/generator/MappingFunctionGenerator.kt:103 | with `addSpace`, the separator is `, ` or nothing |
| Generator.TypeParameterNameList | kconmapper-ksp/src/main/kotlin/de/yanneckreiss/kconmapper/processor/generator/MappingFunctionGenerator.kt:135-139 | writes the type-parameter names separated by `, ` |
| Generator.ConvertMissingConstructorArgumentToDeclarationText | kconmapper-ksp/src/main/kotlin/de/yanneckreiss/kconmapper/processor/generator/MappingFunctionGenerator.kt:182-240 | returns the specified declaration or failure, logs its diagnostics and adds its imports |
| Generator.ArgumentTypeList | kconmapper-ksp/src/main/kotlin/de/yanneckreiss/kconmapper/processor/generator/MappingFunctionGenerator.kt:215-232 | writes the argument texts separated by `, ` and imports each resolved argument |
| Generator.AppendArgumentType | kconmapper-ksp/src/main/kotlin/de/yanneckreiss/kconmapper/processor/generator/MappingFunctionGenerator.kt:218-229 | appends one argument's text and separator and imports it when resolved |
| Generator.MissingArgumentDeclarations | kconmapper-ksp/src/main/kotlin/de/yanneckreiss/kconmapper/processor/generator/MappingFunctionGenerator.kt:120-127 | the loop over missing parameters yields the specified declarations, diagnostics and imports, stopping at the first failure |
| Generator.DeclarationsNext | kconmapper-ksp/src/main/kotlin/de/yanneckreiss/kconmapper/processor/generator/MappingFunctionGenerator.kt:120-127 | one more missing parameter extends the declarations by its declaration |
| Generator.DeclarationsStayFailed | kconmapper-ksp/src/main/kotlin/de/yanneckreiss/kconmapper/processor/generator/MappingFunctionGenerator.kt:120-127 | once a declaration fails, the later parameters change nothing |
| Generator.MatchedAssignments | kconmapper-ksp/src/main/kotlin/de/yanneckreiss/kconmapper/processor/generator/MappingFunctionGenerator.kt:159-169 | the loop writes exactly the matched lines |
| Generator.PassThroughAssignments | kconmapper-ksp/src/main/kotlin/de/yanneckreiss/kconmapper/processor/generator/MappingFunctionGenerator.kt:172-175 | the loop writes exactly the pass-through lines |
| Generator.HeadWithInputsText | kconmapper-ksp/src/main/kotlin/de/yanneckreiss/kconmapper/processor/generator/MappingFunctionGenerator.kt:99-118 | writes the head used with missing parameters and imports the bounds and the name's bound |
| Generator.HeadWithoutInputsText | kconmapper-ksp/src/main/kotlin/de/yanneckreiss/kconmapper/processor/generator/MappingFunctionGenerator.kt:131-156 | writes the head used without missing parameters and imports only the name's bound |
| Generator.ConstructorCallText | kconmapper-ksp/src/main/kotlin/de/yanneckreiss/kconmapper/processor/generator/MappingFunctionGenerator.kt:158-177 | writes the specified constructor call |
| Generator.GenerateExtensionMapperFunctionForSourceClass | kconmapper-ksp/src/main/kotlin/de/yanneckreiss/kconmapper/processor/generator/MappingFunctionGenerator.kt:62-180 | returns the specified text or failure, its diagnostics and imports |
| Generator.GenerateMappingFunction | kconmapper-ksp/src/main/kotlin/de/yanneckreiss/kconmapper/processor/generator/MappingFunctionGenerator.kt:34-60 | returns the specified outcome, adds its imports and adds the target's type parameters to the shared set |
| VisitorSpec.FindAnnotation | kconmapper-ksp/src/main/kotlin/de/yanneckreiss/kconmapper/processor/visitor/KCMVisitor.kt:120-121 | finds an annotation with the short name, and finds none only when no annotation has it |
| VisitorSpec.FindAnnotationIsFirst | kconmapper-ksp/src/main/kotlin/de/yanneckreiss/kconmapper/processor/visitor/KCMVisitor.kt:120-121 | `first` returns the annotation at the first position carrying the name |
| VisitorSpec.FindArgument | kconmapper-ksp/src/main/kotlin/de/yanneckreiss/kconmapper/processor/visitor/KCMVisitor.kt:124-126 | finds an argument with the name, and finds none only when no argument has it |
| VisitorSpec.ExtractKCMAnnotation | kconmapper-ksp/src/main/kotlin/de/yanneckreiss/kconmapper/processor/visitor/KCMVisitor.kt:117-135 | returns the found `KConMapper` annotation exactly when it has a `fromClasses` argument; without the annotation, `first` throws; without the argument, one error naming the class is logged and thrown |
| VisitorSpec.ExtractKCMAnnotationReadsFirstAnnotation | kconmapper-ksp/src/main/kotlin/de/yanneckreiss/kconmapper/processor/visitor/KCMVisitor.kt:117-135 | only the first `KConMapper` annotation is consulted: it is returned when it has `fromClasses`, else the missing-argument error is logged and thrown |
| VisitorSpec.ExtractArgumentClasses | kconmapper-ksp/src/main/kotlin/de/yanneckreiss/kconmapper/processor/visitor/KCMVisitor.kt:138-145 | an absent argument gives no classes |
| VisitorSpec.ResolvedClassesAreTheKnownOnes | kconmapper-ksp/src/main/kotlin/de/yanneckreiss/kconmapper/processor/visitor/KCMVisitor.kt:143 | the classes are exactly the argument types the resolver knows; unresolvable ones are dropped and nothing is added |
| VisitorSpec.FromSteps | kconmapper-ksp/src/main/kotlin/de/yanneckreiss/kconmapper/processor/visitor/KCMVisitor.kt:63-72 | one generator call per `fromClasses` entry, each targeting the annotated class |
| VisitorSpec.ToSteps | kconmapper-ksp/src/main/kotlin/de/yanneckreiss/kconmapper/processor/visitor/KCMVisitor.kt:74-83 | one generator call per `toClasses` entry, each targeting that class |
| VisitorSpec.FunctionTexts | kconmapper-ksp/src/main/kotlin/de/yanneckreiss/kconmapper/processor/visitor/KCMVisitor.kt:63-83 | one function text per successful call |
| VisitorSpec.RunStaysFailed | kconmapper-ksp/src/main/kotlin/de/yanneckreiss/kconmapper/processor/visitor/KCMVisitor.kt:63-83 | after an exception the remaining calls change nothing |
| VisitorSpec.RunConcatenatesFunctions | kconmapper-ksp/src/main/kotlin/de/yanneckreiss/kconmapper/processor/visitor/KCMVisitor.kt:60-83 | a run without exception is one where every call succeeded, and its text is their concatenation in order |
| VisitorSpec.RunSplits | kconmapper-ksp/src/main/kotlin/de/yanneckreiss/kconmapper/processor/visitor/KCMVisitor.kt:63-83 | a run over a list is the run over its tail started from the run over its head |
| VisitorSpec.RunStopsAtFirstFailure | kconmapper-ksp/src/main/kotlin/de/yanneckreiss/kconmapper/processor/visitor/KCMVisitor.kt:63-83 | the first failing call ends the run with its exception |
| VisitorSpec.RunTypeParameters | kconmapper-ksp/src/main/kotlin/de/yanneckreiss/kconmapper/processor/generator/MappingFunctionGenerator.kt:44 | the shared type-parameter set is non-empty exactly when some target so far was generic |
| VisitorSpec.InsertAllIsEmpty | kconmapper-ksp/src/main/kotlin/de/yanneckreiss/kconmapper/processor/generator/MappingFunctionGenerator.kt:44 | a set built by insertion is non-empty exactly when something was inserted |
| VisitorSpec.NoFileWithoutArgumentClasses | kconmapper-ksp/src/main/kotlin/de/yanneckreiss/kconmapper/processor/visitor/KCMVisitor.kt:50-53 | no file is written, without exception, exactly when both class lists are empty, and then exactly one warning is logged |
| VisitorSpec.VisitedFile | kconmapper-ksp/src/main/kotlin/de/yanneckreiss/kconmapper/processor/visitor/KCMVisitor.kt:85-90 | a written file is named after the annotated class, lies in the generated package and holds the run's type parameters, imports and functions |
| VisitorSpec.GeneratedFunctionsInOrder | kconmapper-ksp/src/main/kotlin/de/yanneckreiss/kconmapper/processor/visitor/KCMVisitor.kt:63-83 | the `fromClasses` functions come before the `toClasses` functions, each in declared order |
| VisitorSpec.GeneratedTypeParameters | kconmapper-ksp/src/main/kotlin/de/yanneckreiss/kconmapper/processor/visitor/KCMVisitor.kt:110 | the shared type-parameter set is non-empty exactly when some target class is generic |
| VisitorSpec.SuppressionHeaderIffTypeParameters | kconmapper-ksp/src/main/kotlin/de/yanneckreiss/kconmapper/processor/visitor/KCMVisitor.kt:110 | the file starts with the unchecked-cast suppression exactly when there are type parameters |
| VisitorSpec.GeneratedFileLayout | kconmapper-ksp/src/main/kotlin/de/yanneckreiss/kconmapper/processor/visitor/KCMVisitor.kt:97-115 | file name, package, suppression line exactly for generic targets, package line, imports, then `fromClasses` then `toClasses` functions |
| VisitorSpec.GenericTargets | kconmapper-ksp/src/main/kotlin/de/yanneckreiss/kconmapper/processor/visitor/KCMVisitor.kt:63-83 | some step is generic exactly when some target class is generic |
| VisitorSpec.GenericTargetsOfClasses | kconmapper-ksp/src/main/kotlin/de/yanneckreiss/kconmapper/processor/visitor/KCMVisitor.kt:63-83 | some target is generic exactly when the annotated class is generic and has a `fromClasses` entry, or some `toClasses` class is generic |
| Visitor.RunNext | kconmapper-ksp/src/main/kotlin/de/yanneckreiss/kconmapper/processor/visitor/KCMVisitor.kt:64-71 | one call appends its text, diagnostics, imports and type parameters to the run |
| Visitor.RunEndsFailed | kconmapper-ksp/src/main/kotlin/de/yanneckreiss/kconmapper/processor/visitor/KCMVisitor.kt:63-83 | a failed run stays as it is |
| Visitor.GenerateFromClasses | kconmapper-ksp/src/main/kotlin/de/yanneckreiss/kconmapper/processor/visitor/KCMVisitor.kt:63-72 | the `fromClasses` loop produces the specified run and shared import set |
| Visitor.GenerateToClasses | kconmapper-ksp/src/main/kotlin/de/yanneckreiss/kconmapper/processor/visitor/KCMVisitor.kt:74-83 | the `toClasses` loop produces the specified run and shared import set |
| Visitor.GenerateCode | kconmapper-ksp/src/main/kotlin/de/yanneckreiss/kconmapper/processor/visitor/KCMVisitor.kt:97-115 | the file's package, name and content are as specified |
| Visitor.VisitClassDeclaration | kconmapper-ksp/src/main/kotlin/de/yanneckreiss/kconmapper/processor/visitor/KCMVisitor.kt:43-91 | the diagnostics and the written file or exception are those of the specified visit |
| Processor.KindName | kconmapper-ksp/src/main/kotlin/de/yanneckreiss/kconmapper/processor/KCMSymbolProcessor.kt:44 | every kind has a non-empty printed name, and `CLASS` is the name of the class kind only |
| Processor.Written | kconmapper-ksp/src/main/kotlin/de/yanneckreiss/kconmapper/processor/KCMSymbolProcessor.kt:49-61 | a visit writes at most one file, and exactly one when it completes with a file |
| Processor.Filtered | kconmapper-ksp/src/main/kotlin/de/yanneckreiss/kconmapper/processor/KCMSymbolProcessor.kt:32-33 | the filter keeps exactly the valid class declarations among the symbols |
| Processor.SkippedSymbolChangesNothing | kconmapper-ksp/src/main/kotlin/de/yanneckreiss/kconmapper/processor/KCMSymbolProcessor.kt:32-33 | a symbol that is not a valid class declaration has no effect |
| Processor.FilterIsTransparent | kconmapper-ksp/src/main/kotlin/de/yanneckreiss/kconmapper/processor/KCMSymbolProcessor.kt:32-34 | filtering first does not change the outcome |
| Processor.UnsupportedKindThrows | kconmapper-ksp/src/main/kotlin/de/yanneckreiss/kconmapper/processor/KCMSymbolProcessor.kt:36-47 | an unsupported kind logs one error naming the class and its kind, writes nothing and throws |
| Processor.SupportedKindIsVisited | kconmapper-ksp/src/main/kotlin/de/yanneckreiss/kconmapper/processor/KCMSymbolProcessor.kt:49-61 | a class is visited: its diagnostics and file are appended and its exception escapes |
| Processor.FailureStopsProcessing | kconmapper-ksp/src/main/kotlin/de/yanneckreiss/kconmapper/processor/KCMSymbolProcessor.kt:34-47 | symbols after an exception are not processed |
| Processor.FirstFailure | kconmapper-ksp/src/main/kotlin/de/yanneckreiss/kconmapper/processor/KCMSymbolProcessor.kt:34-63 | a failed round has a first failing symbol, which is unsupported or whose visit threw, and nothing after it has an effect |
| Processor.FilesComeFromVisits | kconmapper-ksp/src/main/kotlin/de/yanneckreiss/kconmapper/processor/KCMSymbolProcessor.kt:49-61 | every written file comes from the visit of a symbol, at most one per symbol |
| Processor.Process | kconmapper-ksp/src/main/kotlin/de/yanneckreiss/kconmapper/processor/KCMSymbolProcessor.kt:28-66 | the files and diagnostics are those of the specified round; nothing is deferred unless an exception escapes |
| Configuration.LowerAscii | kconmapper-ksp/src/main/kotlin/de/yanneckreiss/kconmapper/processor/common/KConMapperConfiguration.kt:9 | Latin capital letters are lowered, and every other character is unchanged |
| Configuration.ToBooleanIffTrueSpelling | kconmapper-ksp/src/main/kotlin/de/yanneckreiss/kconmapper/processor/common/KConMapperConfiguration.kt:9 | `toBoolean` holds exactly for the sixteen letter-case spellings of `true` |
| Configuration.AbsentOptionDisables | kconmapper-ksp/src/main/kotlin/de/yanneckreiss/kconmapper/processor/common/KConMapperConfiguration.kt:9 | without the option, mismatch warnings are not suppressed |
| Configuration.PresentOptionIsParsed | kconmapper-ksp/src/main/kotlin/de/yanneckreiss/kconmapper/processor/common/KConMapperConfiguration.kt:9 | with the option present, the flag is set exactly when the value spells `true` |
| Configuration.OnlyTheKeyMatters | kconmapper-ksp/src/main/kotlin/de/yanneckreiss/kconmapper/processor/common/KConMapperConfiguration.kt:8-10 | no other option key affects the configuration |
| Configuration.SampleValues | kconmapper-ksp/src/main/kotlin/de/yanneckreiss/kconmapper/processor/common/KConMapperConfiguration.kt:9 | `true` and `TRUE` enable; `false`, `yes` and other keys do not |

## Left out

- The KSP runtime is not modelled: `Resolver`, type resolution, `KSPLogger`, `CodeGenerator.createNewFile` and the output stream. They become, respectively:
  - an immutable type model;
  - a map for `getClassDeclarationByName`;
  - returned diagnostics;
  - a returned `GeneratedFile` value.
- `containingFile` and `Dependencies` for incremental processing are not modelled, because they are build bookkeeping.
- `visitAnnotation` is not modelled, because `process` never reaches it: it hands class declarations to the visitor.
- The mismatch-warning option is not connected to generation. The generator here takes no configuration and warns unconditionally. `KCMVisitor` passes a `configuration` argument that `generateMappingFunction` does not declare. `KCMSymbolProcessorProvider` omits the configuration that `KCMSymbolProcessor` requires. Only the option parser is modelled.
- `KCMSymbolProcessorProvider` is not modelled, because it is factory glue.
- The annotation declarations are not modelled. Aliases are the first argument of a `KConMapperProperty` annotation on a property, as a list of strings.
- The older copies in the plugin module are not modelled. These are `KCMSymbolProcessor`, `MatchingArgument`, `ArgumentType` and `KConMapper`. Extensions are taken from the plugin module, which holds their only definition.
- `toString()` of KSP objects is taken as the simple name. This covers the source class name in messages, `$paramName` in pass-through lines and `$annotatedClass` in the missing-functions warning.
- `toString()` of a bound's type reference is its source text.
- The mismatch warning, which embeds rendered `KType`s, is kept as a record of its parts rather than as text.
- The error message for a missing `fromClasses` argument is modelled word for word. The message of Kotlin's `first` on no match is modelled as a constant.
- Configuration.ToBooleanIffTrueSpelling: the case-insensitive comparison folds only the Latin letters. That is all `"true"` needs.
- The supertype search `containsSupertype` has no visited set. The model assumes an acyclic class hierarchy, which Kotlin guarantees, and the resolver model carries a depth numbering for it.
- `GENERATED_FILE_PATH` is not defined in any of the modelled files. Its value `de.yanneckreiss.kconmapper.generated` is the package the samples import generated functions from.
- `KCMVisitor.kt` line 109 carries a TODO to write the suppression line only when a cast was written. Line 110 writes it whenever some target class is generic. The model follows line 110.
- `KConMapperConfiguration` parses the option that turns mismatch warnings off, but `MappingFunctionGenerator` never receives it and warns unconditionally (`MappingFunctionGenerator.kt` lines 315-322). The model follows the generator.
- The `convertTypeArgumentToString` quirk is modelled as written. A star or unresolved nested argument after a separator leaves the diamond open. `Rendering.StarAfterStringLeavesDiamondOpen` exhibits it.


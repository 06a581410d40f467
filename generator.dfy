/**
 * `MappingFunctionGenerator`: the methods that build one extension function step by step,
 * adding imports to the shared `PackageImports` as they go. Each is proved to produce the
 * text, diagnostics and imports that module `GeneratorSpec` describes.
 */
module Generator {
  import opened Wrappers
  import opened KspModel
  import opened Extensions
  import opened Arguments
  import opened Seqs
  import opened Text
  import opened Imports
  import opened Matching
  import opened Rendering
  import opened GeneratorSpec

  lemma AppendAssociates(t: string, a: string, b: string, c: string)
    ensures t + a + b + c == t + (a + b + c)
  {
  }

  lemma InsertAllSingle<T(!new)>(s: seq<T>, x: T)
    ensures InsertAll(s, [x]) == Insert(s, x)
  {
    assert [x][..0] == [];
  }

  /** `generateExtensionFunctionName`. */
  method GenerateExtensionFunctionName(sourceClass: ClassDecl, targetClass: ClassDecl, packageImports: PackageImports)
    returns (name: string)
    requires packageImports.Valid()
    modifies packageImports
    ensures packageImports.Valid()
    ensures name == ExtensionFunctionName(sourceClass, targetClass).0
    ensures packageImports.imports == InsertAll(old(packageImports.imports), ExtensionFunctionName(sourceClass, targetClass).1)
    ensures packageImports.targetClassTypeParameters == old(packageImports.targetClassTypeParameters)
  {
    var sourceClassName := GetName(sourceClass.decl);
    var targetClassName := GetName(targetClass.decl);
    var sourceClassType := "";
    if |sourceClass.typeParameters| > 0 {
      var upperBound := "";
      if |sourceClass.typeParameters[0].bounds| > 0 {
        var upperBoundType := sourceClass.typeParameters[0].bounds[0].resolved;
        packageImports.AddImportOfType(upperBoundType);
        InsertAllSingle(old(packageImports.imports), ImportOfType(upperBoundType));
        upperBound := TypeName(upperBoundType);
      } else {
        assert DIAMOND_OPERATOR_OPEN + "" == DIAMOND_OPERATOR_OPEN;
      }
      sourceClassType := DIAMOND_OPERATOR_OPEN + upperBound + DIAMOND_OPERATOR_CLOSE;
    }
    name := sourceClassName + sourceClassType + ".to" + targetClassName;
  }

  /** The loop over the target's type parameters in a head with inputs: each with its first
      upper bound, whose type is imported. */
  method BoundedTypeParameterList(targetClassTypeParameters: seq<TypeParam>, packageImports: PackageImports)
    returns (list: string)
    requires packageImports.Valid()
    modifies packageImports
    ensures packageImports.Valid()
    ensures list == Concat(SeparatedPieces(TypeParameterDeclarations(targetClassTypeParameters), ", "))
    ensures packageImports.imports == InsertAll(old(packageImports.imports), BoundImports(targetClassTypeParameters))
    ensures packageImports.targetClassTypeParameters == old(packageImports.targetClassTypeParameters)
  {
    var tps := targetClassTypeParameters;
    ghost var pieces := SeparatedPieces(TypeParameterDeclarations(tps), ", ");
    list := "";
    var index := 0;
    while index < |tps|
      invariant 0 <= index <= |tps|
      invariant packageImports.Valid()
      invariant packageImports.targetClassTypeParameters == old(packageImports.targetClassTypeParameters)
      invariant list == Concat(pieces[..index])
      invariant packageImports.imports == InsertAll(old(packageImports.imports), BoundImports(tps[..index]))
    {
      var separator := GetArgumentDeclarationLineEnding(|tps| - 1 != index, true);
      var boundText := "";
      ghost var before := packageImports.imports;
      assert tps[..index + 1][..index] == tps[..index];
      if |tps[index].bounds| > 0 {
        var upperBound := tps[index].bounds[0];
        packageImports.AddImportOfType(upperBound.resolved);
        InsertAllSingle(before, ImportOfType(upperBound.resolved));
        boundText := ": " + upperBound.text;
      }
      InsertAllAppend(old(packageImports.imports), BoundImports(tps[..index]),
                      if |tps[index].bounds| > 0 then [ImportOfType(tps[index].bounds[0].resolved)] else []);
      SeparatorStep(|tps| - 1 != index);
      ConcatPrefixStep(pieces, index);
      AppendAssociates(list, tps[index].name, boundText, separator);
      list := list + tps[index].name + boundText + separator;
      index := index + 1;
    }
    assert pieces[..|tps|] == pieces;
    assert tps[..|tps|] == tps;
  }

  lemma SeparatorStep(hasNext: bool)
    ensures GetArgumentDeclarationLineEnding(hasNext, true) == if hasNext then ", " else ""
  {
    assert "," + " " == ", ";
  }

  /** The loop over the target's type parameters in a head without inputs: names only. */
  method TypeParameterNameList(targetClassTypeParameters: seq<TypeParam>) returns (list: string)
    ensures list == Concat(SeparatedPieces(TypeParamNames(targetClassTypeParameters), ", "))
  {
    var tps := targetClassTypeParameters;
    ghost var pieces := SeparatedPieces(TypeParamNames(tps), ", ");
    list := "";
    var index := 0;
    while index < |tps|
      invariant 0 <= index <= |tps|
      invariant list == Concat(pieces[..index])
    {
      var lineEnding := GetArgumentDeclarationLineEnding(|tps| - 1 != index, true);
      SeparatorStep(|tps| - 1 != index);
      ConcatPrefixStep(pieces, index);
      list := list + (tps[index].name + lineEnding);
      index := index + 1;
    }
    assert pieces[..|tps|] == pieces;
  }

  /** `convertMissingConstructorArgumentToDeclarationText`: first the arguments are sorted into
      stars and resolved types (an unresolved one throws), then the line is written and each
      resolved argument imported. */
  method ConvertMissingConstructorArgumentToDeclarationText(
    isLastIndex: bool, missingArgument: ValueParam, packageImports: PackageImports, targetClass: ClassDecl)
    returns (result: Result<string>, diagnostics: seq<Diagnostic>)
    requires packageImports.Valid()
    modifies packageImports
    ensures packageImports.Valid()
    ensures var d := MissingArgumentDeclaration(missingArgument, isLastIndex, targetClass);
            && result == d.result && diagnostics == d.diagnostics
            && packageImports.imports == InsertAll(old(packageImports.imports), d.imports)
    ensures packageImports.targetClassTypeParameters == old(packageImports.targetClassTypeParameters)
  {
    var argumentTypes: seq<ArgumentType> := [];
    var missingArgumentType := missingArgument.ty;
    packageImports.AddImportOfType(missingArgumentType);
    InsertAllSingle(old(packageImports.imports), ImportOfType(missingArgumentType));
    ghost var afterType := packageImports.imports;
    var args := missingArgumentType.arguments;
    var i := 0;
    while i < |args|
      invariant 0 <= i <= |args|
      invariant ArgumentTypes(args[..i]) == Some(argumentTypes)
    {
      assert args[..i + 1][..i] == args[..i];
      match args[i] {
        case Star =>
          argumentTypes := argumentTypes + [Asterix];
        case Of(ty) =>
          argumentTypes := argumentTypes + [ArgumentClass(ty)];
        case Unresolved =>
          assert args[..i + 1][i].Unresolved?;
          assert args[i] == args[..i + 1][i];
          var thrown := LogAndThrowError<string>(UnresolvedArgumentMessage(missingArgument.name), targetClass);
          result, diagnostics := thrown.1, [thrown.0];
          assert ArgumentTypes(args).None?;
          return;
      }
      i := i + 1;
    }
    assert args[..|args|] == args;
    var text := "\t" + missingArgument.name + ": " + TypeName(missingArgumentType);
    if |argumentTypes| > 0 {
      var list := ArgumentTypeList(argumentTypes, packageImports);
      text := text + (DIAMOND_OPERATOR_OPEN + list + DIAMOND_OPERATOR_CLOSE);
    } else {
      assert text + "" == text;
    }
    text := text + MarkedNullableAsString(missingArgumentType);
    var lineEnding := GetArgumentDeclarationLineEnding(!isLastIndex, false);
    text := text + lineEnding + "\n";
    InsertAllAppend(old(packageImports.imports), [ImportOfType(missingArgumentType)], ArgumentTypeImports(argumentTypes));
    result, diagnostics := Ok(text), [];
  }

  /** The second loop of the conversion: each argument with its separator, each resolved one
      imported. */
  method ArgumentTypeList(argumentTypes: seq<ArgumentType>, packageImports: PackageImports) returns (list: string)
    requires packageImports.Valid()
    modifies packageImports
    ensures packageImports.Valid()
    ensures list == Concat(SeparatedPieces(ArgumentTypeTexts(argumentTypes), ", "))
    ensures packageImports.imports == InsertAll(old(packageImports.imports), ArgumentTypeImports(argumentTypes))
    ensures packageImports.targetClassTypeParameters == old(packageImports.targetClassTypeParameters)
  {
    var ats := argumentTypes;
    ghost var pieces := SeparatedPieces(ArgumentTypeTexts(ats), ", ");
    list := "";
    var index := 0;
    while index < |ats|
      invariant 0 <= index <= |ats|
      invariant packageImports.Valid()
      invariant packageImports.targetClassTypeParameters == old(packageImports.targetClassTypeParameters)
      invariant list == Concat(pieces[..index])
      invariant packageImports.imports == InsertAll(old(packageImports.imports), ArgumentTypeImports(ats[..index]))
    {
      ConcatPrefixStep(pieces, index);
      assert ats[..index + 1][..index] == ats[..index];
      InsertAllAppend(old(packageImports.imports), ArgumentTypeImports(ats[..index]), ArgumentTypeImport(ats[index]));
      list := AppendArgumentType(list, ats[index], |ats| - 1 != index, packageImports);
      index := index + 1;
    }
    assert pieces[..|ats|] == pieces;
    assert ats[..|ats|] == ats;
  }

  /** One step of that loop: the argument's text and its separator; a resolved argument's type
      is imported. */
  method AppendArgumentType(list: string, argumentType: ArgumentType, hasNext: bool, packageImports: PackageImports)
    returns (extended: string)
    requires packageImports.Valid()
    modifies packageImports
    ensures packageImports.Valid()
    ensures extended == list + (ArgumentTypeText(argumentType) + (if hasNext then ", " else ""))
    ensures packageImports.imports == InsertAll(old(packageImports.imports), ArgumentTypeImport(argumentType))
    ensures packageImports.targetClassTypeParameters == old(packageImports.targetClassTypeParameters)
  {
    var typeSeparator := GetArgumentDeclarationLineEnding(hasNext, true);
    SeparatorStep(hasNext);
    match argumentType {
      case ArgumentClass(argumentClass) =>
        var rendered := ConvertTypeArgumentToString(TypeName(argumentClass), argumentClass, 0, true);
        AppendAssociates(list, rendered, MarkedNullableAsString(argumentClass), typeSeparator);
        extended := list + rendered + MarkedNullableAsString(argumentClass) + typeSeparator;
        packageImports.AddImportOfType(argumentClass);
        InsertAllSingle(old(packageImports.imports), ImportOfType(argumentClass));
      case Asterix =>
        extended := list + ("*" + typeSeparator);
    }
  }

  /** The loop over the missing parameters: their declarations, one per line; the first
      exception ends it. */
  method MissingArgumentDeclarations(missing: seq<ValueParam>, packageImports: PackageImports, targetClass: ClassDecl)
    returns (result: Result<string>, diagnostics: seq<Diagnostic>)
    requires packageImports.Valid()
    modifies packageImports
    ensures packageImports.Valid()
    ensures var d := Declarations(missing, |missing|, targetClass);
            && result == d.result && diagnostics == d.diagnostics
            && packageImports.imports == InsertAll(old(packageImports.imports), d.imports)
    ensures packageImports.targetClassTypeParameters == old(packageImports.targetClassTypeParameters)
  {
    var text := "";
    diagnostics := [];
    ghost var imports0 := packageImports.imports;
    ghost var imported: seq<Import> := [];
    var index := 0;
    while index < |missing|
      invariant 0 <= index <= |missing|
      invariant packageImports.Valid()
      invariant packageImports.targetClassTypeParameters == old(packageImports.targetClassTypeParameters)
      invariant Declarations(missing, index, targetClass) == Declared(Ok(text), diagnostics, imported)
      invariant packageImports.imports == InsertAll(imports0, imported)
    {
      var declared, logged := ConvertMissingConstructorArgumentToDeclarationText(
        |missing| - 1 == index, missing[index], packageImports, targetClass);
      ghost var d := MissingArgumentDeclaration(missing[index], index == |missing| - 1, targetClass);
      InsertAllAppend(imports0, imported, d.imports);
      DeclarationsNext(missing, index, targetClass, text, diagnostics, imported);
      imported := imported + d.imports;
      diagnostics := diagnostics + logged;
      if declared.Failed? {
        DeclarationsStayFailed(missing, index + 1, targetClass);
        result := declared;
        return;
      }
      text := text + declared.value;
      index := index + 1;
    }
    result := Ok(text);
  }

  lemma DeclarationsNext(missing: seq<ValueParam>, k: nat, targetClass: ClassDecl,
                         text: string, diagnostics: seq<Diagnostic>, imported: seq<Import>)
    requires k < |missing|
    requires Declarations(missing, k, targetClass) == Declared(Ok(text), diagnostics, imported)
    ensures var d := MissingArgumentDeclaration(missing[k], k == |missing| - 1, targetClass);
            Declarations(missing, k + 1, targetClass)
            == Declared(if d.result.Failed? then d.result else Ok(text + d.result.value), diagnostics + d.diagnostics, imported + d.imports)
  {
  }

  lemma {:induction false} DeclarationsStayFailed(missing: seq<ValueParam>, k: nat, targetClass: ClassDecl)
    requires 0 < k <= |missing|
    requires Declarations(missing, k, targetClass).result.Failed?
    ensures Declarations(missing, |missing|, targetClass) == Declarations(missing, k, targetClass)
    decreases |missing| - k
  {
    if k < |missing| {
      DeclarationsStayFailed(missing, k + 1, targetClass);
    }
  }

  /** The loop over the matched arguments: `target = this.source`, with the cast when there is
      one. */
  method MatchedAssignments(matching: seq<MatchingArgument>, missingCount: nat) returns (text: string)
    ensures text == Concat(MatchedLines(matching, missingCount))
  {
    ghost var lines := MatchedLines(matching, missingCount);
    text := "";
    var index := 0;
    while index < |matching|
      invariant 0 <= index <= |matching|
      invariant text == Concat(lines[..index])
    {
      var matchingArgument := matching[index];
      var lineEnding := MatchedLineEnding(missingCount, index);
      var cast := "";
      if matchingArgument.targetClassPropertyGenericTypeName.Some? {
        cast := " as " + matchingArgument.targetClassPropertyGenericTypeName.value;
      }
      ConcatPrefixStep(lines, index);
      var assignment := "\t" + matchingArgument.targetClassPropertyName + " = this." + matchingArgument.sourceClassPropertyName;
      AppendAssociates(text, assignment, cast, lineEnding + "\n");
      text := text + assignment + cast + (lineEnding + "\n");
      index := index + 1;
    }
    assert lines[..|matching|] == lines;
  }

  /** The loop over the missing parameters in the call: `name = name`. */
  method PassThroughAssignments(missing: seq<ValueParam>) returns (text: string)
    ensures text == Concat(PassThroughLines(missing))
  {
    ghost var lines := PassThroughLines(missing);
    text := "";
    var index := 0;
    while index < |missing|
      invariant 0 <= index <= |missing|
      invariant text == Concat(lines[..index])
    {
      var lineEnding := GetArgumentDeclarationLineEnding(|missing| - 1 != index, false);
      ConcatPrefixStep(lines, index);
      text := text + ("\t" + missing[index].name + " = " + missing[index].name + lineEnding + "\n");
      index := index + 1;
    }
    assert lines[..|missing|] == lines;
  }

  /** The head of a function with inputs: the target's type parameters with their bounds
      (each bound imported), then the function's name. */
  method HeadWithInputsText(sourceClass: ClassDecl, targetClass: ClassDecl, packageImports: PackageImports)
    returns (head: string)
    requires packageImports.Valid()
    modifies packageImports
    ensures packageImports.Valid()
    ensures head == HeadWithInputs(targetClass.typeParameters, ExtensionFunctionName(sourceClass, targetClass).0)
    ensures packageImports.imports
            == InsertAll(InsertAll(old(packageImports.imports), BoundImports(targetClass.typeParameters)),
                         ExtensionFunctionName(sourceClass, targetClass).1)
    ensures packageImports.targetClassTypeParameters == old(packageImports.targetClassTypeParameters)
  {
    var tps := targetClass.typeParameters;
    if |tps| > 0 {
      var list := BoundedTypeParameterList(tps, packageImports);
      var functionName := GenerateExtensionFunctionName(sourceClass, targetClass, packageImports);
      head := KOTLIN_FUNCTION_KEYWORD + " " + DIAMOND_OPERATOR_OPEN + list + DIAMOND_OPERATOR_CLOSE + " "
              + functionName + OPEN_FUNCTION + "\n";
    } else {
      assert BoundImports(tps) == [];
      var functionName := GenerateExtensionFunctionName(sourceClass, targetClass, packageImports);
      head := KOTLIN_FUNCTION_KEYWORD + " " + functionName + OPEN_FUNCTION + "\n";
    }
  }

  /** The head of a function without inputs: the type parameters by name, the function's name
      and the opening of the constructor call. */
  method HeadWithoutInputsText(sourceClass: ClassDecl, targetClass: ClassDecl, targetClassName: string, packageImports: PackageImports)
    returns (head: string)
    requires packageImports.Valid()
    modifies packageImports
    ensures packageImports.Valid()
    ensures head == HeadWithoutInputs(targetClass.typeParameters, ExtensionFunctionName(sourceClass, targetClass).0, targetClassName)
    ensures packageImports.imports == InsertAll(old(packageImports.imports), ExtensionFunctionName(sourceClass, targetClass).1)
    ensures packageImports.targetClassTypeParameters == old(packageImports.targetClassTypeParameters)
  {
    var tps := targetClass.typeParameters;
    if |tps| > 0 {
      var list := TypeParameterNameList(tps);
      var functionName := GenerateExtensionFunctionName(sourceClass, targetClass, packageImports);
      head := KOTLIN_FUNCTION_KEYWORD + " " + DIAMOND_OPERATOR_OPEN + list + DIAMOND_OPERATOR_CLOSE + " "
              + functionName + OPEN_FUNCTION + CLOSE_FUNCTION + " = " + targetClassName + OPEN_FUNCTION + "\n";
    } else {
      var functionName := GenerateExtensionFunctionName(sourceClass, targetClass, packageImports);
      head := KOTLIN_FUNCTION_KEYWORD + " " + functionName + OPEN_FUNCTION + CLOSE_FUNCTION + " = "
              + targetClassName + OPEN_FUNCTION + "\n";
    }
  }

  /** The assignments of the constructor call and its closing parenthesis. */
  method ConstructorCallText(matching: seq<MatchingArgument>, missing: seq<ValueParam>, ghost e: Extraction) returns (text: string)
    requires e.matching == matching && e.missing == missing
    ensures text == ConstructorCall(e)
  {
    var matchedText := MatchedAssignments(matching, |missing|);
    var passThroughText := PassThroughAssignments(missing);
    text := matchedText + passThroughText + CLOSE_FUNCTION + "\n\n";
  }

  /** `generateExtensionMapperFunctionForSourceClass`. */
  method GenerateExtensionMapperFunctionForSourceClass(
    r: Resolver, sourceClass: ClassDecl, targetClass: ClassDecl,
    targetClassTypeParameters: seq<TypeParam>, targetClassName: string, packageImports: PackageImports)
    returns (result: Result<string>, diagnostics: seq<Diagnostic>)
    requires Acyclic(r)
    requires targetClassTypeParameters == targetClass.typeParameters
    requires targetClassName == GetName(targetClass.decl)
    requires packageImports.Valid()
    modifies packageImports
    ensures packageImports.Valid()
    ensures var out := ExtensionMapperFunction(r, sourceClass, targetClass);
            && result == out.result && diagnostics == out.diagnostics
            && packageImports.imports == InsertAll(old(packageImports.imports), out.imports)
    ensures packageImports.targetClassTypeParameters == old(packageImports.targetClassTypeParameters)
  {
    var sourceClassName := GetName(sourceClass.decl);
    var c := Context(r, sourceClass, targetClass);
    ghost var e := ExtractMatchingAndMissing(c, targetClass, sourceClass);
    ghost var name := ExtensionFunctionName(sourceClass, targetClass);
    ghost var out := ExtensionMapperFunction(r, sourceClass, targetClass);
    var missing, matching, warnings := ExtractMatchingAndMissingConstructorArguments(c, targetClass, sourceClass, packageImports);
    diagnostics := warnings;
    if |missing| > 0 {
      var noMatchWarning: seq<Diagnostic> := [];
      if |matching| == 0 {
        noMatchWarning := [Warning(NoMatchingArgumentsMessage(sourceClassName, targetClassName))];
      }
      var head := HeadWithInputsText(sourceClass, targetClass, packageImports);
      var declarations, logged := MissingArgumentDeclarations(missing, packageImports, targetClass);
      ghost var decls := Declarations(missing, |missing|, targetClass);
      diagnostics := diagnostics + noMatchWarning + logged;
      assert diagnostics == out.diagnostics;
      ImportsChain(old(packageImports.imports), e.imports, BoundImports(targetClassTypeParameters), name.1, decls.imports);
      if declarations.Failed? {
        result := declarations;
        return;
      }
      var call := ConstructorCallText(matching, missing, e);
      result := Ok(head + InputsAndCallOpening(declarations.value, targetClassName) + call);
      assert out.result == Ok(HeadWithInputs(targetClassTypeParameters, name.0)
                              + InputsAndCallOpening(decls.result.value, targetClassName) + ConstructorCall(e));
    } else {
      var head := HeadWithoutInputsText(sourceClass, targetClass, targetClassName, packageImports);
      InsertAllAppend(old(packageImports.imports), e.imports, name.1);
      var call := ConstructorCallText(matching, missing, e);
      result := Ok(head + call);
      assert out.result == Ok(HeadWithoutInputs(targetClassTypeParameters, name.0, targetClassName) + ConstructorCall(e));
    }
  }

  lemma ImportsChain(s: seq<Import>, a: seq<Import>, b: seq<Import>, c: seq<Import>, d: seq<Import>)
    ensures InsertAll(s, a + b + c + d) == InsertAll(InsertAll(InsertAll(InsertAll(s, a), b), c), d)
  {
    InsertAllAppend(s, a + b + c, d);
    InsertAllAppend(s, a + b, c);
    InsertAllAppend(s, a, b);
  }

  /** `generateMappingFunction`: records the target's type parameters, imports the target and
      the source class, then writes the function. */
  method GenerateMappingFunction(r: Resolver, sourceClass: ClassDecl, targetClass: ClassDecl, packageImports: PackageImports)
    returns (result: Result<string>, diagnostics: seq<Diagnostic>)
    requires Acyclic(r)
    requires packageImports.Valid()
    modifies packageImports
    ensures packageImports.Valid()
    ensures var out := MappingFunction(r, sourceClass, targetClass);
            && result == out.result && diagnostics == out.diagnostics
            && packageImports.imports == InsertAll(old(packageImports.imports), out.imports)
    ensures packageImports.targetClassTypeParameters
            == InsertAll(old(packageImports.targetClassTypeParameters), targetClass.typeParameters)
  {
    var targetClassName := GetName(targetClass.decl);
    var packageName := targetClass.decl.packageName;
    var targetClassTypeParameters := targetClass.typeParameters;
    packageImports.AddTargetClassTypeParameters(targetClassTypeParameters);
    packageImports.AddImport(packageName, targetClassName);
    packageImports.AddImport(sourceClass.decl.packageName, GetName(sourceClass.decl));
    ghost var classImports := ClassImports(sourceClass, targetClass);
    InsertAllSingle(old(packageImports.imports), classImports[0]);
    InsertAllSingle(InsertAll(old(packageImports.imports), [classImports[0]]), classImports[1]);
    assert classImports == [classImports[0]] + [classImports[1]];
    InsertAllAppend(old(packageImports.imports), [classImports[0]], [classImports[1]]);
    result, diagnostics := GenerateExtensionMapperFunctionForSourceClass(
      r, sourceClass, targetClass, targetClassTypeParameters, targetClassName, packageImports);
    InsertAllAppend(old(packageImports.imports), classImports, ExtensionMapperFunction(r, sourceClass, targetClass).imports);
  }
}

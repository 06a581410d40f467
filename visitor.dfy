/**
 * `KCMVisitor`: visits one annotated class, runs the generator once per class named in its
 * annotation with one shared `PackageImports`, and writes the collected text into a file.
 * Each method is proved to produce what module `VisitorSpec` describes.
 */
module Visitor {
  import opened Wrappers
  import opened KspModel
  import opened Extensions
  import opened Seqs
  import opened Imports
  import opened GeneratorSpec
  import opened Generator
  import opened VisitorSpec

  /** One generator call appended to a run: the run's next state is the call's outcome
      added to it. */
  lemma RunNext(steps: seq<Step>, k: nat, start: Run, functions: string, diagnostics: seq<Diagnostic>,
                imports: seq<Import>, typeParameters: seq<TypeParam>)
    requires k < |steps|
    requires RunFrom(steps, k, start) == Run(functions, diagnostics, None, imports, typeParameters)
    ensures var out := steps[k].outcome;
            RunFrom(steps, k + 1, start)
            == Run(if out.result.Ok? then functions + out.result.value else functions,
                   diagnostics + out.diagnostics,
                   if out.result.Failed? then Some(out.result.exception) else None,
                   imports + out.imports, typeParameters + steps[k].targetTypeParameters)
  {
  }

  /** A run that has failed after `j` steps stays as it is. */
  lemma {:induction false} RunEndsFailed(steps: seq<Step>, j: nat, k: nat, start: Run)
    requires j <= k <= |steps|
    requires RunFrom(steps, j, start).failure.Some?
    ensures RunFrom(steps, k, start) == RunFrom(steps, j, start)
  {
    if k > j {
      RunEndsFailed(steps, j, k - 1, start);
    }
  }

  /** The `mapFromClasses.forEach` loop: a function from each class to the annotated class. */
  method GenerateFromClasses(r: Resolver, annotatedClass: ClassDecl, fromClasses: seq<ClassDecl>,
                             packageImports: PackageImports,
                             functions0: string, diagnostics0: seq<Diagnostic>, ghost start: Run)
    returns (functions: string, diagnostics: seq<Diagnostic>, failure: Option<string>)
    requires Acyclic(r)
    requires start == Run(functions0, diagnostics0, None, start.imports, start.typeParameters)
    requires packageImports.Valid()
    requires packageImports.imports == InsertAll([], start.imports)
    requires packageImports.targetClassTypeParameters == InsertAll([], start.typeParameters)
    modifies packageImports
    ensures packageImports.Valid()
    ensures var run := RunFrom(FromSteps(r, annotatedClass, fromClasses), |fromClasses|, start);
            && functions == run.functions && diagnostics == run.diagnostics && failure == run.failure
            && packageImports.imports == InsertAll([], run.imports)
            && packageImports.targetClassTypeParameters == InsertAll([], run.typeParameters)
  {
    ghost var steps := FromSteps(r, annotatedClass, fromClasses);
    ghost var imports := start.imports;
    ghost var typeParameters := start.typeParameters;
    functions, diagnostics, failure := functions0, diagnostics0, None;
    var index := 0;
    while index < |fromClasses|
      invariant 0 <= index <= |fromClasses|
      invariant packageImports.Valid()
      invariant RunFrom(steps, index, start) == Run(functions, diagnostics, None, imports, typeParameters)
      invariant packageImports.imports == InsertAll([], imports)
      invariant packageImports.targetClassTypeParameters == InsertAll([], typeParameters)
    {
      var sourceClass := fromClasses[index];
      var generated, logged := GenerateMappingFunction(r, sourceClass, annotatedClass, packageImports);
      assert steps[index] == StepOf(r, sourceClass, annotatedClass);
      RunNext(steps, index, start, functions, diagnostics, imports, typeParameters);
      InsertAllAppend([], imports, MappingFunction(r, sourceClass, annotatedClass).imports);
      InsertAllAppend([], typeParameters, annotatedClass.typeParameters);
      imports := imports + MappingFunction(r, sourceClass, annotatedClass).imports;
      typeParameters := typeParameters + annotatedClass.typeParameters;
      diagnostics := diagnostics + logged;
      if generated.Failed? {
        failure := Some(generated.exception);
        RunEndsFailed(steps, index + 1, |fromClasses|, start);
        return;
      }
      functions := functions + generated.value;
      index := index + 1;
    }
  }

  /** The `mapToClasses.forEach` loop: a function from the annotated class to each class. */
  method GenerateToClasses(r: Resolver, annotatedClass: ClassDecl, toClasses: seq<ClassDecl>,
                           packageImports: PackageImports,
                           functions0: string, diagnostics0: seq<Diagnostic>, ghost start: Run)
    returns (functions: string, diagnostics: seq<Diagnostic>, failure: Option<string>)
    requires Acyclic(r)
    requires start == Run(functions0, diagnostics0, None, start.imports, start.typeParameters)
    requires packageImports.Valid()
    requires packageImports.imports == InsertAll([], start.imports)
    requires packageImports.targetClassTypeParameters == InsertAll([], start.typeParameters)
    modifies packageImports
    ensures packageImports.Valid()
    ensures var run := RunFrom(ToSteps(r, annotatedClass, toClasses), |toClasses|, start);
            && functions == run.functions && diagnostics == run.diagnostics && failure == run.failure
            && packageImports.imports == InsertAll([], run.imports)
            && packageImports.targetClassTypeParameters == InsertAll([], run.typeParameters)
  {
    ghost var steps := ToSteps(r, annotatedClass, toClasses);
    ghost var imports := start.imports;
    ghost var typeParameters := start.typeParameters;
    functions, diagnostics, failure := functions0, diagnostics0, None;
    var index := 0;
    while index < |toClasses|
      invariant 0 <= index <= |toClasses|
      invariant packageImports.Valid()
      invariant RunFrom(steps, index, start) == Run(functions, diagnostics, None, imports, typeParameters)
      invariant packageImports.imports == InsertAll([], imports)
      invariant packageImports.targetClassTypeParameters == InsertAll([], typeParameters)
    {
      var targetClass := toClasses[index];
      var generated, logged := GenerateMappingFunction(r, annotatedClass, targetClass, packageImports);
      assert steps[index] == StepOf(r, annotatedClass, targetClass);
      RunNext(steps, index, start, functions, diagnostics, imports, typeParameters);
      InsertAllAppend([], imports, MappingFunction(r, annotatedClass, targetClass).imports);
      InsertAllAppend([], typeParameters, targetClass.typeParameters);
      imports := imports + MappingFunction(r, annotatedClass, targetClass).imports;
      typeParameters := typeParameters + targetClass.typeParameters;
      diagnostics := diagnostics + logged;
      if generated.Failed? {
        failure := Some(generated.exception);
        RunEndsFailed(steps, index + 1, |toClasses|, start);
        return;
      }
      functions := functions + generated.value;
      index := index + 1;
    }
  }

  /** `generateCode`: the file named after the annotated class, holding the suppression line
      when a target was generic, the package statement, the imports and the functions. */
  method GenerateCode(targetClassName: string, packageImports: PackageImports, extensionFunctions: string)
    returns (file: GeneratedFile)
    ensures file.packageName == GENERATED_FILE_PATH
    ensures file.fileName == targetClassName + GENERATED_CLASS_SUFFIX
    ensures file.content == FileContent(packageImports.targetClassTypeParameters, packageImports.imports, extensionFunctions)
  {
    var content := "";
    if |packageImports.targetClassTypeParameters| > 0 {
      content := content + SUPPRESS_UNCHECKED_CAST_STATEMENT;
    }
    assert content == SuppressionHeader(packageImports.targetClassTypeParameters);
    content := content + (PACKAGE_STATEMENT + " " + GENERATED_FILE_PATH + "\n\n");
    var importText := packageImports.AsFormattedImports();
    content := content + importText;
    content := content + extensionFunctions;
    file := GeneratedFile(GENERATED_FILE_PATH, targetClassName + GENERATED_CLASS_SUFFIX, content);
  }

  /** `visitClassDeclaration`. An exception thrown on the way ends the visit before any file is
      written. */
  method VisitClassDeclaration(r: Resolver, annotatedClass: ClassDecl)
    returns (diagnostics: seq<Diagnostic>, result: Result<Option<GeneratedFile>>)
    requires Acyclic(r)
    ensures Visit(diagnostics, result) == Visited(r, annotatedClass)
  {
    var extracted := ExtractKCMAnnotation(annotatedClass);
    diagnostics := extracted.0;
    if extracted.1.Failed? {
      result := Failed(extracted.1.exception);
      return;
    }
    var kcmAnnotation := extracted.1.value;
    var mapFromClasses := ExtractArgumentClasses(r, kcmAnnotation, KCONMAPPER_FROM_CLASSES_ANNOTATION_ARG_NAME);
    var mapToClasses := ExtractArgumentClasses(r, kcmAnnotation, KCONMAPPER_TARGET_CLASSES_ANNOTATION_ARG_NAME);

    if |mapFromClasses| == 0 && |mapToClasses| == 0 {
      diagnostics := diagnostics + [Warning(MissingMappingFunctionsMessage(annotatedClass))];
      result := Ok(None);
      return;
    }

    var packageImports := new PackageImports();
    ghost var start := Run("", diagnostics, None, [], []);
    var extensionFunctions, failure;
    extensionFunctions, diagnostics, failure := GenerateFromClasses(r, annotatedClass, mapFromClasses, packageImports, "", diagnostics, start);
    ghost var first := RunFrom(FromSteps(r, annotatedClass, mapFromClasses), |mapFromClasses|, start);
    if failure.Some? {
      RunStaysFailed(ToSteps(r, annotatedClass, mapToClasses), |mapToClasses|, first);
      result := Failed(failure.value);
      return;
    }
    extensionFunctions, diagnostics, failure := GenerateToClasses(r, annotatedClass, mapToClasses, packageImports, extensionFunctions, diagnostics, first);
    if failure.Some? {
      result := Failed(failure.value);
      return;
    }
    var file := GenerateCode(GetName(annotatedClass.decl), packageImports, extensionFunctions);
    result := Ok(Some(file));
  }
}

/**
 * What `KCMVisitor` produces for one annotated class: the `@KConMapper` annotation it reads,
 * the classes named by its `fromClasses` and `toClasses` arguments, one mapping function per
 * (source, target) pair written into a single text with one shared import set, and the file
 * that text ends up in. The imperative visitor in module `Visitor` is proved against these.
 */
module VisitorSpec {
  import opened Wrappers
  import opened KspModel
  import opened Extensions
  import opened Seqs
  import opened Text
  import opened Imports
  import opened GeneratorSpec

  const KCONMAPPER_FROM_CLASSES_ANNOTATION_ARG_NAME := "fromClasses"
  const KCONMAPPER_TARGET_CLASSES_ANNOTATION_ARG_NAME := "toClasses"
  const GENERATED_CLASS_SUFFIX := "KConMapperExtensions"
  const SUPPRESS_UNCHECKED_CAST_STATEMENT := "@file:Suppress(\"UNCHECKED_CAST\")\n\n"
  const PACKAGE_STATEMENT := "package"
  /** The package every generated file is written to. */
  const GENERATED_FILE_PATH := "de.yanneckreiss.kconmapper.generated"
  /** What Kotlin's `first` throws when no element of a sequence matches. */
  const NO_MATCHING_ELEMENT_MESSAGE := "Sequence contains no element matching the predicate."

  const MISSING_CLASSES_ARGUMENT_MESSAGE :=
    "Classes annotated with `@" + KCONMAPPER_ANNOTATION_NAME + "` must contain "
    + "at least one class as a parameter like: `" + KCONMAPPER_ANNOTATION_NAME + "(classes = [YourClassToMap::kt])"

  // ---------------------------------------------------------------------------------------
  // Reading the annotation

  /** The first annotation with the given short name. */
  function FindAnnotation(annotations: seq<ClassAnnotation>, shortName: string): (r: Option<ClassAnnotation>)
    ensures r.Some? ==> r.value in annotations && r.value.shortName == shortName
    ensures r.None? <==> forall a :: a in annotations ==> a.shortName != shortName
  {
    if |annotations| == 0 then None
    else if annotations[0].shortName == shortName then Some(annotations[0])
    else FindAnnotation(annotations[1..], shortName)
  }

  /** The first annotation argument with the given name. */
  function FindArgument(arguments: seq<AnnotationArgument>, name: string): (r: Option<AnnotationArgument>)
    ensures r.Some? ==> r.value in arguments && r.value.name == Some(name)
    ensures r.None? <==> forall a :: a in arguments ==> a.name != Some(name)
  {
    if |arguments| == 0 then None
    else if arguments[0].name == Some(name) then Some(arguments[0])
    else FindArgument(arguments[1..], name)
  }

  /** `extractKCMAnnotation`: the class's first `KConMapper` annotation; `first` throws when
      there is none, and an annotation without a `fromClasses` argument is a logged error. */
  function ExtractKCMAnnotation(targetClass: ClassDecl): (r: (seq<Diagnostic>, Result<ClassAnnotation>))
    ensures r.1.Ok? ==> && r.0 == []
                        && r.1.value in targetClass.annotations
                        && r.1.value.shortName == KCONMAPPER_ANNOTATION_NAME
                        && exists a :: a in r.1.value.arguments && a.name == Some(KCONMAPPER_FROM_CLASSES_ANNOTATION_ARG_NAME)
    ensures (forall a :: a in targetClass.annotations ==> a.shortName != KCONMAPPER_ANNOTATION_NAME)
            ==> r == ([], Failed(NO_MATCHING_ELEMENT_MESSAGE))
    ensures r.1.Failed? && r.1.exception != NO_MATCHING_ELEMENT_MESSAGE
            ==> && r.1.exception == MISSING_CLASSES_ARGUMENT_MESSAGE
                && r.0 == [Error(MISSING_CLASSES_ARGUMENT_MESSAGE, GetName(targetClass.decl))]
    ensures var found := FindAnnotation(targetClass.annotations, KCONMAPPER_ANNOTATION_NAME);
            found.Some? && FindArgument(found.value.arguments, KCONMAPPER_FROM_CLASSES_ANNOTATION_ARG_NAME).None?
            ==> r == ([Error(MISSING_CLASSES_ARGUMENT_MESSAGE, GetName(targetClass.decl))], Failed(MISSING_CLASSES_ARGUMENT_MESSAGE))
    ensures var found := FindAnnotation(targetClass.annotations, KCONMAPPER_ANNOTATION_NAME);
            found.Some? && FindArgument(found.value.arguments, KCONMAPPER_FROM_CLASSES_ANNOTATION_ARG_NAME).Some?
            ==> r == ([], Ok(found.value))
  {
    match FindAnnotation(targetClass.annotations, KCONMAPPER_ANNOTATION_NAME)
    case None => ([], Failed(NO_MATCHING_ELEMENT_MESSAGE))
    case Some(kcmAnnotation) =>
      if FindArgument(kcmAnnotation.arguments, KCONMAPPER_FROM_CLASSES_ANNOTATION_ARG_NAME).None? then
        var thrown := LogAndThrowError<ClassAnnotation>(MISSING_CLASSES_ARGUMENT_MESSAGE, targetClass);
        ([thrown.0], thrown.1)
      else ([], Ok(kcmAnnotation))
  }

  /** `i` is the position of the class's first annotation with the given short name. */
  predicate IsFirstAnnotation(annotations: seq<ClassAnnotation>, shortName: string, i: int)
  {
    && 0 <= i < |annotations|
    && annotations[i].shortName == shortName
    && forall j :: 0 <= j < i ==> annotations[j].shortName != shortName
  }

  /** `first` returns the annotation at the first position carrying the name. */
  lemma {:induction false} FindAnnotationIsFirst(annotations: seq<ClassAnnotation>, shortName: string, i: int)
    requires IsFirstAnnotation(annotations, shortName, i)
    ensures FindAnnotation(annotations, shortName) == Some(annotations[i])
  {
    if i > 0 {
      assert IsFirstAnnotation(annotations[1..], shortName, i - 1) by {
        forall j | 0 <= j < i - 1
          ensures annotations[1..][j].shortName != shortName
        {
          assert annotations[1..][j] == annotations[j + 1];
        }
      }
      FindAnnotationIsFirst(annotations[1..], shortName, i - 1);
    }
  }

  /** Only the class's first `KConMapper` annotation is consulted: it is returned when it has
      a `fromClasses` argument, and otherwise the missing-argument error is logged and thrown,
      whatever later annotations hold. */
  lemma ExtractKCMAnnotationReadsFirstAnnotation(targetClass: ClassDecl, i: int)
    requires IsFirstAnnotation(targetClass.annotations, KCONMAPPER_ANNOTATION_NAME, i)
    ensures var first := targetClass.annotations[i];
            (exists a :: a in first.arguments && a.name == Some(KCONMAPPER_FROM_CLASSES_ANNOTATION_ARG_NAME))
            ==> ExtractKCMAnnotation(targetClass) == ([], Ok(first))
    ensures var first := targetClass.annotations[i];
            (forall a :: a in first.arguments ==> a.name != Some(KCONMAPPER_FROM_CLASSES_ANNOTATION_ARG_NAME))
            ==> ExtractKCMAnnotation(targetClass)
                == ([Error(MISSING_CLASSES_ARGUMENT_MESSAGE, GetName(targetClass.decl))], Failed(MISSING_CLASSES_ARGUMENT_MESSAGE))
  {
    FindAnnotationIsFirst(targetClass.annotations, KCONMAPPER_ANNOTATION_NAME, i);
  }

  /** `mapNotNull` over the class lookup: the classes the resolver knows, in order. */
  function ResolvedClasses(r: Resolver, types: seq<KType>): seq<ClassDecl>
  {
    if |types| == 0 then []
    else (if types[0].declaration in r.classes then [r.classes[types[0].declaration]] else [])
         + ResolvedClasses(r, types[1..])
  }

  /** `extractArgumentClasses`: the resolvable classes of the named argument, none when the
      annotation has no such argument. */
  function ExtractArgumentClasses(r: Resolver, kcmAnnotation: ClassAnnotation, paramName: string): (cs: seq<ClassDecl>)
    ensures FindArgument(kcmAnnotation.arguments, paramName).None? ==> cs == []
  {
    match FindArgument(kcmAnnotation.arguments, paramName)
    case None => []
    case Some(argument) => ResolvedClasses(r, argument.classes)
  }

  /** A listed class ends up in the result exactly when the resolver knows its declaration;
      the result is never longer than the list, and as long exactly when every class is
      known. */
  lemma {:induction false} ResolvedClassesAreTheKnownOnes(r: Resolver, types: seq<KType>)
    ensures forall c :: c in ResolvedClasses(r, types)
                        <==> exists i :: 0 <= i < |types| && types[i].declaration in r.classes && r.classes[types[i].declaration] == c
    ensures |ResolvedClasses(r, types)| <= |types|
    ensures |ResolvedClasses(r, types)| == |types| <==> forall i :: 0 <= i < |types| ==> types[i].declaration in r.classes
  {
    if |types| > 0 {
      ResolvedClassesAreTheKnownOnes(r, types[1..]);
      forall c | c in ResolvedClasses(r, types)
        ensures exists i :: 0 <= i < |types| && types[i].declaration in r.classes && r.classes[types[i].declaration] == c
      {
        if c !in ResolvedClasses(r, types[1..]) {
          assert types[0].declaration in r.classes && r.classes[types[0].declaration] == c;
        } else {
          var j :| 0 <= j < |types[1..]| && types[1..][j].declaration in r.classes && r.classes[types[1..][j].declaration] == c;
          assert types[j + 1] == types[1..][j];
        }
      }
      forall c | exists i :: 0 <= i < |types| && types[i].declaration in r.classes && r.classes[types[i].declaration] == c
        ensures c in ResolvedClasses(r, types)
      {
        var i :| 0 <= i < |types| && types[i].declaration in r.classes && r.classes[types[i].declaration] == c;
        if i > 0 {
          assert types[1..][i - 1] == types[i];
        }
      }
      if forall i :: 0 <= i < |types| ==> types[i].declaration in r.classes {
        assert forall i :: 0 <= i < |types[1..]| ==> types[1..][i].declaration in r.classes by {
          forall i | 0 <= i < |types[1..]| ensures types[1..][i].declaration in r.classes {
            assert types[1..][i] == types[i + 1];
          }
        }
      }
      if |ResolvedClasses(r, types)| == |types| {
        forall i | 0 <= i < |types| ensures types[i].declaration in r.classes {
          if i > 0 {
            assert types[1..][i - 1] == types[i];
          }
        }
      }
    }
  }

  // ---------------------------------------------------------------------------------------
  // The mapping functions of one annotated class

  /** One call of `generateMappingFunction`: what it returns, logs and imports, and the type
      parameters of its target, which it records in the shared `PackageImports`. */
  datatype Step = Step(outcome: Outcome, targetTypeParameters: seq<TypeParam>)

  function StepOf(r: Resolver, sourceClass: ClassDecl, targetClass: ClassDecl): Step
    requires Acyclic(r)
  {
    Step(MappingFunction(r, sourceClass, targetClass), targetClass.typeParameters)
  }

  /** Each class of `fromClasses` is a source for the annotated class... */
  function FromSteps(r: Resolver, annotatedClass: ClassDecl, fromClasses: seq<ClassDecl>): (steps: seq<Step>)
    requires Acyclic(r)
    ensures |steps| == |fromClasses|
    ensures forall i :: 0 <= i < |steps| ==> steps[i].targetTypeParameters == annotatedClass.typeParameters
  {
    seq(|fromClasses|, i requires 0 <= i < |fromClasses| => StepOf(r, fromClasses[i], annotatedClass))
  }

  /** ...and each class of `toClasses` a target of it. */
  function ToSteps(r: Resolver, annotatedClass: ClassDecl, toClasses: seq<ClassDecl>): (steps: seq<Step>)
    requires Acyclic(r)
    ensures |steps| == |toClasses|
    ensures forall i :: 0 <= i < |steps| ==> steps[i].targetTypeParameters == toClasses[i].typeParameters
  {
    seq(|toClasses|, i requires 0 <= i < |toClasses| => StepOf(r, annotatedClass, toClasses[i]))
  }

  /** The state a run of `generateMappingFunction` calls threads through: the text so far,
      the diagnostics, the exception that ended the run (if one did), and everything added
      to the shared `PackageImports` in the order it was added (the set itself is these with
      duplicates dropped). */
  datatype Run = Run(functions: string, diagnostics: seq<Diagnostic>, failure: Option<string>,
                     imports: seq<Import>, typeParameters: seq<TypeParam>)

  /** The first `k` steps taken one after the other from `start`; an exception ends the run. */
  function RunFrom(steps: seq<Step>, k: nat, start: Run): Run
    requires k <= |steps|
  {
    if k == 0 then start
    else
      var prev := RunFrom(steps, k - 1, start);
      if prev.failure.Some? then prev
      else
        var out := steps[k - 1].outcome;
        Run(if out.result.Ok? then prev.functions + out.result.value else prev.functions,
            prev.diagnostics + out.diagnostics,
            if out.result.Failed? then Some(out.result.exception) else None,
            prev.imports + out.imports,
            prev.typeParameters + steps[k - 1].targetTypeParameters)
  }

  predicate Succeeds(step: Step)
  {
    step.outcome.result.Ok?
  }

  /** The functions of steps that all succeed, in order. */
  function FunctionTexts(steps: seq<Step>): (texts: seq<string>)
    requires forall i :: 0 <= i < |steps| ==> Succeeds(steps[i])
    ensures |texts| == |steps|
  {
    seq(|steps|, i requires 0 <= i < |steps| && Succeeds(steps[i]) => steps[i].outcome.result.value)
  }

  /** A generated file: its package, its name and what is written into it. */
  datatype GeneratedFile = GeneratedFile(packageName: string, fileName: string, content: string)

  /** The first line of the file: the unchecked-cast suppression when some target was generic. */
  function SuppressionHeader(typeParameters: seq<TypeParam>): string
  {
    if |typeParameters| > 0 then SUPPRESS_UNCHECKED_CAST_STATEMENT else ""
  }

  /** `generateCode`: the suppression line, the package statement, the imports and the
      functions, in that order. */
  function FileContent(typeParameters: seq<TypeParam>, imports: seq<Import>, functions: string): string
  {
    SuppressionHeader(typeParameters) + PackageLine() + FormattedImports(imports, TypeParamNames(typeParameters)) + functions
  }

  /** `package de.yanneckreiss.kconmapper.generated` and a blank line. */
  function PackageLine(): string
  {
    PACKAGE_STATEMENT + " " + GENERATED_FILE_PATH + "\n\n"
  }

  function MissingMappingFunctionsMessage(annotatedClass: ClassDecl): string
  {
    "Missing mapping functions for @" + KCONMAPPER_ANNOTATION_NAME + " annotated class " + GetName(annotatedClass.decl) + "."
  }

  /** What visiting one class yields: diagnostics, and either the exception that ended the
      visit or the file it wrote (none when the annotation names no classes). */
  datatype Visit = Visit(diagnostics: seq<Diagnostic>, result: Result<Option<GeneratedFile>>)

  /** The run over the `fromClasses` pairs followed by the run over the `toClasses` pairs,
      sharing one text and one import set. */
  function Generated(r: Resolver, annotatedClass: ClassDecl, fromClasses: seq<ClassDecl>, toClasses: seq<ClassDecl>,
                     diagnostics: seq<Diagnostic>): Run
    requires Acyclic(r)
  {
    var first := RunFrom(FromSteps(r, annotatedClass, fromClasses), |fromClasses|, Run("", diagnostics, None, [], []));
    RunFrom(ToSteps(r, annotatedClass, toClasses), |toClasses|, first)
  }

  /** `visitClassDeclaration`: what visiting one annotated class logs, throws or writes. */
  function Visited(r: Resolver, annotatedClass: ClassDecl): Visit
    requires Acyclic(r)
  {
    var extracted := ExtractKCMAnnotation(annotatedClass);
    match extracted.1
    case Failed(exception) => Visit(extracted.0, Failed(exception))
    case Ok(kcmAnnotation) =>
      var fromClasses := ExtractArgumentClasses(r, kcmAnnotation, KCONMAPPER_FROM_CLASSES_ANNOTATION_ARG_NAME);
      var toClasses := ExtractArgumentClasses(r, kcmAnnotation, KCONMAPPER_TARGET_CLASSES_ANNOTATION_ARG_NAME);
      if |fromClasses| == 0 && |toClasses| == 0 then
        Visit(extracted.0 + [Warning(MissingMappingFunctionsMessage(annotatedClass))], Ok(None))
      else
        var run := Generated(r, annotatedClass, fromClasses, toClasses, extracted.0);
        if run.failure.Some? then Visit(run.diagnostics, Failed(run.failure.value))
        else
          Visit(run.diagnostics,
                Ok(Some(GeneratedFile(GENERATED_FILE_PATH, GetName(annotatedClass.decl) + GENERATED_CLASS_SUFFIX,
                                      FileContent(InsertAll([], run.typeParameters), InsertAll([], run.imports), run.functions)))))
  }

  // ---------------------------------------------------------------------------------------
  // Properties of a run

  /** Once an exception has ended a run, later steps change nothing. */
  lemma {:induction false} RunStaysFailed(steps: seq<Step>, k: nat, start: Run)
    requires k <= |steps|
    requires start.failure.Some?
    ensures RunFrom(steps, k, start) == start
  {
    if k > 0 {
      RunStaysFailed(steps, k - 1, start);
    }
  }

  /** A run from a clean start ends without exception exactly when every step succeeds, and
      then its text is the start's followed by each step's function in order. */
  lemma {:induction false} RunConcatenatesFunctions(steps: seq<Step>, k: nat, start: Run)
    requires k <= |steps|
    requires start.failure.None?
    ensures RunFrom(steps, k, start).failure.None? <==> forall i :: 0 <= i < k ==> Succeeds(steps[i])
    ensures RunFrom(steps, k, start).failure.None?
            ==> RunFrom(steps, k, start).functions == start.functions + Concat(FunctionTexts(steps[..k]))
  {
    if k == 0 {
      assert start.functions + Concat(FunctionTexts(steps[..0])) == start.functions;
    } else {
      RunConcatenatesFunctions(steps, k - 1, start);
      var now := RunFrom(steps, k, start);
      if now.failure.None? {
        assert forall i :: 0 <= i < k ==> Succeeds(steps[i]);
        var texts := FunctionTexts(steps[..k]);
        assert texts[..k - 1] == FunctionTexts(steps[..k - 1]);
        ConcatPrefixStep(texts, k - 1);
        assert texts[..k] == texts;
      }
    }
  }

  /** Running `k` steps is running the first `m`, then the rest from where they left off. */
  lemma {:induction false} RunSplits(steps: seq<Step>, m: nat, k: nat, start: Run)
    requires m <= k <= |steps|
    ensures RunFrom(steps, k, start) == RunFrom(steps[m..], k - m, RunFrom(steps, m, start))
  {
    if k > m {
      RunSplits(steps, m, k - 1, start);
      assert steps[m..][k - m - 1] == steps[k - 1];
    }
  }

  /** The first step that fails ends the run with its exception; the run's state is the one
      that step left. */
  lemma RunStopsAtFirstFailure(steps: seq<Step>, k: nat, start: Run, j: nat)
    requires j < k <= |steps|
    requires start.failure.None?
    requires !Succeeds(steps[j])
    requires forall i :: 0 <= i < j ==> Succeeds(steps[i])
    ensures RunFrom(steps, k, start) == RunFrom(steps, j + 1, start)
    ensures RunFrom(steps, k, start).failure == Some(steps[j].outcome.result.exception)
  {
    RunConcatenatesFunctions(steps, j, start);
    RunStaysFailed(steps[j + 1..], k - (j + 1), RunFrom(steps, j + 1, start));
    RunSplits(steps, j + 1, k, start);
  }

  /** A run without exception has recorded a type parameter exactly when the start had one
      or some step's target is generic. */
  lemma {:induction false} RunTypeParameters(steps: seq<Step>, k: nat, start: Run)
    requires k <= |steps|
    requires RunFrom(steps, k, start).failure.None?
    ensures |RunFrom(steps, k, start).typeParameters| > 0
            <==> |start.typeParameters| > 0 || exists i :: 0 <= i < k && |steps[i].targetTypeParameters| > 0
  {
    if k > 0 {
      assert RunFrom(steps, k - 1, start).failure.None?;
      RunTypeParameters(steps, k - 1, start);
    }
  }

  lemma InsertAllIsEmpty<T(!new)>(s: seq<T>, xs: seq<T>)
    ensures |InsertAll(s, xs)| > 0 <==> |s| > 0 || |xs| > 0
  {
    if |s| > 0 {
      assert s[0] in InsertAll(s, xs);
    } else if |xs| > 0 {
      assert xs[0] in InsertAll(s, xs);
    }
  }

  // ---------------------------------------------------------------------------------------
  // Properties of a visit

  /** No file is written, and exactly one warning is added, exactly when the annotation is
      readable but neither of its arguments names a class the resolver knows. */
  lemma NoFileWithoutArgumentClasses(r: Resolver, annotatedClass: ClassDecl)
    requires Acyclic(r)
    ensures var v := Visited(r, annotatedClass);
            var extracted := ExtractKCMAnnotation(annotatedClass);
            v.result == Ok(None)
            <==> && extracted.1.Ok?
                 && ExtractArgumentClasses(r, extracted.1.value, KCONMAPPER_FROM_CLASSES_ANNOTATION_ARG_NAME) == []
                 && ExtractArgumentClasses(r, extracted.1.value, KCONMAPPER_TARGET_CLASSES_ANNOTATION_ARG_NAME) == []
    ensures Visited(r, annotatedClass).result == Ok(None)
            ==> Visited(r, annotatedClass).diagnostics == [Warning(MissingMappingFunctionsMessage(annotatedClass))]
  {
  }

  /** The targets whose type parameters the shared import set records: the annotated class
      when it has `fromClasses`, then each class of `toClasses`. */
  function Targets(annotatedClass: ClassDecl, fromClasses: seq<ClassDecl>, toClasses: seq<ClassDecl>): seq<ClassDecl>
  {
    (if |fromClasses| > 0 then [annotatedClass] else []) + toClasses
  }

  /** When a visit writes a file, the annotation was read, no call threw, and the file holds
      what the run collected. */
  lemma VisitedFile(r: Resolver, annotatedClass: ClassDecl)
    requires Acyclic(r)
    requires Visited(r, annotatedClass).result.Ok?
    requires Visited(r, annotatedClass).result.value.Some?
    ensures var extracted := ExtractKCMAnnotation(annotatedClass);
            extracted.1.Ok? &&
            var fromClasses := ExtractArgumentClasses(r, extracted.1.value, KCONMAPPER_FROM_CLASSES_ANNOTATION_ARG_NAME);
            var toClasses := ExtractArgumentClasses(r, extracted.1.value, KCONMAPPER_TARGET_CLASSES_ANNOTATION_ARG_NAME);
            var run := Generated(r, annotatedClass, fromClasses, toClasses, []);
            && run.failure.None?
            && Visited(r, annotatedClass).result.value.value
               == GeneratedFile(GENERATED_FILE_PATH, GetName(annotatedClass.decl) + GENERATED_CLASS_SUFFIX,
                                FileContent(InsertAll([], run.typeParameters), InsertAll([], run.imports), run.functions))
  {
  }

  /** A run over both lists that throws nowhere has every call succeed, and its text is the
      functions of `fromClasses` followed by those of `toClasses`, each in declared order. */
  lemma GeneratedFunctionsInOrder(r: Resolver, annotatedClass: ClassDecl, fromClasses: seq<ClassDecl>, toClasses: seq<ClassDecl>)
    requires Acyclic(r)
    requires Generated(r, annotatedClass, fromClasses, toClasses, []).failure.None?
    ensures var fromSteps := FromSteps(r, annotatedClass, fromClasses);
            var toSteps := ToSteps(r, annotatedClass, toClasses);
            && (forall i :: 0 <= i < |fromSteps| ==> Succeeds(fromSteps[i]))
            && (forall i :: 0 <= i < |toSteps| ==> Succeeds(toSteps[i]))
            && Generated(r, annotatedClass, fromClasses, toClasses, []).functions
               == Concat(FunctionTexts(fromSteps)) + Concat(FunctionTexts(toSteps))
  {
    var fromSteps := FromSteps(r, annotatedClass, fromClasses);
    var toSteps := ToSteps(r, annotatedClass, toClasses);
    var start := Run("", [], None, [], []);
    var first := RunFrom(fromSteps, |fromClasses|, start);
    if first.failure.Some? {
      RunStaysFailed(toSteps, |toClasses|, first);
    }
    RunConcatenatesFunctions(fromSteps, |fromClasses|, start);
    RunConcatenatesFunctions(toSteps, |toClasses|, first);
    assert fromSteps[..|fromClasses|] == fromSteps;
    assert toSteps[..|toClasses|] == toSteps;
    assert "" + Concat(FunctionTexts(fromSteps)) == Concat(FunctionTexts(fromSteps));
  }

  /** A run over both lists that throws nowhere records a type parameter exactly when some
      target is generic. */
  lemma GeneratedTypeParameters(r: Resolver, annotatedClass: ClassDecl, fromClasses: seq<ClassDecl>, toClasses: seq<ClassDecl>)
    requires Acyclic(r)
    requires Generated(r, annotatedClass, fromClasses, toClasses, []).failure.None?
    ensures |InsertAll([], Generated(r, annotatedClass, fromClasses, toClasses, []).typeParameters)| > 0
            <==> exists c :: c in Targets(annotatedClass, fromClasses, toClasses) && |c.typeParameters| > 0
  {
    var fromSteps := FromSteps(r, annotatedClass, fromClasses);
    var toSteps := ToSteps(r, annotatedClass, toClasses);
    var start := Run("", [], None, [], []);
    var first := RunFrom(fromSteps, |fromClasses|, start);
    var run := RunFrom(toSteps, |toClasses|, first);
    if first.failure.Some? {
      RunStaysFailed(toSteps, |toClasses|, first);
    }
    RunTypeParameters(fromSteps, |fromClasses|, start);
    RunTypeParameters(toSteps, |toClasses|, first);
    GenericTargets(r, annotatedClass, fromClasses, toClasses, |first.typeParameters| > 0, |run.typeParameters| > 0);
    InsertAllIsEmpty([], run.typeParameters);
  }

  /** The file starts with the unchecked-cast suppression exactly when a type parameter was
      recorded. */
  lemma SuppressionHeaderIffTypeParameters(typeParameters: seq<TypeParam>, imports: seq<Import>, functions: string)
    ensures SUPPRESS_UNCHECKED_CAST_STATEMENT <= FileContent(typeParameters, imports, functions) <==> |typeParameters| > 0
  {
    var rest := PackageLine() + FormattedImports(imports, TypeParamNames(typeParameters)) + functions;
    assert FileContent(typeParameters, imports, functions) == SuppressionHeader(typeParameters) + rest;
    assert rest[0] == 'p' by {
      assert PackageLine()[0] == PACKAGE_STATEMENT[0];
    }
    HeaderBeforePackageLine(|typeParameters| > 0, rest);
  }

  /** The header, present or not, in front of a text that starts like the package line. */
  lemma HeaderBeforePackageLine(generic: bool, rest: string)
    requires |rest| > 0 && rest[0] == 'p'
    ensures SUPPRESS_UNCHECKED_CAST_STATEMENT <= (if generic then SUPPRESS_UNCHECKED_CAST_STATEMENT else "") + rest <==> generic
  {
    if generic {
      assert (SUPPRESS_UNCHECKED_CAST_STATEMENT + rest)[..|SUPPRESS_UNCHECKED_CAST_STATEMENT|] == SUPPRESS_UNCHECKED_CAST_STATEMENT;
    } else {
      assert ("" + rest) == rest;
      StartsWithOtherCharacter(SUPPRESS_UNCHECKED_CAST_STATEMENT, rest);
    }
  }

  /** A text is no prefix of one whose first character differs. */
  lemma StartsWithOtherCharacter(prefix: string, s: string)
    requires |prefix| > 0 && |s| > 0 && prefix[0] != s[0]
    ensures !(prefix <= s)
  {
  }

  /** A written file starts with the unchecked-cast suppression exactly when some target of
      its functions is generic, is named after the annotated class and lies in the generated
      package; its functions follow its imports, those of `fromClasses` first and each list
      in declared order. */
  lemma GeneratedFileLayout(r: Resolver, annotatedClass: ClassDecl)
    requires Acyclic(r)
    requires Visited(r, annotatedClass).result.Ok?
    requires Visited(r, annotatedClass).result.value.Some?
    ensures var extracted := ExtractKCMAnnotation(annotatedClass);
            extracted.1.Ok? &&
            var fromClasses := ExtractArgumentClasses(r, extracted.1.value, KCONMAPPER_FROM_CLASSES_ANNOTATION_ARG_NAME);
            var toClasses := ExtractArgumentClasses(r, extracted.1.value, KCONMAPPER_TARGET_CLASSES_ANNOTATION_ARG_NAME);
            var fromSteps := FromSteps(r, annotatedClass, fromClasses);
            var toSteps := ToSteps(r, annotatedClass, toClasses);
            var run := Generated(r, annotatedClass, fromClasses, toClasses, []);
            var file := Visited(r, annotatedClass).result.value.value;
            var typeParameters := InsertAll([], run.typeParameters);
            && (forall i :: 0 <= i < |fromSteps| ==> Succeeds(fromSteps[i]))
            && (forall i :: 0 <= i < |toSteps| ==> Succeeds(toSteps[i]))
            && file.packageName == GENERATED_FILE_PATH
            && file.fileName == GetName(annotatedClass.decl) + GENERATED_CLASS_SUFFIX
            && (SUPPRESS_UNCHECKED_CAST_STATEMENT <= file.content
                <==> exists c :: c in Targets(annotatedClass, fromClasses, toClasses) && |c.typeParameters| > 0)
            && file.content == FileContent(typeParameters, InsertAll([], run.imports),
                                           Concat(FunctionTexts(fromSteps)) + Concat(FunctionTexts(toSteps)))
  {
    VisitedFile(r, annotatedClass);
    var extracted := ExtractKCMAnnotation(annotatedClass);
    var fromClasses := ExtractArgumentClasses(r, extracted.1.value, KCONMAPPER_FROM_CLASSES_ANNOTATION_ARG_NAME);
    var toClasses := ExtractArgumentClasses(r, extracted.1.value, KCONMAPPER_TARGET_CLASSES_ANNOTATION_ARG_NAME);
    var run := Generated(r, annotatedClass, fromClasses, toClasses, []);
    GeneratedFunctionsInOrder(r, annotatedClass, fromClasses, toClasses);
    GeneratedTypeParameters(r, annotatedClass, fromClasses, toClasses);
    SuppressionHeaderIffTypeParameters(InsertAll([], run.typeParameters), InsertAll([], run.imports), run.functions);
  }

  /** The steps' targets are the annotated class (once per class of `fromClasses`) and the
      classes of `toClasses`. */
  lemma GenericTargets(r: Resolver, annotatedClass: ClassDecl, fromClasses: seq<ClassDecl>, toClasses: seq<ClassDecl>,
                       fromGeneric: bool, anyGeneric: bool)
    requires Acyclic(r)
    requires fromGeneric <==> exists i :: 0 <= i < |fromClasses| && |FromSteps(r, annotatedClass, fromClasses)[i].targetTypeParameters| > 0
    requires anyGeneric <==> fromGeneric || exists i :: 0 <= i < |toClasses| && |ToSteps(r, annotatedClass, toClasses)[i].targetTypeParameters| > 0
    ensures anyGeneric <==> exists c :: c in Targets(annotatedClass, fromClasses, toClasses) && |c.typeParameters| > 0
  {
    var fs := FromSteps(r, annotatedClass, fromClasses);
    var ts := ToSteps(r, annotatedClass, toClasses);
    assert fromGeneric <==> |fromClasses| > 0 && |annotatedClass.typeParameters| > 0 by {
      if |fromClasses| > 0 {
        assert |fs[0].targetTypeParameters| == |annotatedClass.typeParameters|;
      }
    }
    assert (exists i :: 0 <= i < |toClasses| && |ts[i].targetTypeParameters| > 0)
           <==> (exists i :: 0 <= i < |toClasses| && |toClasses[i].typeParameters| > 0);
    GenericTargetsOfClasses(annotatedClass, fromClasses, toClasses);
  }

  /** The same, on the classes alone: a target is generic exactly when the annotated class is
      generic and has a `fromClasses` entry, or some class of `toClasses` is generic. */
  lemma GenericTargetsOfClasses(annotatedClass: ClassDecl, fromClasses: seq<ClassDecl>, toClasses: seq<ClassDecl>)
    ensures (exists c :: c in Targets(annotatedClass, fromClasses, toClasses) && |c.typeParameters| > 0)
            <==> (|fromClasses| > 0 && |annotatedClass.typeParameters| > 0)
                 || exists i :: 0 <= i < |toClasses| && |toClasses[i].typeParameters| > 0
  {
    var targets := Targets(annotatedClass, fromClasses, toClasses);
    if exists i :: 0 <= i < |toClasses| && |toClasses[i].typeParameters| > 0 {
      var i :| 0 <= i < |toClasses| && |toClasses[i].typeParameters| > 0;
      assert targets[|targets| - |toClasses| + i] == toClasses[i];
    }
    if |fromClasses| > 0 {
      assert targets[0] == annotatedClass;
    }
  }
}

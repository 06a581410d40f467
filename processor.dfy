/**
 * `KCMSymbolProcessor.process`: the symbols annotated with `@KConMapper` are filtered to valid
 * class declarations; a declaration of an unsupported class kind logs an error and throws, which
 * ends the processing round; every other declaration is handed to the visitor.
 */
module Processor {
  import opened Wrappers
  import opened KspModel
  import opened Extensions
  import opened VisitorSpec
  import opened Visitor

  /** A symbol carrying the annotation: a class declaration, or any other annotated node.
      `valid` is what `validate()` answers for it. */
  datatype Symbol = ClassSymbol(declaration: ClassDecl, valid: bool) | OtherSymbol(valid: bool)

  /** What one processing round has produced so far: the written files, everything logged, and
      the exception that escaped, if one did. */
  datatype Processed = Processed(files: seq<GeneratedFile>, diagnostics: seq<Diagnostic>, failure: Option<string>)

  /** The name Kotlin writes for a `ClassKind` constant. */
  function KindName(kind: ClassKind): (name: string)
    ensures |name| > 0
    ensures kind == Class <==> name == "CLASS"
  {
    match kind
    case Class => "CLASS"
    case Interface => "INTERFACE"
    case EnumClass => "ENUM_CLASS"
    case EnumEntry => "ENUM_ENTRY"
    case Object => "OBJECT"
    case AnnotationClass => "ANNOTATION_CLASS"
  }

  /** Only the symbols that are class declarations and pass validation are processed. */
  predicate Selected(s: Symbol)
  {
    s.ClassSymbol? && s.valid
  }

  /** The kinds the `when` rejects are interfaces, enum classes, enum entries, objects and
      annotation classes; everything else reaches the visitor. */
  predicate Supported(kind: ClassKind)
  {
    !(kind == Interface || kind == EnumClass || kind == EnumEntry || kind == Object || kind == AnnotationClass)
  }

  function UnsupportedKindMessage(c: ClassDecl): string
  {
    "Cannot generate function for class `" + GetName(c.decl) + "`, "
    + "class type `" + KindName(c.kind) + "` is not supported."
  }

  /** The file a visit wrote, if any. */
  function Written(result: Result<Option<GeneratedFile>>): (files: seq<GeneratedFile>)
    ensures |files| <= 1
    ensures |files| == 1 <==> result.Ok? && result.value.Some?
  {
    if result.Ok? && result.value.Some? then [result.value.value] else []
  }

  /** One symbol of the `forEach`. Once an exception has escaped, nothing more happens. */
  function ProcessSymbol(p: Processed, s: Symbol, visit: ClassDecl -> Visit): Processed
  {
    if p.failure.Some? || !Selected(s) then p
    else if !Supported(s.declaration.kind) then
      var logged := LogAndThrowError<()>(UnsupportedKindMessage(s.declaration), s.declaration);
      Processed(p.files, p.diagnostics + [logged.0], Some(logged.1.exception))
    else
      var v := visit(s.declaration);
      Processed(p.files + Written(v.result), p.diagnostics + v.diagnostics,
                if v.result.Failed? then Some(v.result.exception) else None)
  }

  /** The whole `forEach` over `symbols`, with `visit` standing for a fresh visitor's
      `visitClassDeclaration`. */
  function ProcessAll(symbols: seq<Symbol>, visit: ClassDecl -> Visit): Processed
  {
    if |symbols| == 0 then Processed([], [], None)
    else ProcessSymbol(ProcessAll(symbols[..|symbols| - 1], visit), symbols[|symbols| - 1], visit)
  }

  function VisitorOf(r: Resolver): ClassDecl -> Visit
    requires Acyclic(r)
  {
    c => Visited(r, c)
  }

  /** The round `process` performs on the symbols the resolver returns. */
  function Processing(r: Resolver, symbols: seq<Symbol>): Processed
    requires Acyclic(r)
  {
    ProcessAll(symbols, VisitorOf(r))
  }

  /** The symbols left after the `filter`. */
  function Filtered(symbols: seq<Symbol>): (kept: seq<Symbol>)
    ensures |kept| <= |symbols|
    ensures forall i :: 0 <= i < |kept| ==> Selected(kept[i])
    ensures forall i :: 0 <= i < |kept| ==> kept[i] in symbols
    ensures forall s :: s in symbols && Selected(s) ==> s in kept
  {
    if |symbols| == 0 then []
    else Filtered(symbols[..|symbols| - 1]) + (if Selected(symbols[|symbols| - 1]) then [symbols[|symbols| - 1]] else [])
  }

  /** A symbol that is not a valid class declaration changes nothing. */
  lemma SkippedSymbolChangesNothing(symbols: seq<Symbol>, s: Symbol, visit: ClassDecl -> Visit)
    requires !Selected(s)
    ensures ProcessAll(symbols + [s], visit) == ProcessAll(symbols, visit)
  {
    assert (symbols + [s])[..|symbols|] == symbols;
  }

  /** Filtering first and then processing is the same as processing everything: the filter
      removes exactly the symbols that would have no effect. */
  lemma {:induction false} FilterIsTransparent(symbols: seq<Symbol>, visit: ClassDecl -> Visit)
    ensures ProcessAll(Filtered(symbols), visit) == ProcessAll(symbols, visit)
  {
    if |symbols| > 0 {
      var init, last := symbols[..|symbols| - 1], symbols[|symbols| - 1];
      FilterIsTransparent(init, visit);
      if Selected(last) {
        assert Filtered(symbols) == Filtered(init) + [last];
        assert (Filtered(init) + [last])[..|Filtered(init)|] == Filtered(init);
      } else {
        assert Filtered(symbols) == Filtered(init);
      }
    }
  }

  /** A valid declaration of an unsupported kind logs one error naming the class and its kind,
      writes nothing, and throws. */
  lemma UnsupportedKindThrows(symbols: seq<Symbol>, c: ClassDecl, visit: ClassDecl -> Visit)
    requires ProcessAll(symbols, visit).failure.None?
    requires !Supported(c.kind)
    ensures var before, after := ProcessAll(symbols, visit), ProcessAll(symbols + [ClassSymbol(c, true)], visit);
            && after.files == before.files
            && after.diagnostics == before.diagnostics + [Error(UnsupportedKindMessage(c), GetName(c.decl))]
            && after.failure == Some(UnsupportedKindMessage(c))
  {
    assert (symbols + [ClassSymbol(c, true)])[..|symbols|] == symbols;
  }

  /** A valid declaration of a supported kind is visited: its diagnostics and its file, if one
      was written, are appended, and an exception from the visit escapes. */
  lemma SupportedKindIsVisited(symbols: seq<Symbol>, c: ClassDecl, visit: ClassDecl -> Visit)
    requires ProcessAll(symbols, visit).failure.None?
    requires c.kind == Class
    ensures var before, after := ProcessAll(symbols, visit), ProcessAll(symbols + [ClassSymbol(c, true)], visit);
            && after.files == before.files + Written(visit(c).result)
            && after.diagnostics == before.diagnostics + visit(c).diagnostics
            && (after.failure.Some? <==> visit(c).result.Failed?)
  {
    assert (symbols + [ClassSymbol(c, true)])[..|symbols|] == symbols;
  }

  /** Once an exception has escaped, the symbols after it are not processed. */
  lemma {:induction false} FailureStopsProcessing(processed: seq<Symbol>, rest: seq<Symbol>, visit: ClassDecl -> Visit)
    requires ProcessAll(processed, visit).failure.Some?
    ensures ProcessAll(processed + rest, visit) == ProcessAll(processed, visit)
  {
    if |rest| > 0 {
      var init := rest[..|rest| - 1];
      FailureStopsProcessing(processed, init, visit);
      assert (processed + rest)[..|processed + rest| - 1] == processed + init;
    } else {
      assert processed + rest == processed;
    }
  }

  /** A round that ended with an exception has a first symbol that caused it: the rounds before
      it ran without one, it was a valid declaration that was either of an unsupported kind or
      whose visit threw, and nothing after it had any effect. */
  lemma {:induction false} FirstFailure(symbols: seq<Symbol>, visit: ClassDecl -> Visit) returns (k: nat)
    requires ProcessAll(symbols, visit).failure.Some?
    ensures k < |symbols|
    ensures ProcessAll(symbols[..k], visit).failure.None?
    ensures Selected(symbols[k])
    ensures !Supported(symbols[k].declaration.kind) || visit(symbols[k].declaration).result.Failed?
    ensures ProcessAll(symbols, visit) == ProcessAll(symbols[..k + 1], visit)
  {
    var init := symbols[..|symbols| - 1];
    if ProcessAll(init, visit).failure.Some? {
      k := FirstFailure(init, visit);
      assert init[..k] == symbols[..k];
      assert init[..k + 1] == symbols[..k + 1];
    } else {
      k := |symbols| - 1;
      assert symbols[..k] == init;
      assert symbols[..k + 1] == symbols;
    }
  }

  /** Every file of a round was written by the visit of one of its symbols, in symbol order. */
  lemma {:induction false} FilesComeFromVisits(symbols: seq<Symbol>, visit: ClassDecl -> Visit)
    ensures |ProcessAll(symbols, visit).files| <= |symbols|
    ensures forall f :: f in ProcessAll(symbols, visit).files ==>
              exists i :: 0 <= i < |symbols| && symbols[i].ClassSymbol? && Written(visit(symbols[i].declaration).result) == [f]
  {
    if |symbols| > 0 {
      var init, last := symbols[..|symbols| - 1], symbols[|symbols| - 1];
      FilesComeFromVisits(init, visit);
      forall f | f in ProcessAll(symbols, visit).files
        ensures exists i :: 0 <= i < |symbols| && symbols[i].ClassSymbol? && Written(visit(symbols[i].declaration).result) == [f]
      {
        if f in ProcessAll(init, visit).files {
          var i :| 0 <= i < |init| && init[i].ClassSymbol? && Written(visit(init[i].declaration).result) == [f];
          assert symbols[i] == init[i];
        } else {
          assert symbols[|symbols| - 1] == last;
        }
      }
    }
  }

  /** `process`: returns the empty list of deferred symbols unless an exception escapes. */
  method Process(r: Resolver, symbols: seq<Symbol>)
    returns (files: seq<GeneratedFile>, diagnostics: seq<Diagnostic>, deferred: Result<seq<Symbol>>)
    requires Acyclic(r)
    ensures var p := Processing(r, symbols);
            && files == p.files && diagnostics == p.diagnostics
            && (p.failure.None? ==> deferred == Ok([]))
            && (p.failure.Some? ==> deferred == Failed(p.failure.value))
  {
    ghost var visit := VisitorOf(r);
    files, diagnostics := [], [];
    var i := 0;
    while i < |symbols|
      invariant 0 <= i <= |symbols|
      invariant ProcessAll(symbols[..i], visit) == Processed(files, diagnostics, None)
    {
      var s := symbols[i];
      assert symbols[..i + 1][..i] == symbols[..i];
      if s.ClassSymbol? && s.valid {
        var classDeclaration := s.declaration;
        if !Supported(classDeclaration.kind) {
          var logged := LogAndThrowError<()>(UnsupportedKindMessage(classDeclaration), classDeclaration);
          diagnostics := diagnostics + [logged.0];
          deferred := Failed(logged.1.exception);
          FailureStopsProcessing(symbols[..i + 1], symbols[i + 1..], visit);
          assert symbols[..i + 1] + symbols[i + 1..] == symbols;
          return;
        }
        var visitDiagnostics, visitResult := VisitClassDeclaration(r, classDeclaration);
        assert visit(classDeclaration) == Visit(visitDiagnostics, visitResult);
        diagnostics := diagnostics + visitDiagnostics;
        if visitResult.Failed? {
          deferred := Failed(visitResult.exception);
          FailureStopsProcessing(symbols[..i + 1], symbols[i + 1..], visit);
          assert symbols[..i + 1] + symbols[i + 1..] == symbols;
          return;
        }
        files := files + Written(visitResult);
      }
      i := i + 1;
    }
    assert symbols[..i] == symbols;
    deferred := Ok([]);
  }
}

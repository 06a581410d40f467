/** The small helpers on KSP symbols shared by the generator and the import set. */
module Extensions {
  import opened Wrappers
  import opened KspModel

  const NULLABLE_MARK := "?"

  /** `KSDeclaration.getName()`. */
  function GetName(d: Decl): string
  {
    d.simpleName
  }

  /** `KSType.getName()`: the name of the type's declaration. */
  function TypeName(t: KType): string
  {
    GetName(t.declaration)
  }

  /** The text `compareByQualifiedName` compares: package, a dot, simple name. */
  function ComparedName(d: Decl): string
  {
    d.packageName + "." + d.simpleName
  }

  function CompareByQualifiedName(a: Decl, b: Decl): bool
  {
    ComparedName(a) == ComparedName(b)
  }

  function CompareByDeclaration(t: KType, other: Decl): bool
  {
    CompareByQualifiedName(t.declaration, other)
  }

  /** The comparison is string equality, hence an equivalence relation. */
  lemma CompareByQualifiedNameIsEquivalence(a: Decl, b: Decl, c: Decl)
    ensures CompareByQualifiedName(a, a)
    ensures CompareByQualifiedName(a, b) == CompareByQualifiedName(b, a)
    ensures CompareByQualifiedName(a, b) && CompareByQualifiedName(b, c) ==> CompareByQualifiedName(a, c)
  {
  }

  /** Enclosing classes are not part of the compared text: two nested classes with the same
      package and simple name compare equal whatever they are nested in. */
  lemma CompareIgnoresEnclosingClasses(d: Decl, otherOuter: seq<string>, otherInSource: bool)
    ensures CompareByQualifiedName(d, d.(outerNames := otherOuter, inSourceFile := otherInSource))
  {
  }

  /** In `p + "." + s` with no dot in `s`, the dot before `s` is the last one. */
  lemma LastDotBeforeSimpleName(p: string, s: string)
    requires '.' !in s
    ensures var x := p + "." + s; x[|x| - |s| - 1] == '.'
    ensures var x := p + "." + s; forall k :: |x| - |s| <= k < |x| ==> x[k] != '.'
  {
    var x := p + "." + s;
    forall k | |x| - |s| <= k < |x|
      ensures x[k] != '.'
    {
      assert x[k] == s[k - (|x| - |s|)];
    }
  }

  /** For simple names without a dot (every Kotlin identifier), the comparison holds exactly
      when packages and simple names are equal. */
  lemma CompareByQualifiedNameIffSameNames(a: Decl, b: Decl)
    requires '.' !in a.simpleName && '.' !in b.simpleName
    ensures CompareByQualifiedName(a, b) <==> a.packageName == b.packageName && a.simpleName == b.simpleName
  {
    if CompareByQualifiedName(a, b) {
      var x := ComparedName(a);
      var n := |x|;
      LastDotBeforeSimpleName(a.packageName, a.simpleName);
      LastDotBeforeSimpleName(b.packageName, b.simpleName);
      assert |a.simpleName| == |b.simpleName|;
      assert a.simpleName == x[n - |a.simpleName|..];
      assert b.simpleName == x[n - |b.simpleName|..];
      assert a.packageName == x[..n - |a.simpleName| - 1];
      assert b.packageName == x[..n - |b.simpleName| - 1];
    }
  }

  /** `compareByDeclaration` identifies a type with a declaration exactly when the type's
      declaration lives in the same package and `getName` gives both the same name. */
  lemma CompareByDeclarationIffSameNames(t: KType, other: Decl)
    requires '.' !in t.declaration.simpleName && '.' !in other.simpleName
    ensures CompareByDeclaration(t, other)
            <==> t.declaration.packageName == other.packageName && TypeName(t) == GetName(other)
  {
    CompareByQualifiedNameIffSameNames(t.declaration, other);
  }

  /** A dot inside a simple name can make different names compare equal. */
  lemma DottedSimpleNameCollides()
    ensures CompareByQualifiedName(Decl("a.b", [], "C", true), Decl("a", [], "b.C", true))
  {
    assert ComparedName(Decl("a.b", [], "C", true)) == "a.b.C";
    assert ComparedName(Decl("a", [], "b.C", true)) == "a.b.C";
  }

  function MarkedNullableAsString(t: KType): (mark: string)
    ensures mark == NULLABLE_MARK <==> t.isMarkedNullable
    ensures !t.isMarkedNullable ==> mark == ""
  {
    if t.isMarkedNullable then NULLABLE_MARK else ""
  }

  /** `KSPLogger.logAndThrowError`: logs one error naming the class and then throws, so its
      only outcome is the logged error together with an escaping exception. */
  function LogAndThrowError<T>(errorMessage: string, targetClass: ClassDecl): (r: (Diagnostic, Result<T>))
    ensures r.0.Error? && r.0.message == errorMessage && r.0.className == GetName(targetClass.decl)
    ensures r.1.Failed? && r.1.exception == errorMessage
  {
    (Error(errorMessage, GetName(targetClass.decl)), Failed(errorMessage))
  }
}

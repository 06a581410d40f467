/**
 * The type-compatibility rules of `MappingFunctionGenerator`: `matches` on argument lists,
 * `evaluateKSTypeAssignable`, and the supertype search `containsSupertype`.
 */
module TypeCheck {
  import opened KspModel
  import opened Extensions

  /** `List<KSTypeArgument>.matches`. Its first test returns true whenever both lists are
      empty or both are non-empty, so the element-wise search after the size test is never
      reached: only a mix of an empty and a non-empty list fails. */
  function Matches(a: seq<TypeArg>, b: seq<TypeArg>): (r: bool)
    ensures r <==> (|a| == 0 <==> |b| == 0)
  {
    if (|a| == 0) == (|b| == 0) then true
    else if |a| != |b| then false
    else assert false; false
  }

  lemma MatchesIsSymmetricAndIgnoresContents(a: seq<TypeArg>, b: seq<TypeArg>, a': seq<TypeArg>, b': seq<TypeArg>)
    requires |a| == |a'| && |b| == |b'|
    ensures Matches(a, b) == Matches(b, a)
    ensures Matches(a, b) == Matches(a', b')
  {
  }

  /** `evaluateKSTypeAssignable(source, target, isGenericType)`. */
  function EvaluateKSTypeAssignable(source: KType, target: KType, isGenericType: bool): (r: bool)
    ensures r <==> !(source.isMarkedNullable && !target.isMarkedNullable)
                   && (isGenericType || (CompareByDeclaration(source, target.declaration)
                                         && Matches(source.arguments, target.arguments)))
  {
    if source.isMarkedNullable && !target.isMarkedNullable then false
    else if !isGenericType && !CompareByDeclaration(source, target.declaration) then false
    else isGenericType || Matches(source.arguments, target.arguments)
  }

  /** Null-safety is never dropped: for every combination of the flags, an accepted
      assignment from a nullable source has a nullable target. */
  lemma AssignableKeepsNullSafety(source: KType, target: KType, isGenericType: bool)
    requires EvaluateKSTypeAssignable(source, target, isGenericType)
    ensures source.isMarkedNullable ==> target.isMarkedNullable
  {
  }

  /** In generic mode only nullability is checked: declarations and arguments are ignored. */
  lemma GenericModeChecksOnlyNullability(source: KType, target: KType)
    ensures EvaluateKSTypeAssignable(source, target, true) <==> (source.isMarkedNullable ==> target.isMarkedNullable)
  {
  }

  /** `KSDeclaration.containsSupertype(searched)`: looks the declaration up by qualified name
      (a declaration that cannot be looked up has no supertypes) and succeeds when one of its
      declared supertypes compares equal to `searched` or, recursively, contains it. */
  function ContainsSupertype(r: Resolver, d: Decl, searched: Decl): bool
    requires Acyclic(r)
    decreases if d in r.classes then r.depth[d] + 1 else 0
  {
    if d !in r.classes then false
    else
      var superTypes := r.classes[d].superTypes;
      exists i :: 0 <= i < |superTypes| &&
        (CompareByQualifiedName(searched, superTypes[i].declaration)
         || ContainsSupertype(r, superTypes[i].declaration, searched))
  }

  /** `s` is declared as a direct supertype of the class `d`. */
  predicate DirectSupertype(r: Resolver, d: Decl, s: Decl)
  {
    d in r.classes && exists i :: 0 <= i < |r.classes[d].superTypes| && r.classes[d].superTypes[i].declaration == s
  }

  /** `path` is a chain of declarations, each a declared supertype of the one before, starting
      from a supertype of `d`: an independent statement of "transitive supertype". */
  predicate IsSupertypePath(r: Resolver, d: Decl, path: seq<Decl>)
  {
    && |path| > 0
    && DirectSupertype(r, d, path[0])
    && forall k :: 0 <= k < |path| - 1 ==> DirectSupertype(r, path[k], path[k + 1])
  }

  /** Every supertype chain ending in a declaration that compares equal to `searched` is found. */
  lemma {:induction false} SupertypePathIsFound(r: Resolver, d: Decl, path: seq<Decl>, searched: Decl)
    requires Acyclic(r)
    requires IsSupertypePath(r, d, path)
    requires CompareByQualifiedName(searched, path[|path| - 1])
    ensures ContainsSupertype(r, d, searched)
    decreases |path|
  {
    var superTypes := r.classes[d].superTypes;
    var i :| 0 <= i < |superTypes| && superTypes[i].declaration == path[0];
    if |path| == 1 {
      assert CompareByQualifiedName(searched, superTypes[i].declaration);
    } else {
      var rest := path[1..];
      assert IsSupertypePath(r, path[0], rest) by {
        forall k | 0 <= k < |rest| - 1
          ensures DirectSupertype(r, rest[k], rest[k + 1])
        {
          assert rest[k] == path[k + 1] && rest[k + 1] == path[k + 2];
        }
      }
      SupertypePathIsFound(r, path[0], rest, searched);
      assert ContainsSupertype(r, superTypes[i].declaration, searched);
    }
  }

  /** Conversely, whatever the search finds lies at the end of a supertype chain. */
  lemma {:induction false} FoundSupertypeHasPath(r: Resolver, d: Decl, searched: Decl)
    requires Acyclic(r)
    requires ContainsSupertype(r, d, searched)
    ensures exists path :: IsSupertypePath(r, d, path) && CompareByQualifiedName(searched, path[|path| - 1])
    decreases if d in r.classes then r.depth[d] + 1 else 0
  {
    var superTypes := r.classes[d].superTypes;
    var i :| 0 <= i < |superTypes| &&
      (CompareByQualifiedName(searched, superTypes[i].declaration)
       || ContainsSupertype(r, superTypes[i].declaration, searched));
    var s := superTypes[i].declaration;
    assert DirectSupertype(r, d, s);
    if CompareByQualifiedName(searched, s) {
      assert IsSupertypePath(r, d, [s]);
    } else {
      FoundSupertypeHasPath(r, s, searched);
      var rest :| IsSupertypePath(r, s, rest) && CompareByQualifiedName(searched, rest[|rest| - 1]);
      var path := [s] + rest;
      assert path[|path| - 1] == rest[|rest| - 1];
      assert IsSupertypePath(r, d, path) by {
        forall k | 0 <= k < |path| - 1
          ensures DirectSupertype(r, path[k], path[k + 1])
        {
          if k > 0 {
            assert path[k] == rest[k - 1] && path[k + 1] == rest[k];
          }
        }
      }
    }
  }

  /** A declaration that cannot be looked up (a type parameter, say) has no supertypes. */
  lemma UnresolvableDeclarationHasNoSupertype(r: Resolver, d: Decl, searched: Decl)
    requires Acyclic(r) && d !in r.classes
    ensures !ContainsSupertype(r, d, searched)
  {
  }
}

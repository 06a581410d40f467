/**
 * `extractMatchingAndMissingConstructorArguments`: splits the target's primary-constructor
 * parameters into those fed from a source property and those that become inputs of the
 * generated function. Specified here by pure functions over the parameters and properties;
 * the method at the end is the nested loop of the generator, proved against them.
 */
module Matching {
  import opened Wrappers
  import opened KspModel
  import opened Extensions
  import opened Arguments
  import opened TypeCheck
  import opened Seqs
  import opened Imports

  const KCONMAPPER_PROPERTY_ANNOTATION_NAME := "KConMapperProperty"

  /** What matching one (source, target) pair needs besides the parameter and the property. */
  datatype MatchContext = MatchContext(
    resolver: Resolver,
    targetClassTypeParameters: seq<TypeParam>,
    sourceClassName: string,
    targetClassName: string)

  predicate ValidContext(c: MatchContext)
  {
    Acyclic(c.resolver)
  }

  /** The first argument of the property's first `KConMapperProperty` annotation, if any. */
  function Aliases(annotations: seq<PropertyAnnotation>): (r: Option<seq<string>>)
    ensures r.Some? ==> exists i :: 0 <= i < |annotations|
                          && annotations[i].shortName == KCONMAPPER_PROPERTY_ANNOTATION_NAME
                          && annotations[i].firstArgument == r
    ensures (forall a :: a in annotations ==> a.shortName != KCONMAPPER_PROPERTY_ANNOTATION_NAME) ==> r.None?
  {
    if |annotations| == 0 then None
    else if annotations[0].shortName == KCONMAPPER_PROPERTY_ANNOTATION_NAME then annotations[0].firstArgument
    else Aliases(annotations[1..])
  }

  /** `i` is the position of the first `KConMapperProperty` annotation. */
  predicate IsFirstPropertyAnnotation(annotations: seq<PropertyAnnotation>, i: int)
  {
    && 0 <= i < |annotations|
    && annotations[i].shortName == KCONMAPPER_PROPERTY_ANNOTATION_NAME
    && forall j :: 0 <= j < i ==> annotations[j].shortName != KCONMAPPER_PROPERTY_ANNOTATION_NAME
  }

  /** `firstOrNull` picks the first matching annotation: the aliases are that annotation's
      first argument, whatever later annotations carry. */
  lemma {:induction false} AliasesIsFirst(annotations: seq<PropertyAnnotation>, i: int)
    requires IsFirstPropertyAnnotation(annotations, i)
    ensures Aliases(annotations) == annotations[i].firstArgument
  {
    if i > 0 {
      assert annotations[0].shortName != KCONMAPPER_PROPERTY_ANNOTATION_NAME;
      assert IsFirstPropertyAnnotation(annotations[1..], i - 1) by {
        forall j | 0 <= j < i - 1
          ensures annotations[1..][j].shortName != KCONMAPPER_PROPERTY_ANNOTATION_NAME
        {
          assert annotations[1..][j] == annotations[j + 1];
        }
      }
      AliasesIsFirst(annotations[1..], i - 1);
    }
  }

  /** A property is a candidate for a parameter when its own name or one of its aliases is
      the parameter's name. */
  predicate NameMatches(prop: Property, valueName: string)
  {
    prop.name == valueName
    || (Aliases(prop.annotations).Some? && valueName in Aliases(prop.annotations).value)
  }

  /** The first target type parameter whose name is the name of the parameter's type. */
  function ReferencedTypeParameter(tps: seq<TypeParam>, t: KType): (r: Option<TypeParam>)
    ensures r.Some? ==> r.value in tps && r.value.name == TypeName(t)
    ensures r.None? ==> forall tp :: tp in tps ==> tp.name != TypeName(t)
  {
    if |tps| == 0 then None
    else if tps[0].name == TypeName(t) then Some(tps[0])
    else ReferencedTypeParameter(tps[1..], t)
  }

  /** The declaration of the referenced type parameter's first upper bound. */
  function UpperBoundDeclaration(ref: Option<TypeParam>): Option<Decl>
  {
    if ref.Some? && |ref.value.bounds| > 0 then Some(ref.value.bounds[0].resolved.declaration) else None
  }

  /** What one source property does to one parameter. */
  datatype Candidacy =
    | NotCandidate
    | Accepted(argument: MatchingArgument, imports: seq<Import>)
    | Rejected(warning: Diagnostic)

  /** The body of the inner `forEach` for one property: the generic-bound test, then the
      general test, else a mismatch warning. An accepted generic-bound match imports the
      bound when it is declared in a source file. */
  function Candidate(c: MatchContext, p: ValueParam, prop: Property): Candidacy
    requires ValidContext(c)
  {
    if !NameMatches(prop, p.name) then NotCandidate
    else
      var targetType := p.ty;
      var sourceType := prop.ty;
      var referenced := ReferencedTypeParameter(c.targetClassTypeParameters, targetType);
      var bound := UpperBoundDeclaration(referenced);
      if bound.Some? && ContainsSupertype(c.resolver, sourceType.declaration, bound.value)
         && EvaluateKSTypeAssignable(sourceType, targetType, true)
      then
        Accepted(
          MatchingArgument(p.name, prop.name, Some(GetName(bound.value) + MarkedNullableAsString(targetType))),
          if bound.value.inSourceFile then [(bound.value.packageName, GetName(bound.value))] else [])
      else if EvaluateKSTypeAssignable(sourceType, targetType, referenced.Some?) then
        Accepted(
          MatchingArgument(p.name, prop.name,
                           if referenced.Some? then Some(referenced.value.name + MarkedNullableAsString(targetType)) else None),
          [])
      else
        Rejected(MismatchWarning(c.sourceClassName, p.name, c.targetClassName, sourceType, targetType))
  }

  /** The state of the inner loop: the current `matchingArgument`, the warnings logged and the
      imports added so far. */
  datatype Scan = Scan(matching: Option<MatchingArgument>, warnings: seq<Diagnostic>, imports: seq<Import>)

  /** The inner loop over the source properties: every candidate is checked and each accepted
      one overwrites the match (there is no `break`). */
  function ScanProperties(c: MatchContext, p: ValueParam, props: seq<Property>): Scan
    requires ValidContext(c)
  {
    if |props| == 0 then Scan(None, [], [])
    else
      var prev := ScanProperties(c, p, props[..|props| - 1]);
      match Candidate(c, p, props[|props| - 1])
      case NotCandidate => prev
      case Accepted(m, imps) => Scan(Some(m), prev.warnings, prev.imports + imps)
      case Rejected(w) => Scan(prev.matching, prev.warnings + [w], prev.imports)
  }

  /** The fate of one parameter after the inner loop. */
  datatype Fate = Matched(argument: MatchingArgument) | Missing | Dropped

  function FateOf(c: MatchContext, p: ValueParam, props: seq<Property>): Fate
    requires ValidContext(c)
  {
    var s := ScanProperties(c, p, props);
    if s.matching.Some? then Matched(s.matching.value)
    else if !p.hasDefault then Missing
    else Dropped
  }

  /** The result of the outer loop: the two lists, and the warnings and imports produced. */
  datatype Extraction = Extraction(
    missing: seq<ValueParam>,
    matching: seq<MatchingArgument>,
    warnings: seq<Diagnostic>,
    imports: seq<Import>)

  function ExtractParams(c: MatchContext, params: seq<ValueParam>, props: seq<Property>): Extraction
    requires ValidContext(c)
  {
    if |params| == 0 then Extraction([], [], [], [])
    else
      var prev := ExtractParams(c, params[..|params| - 1], props);
      var p := params[|params| - 1];
      var s := ScanProperties(c, p, props);
      var fate := FateOf(c, p, props);
      Extraction(
        prev.missing + (if fate.Missing? then [p] else []),
        prev.matching + (if fate.Matched? then [fate.argument] else []),
        prev.warnings + s.warnings,
        prev.imports + s.imports)
  }

  /** The pair of lists for a target and a source class; a target without a primary
      constructor gives two empty lists. */
  function ExtractMatchingAndMissing(c: MatchContext, target: ClassDecl, source: ClassDecl): (e: Extraction)
    requires ValidContext(c)
    ensures target.primaryConstructor.None? ==> e == Extraction([], [], [], [])
  {
    match target.primaryConstructor
    case None => Extraction([], [], [], [])
    case Some(params) => ExtractParams(c, params, source.allProperties)
  }

  // ---------------------------------------------------------------------------------------
  // Properties of one candidate

  /** A property is looked at exactly when its name or an alias is the parameter's name. */
  lemma CandidateIffNameMatches(c: MatchContext, p: ValueParam, prop: Property)
    requires ValidContext(c)
    ensures Candidate(c, p, prop).NotCandidate? <==> !NameMatches(prop, p.name)
  {
  }

  /** An accepted match pairs the parameter's name with the property's name, never drops
      null-safety, and records a cast exactly when the parameter's type names a type
      parameter of the target. */
  lemma AcceptedMatchShape(c: MatchContext, p: ValueParam, prop: Property)
    requires ValidContext(c)
    requires Candidate(c, p, prop).Accepted?
    ensures var m := Candidate(c, p, prop).argument;
            && m.targetClassPropertyName == p.name
            && m.sourceClassPropertyName == prop.name
            && (prop.ty.isMarkedNullable ==> p.ty.isMarkedNullable)
            && (m.targetClassPropertyGenericTypeName.Some?
                <==> ReferencedTypeParameter(c.targetClassTypeParameters, p.ty).Some?)
  {
  }

  /** Outside a generic context a match needs the same declaration and compatible arguments. */
  lemma NonGenericMatchNeedsSameDeclaration(c: MatchContext, p: ValueParam, prop: Property)
    requires ValidContext(c)
    requires Candidate(c, p, prop).Accepted?
    requires ReferencedTypeParameter(c.targetClassTypeParameters, p.ty).None?
    ensures CompareByDeclaration(prop.ty, p.ty.declaration)
    ensures Matches(prop.ty.arguments, p.ty.arguments)
    ensures Candidate(c, p, prop).argument.targetClassPropertyGenericTypeName.None?
  {
  }

  /** The generic-bound rule: a parameter typed by a bounded type parameter whose first bound
      is a transitive supertype of the property's type is matched with a cast to the bound. */
  lemma GenericBoundMatchCastsToBound(c: MatchContext, p: ValueParam, prop: Property, path: seq<Decl>)
    requires ValidContext(c)
    requires NameMatches(prop, p.name)
    requires UpperBoundDeclaration(ReferencedTypeParameter(c.targetClassTypeParameters, p.ty)).Some?
    requires IsSupertypePath(c.resolver, prop.ty.declaration, path)
    requires CompareByQualifiedName(
               UpperBoundDeclaration(ReferencedTypeParameter(c.targetClassTypeParameters, p.ty)).value,
               path[|path| - 1])
    requires prop.ty.isMarkedNullable ==> p.ty.isMarkedNullable
    ensures var bound := UpperBoundDeclaration(ReferencedTypeParameter(c.targetClassTypeParameters, p.ty)).value;
            Candidate(c, p, prop)
            == Accepted(MatchingArgument(p.name, prop.name, Some(bound.simpleName + MarkedNullableAsString(p.ty))),
                        if bound.inSourceFile then [(bound.packageName, bound.simpleName)] else [])
  {
    var bound := UpperBoundDeclaration(ReferencedTypeParameter(c.targetClassTypeParameters, p.ty)).value;
    SupertypePathIsFound(c.resolver, prop.ty.declaration, path, bound);
  }

  /** A rejected candidate logs exactly one warning about that parameter and property type. */
  lemma RejectedCandidateWarnsOnce(c: MatchContext, p: ValueParam, prop: Property)
    requires ValidContext(c)
    requires NameMatches(prop, p.name)
    requires !EvaluateKSTypeAssignable(prop.ty, p.ty, ReferencedTypeParameter(c.targetClassTypeParameters, p.ty).Some?)
    ensures Candidate(c, p, prop)
            == Rejected(MismatchWarning(c.sourceClassName, p.name, c.targetClassName, prop.ty, p.ty))
  {
    AssignableMonotoneInGenericity(prop.ty, p.ty);
  }

  lemma AssignableMonotoneInGenericity(s: KType, t: KType)
    ensures EvaluateKSTypeAssignable(s, t, false) ==> EvaluateKSTypeAssignable(s, t, true)
  {
  }

  // ---------------------------------------------------------------------------------------
  // Properties of the inner loop

  /** The verdict on every source property, in order. */
  function Verdicts(c: MatchContext, p: ValueParam, props: seq<Property>): (vs: seq<Candidacy>)
    requires ValidContext(c)
    ensures |vs| == |props|
    ensures forall i :: 0 <= i < |props| ==> vs[i] == Candidate(c, p, props[i])
  {
    seq(|props|, i requires 0 <= i < |props| => Candidate(c, p, props[i]))
  }

  /** The argument of the last accepted verdict, if any. */
  function LastAccepted(vs: seq<Candidacy>): Option<MatchingArgument>
  {
    if |vs| == 0 then None
    else if vs[|vs| - 1].Accepted? then Some(vs[|vs| - 1].argument)
    else LastAccepted(vs[..|vs| - 1])
  }

  lemma {:induction false} LastAcceptedIsLast(vs: seq<Candidacy>)
    ensures LastAccepted(vs).Some? ==>
              exists k :: 0 <= k < |vs| && vs[k].Accepted? && vs[k].argument == LastAccepted(vs).value
                          && forall j :: k < j < |vs| ==> !vs[j].Accepted?
    ensures LastAccepted(vs).None? <==> forall k :: 0 <= k < |vs| ==> !vs[k].Accepted?
  {
    if |vs| > 0 {
      var init := vs[..|vs| - 1];
      LastAcceptedIsLast(init);
      if !vs[|vs| - 1].Accepted? {
        assert LastAccepted(vs) == LastAccepted(init);
        if LastAccepted(init).Some? {
          var k :| 0 <= k < |init| && init[k].Accepted? && init[k].argument == LastAccepted(init).value
                   && forall j :: k < j < |init| ==> !init[j].Accepted?;
          assert vs[k] == init[k];
          forall j | k < j < |vs|
            ensures !vs[j].Accepted?
          {
            if j < |init| {
              assert vs[j] == init[j];
            }
          }
        } else {
          forall k | 0 <= k < |vs|
            ensures !vs[k].Accepted?
          {
            if k < |init| {
              assert vs[k] == init[k];
            }
          }
        }
      }
    }
  }

  /** The inner loop's match is the last accepted verdict. */
  lemma {:induction false} ScanMatchIsLastAccepted(c: MatchContext, p: ValueParam, props: seq<Property>)
    requires ValidContext(c)
    ensures ScanProperties(c, p, props).matching == LastAccepted(Verdicts(c, p, props))
    decreases |props|
  {
    if |props| > 0 {
      var init := props[..|props| - 1];
      ScanMatchIsLastAccepted(c, p, init);
      ScanMatchingStep(c, p, props);
      assert Verdicts(c, p, props)[..|props| - 1] == Verdicts(c, p, init);
    }
  }

  /** The last accepted candidate wins: the match is the argument of an accepted property
      after which no property is accepted. */
  lemma LastAcceptedCandidateWins(c: MatchContext, p: ValueParam, props: seq<Property>)
    requires ValidContext(c)
    ensures var s := ScanProperties(c, p, props);
            s.matching.Some? ==>
              exists k :: 0 <= k < |props| && Candidate(c, p, props[k]).Accepted?
                          && Candidate(c, p, props[k]).argument == s.matching.value
                          && forall j :: k < j < |props| ==> !Candidate(c, p, props[j]).Accepted?
  {
    var vs := Verdicts(c, p, props);
    ScanMatchIsLastAccepted(c, p, props);
    LastAcceptedIsLast(vs);
    if LastAccepted(vs).Some? {
      var k :| 0 <= k < |vs| && vs[k].Accepted? && vs[k].argument == LastAccepted(vs).value
               && forall j :: k < j < |vs| ==> !vs[j].Accepted?;
      assert Candidate(c, p, props[k]).Accepted?;
    }
  }

  /** There is no match iff no candidate is accepted. */
  lemma NoMatchIffNoneAccepted(c: MatchContext, p: ValueParam, props: seq<Property>)
    requires ValidContext(c)
    ensures ScanProperties(c, p, props).matching.None? <==>
              forall k :: 0 <= k < |props| ==> !Candidate(c, p, props[k]).Accepted?
  {
    ScanMatchIsLastAccepted(c, p, props);
    LastAcceptedIsLast(Verdicts(c, p, props));
  }

  /** The match after one more property: that property's argument if it is accepted, else
      the match before it. */
  lemma ScanMatchingStep(c: MatchContext, p: ValueParam, props: seq<Property>)
    requires ValidContext(c) && |props| > 0
    ensures var candidate := Candidate(c, p, props[|props| - 1]);
            ScanProperties(c, p, props).matching
            == if candidate.Accepted? then Some(candidate.argument)
               else ScanProperties(c, p, props[..|props| - 1]).matching
  {
  }

  /** Counts the rejected candidates, from the front. */
  function RejectedCount(c: MatchContext, p: ValueParam, props: seq<Property>): nat
    requires ValidContext(c)
  {
    if |props| == 0 then 0
    else (if Candidate(c, p, props[0]).Rejected? then 1 else 0) + RejectedCount(c, p, props[1..])
  }

  lemma {:induction false} RejectedCountSnoc(c: MatchContext, p: ValueParam, props: seq<Property>)
    requires ValidContext(c) && |props| > 0
    ensures RejectedCount(c, p, props)
            == RejectedCount(c, p, props[..|props| - 1]) + (if Candidate(c, p, props[|props| - 1]).Rejected? then 1 else 0)
    decreases |props|
  {
    if |props| > 1 {
      RejectedCountSnoc(c, p, props[1..]);
      assert props[1..][..|props[1..]| - 1] == props[..|props| - 1][1..];
    }
  }

  /** One warning per name-matching candidate that fails both type checks. */
  lemma {:induction false} OneWarningPerRejectedCandidate(c: MatchContext, p: ValueParam, props: seq<Property>)
    requires ValidContext(c)
    ensures |ScanProperties(c, p, props).warnings| == RejectedCount(c, p, props)
    decreases |props|
  {
    if |props| > 0 {
      OneWarningPerRejectedCandidate(c, p, props[..|props| - 1]);
      RejectedCountSnoc(c, p, props);
    }
  }

  lemma ScanMatchNamesParameter(c: MatchContext, p: ValueParam, props: seq<Property>)
    requires ValidContext(c)
    requires ScanProperties(c, p, props).matching.Some?
    ensures ScanProperties(c, p, props).matching.value.targetClassPropertyName == p.name
  {
    LastAcceptedCandidateWins(c, p, props);
    var k :| 0 <= k < |props| && Candidate(c, p, props[k]).Accepted?
             && Candidate(c, p, props[k]).argument == ScanProperties(c, p, props).matching.value;
    AcceptedMatchShape(c, p, props[k]);
  }

  // ---------------------------------------------------------------------------------------
  // Properties of the outer loop

  function MatchedNames(ms: seq<MatchingArgument>): (r: seq<string>)
    ensures |r| == |ms|
    ensures forall i :: 0 <= i < |ms| ==> r[i] == ms[i].targetClassPropertyName
  {
    seq(|ms|, i requires 0 <= i < |ms| => ms[i].targetClassPropertyName)
  }

  function ParamNames(params: seq<ValueParam>): (r: seq<string>)
    ensures |r| == |params|
    ensures forall i :: 0 <= i < |params| ==> r[i] == params[i].name
  {
    seq(|params|, i requires 0 <= i < |params| => params[i].name)
  }

  function DroppedCount(c: MatchContext, params: seq<ValueParam>, props: seq<Property>): nat
    requires ValidContext(c)
  {
    if |params| == 0 then 0
    else DroppedCount(c, params[..|params| - 1], props) + (if FateOf(c, params[|params| - 1], props).Dropped? then 1 else 0)
  }

  /** One step of the outer loop, as the two lists see it. */
  lemma ExtractStep(c: MatchContext, params: seq<ValueParam>, props: seq<Property>)
    requires ValidContext(c) && |params| > 0
    ensures var prev := ExtractParams(c, params[..|params| - 1], props);
            var e := ExtractParams(c, params, props);
            var p := params[|params| - 1];
            && e.missing == prev.missing + (if FateOf(c, p, props).Missing? then [p] else [])
            && e.matching == prev.matching + (if FateOf(c, p, props).Matched? then [FateOf(c, p, props).argument] else [])
  {
  }

  /** The missing parameters keep constructor order. */
  lemma {:induction false} MissingKeepsOrder(c: MatchContext, params: seq<ValueParam>, props: seq<Property>)
    requires ValidContext(c)
    ensures IsSubsequence(ExtractParams(c, params, props).missing, params)
    decreases |params|
  {
    if |params| > 0 {
      var init, p := params[..|params| - 1], params[|params| - 1];
      MissingKeepsOrder(c, init, props);
      ExtractStep(c, params, props);
      assert params == init + [p];
      var before := ExtractParams(c, init, props).missing;
      SubsequenceExtend(before, init, p);
      if FateOf(c, p, props).Missing? {
        assert ExtractParams(c, params, props).missing == before + [p];
      } else {
        assert ExtractParams(c, params, props).missing == before;
      }
    }
  }

  /** The matched arguments keep constructor order: their target names are a subsequence
      of the parameter names. */
  lemma {:induction false} MatchedKeepsOrder(c: MatchContext, params: seq<ValueParam>, props: seq<Property>)
    requires ValidContext(c)
    ensures IsSubsequence(MatchedNames(ExtractParams(c, params, props).matching), ParamNames(params))
    decreases |params|
  {
    if |params| > 0 {
      var init, p := params[..|params| - 1], params[|params| - 1];
      MatchedKeepsOrder(c, init, props);
      ExtractStep(c, params, props);
      var before := MatchedNames(ExtractParams(c, init, props).matching);
      var after := MatchedNames(ExtractParams(c, params, props).matching);
      assert ParamNames(params) == ParamNames(init) + [p.name];
      SubsequenceExtend(before, ParamNames(init), p.name);
      if FateOf(c, p, props).Matched? {
        ScanMatchNamesParameter(c, p, props);
        assert after == before + [p.name];
      } else {
        assert after == before;
      }
    }
  }

  /** Every parameter is matched, missing or dropped: the three counts add up to the number
      of parameters. */
  lemma {:induction false} FatesPartitionParameters(c: MatchContext, params: seq<ValueParam>, props: seq<Property>)
    requires ValidContext(c)
    ensures var e := ExtractParams(c, params, props);
            |e.missing| + |e.matching| + DroppedCount(c, params, props) == |params|
    decreases |params|
  {
    if |params| > 0 {
      FatesPartitionParameters(c, params[..|params| - 1], props);
      ExtractStep(c, params, props);
    }
  }

  /** Every parameter ends up in the list its fate names: a matched one in the matched list,
      an unmatched one without a default in the missing list. */
  lemma {:induction false} FatesAreRecorded(c: MatchContext, params: seq<ValueParam>, props: seq<Property>)
    requires ValidContext(c)
    ensures var e := ExtractParams(c, params, props);
            && (forall k :: 0 <= k < |params| && FateOf(c, params[k], props).Matched?
                  ==> FateOf(c, params[k], props).argument in e.matching)
            && (forall k :: 0 <= k < |params| && FateOf(c, params[k], props).Missing? ==> params[k] in e.missing)
    decreases |params|
  {
    if |params| > 0 {
      var init := params[..|params| - 1];
      FatesAreRecorded(c, init, props);
      ExtractStep(c, params, props);
      assert forall k :: 0 <= k < |init| ==> init[k] == params[k];
    }
  }

  /** Conversely every missing entry is a parameter without a match or default, and every
      match is the match of some parameter. */
  lemma {:induction false} RecordedEntriesHaveTheirFate(c: MatchContext, params: seq<ValueParam>, props: seq<Property>)
    requires ValidContext(c)
    ensures var e := ExtractParams(c, params, props);
            && (forall x :: x in e.missing ==> x in params && FateOf(c, x, props).Missing?)
            && (forall m :: m in e.matching ==> exists k :: 0 <= k < |params| && FateOf(c, params[k], props) == Matched(m))
    decreases |params|
  {
    if |params| > 0 {
      var init := params[..|params| - 1];
      RecordedEntriesHaveTheirFate(c, init, props);
      ExtractStep(c, params, props);
      var e := ExtractParams(c, params, props);
      forall m | m in e.matching
        ensures exists k :: 0 <= k < |params| && FateOf(c, params[k], props) == Matched(m)
      {
        if m in ExtractParams(c, init, props).matching {
          var k :| 0 <= k < |init| && FateOf(c, init[k], props) == Matched(m);
          assert params[k] == init[k];
        } else {
          assert FateOf(c, params[|params| - 1], props) == Matched(m);
        }
      }
    }
  }

  /** Constructor parameter names are distinct in Kotlin; then an unmatched parameter with a
      default appears in neither list. */
  lemma DroppedParameterIsInNeitherList(c: MatchContext, params: seq<ValueParam>, props: seq<Property>, k: nat)
    requires ValidContext(c)
    requires forall i, j :: 0 <= i < j < |params| ==> params[i].name != params[j].name
    requires k < |params| && FateOf(c, params[k], props).Dropped?
    ensures params[k] !in ExtractParams(c, params, props).missing
    ensures params[k].name !in MatchedNames(ExtractParams(c, params, props).matching)
  {
    var e := ExtractParams(c, params, props);
    RecordedEntriesHaveTheirFate(c, params, props);
    if params[k].name in MatchedNames(e.matching) {
      var i :| 0 <= i < |e.matching| && MatchedNames(e.matching)[i] == params[k].name;
      assert e.matching[i] in e.matching;
      var j :| 0 <= j < |params| && FateOf(c, params[j], props) == Matched(e.matching[i]);
      ScanMatchNamesParameter(c, params[j], props);
    }
  }

  // ---------------------------------------------------------------------------------------
  // The generator's nested loop

  /** The inner `forEach` of `extractMatchingAndMissingConstructorArguments` for one
      constructor parameter: it visits every source property, keeps the last accepted match,
      logs one warning per rejected candidate and imports the bounds it casts to. */
  method ScanSourceProperties(c: MatchContext, valueParam: ValueParam, props: seq<Property>, packageImports: PackageImports)
    returns (matchingArgument: Option<MatchingArgument>, warnings: seq<Diagnostic>)
    requires ValidContext(c)
    requires packageImports.Valid()
    modifies packageImports
    ensures packageImports.Valid()
    ensures var s := ScanProperties(c, valueParam, props);
            && matchingArgument == s.matching
            && warnings == s.warnings
            && packageImports.imports == InsertAll(old(packageImports.imports), s.imports)
    ensures packageImports.targetClassTypeParameters == old(packageImports.targetClassTypeParameters)
  {
    matchingArgument, warnings := None, [];
    ghost var imports0 := packageImports.imports;
    var j := 0;
    while j < |props|
      invariant 0 <= j <= |props|
      invariant packageImports.Valid()
      invariant packageImports.targetClassTypeParameters == old(packageImports.targetClassTypeParameters)
      invariant var s := ScanProperties(c, valueParam, props[..j]);
                && matchingArgument == s.matching
                && warnings == s.warnings
                && packageImports.imports == InsertAll(imports0, s.imports)
    {
      assert props[..j + 1][..j] == props[..j];
      ghost var before := ScanProperties(c, valueParam, props[..j]).imports;
      match Candidate(c, valueParam, props[j]) {
        case NotCandidate =>
        case Accepted(m, imps) =>
          if |imps| > 0 {
            packageImports.AddImport(imps[0].0, imps[0].1);
            assert imps == [imps[0]];
          }
          InsertAllAppend(imports0, before, imps);
          matchingArgument := Some(m);
        case Rejected(w) =>
          warnings := warnings + [w];
      }
      j := j + 1;
    }
    assert props[..|props|] == props;
  }

  /** `extractMatchingAndMissingConstructorArguments`: the outer `forEach` over the target's
      constructor parameters; a parameter left without a match is missing unless it has a
      default value. */
  method ExtractMatchingAndMissingConstructorArguments(
    c: MatchContext, targetClass: ClassDecl, sourceClass: ClassDecl, packageImports: PackageImports)
    returns (missingArguments: seq<ValueParam>, matchingArguments: seq<MatchingArgument>, warnings: seq<Diagnostic>)
    requires ValidContext(c)
    requires packageImports.Valid()
    modifies packageImports
    ensures packageImports.Valid()
    ensures var e := ExtractMatchingAndMissing(c, targetClass, sourceClass);
            && missingArguments == e.missing
            && matchingArguments == e.matching
            && warnings == e.warnings
            && packageImports.imports == InsertAll(old(packageImports.imports), e.imports)
    ensures packageImports.targetClassTypeParameters == old(packageImports.targetClassTypeParameters)
  {
    missingArguments, matchingArguments, warnings := [], [], [];
    if targetClass.primaryConstructor.None? {
      return;
    }
    var params := targetClass.primaryConstructor.value;
    var props := sourceClass.allProperties;
    ghost var imports0 := packageImports.imports;
    var i := 0;
    while i < |params|
      invariant 0 <= i <= |params|
      invariant packageImports.Valid()
      invariant packageImports.targetClassTypeParameters == old(packageImports.targetClassTypeParameters)
      invariant var e := ExtractParams(c, params[..i], props);
                && missingArguments == e.missing && matchingArguments == e.matching && warnings == e.warnings
                && packageImports.imports == InsertAll(imports0, e.imports)
    {
      var valueParam := params[i];
      assert params[..i + 1][..i] == params[..i];
      ghost var before := ExtractParams(c, params[..i], props).imports;
      ghost var importsBefore := packageImports.imports;
      var matchingArgument, newWarnings := ScanSourceProperties(c, valueParam, props, packageImports);
      InsertAllAppend(imports0, before, ScanProperties(c, valueParam, props).imports);
      warnings := warnings + newWarnings;
      if matchingArgument.Some? {
        matchingArguments := matchingArguments + [matchingArgument.value];
      } else if !valueParam.hasDefault {
        missingArguments := missingArguments + [valueParam];
      }
      i := i + 1;
    }
    assert params[..|params|] == params;
  }
}

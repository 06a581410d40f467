/**
 * The part of the Kotlin Symbol Processing (KSP) symbol graph that the processor reads,
 * as immutable values. KSP itself (resolution, the logger, the code generator) is not
 * modelled: a resolved type is a `KType`, the resolver's class lookup is a map, and
 * everything a logger would report is returned as a `Diagnostic`.
 */
module KspModel {
  import opened Wrappers

  /** A declaration: its package, the names of the classes it is nested in, its simple name,
      and whether it has a containing source file (false for library classes). */
  datatype Decl = Decl(packageName: string, outerNames: seq<string>, simpleName: string, inSourceFile: bool)

  /** A resolved type (`KSType`): the declaration it names, its type arguments and `?`. */
  datatype KType = KType(declaration: Decl, arguments: seq<TypeArg>, isMarkedNullable: bool)

  /** A type argument (`KSTypeArgument`): a star projection, a non-star argument whose type
      resolves, or a non-star argument without a type reference. */
  datatype TypeArg = Star | Of(ty: KType) | Unresolved

  /** A type reference as written in the source (its text) together with what it resolves to. */
  datatype TypeRef = TypeRef(text: string, resolved: KType)

  /** A declared type parameter with its upper bounds in declaration order. */
  datatype TypeParam = TypeParam(name: string, bounds: seq<TypeRef>)

  /** A primary-constructor parameter. */
  datatype ValueParam = ValueParam(name: string, ty: KType, hasDefault: bool)

  /** An annotation on a property: its short name and the value of its first argument,
      when that argument is a list of strings. */
  datatype PropertyAnnotation = PropertyAnnotation(shortName: string, firstArgument: Option<seq<string>>)

  /** A property of a class, inherited ones included. */
  datatype Property = Property(name: string, ty: KType, annotations: seq<PropertyAnnotation>)

  datatype ClassKind = Class | Interface | EnumClass | EnumEntry | Object | AnnotationClass

  /** A named annotation argument whose value is a list of class literals. */
  datatype AnnotationArgument = AnnotationArgument(name: Option<string>, classes: seq<KType>)

  datatype ClassAnnotation = ClassAnnotation(shortName: string, arguments: seq<AnnotationArgument>)

  /** A class declaration (`KSClassDeclaration`). `allProperties` is what `getAllProperties()`
      yields, inherited properties included, in that order. */
  datatype ClassDecl = ClassDecl(
    decl: Decl,
    kind: ClassKind,
    typeParameters: seq<TypeParam>,
    primaryConstructor: Option<seq<ValueParam>>,
    allProperties: seq<Property>,
    superTypes: seq<KType>,
    annotations: seq<ClassAnnotation>)

  /** `Resolver.getClassDeclarationByName`: the classes that can be looked up by their
      qualified name. `depth` numbers the hierarchy so that a class's resolvable supertypes
      are strictly shallower; Kotlin rejects cyclic inheritance, so such a numbering exists. */
  datatype Resolver = Resolver(classes: map<Decl, ClassDecl>, depth: map<Decl, nat>)

  predicate Acyclic(r: Resolver)
  {
    && r.classes.Keys <= r.depth.Keys
    && forall d, i {:trigger r.classes[d].superTypes[i]} ::
         d in r.classes && 0 <= i < |r.classes[d].superTypes| && r.classes[d].superTypes[i].declaration in r.classes
         ==> r.depth[r.classes[d].superTypes[i].declaration] < r.depth[d]
  }

  /** What the processor hands to `KSPLogger`. A warning whose message embeds rendered
      `KSType`s is kept as a record of its parts. */
  datatype Diagnostic =
    | Warning(message: string)
    | MismatchWarning(sourceClassName: string, propertyName: string, targetClassName: string,
                      sourceType: KType, targetType: KType)
    | Error(message: string, className: string)
}

/** The two small value types of the generator. */
module Arguments {
  import opened Wrappers
  import opened KspModel

  /** A target-constructor parameter fed from a source property, with the type the read is
      cast to when the parameter's type is one of the target's type parameters. Being a
      datatype, two values are equal exactly when their fields are. */
  datatype MatchingArgument = MatchingArgument(
    targetClassPropertyName: string,
    sourceClassPropertyName: string,
    targetClassPropertyGenericTypeName: Option<string>)

  /** The sealed `ArgumentType`: a resolved type argument, or the `Asterix` singleton. */
  datatype ArgumentType = ArgumentClass(ksType: KType) | Asterix
}

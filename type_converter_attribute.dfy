/** The attribute that names the converter of a property or field
    (TypeConversion/TypeConverterAttribute.cs). Its `Type` and `Instance` have
    private setters written only by the constructors, so an attribute is a
    value: one constructor validates a converter type, the other stores a
    converter instance. */
module TypeConverterAttributes {
  import opened Runtime

  /** The `ITypeConverter` interface. */
  const TypeConverterInterface: TypeHandle := TypeHandle("CsvHelper.TypeConversion.ITypeConverter")

  /** A converter object, known by its runtime type. */
  datatype ConverterInstance = ConverterInstance(runtimeType: TypeHandle)

  /** `Type` and `Instance`, each null when the other constructor was used. */
  datatype TypeConverterAttribute = TypeConverterAttribute(converterType: Option<TypeHandle>, instance: Option<ConverterInstance>)

  /** The message of the ArgumentException for a type that is not a converter. */
  function NotAConverterMessage(t: TypeHandle): string {
    "Type '" + t.fullName + "' is not an ITypeConverter."
  }

  /** `TypeConverterAttribute(Type type)`: accepted exactly when the type is
      assignable to `ITypeConverter`; otherwise an ArgumentException on the
      parameter "type". A null type is not assignable either, and reading its
      name for the message throws a NullReferenceException first. */
  function FromType(h: TypeHierarchy, converterType: Option<TypeHandle>): (r: Result<TypeConverterAttribute>)
    ensures r.Success? <==> converterType.Some? && h.IsAssignableTo(converterType.value, TypeConverterInterface)
    ensures r.Success? ==> r.value.converterType == converterType && r.value.instance.None?
    ensures r.Failure? && converterType.Some? ==>
              r.error == ArgumentException(NotAConverterMessage(converterType.value), Some("type"))
    ensures r.Failure? && converterType.None? ==> r.error == NullReferenceException
  {
    match converterType
    case None => Failure(NullReferenceException)
    case Some(t) =>
      if !h.IsAssignableTo(t, TypeConverterInterface) then
        Failure(ArgumentException(NotAConverterMessage(t), Some("type")))
      else
        Success(TypeConverterAttribute(converterType, None))
  }

  /** `TypeConverterAttribute(ITypeConverter instance)`: the instance, null or
      not, is stored without a check, and `Type` stays null. */
  function FromInstance(instance: Option<ConverterInstance>): (r: TypeConverterAttribute)
    ensures r.instance == instance && r.converterType.None?
  {
    TypeConverterAttribute(None, instance)
  }

  /** The interface itself and every type that implements it are accepted. */
  lemma ConverterTypesAccepted(h: TypeHierarchy, t: TypeHandle)
    requires t == TypeConverterInterface || (t, TypeConverterInterface) in h.derivesFrom
    ensures FromType(h, Some(t)) == Success(TypeConverterAttribute(Some(t), None))
  {
  }

  /** The string type, which implements nothing in an empty hierarchy, is refused. */
  lemma StringTypeRefused()
    ensures FromType(TypeHierarchy({}, {}), Some(StringType))
         == Failure(ArgumentException(NotAConverterMessage(StringType), Some("type")))
  {
    assert |StringType.fullName| != |TypeConverterInterface.fullName|;
  }

  /** The two constructors never produce the same attribute: one always has a
      type, the other never. */
  lemma ConstructorsDisjoint(h: TypeHierarchy, converterType: Option<TypeHandle>, instance: Option<ConverterInstance>)
    ensures FromType(h, converterType).Success? ==> FromType(h, converterType).value != FromInstance(instance)
  {
  }
}

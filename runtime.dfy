/** The pieces of the host runtime that the converters and class maps rely on:
    nullable values, the exceptions they raise, and type handles with a
    given subtype relation standing in for reflection. */
module Runtime {

  /** A value that may be null in the source. */
  datatype Option<+T> = None | Some(value: T) {
    /** The `??` operator: this value, or `default` when it is null. */
    function GetOr(default: T): T {
      match this
      case Some(v) => v
      case None => default
    }
  }

  /** Success or a thrown exception. */
  datatype Result<+T> = Success(value: T) | Failure(error: Exception)

  /** The exceptions the modelled code can raise. */
  datatype Exception =
    | ArgumentException(message: string, paramName: Option<string>)
    | NullReferenceException
    | MemberAccessException

  /** A runtime type, identified by its full name. */
  datatype TypeHandle = TypeHandle(fullName: string)

  /** A reflected property: the type that declares it and its name. */
  datatype PropertyInfo = PropertyInfo(declaringType: TypeHandle, name: string)

  const StringType: TypeHandle := TypeHandle("System.String")

  /** What reflection would tell about the program's types: the pairs (t, b)
      such that t derives from class b or implements interface b, directly or
      not, and the types that cannot be instantiated because they are abstract. */
  datatype TypeHierarchy = TypeHierarchy(derivesFrom: set<(TypeHandle, TypeHandle)>, abstractTypes: set<TypeHandle>) {

    /** `t.IsSubclassOf(b)`: strict, so a type is never a subclass of itself. */
    predicate IsSubclassOf(t: TypeHandle, b: TypeHandle) {
      t != b && (t, b) in derivesFrom
    }

    /** `target.IsAssignableFrom(t)` for a non-null `t`: the same type, or one
        that derives from or implements `target`. */
    predicate IsAssignableTo(t: TypeHandle, target: TypeHandle) {
      t == target || (t, target) in derivesFrom
    }
  }
}

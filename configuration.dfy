/** The class-map configuration objects (Configuration/CsvClassMap.cs and
    Configuration/CsvPropertyReferenceMap.cs). Both are updated in place: a
    class map exposes collections that callers fill, and a reference map
    flips its collection flag and may have its nested map replaced. A
    reference map owns the class map it creates, and a class map lists its
    reference maps, so the two classes live in one module. */
module Configuration {
  import opened Runtime

  /** The type `CsvClassMap` itself. */
  const ClassMapType: TypeHandle := TypeHandle("CsvHelper.Configuration.CsvClassMap")

  const NotAClassMapMessage: string := "The type is not a CsvClassMap."

  /** A property map (CsvPropertyMap, which is not part of this model beyond
      the property it binds). */
  datatype PropertyMap = PropertyMap(property: PropertyInfo)

  /** A constructor expression (`NewExpression`): the type it instantiates. */
  datatype NewExpression = NewExpression(instantiates: TypeHandle)

  /** An argument handed on to the constructor of a nested class map. */
  datatype ConstructorArgument = ConstructorArgument(text: string)

  /** The property-map collection (CsvPropertyMapCollection) as callers see
      it: an ordered sequence they append to. */
  class PropertyMapCollection {
    var items: seq<PropertyMap>

    constructor ()
      ensures items == []
    {
      items := [];
    }

    method Add(m: PropertyMap)
      modifies this
      ensures items == old(items) + [m]
    {
      items := items + [m];
    }
  }

  /** The `List<CsvPropertyReferenceMap>` of a class map. */
  class ReferenceMapList {
    var items: seq<CsvPropertyReferenceMap>

    constructor ()
      ensures items == []
    {
      items := [];
    }

    method Add(m: CsvPropertyReferenceMap)
      modifies this
      ensures items == old(items) + [m]
    {
      items := items + [m];
    }
  }

  /** A class map. `mapType` is its runtime type (CsvClassMap or the subclass
      that was instantiated). The two collections are readonly fields, so
      `PropertyMaps` and `ReferenceMaps` return the same objects on every
      read and what a caller adds to them is seen by every later read. */
  class CsvClassMap {
    const mapType: TypeHandle
    const propertyMaps: PropertyMapCollection
    const referenceMaps: ReferenceMapList
    var constructorExpression: Option<NewExpression>

    /** A new class map: empty, fresh collections and no constructor expression. */
    constructor (mapType: TypeHandle)
      ensures this.mapType == mapType
      ensures fresh(propertyMaps) && fresh(referenceMaps)
      ensures propertyMaps.items == [] && referenceMaps.items == []
      ensures constructorExpression.None?
    {
      this.mapType := mapType;
      propertyMaps := new PropertyMapCollection();
      referenceMaps := new ReferenceMapList();
      constructorExpression := None;
    }

    /** The protected setter of `Constructor`, which only subclasses call. It
        changes nothing else, and the collections' contents are untouched. */
    method SetConstructor(e: Option<NewExpression>)
      modifies this`constructorExpression
      ensures constructorExpression == e
      ensures unchanged(propertyMaps) && unchanged(referenceMaps)
    {
      constructorExpression := e;
    }
  }

  /** A reference map: binds a property to a nested class map, possibly as a
      collection of such objects. */
  class CsvPropertyReferenceMap {
    const property: Option<PropertyInfo>
    var mapping: CsvClassMap?
    var isCollection: bool
    var collectionType: Option<TypeHandle>

    /** The assignments that follow a successful type check, together with the
        field initialisers: not a collection, no collection type. */
    constructor Init(property: Option<PropertyInfo>, mapping: CsvClassMap)
      ensures this.property == property && this.mapping == mapping
      ensures !isCollection && collectionType.None?
    {
      this.property := property;
      this.mapping := mapping;
      isCollection := false;
      collectionType := None;
    }

    /** Marks the reference as a collection of `elementType` and returns the
        same object, for chaining. The property and the nested map stay; a
        repeated call only replaces the collection type. */
    method IsCollectionOf(elementType: Option<TypeHandle>) returns (self: CsvPropertyReferenceMap)
      modifies this
      ensures self == this
      ensures isCollection && collectionType == elementType
      ensures mapping == old(mapping)
    {
      isCollection := true;
      collectionType := elementType;
      self := this;
    }

    /** The setter of `Mapping`: replaces the nested map (null allowed) and
        leaves the collection flag and type alone. */
    method SetMapping(value: CsvClassMap?)
      modifies this`mapping
      ensures mapping == value
      ensures isCollection == old(isCollection) && collectionType == old(collectionType)
    {
      mapping := value;
    }
  }

  /** The outcome of constructing a reference map. */
  datatype Creation = Created(referenceMap: CsvPropertyReferenceMap) | Failed(error: Exception)

  /** The guard of the reference-map constructor: `type.IsSubclassOf(typeof(CsvClassMap))`,
      which is strict, or an ArgumentException; a null type throws when the
      guard dereferences it. */
  function CheckMapType(h: TypeHierarchy, mapType: Option<TypeHandle>): (r: Option<Exception>)
    ensures r.None? <==> mapType.Some? && h.IsSubclassOf(mapType.value, ClassMapType)
    ensures mapType.None? ==> r == Some(NullReferenceException)
    ensures mapType.Some? && r.Some? ==> r == Some(ArgumentException(NotAClassMapMessage, None))
  {
    match mapType
    case None => Some(NullReferenceException)
    case Some(t) => if !h.IsSubclassOf(t, ClassMapType) then Some(ArgumentException(NotAClassMapMessage, None)) else None
  }

  /** `CsvPropertyReferenceMap(Type, PropertyInfo, params object[])`: after the
      guard, the property is stored and `Activator.CreateInstance` builds a
      fresh class map of the given type, which fails for an abstract type.
      The new reference map is not a collection and has no collection type. */
  method ReferenceMapWithArguments(h: TypeHierarchy, mapType: Option<TypeHandle>, property: Option<PropertyInfo>,
                                   arguments: Option<seq<ConstructorArgument>>) returns (r: Creation)
    ensures r.Created? <==> CheckMapType(h, mapType).None? && mapType.value !in h.abstractTypes
    ensures CheckMapType(h, mapType).Some? ==> r == Failed(CheckMapType(h, mapType).value)
    ensures CheckMapType(h, mapType).None? && mapType.value in h.abstractTypes ==> r == Failed(MemberAccessException)
    ensures r.Created? ==>
      && fresh(r.referenceMap) && r.referenceMap.property == property
      && !r.referenceMap.isCollection && r.referenceMap.collectionType.None?
      && r.referenceMap.mapping != null && fresh(r.referenceMap.mapping)
      && r.referenceMap.mapping.mapType == mapType.value
      && fresh(r.referenceMap.mapping.propertyMaps) && fresh(r.referenceMap.mapping.referenceMaps)
  {
    var failure := CheckMapType(h, mapType);
    if failure.Some? {
      return Failed(failure.value);
    }
    r := Instantiate(h, mapType.value, property);
  }

  /** The part of the constructor after the guard: `Activator.CreateInstance`
      of the map type, which fails for an abstract type, and the new
      reference map around it. */
  method Instantiate(h: TypeHierarchy, mapType: TypeHandle, property: Option<PropertyInfo>) returns (r: Creation)
    ensures r.Created? <==> mapType !in h.abstractTypes
    ensures r.Failed? ==> r.error == MemberAccessException
    ensures r.Created? ==>
      && fresh(r.referenceMap) && r.referenceMap.property == property
      && !r.referenceMap.isCollection && r.referenceMap.collectionType.None?
      && r.referenceMap.mapping != null && fresh(r.referenceMap.mapping)
      && r.referenceMap.mapping.mapType == mapType
      && fresh(r.referenceMap.mapping.propertyMaps) && fresh(r.referenceMap.mapping.referenceMaps)
    ensures r.Created? && mapType == ClassMapType ==>
      r.referenceMap.mapping.propertyMaps.items == [] && r.referenceMap.mapping.referenceMaps.items == []
  {
    if mapType in h.abstractTypes {
      return Failed(MemberAccessException);
    }
    var nested := new CsvClassMap(mapType);
    var referenceMap := new CsvPropertyReferenceMap.Init(property, nested);
    r := Created(referenceMap);
  }

  /** `CsvPropertyReferenceMap(Type, PropertyInfo)`: the same, with no
      constructor arguments. */
  method ReferenceMapOfType(h: TypeHierarchy, mapType: Option<TypeHandle>, property: Option<PropertyInfo>) returns (r: Creation)
    ensures r.Created? <==> CheckMapType(h, mapType).None? && mapType.value !in h.abstractTypes
    ensures CheckMapType(h, mapType).Some? ==> r == Failed(CheckMapType(h, mapType).value)
    ensures CheckMapType(h, mapType).None? && mapType.value in h.abstractTypes ==> r == Failed(MemberAccessException)
    ensures r.Created? ==>
      && fresh(r.referenceMap) && r.referenceMap.property == property
      && !r.referenceMap.isCollection && r.referenceMap.collectionType.None?
      && r.referenceMap.mapping != null && fresh(r.referenceMap.mapping)
      && r.referenceMap.mapping.mapType == mapType.value
  {
    r := ReferenceMapWithArguments(h, mapType, property, None);
  }

  /** `CsvPropertyReferenceMap(PropertyInfo)`: passes `CsvClassMap` itself as
      the type, which the strict subclass check refuses, so it always throws. */
  method ReferenceMapForProperty(h: TypeHierarchy, property: Option<PropertyInfo>) returns (r: Creation)
    ensures r == Failed(ArgumentException(NotAClassMapMessage, None))
  {
    r := ReferenceMapWithArguments(h, Some(ClassMapType), property, None);
  }

  /** No hierarchy lets the guard accept `CsvClassMap` itself. */
  lemma ClassMapItselfRefused(h: TypeHierarchy)
    ensures CheckMapType(h, Some(ClassMapType)) == Some(ArgumentException(NotAClassMapMessage, None))
  {
  }

  // ------------------------------------------------ the guard as evidently intended

  /** The guard as the one-argument constructor needs it: `CsvClassMap`
      itself or a strict subclass of it. */
  function IntendedCheckMapType(h: TypeHierarchy, mapType: Option<TypeHandle>): (r: Option<Exception>)
    ensures r.None? <==> mapType.Some? && (mapType.value == ClassMapType || h.IsSubclassOf(mapType.value, ClassMapType))
  {
    match mapType
    case None => Some(NullReferenceException)
    case Some(t) => if t != ClassMapType && !h.IsSubclassOf(t, ClassMapType) then Some(ArgumentException(NotAClassMapMessage, None)) else None
  }

  /** The intended guard admits `CsvClassMap` and agrees with the written one
      on every other type. */
  lemma IntendedCheckDiffersOnlyOnClassMap(h: TypeHierarchy, mapType: Option<TypeHandle>)
    ensures IntendedCheckMapType(h, Some(ClassMapType)).None?
    ensures mapType != Some(ClassMapType) ==> IntendedCheckMapType(h, mapType) == CheckMapType(h, mapType)
  {
  }

  /** The reference-map constructor with the intended guard. */
  method ReferenceMapWithIntendedCheck(h: TypeHierarchy, mapType: Option<TypeHandle>, property: Option<PropertyInfo>,
                                       arguments: Option<seq<ConstructorArgument>>) returns (r: Creation)
    ensures r.Created? <==> IntendedCheckMapType(h, mapType).None? && mapType.value !in h.abstractTypes
    ensures IntendedCheckMapType(h, mapType).Some? ==> r == Failed(IntendedCheckMapType(h, mapType).value)
    ensures IntendedCheckMapType(h, mapType).None? && mapType.value in h.abstractTypes ==> r == Failed(MemberAccessException)
    ensures r.Created? ==>
      && fresh(r.referenceMap) && r.referenceMap.property == property
      && !r.referenceMap.isCollection && r.referenceMap.collectionType.None?
      && r.referenceMap.mapping != null && fresh(r.referenceMap.mapping)
      && r.referenceMap.mapping.mapType == mapType.value
    ensures r.Created? && mapType == Some(ClassMapType) ==>
      r.referenceMap.mapping.propertyMaps.items == [] && r.referenceMap.mapping.referenceMaps.items == []
  {
    var failure := IntendedCheckMapType(h, mapType);
    if failure.Some? {
      return Failed(failure.value);
    }
    r := Instantiate(h, mapType.value, property);
  }

  /** The one-argument constructor with the intended guard: it succeeds with a
      fresh plain `CsvClassMap` as the nested map whenever `CsvClassMap` can be
      instantiated. */
  method ReferenceMapForPropertyAsIntended(h: TypeHierarchy, property: Option<PropertyInfo>) returns (r: Creation)
    ensures r.Created? <==> ClassMapType !in h.abstractTypes
    ensures r.Created? ==>
      && fresh(r.referenceMap) && r.referenceMap.property == property
      && !r.referenceMap.isCollection && r.referenceMap.collectionType.None?
      && r.referenceMap.mapping != null && fresh(r.referenceMap.mapping)
      && r.referenceMap.mapping.mapType == ClassMapType
      && r.referenceMap.mapping.propertyMaps.items == [] && r.referenceMap.mapping.referenceMaps.items == []
  {
    r := ReferenceMapWithIntendedCheck(h, Some(ClassMapType), property, None);
  }

  /** Configuring a fresh reference map as a collection twice: the flag stays
      set, the second element type wins, and the property and nested map are
      those given at construction. */
  method ConfigureAsCollection(h: TypeHierarchy, mapType: TypeHandle, property: PropertyInfo, first: TypeHandle, second: TypeHandle)
    returns (r: Creation)
    requires h.IsSubclassOf(mapType, ClassMapType) && mapType !in h.abstractTypes
    ensures r.Created? && fresh(r.referenceMap)
    ensures r.referenceMap.isCollection && r.referenceMap.collectionType == Some(second)
    ensures r.referenceMap.property == Some(property)
    ensures r.referenceMap.mapping != null && r.referenceMap.mapping.mapType == mapType
  {
    r := ReferenceMapOfType(h, Some(mapType), Some(property));
    var same := r.referenceMap.IsCollectionOf(Some(first));
    same := same.IsCollectionOf(Some(second));
  }
}

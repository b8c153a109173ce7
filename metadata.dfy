/** The slice of the metadata model (POData's ResourceType, ResourceProperty, ResourceSetWrapper)
    that IronicSerialiser reads. It is read-only input to the serialiser. */
module Metadata {
  import opened Wrappers

  /** The primitive type classes primitiveToString distinguishes; every other IType is OtherIType. */
  datatype IType = Boolean | Binary | DateTime | StringType | OtherIType(name: string)

  /** What `getResourceType()` of a property is: an entity type (the property is navigational,
      `instanceof ResourceEntityType`), a primitive type whose instance type is an IType, or a
      complex type whose instance type is not an IType. */
  datatype ResourceTypeKind = EntityKind | PrimitiveKind(instanceType: IType) | ComplexKind

  datatype PropertyType = PropertyType(name: string, fullName: string, typeKind: ResourceTypeKind)

  /** ResourcePropertyKind as compared by the serialiser: the two reference kinds, and the rest. */
  datatype PropertyKind = ResourceReference | ResourceSetReference | OtherKind

  datatype ResourceProperty = ResourceProperty(name: string, kind: PropertyKind, propertyType: PropertyType)

  datatype ResourceStreamInfo = ResourceStreamInfo(name: string)

  datatype ResourceType = ResourceType(
    name: string,
    fullName: string,
    keyProperties: seq<ResourceProperty>,
    allProperties: seq<ResourceProperty>,
    /** The name of the ResourceSet stored as the type's custom state; None when the custom
        state is not a ResourceSet. */
    resourceSet: Option<string>,
    isMediaLinkEntry: bool,
    /** getAllNamedStreams(): stream title => stream info, in declaration order. */
    namedStreams: seq<(string, ResourceStreamInfo)>)

  datatype ResourceSetWrapper = ResourceSetWrapper(name: string, pageSize: int, resourceType: ResourceType)

  predicate IsNavigational(p: ResourceProperty) {
    p.propertyType.typeKind.EntityKind?
  }

  /** `$relProp`: the navigational properties, in declaration order. */
  function NavigationProperties(ps: seq<ResourceProperty>): (r: seq<ResourceProperty>)
    ensures |r| <= |ps|
    ensures forall p :: p in r <==> p in ps && IsNavigational(p)
  {
    if ps == [] then []
    else
      var init := NavigationProperties(ps[..|ps| - 1]);
      assert ps == ps[..|ps| - 1] + [ps[|ps| - 1]];
      if IsNavigational(ps[|ps| - 1]) then init + [ps[|ps| - 1]] else init
  }

  /** The navigation properties of a concatenation are those of each part, in order; a single
      property is kept exactly when it is navigational. */
  lemma {:induction false} NavigationPropertiesAppend(a: seq<ResourceProperty>, b: seq<ResourceProperty>)
    ensures NavigationProperties(a + b) == NavigationProperties(a) + NavigationProperties(b)
    decreases |b|
  {
    if b == [] {
      assert a + b == a;
    } else {
      var b' := b[..|b| - 1];
      var last := b[|b| - 1];
      assert (a + b)[..|a + b| - 1] == a + b';
      assert (a + b)[|a + b| - 1] == last;
      assert NavigationProperties(a + b) == NavigationProperties(a + b') + (if IsNavigational(last) then [last] else []);
      assert NavigationProperties(b) == NavigationProperties(b') + (if IsNavigational(last) then [last] else []);
      NavigationPropertiesAppend(a, b');
    }
  }

  lemma NavigationPropertiesSingleton(p: ResourceProperty)
    ensures NavigationProperties([p]) == if IsNavigational(p) then [p] else []
  {
    assert [p][..0] == [];
  }

  /** `$nonRelProp`: the other properties keyed by name; a later property of the same
      name replaces an earlier one, as PHP array assignment does. */
  function NonNavigationProperties(ps: seq<ResourceProperty>): (r: map<string, ResourceProperty>)
    ensures forall n :: n in r <==> exists p :: p in ps && !IsNavigational(p) && p.name == n
    ensures forall n :: n in r ==> r[n] in ps && !IsNavigational(r[n]) && r[n].name == n
  {
    if ps == [] then map[]
    else
      var init := NonNavigationProperties(ps[..|ps| - 1]);
      var last := ps[|ps| - 1];
      assert ps == ps[..|ps| - 1] + [last];
      if IsNavigational(last) then init else init[last.name := last]
  }

  /** The loop of writeTopLevelElement that sorts the entity type's properties into the navigational
      ones (a list) and the others (keyed by name). */
  method SplitProperties(rawProp: seq<ResourceProperty>)
    returns (relProp: seq<ResourceProperty>, nonRelProp: map<string, ResourceProperty>)
    ensures relProp == NavigationProperties(rawProp)
    ensures nonRelProp == NonNavigationProperties(rawProp)
  {
    relProp, nonRelProp := [], map[];
    for i := 0 to |rawProp|
      invariant relProp == NavigationProperties(rawProp[..i])
      invariant nonRelProp == NonNavigationProperties(rawProp[..i])
    {
      assert rawProp[..i + 1][..i] == rawProp[..i];
      var prop := rawProp[i];
      if IsNavigational(prop) {
        relProp := relProp + [prop];
      } else {
        nonRelProp := nonRelProp[prop.name := prop];
      }
    }
    assert rawProp[..|rawProp|] == rawProp;
  }
}

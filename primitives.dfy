/** primitiveToString and writePrimitiveProperties: the name/value/type triples of an entry. */
module Primitives {
  import opened Wrappers
  import opened Errors
  import opened PhpValues
  import opened Metadata
  import opened ObjectModel

  /** The library conversions primitiveToString delegates to: base64_encode, \DateTime::format(ATOM),
      utf8_encode and strval. They are foreign; only their choice is modelled. */
  datatype Conversions = Conversions(
    base64Encode: Value -> string,
    formatAtom: Value -> string,
    utf8Encode: Value -> string,
    strval: Value -> string)

  function PrimitiveToString(conv: Conversions, t: IType, v: Value): (r: string)
    ensures t == Boolean ==> (r == "true" <==> v == Bool(true))
    ensures t == Boolean ==> (r == "false" <==> v != Bool(true))
    ensures t == Binary ==> r == conv.base64Encode(v)
    ensures t == DateTime ==> r == if v.DateTimeObject? then conv.formatAtom(v) else conv.strval(v)
    ensures t == StringType ==> r == conv.utf8Encode(v)
    ensures t.OtherIType? ==> r == conv.strval(v)
  {
    match t
    case Boolean => if v == Bool(true) then "true" else "false"
    case Binary => conv.base64Encode(v)
    case DateTime => if v.DateTimeObject? then conv.formatAtom(v) else conv.strval(v)
    case StringType => conv.utf8Encode(v)
    case OtherIType(_) => conv.strval(v)
  }

  /** One serialised name/value pair whose name is a non-navigation property `prop`. */
  function PropertyOf(conv: Conversions, name: string, value: Value, prop: ResourceProperty)
    : (r: Result<ODataProperty, Error>)
    ensures r.Err? <==> IsSet(value) && !prop.propertyType.typeKind.PrimitiveKind?
    ensures r.Err? ==> r.error == NotAnIType(name)
    ensures r.Ok? ==> r.value.name == name && r.value.typeName == prop.propertyType.fullName
    ensures r.Ok? ==> (r.value.value.None? <==> !IsSet(value))
    ensures r.Ok? && IsSet(value) ==>
      r.value.value == Some(PrimitiveToString(conv, prop.propertyType.typeKind.instanceType, value))
  {
    if !IsSet(value) then Ok(ODataProperty(name, None, prop.propertyType.fullName))
    else match prop.propertyType.typeKind
      case PrimitiveKind(it) => Ok(ODataProperty(name, Some(PrimitiveToString(conv, it, value)), prop.propertyType.fullName))
      case _ => Err(NotAnIType(name))
  }

  /** The pairs that name a non-navigation property, in bulk order. */
  function Kept(cereal: seq<(string, Value)>, nonRelProp: map<string, ResourceProperty>): (r: seq<(string, Value)>)
    ensures forall k :: 0 <= k < |r| ==> r[k].0 in nonRelProp
  {
    if cereal == [] then []
    else
      var init := Kept(cereal[..|cereal| - 1], nonRelProp);
      if cereal[|cereal| - 1].0 in nonRelProp then init + [cereal[|cereal| - 1]] else init
  }

  /** The property content built from the bulk-serialised pairs `cereal`. */
  function PrimitiveProperties(conv: Conversions, cereal: seq<(string, Value)>, nonRelProp: map<string, ResourceProperty>)
    : Result<seq<ODataProperty>, Error>
  {
    if cereal == [] then Ok([])
    else match PrimitiveProperties(conv, cereal[..|cereal| - 1], nonRelProp)
      case Err(e) => Err(e)
      case Ok(ps) =>
        var (corn, flake) := cereal[|cereal| - 1];
        if corn !in nonRelProp then Ok(ps)
        else match PropertyOf(conv, corn, flake, nonRelProp[corn])
          case Err(e) => Err(e)
          case Ok(p) => Ok(ps + [p])
  }

  /** writePrimitiveProperties, appending to the property list as it walks the bulk-serialised pairs. */
  method WritePrimitiveProperties(conv: Conversions, bulkSerialise: Value -> seq<(string, Value)>,
                                  entryObject: Value, nonRelProp: map<string, ResourceProperty>)
    returns (r: Result<seq<ODataProperty>, Error>)
    ensures r == PrimitiveProperties(conv, bulkSerialise(entryObject), nonRelProp)
  {
    var cereal := bulkSerialise(entryObject);
    var properties: seq<ODataProperty> := [];
    for i := 0 to |cereal|
      invariant PrimitiveProperties(conv, cereal[..i], nonRelProp) == Ok(properties)
    {
      assert cereal[..i + 1][..i] == cereal[..i];
      var (corn, flake) := cereal[i];
      if corn !in nonRelProp {
        continue;
      }
      var prop := nonRelProp[corn];
      if !IsSet(flake) {
        properties := properties + [ODataProperty(corn, None, prop.propertyType.fullName)];
      } else if prop.propertyType.typeKind.PrimitiveKind? {
        var value := PrimitiveToString(conv, prop.propertyType.typeKind.instanceType, flake);
        properties := properties + [ODataProperty(corn, Some(value), prop.propertyType.fullName)];
      } else {
        PrimitivePropertiesPrefixError(conv, cereal, nonRelProp, i + 1);
        return Err(NotAnIType(corn));
      }
    }
    assert cereal[..|cereal|] == cereal;
    return Ok(properties);
  }

  lemma {:induction false} PrimitivePropertiesPrefixError(conv: Conversions, cereal: seq<(string, Value)>,
                                                          nonRelProp: map<string, ResourceProperty>, i: nat)
    requires i <= |cereal|
    requires PrimitiveProperties(conv, cereal[..i], nonRelProp).Err?
    ensures PrimitiveProperties(conv, cereal, nonRelProp) == PrimitiveProperties(conv, cereal[..i], nonRelProp)
  {
    if i < |cereal| {
      assert cereal[..|cereal| - 1][..i] == cereal[..i];
      PrimitivePropertiesPrefixError(conv, cereal[..|cereal| - 1], nonRelProp, i);
    } else {
      assert cereal[..i] == cereal;
    }
  }

  predicate Convertible(pair: (string, Value), nonRelProp: map<string, ResourceProperty>)
    requires pair.0 in nonRelProp
  {
    !IsSet(pair.1) || nonRelProp[pair.0].propertyType.typeKind.PrimitiveKind?
  }

  /** Only pairs naming a non-navigation property survive, in bulk order: the i-th property is the i-th
      kept pair, with a null value for an unset one, the converted value otherwise, and the declared
      property type's full name. Conversion fails only for a set value of a non-primitive property. */
  lemma {:induction false} PrimitivePropertiesAreKeptPairs(conv: Conversions, cereal: seq<(string, Value)>,
                                                           nonRelProp: map<string, ResourceProperty>)
    ensures PrimitiveProperties(conv, cereal, nonRelProp).Ok? <==>
      forall k :: 0 <= k < |Kept(cereal, nonRelProp)| ==> Convertible(Kept(cereal, nonRelProp)[k], nonRelProp)
    ensures PrimitiveProperties(conv, cereal, nonRelProp).Ok? ==>
      var ps := PrimitiveProperties(conv, cereal, nonRelProp).value;
      var kept := Kept(cereal, nonRelProp);
      |ps| == |kept| &&
      forall k :: 0 <= k < |kept| ==>
        kept[k].0 in nonRelProp &&
        ps[k].name == kept[k].0 &&
        ps[k].typeName == nonRelProp[kept[k].0].propertyType.fullName &&
        (ps[k].value.None? <==> !IsSet(kept[k].1)) &&
        (ps[k].value.Some? ==>
          ps[k].value.value == PrimitiveToString(conv, nonRelProp[kept[k].0].propertyType.typeKind.instanceType, kept[k].1))
  {
    if cereal != [] {
      var init := cereal[..|cereal| - 1];
      PrimitivePropertiesAreKeptPairs(conv, init, nonRelProp);
      var keptInit := Kept(init, nonRelProp);
      var kept := Kept(cereal, nonRelProp);
      assert forall k :: 0 <= k < |keptInit| ==> kept[k] == keptInit[k];
      var (corn, flake) := cereal[|cereal| - 1];
      if corn in nonRelProp {
        assert kept == keptInit + [(corn, flake)];
        assert PropertyOf(conv, corn, flake, nonRelProp[corn]).Ok? <==> Convertible((corn, flake), nonRelProp);
        if PrimitiveProperties(conv, cereal, nonRelProp).Err? && PrimitiveProperties(conv, init, nonRelProp).Ok? {
          assert !Convertible(kept[|keptInit|], nonRelProp);
        }
      }
    }
  }

  /** Keeping the pairs that name a non-navigation property distributes over concatenation: the
      kept pairs are those of each part, in order; a single pair is kept exactly when it names one. */
  lemma {:induction false} KeptAppend(a: seq<(string, Value)>, b: seq<(string, Value)>,
                                      nonRelProp: map<string, ResourceProperty>)
    ensures Kept(a + b, nonRelProp) == Kept(a, nonRelProp) + Kept(b, nonRelProp)
    decreases |b|
  {
    if b == [] {
      assert a + b == a;
    } else {
      var b' := b[..|b| - 1];
      var last := b[|b| - 1];
      assert (a + b)[..|a + b| - 1] == a + b';
      assert (a + b)[|a + b| - 1] == last;
      assert Kept(a + b, nonRelProp) == Kept(a + b', nonRelProp) + (if last.0 in nonRelProp then [last] else []);
      assert Kept(b, nonRelProp) == Kept(b', nonRelProp) + (if last.0 in nonRelProp then [last] else []);
      KeptAppend(a, b', nonRelProp);
    }
  }

  lemma KeptSingleton(pair: (string, Value), nonRelProp: map<string, ResourceProperty>)
    ensures Kept([pair], nonRelProp) == if pair.0 in nonRelProp then [pair] else []
  {
    assert [pair][..0] == [];
  }
}

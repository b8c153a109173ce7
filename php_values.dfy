/** The PHP values the serialiser reads: entity instances are objects whose properties
    may hold scalars, further objects (to-one navigation) or arrays (to-many navigation). */
module PhpValues {

  datatype Value =
    | Null
    | Bool(b: bool)
    | Int(i: int)
    | Str(s: string)
    | DateTimeObject(timestamp: int)   // an instance of \DateTime
    | Object(fields: map<string, Value>)
    | Array(items: seq<Value>)

  /** PHP's `isset` on a value: anything but null. */
  predicate IsSet(v: Value) {
    !v.Null?
  }

  /** `$v->$name`: the named property of an object; null when the property is missing
      or when `v` is not an object at all. */
  function Property(v: Value, name: string): (r: Value)
    ensures r != Null ==> v.Object? && name in v.fields && v.fields[name] == r
    ensures v.Object? && name in v.fields ==> r == v.fields[name]
  {
    if v.Object? && name in v.fields then v.fields[name] else Null
  }
}

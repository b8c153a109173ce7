/** getEntryInstanceKey: the key string `Container(k1=v1,k2=v2)` that names an entity instance
    in URIs, and a parser that reads it back. */
module KeyBuilder {
  import opened Wrappers
  import opened Errors
  import opened PhpValues
  import opened Metadata

  /** IType::convertToOData: the literal form of a key value. It is a foreign call. */
  type Converter = (IType, Value) -> string

  function KeyPair(p: (string, string)): string {
    p.0 + "=" + p.1
  }

  function RenderPairs(ps: seq<(string, string)>): seq<string> {
    seq(|ps|, i requires 0 <= i < |ps| => KeyPair(ps[i]))
  }

  /** The parts with one separator between neighbours and none before the first or after the last. */
  function JoinWith(parts: seq<string>, sep: char): string {
    if |parts| == 0 then ""
    else if |parts| == 1 then parts[0]
    else JoinWith(parts[..|parts| - 1], sep) + [sep] + parts[|parts| - 1]
  }

  function KeyString(containerName: string, ps: seq<(string, string)>): string {
    containerName + "(" + JoinWith(RenderPairs(ps), ',') + ")"
  }

  /** One key property's `name=literal`, or why the loop stops at it. */
  function KeyPairOf(convert: Converter, typeName: string, entity: Value, p: ResourceProperty)
    : (r: Result<(string, string), Error>)
    ensures r.Ok? <==> p.propertyType.typeKind.PrimitiveKind? && IsSet(Property(entity, p.name))
    ensures !p.propertyType.typeKind.PrimitiveKind? ==> r == Err(AssertionFailed(KeyTypeIsIType))
    ensures p.propertyType.typeKind.PrimitiveKind? && !IsSet(Property(entity, p.name)) ==>
      r == Err(NullKeyNotSupported(typeName, p.name))
    ensures r.Ok? ==> r.value.0 == p.name
    ensures r.Ok? ==> r.value.1 == convert(p.propertyType.typeKind.instanceType, Property(entity, p.name))
  {
    if !p.propertyType.typeKind.PrimitiveKind? then Err(AssertionFailed(KeyTypeIsIType))
    else if !IsSet(Property(entity, p.name)) then Err(NullKeyNotSupported(typeName, p.name))
    else Ok((p.name, convert(p.propertyType.typeKind.instanceType, Property(entity, p.name))))
  }

  /** The pairs of all key properties, in order; the first key property that fails decides the error. */
  function KeyPairs(convert: Converter, typeName: string, entity: Value, keys: seq<ResourceProperty>)
    : Result<seq<(string, string)>, Error>
  {
    if keys == [] then Ok([])
    else match KeyPairs(convert, typeName, entity, keys[..|keys| - 1])
      case Err(e) => Err(e)
      case Ok(ps) =>
        match KeyPairOf(convert, typeName, entity, keys[|keys| - 1])
        case Err(e) => Err(e)
        case Ok(p) => Ok(ps + [p])
  }

  function EntryInstanceKey(convert: Converter, entity: Value, rt: ResourceType, containerName: string)
    : Result<string, Error>
  {
    if |rt.keyProperties| == 0 then Err(AssertionFailed(KeyPropertiesPresent))
    else match KeyPairs(convert, rt.name, entity, rt.keyProperties)
      case Err(e) => Err(e)
      case Ok(ps) => Ok(KeyString(containerName, ps))
  }

  /** getEntryInstanceKey, with its `$keyString` and `$comma` accumulators. */
  method GetEntryInstanceKey(convert: Converter, entity: Value, rt: ResourceType, containerName: string)
    returns (r: Result<string, Error>)
    ensures r == EntryInstanceKey(convert, entity, rt, containerName)
  {
    var typeName := rt.name;
    var keys := rt.keyProperties;
    if |keys| == 0 {
      return Err(AssertionFailed(KeyPropertiesPresent));
    }
    var keyString := containerName + "(";
    var comma := "";
    ghost var pairs: seq<(string, string)> := [];
    for i := 0 to |keys|
      invariant |pairs| == i
      invariant KeyPairs(convert, typeName, entity, keys[..i]) == Ok(pairs)
      invariant keyString == containerName + "(" + JoinWith(RenderPairs(pairs), ',')
      invariant comma == if i == 0 then "" else ","
    {
      KeyPairsStep(convert, typeName, entity, keys, i);
      var p := keys[i];
      if !p.propertyType.typeKind.PrimitiveKind? {
        KeyPairsPrefixError(convert, typeName, entity, keys, i + 1);
        return Err(AssertionFailed(KeyTypeIsIType));
      }
      var keyType := p.propertyType.typeKind.instanceType;
      var keyName := p.name;
      var keyValue := Property(entity, keyName);
      if !IsSet(keyValue) {
        KeyPairsPrefixError(convert, typeName, entity, keys, i + 1);
        return Err(NullKeyNotSupported(typeName, keyName));
      }
      var literal := convert(keyType, keyValue);
      KeyStringStep(containerName, pairs, (keyName, literal));
      keyString := keyString + comma + keyName + "=" + literal;
      comma := ",";
      pairs := pairs + [(keyName, literal)];
    }
    assert keys[..|keys|] == keys;
    keyString := keyString + ")";
    return Ok(keyString);
  }

  lemma KeyPairsStep(convert: Converter, typeName: string, entity: Value, keys: seq<ResourceProperty>, i: nat)
    requires i < |keys|
    ensures KeyPairs(convert, typeName, entity, keys[..i + 1]) ==
      match KeyPairs(convert, typeName, entity, keys[..i])
      case Err(e) => Err(e)
      case Ok(ps) =>
        match KeyPairOf(convert, typeName, entity, keys[i])
        case Err(e) => Err(e)
        case Ok(p) => Ok(ps + [p])
  {
    assert keys[..i + 1][..i] == keys[..i];
  }

  lemma KeyStringStep(containerName: string, pairs: seq<(string, string)>, p: (string, string))
    ensures containerName + "(" + JoinWith(RenderPairs(pairs), ',') + (if pairs == [] then "" else ",") + p.0 + "=" + p.1
         == containerName + "(" + JoinWith(RenderPairs(pairs + [p]), ',')
  {
    JoinSnoc(RenderPairs(pairs), KeyPair(p), ',');
    assert RenderPairs(pairs + [p]) == RenderPairs(pairs) + [KeyPair(p)];
  }

  lemma JoinSnoc(parts: seq<string>, x: string, sep: char)
    ensures JoinWith(parts + [x], sep) == if parts == [] then x else JoinWith(parts, sep) + [sep] + x
  {
    assert (parts + [x])[..|parts|] == parts;
  }

  /** Once a prefix of the key properties fails, the whole list fails the same way. */
  lemma {:induction false} KeyPairsPrefixError(convert: Converter, typeName: string, entity: Value,
                                               keys: seq<ResourceProperty>, i: nat)
    requires i <= |keys|
    requires KeyPairs(convert, typeName, entity, keys[..i]).Err?
    ensures KeyPairs(convert, typeName, entity, keys) == KeyPairs(convert, typeName, entity, keys[..i])
  {
    if i < |keys| {
      assert keys[..|keys| - 1][..i] == keys[..i];
      KeyPairsPrefixError(convert, typeName, entity, keys[..|keys| - 1], i);
    } else {
      assert keys[..i] == keys;
    }
  }

  /** The pairs succeed exactly when every key property succeeds, and then there is one pair per
      key property, in key-property order. */
  lemma {:induction false} KeyPairsOk(convert: Converter, typeName: string, entity: Value,
                                      keys: seq<ResourceProperty>)
    ensures KeyPairs(convert, typeName, entity, keys).Ok?
        <==> forall i :: 0 <= i < |keys| ==> KeyPairOf(convert, typeName, entity, keys[i]).Ok?
    ensures KeyPairs(convert, typeName, entity, keys).Ok? ==>
      var ps := KeyPairs(convert, typeName, entity, keys).value;
      |ps| == |keys| &&
      forall i :: 0 <= i < |keys| ==> ps[i] == KeyPairOf(convert, typeName, entity, keys[i]).value
  {
    if keys != [] {
      var init := keys[..|keys| - 1];
      KeyPairsOk(convert, typeName, entity, init);
      assert forall i :: 0 <= i < |init| ==> init[i] == keys[i];
    }
  }

  /** When the pairs fail, the error is that of the first key property that fails. */
  lemma {:induction false} KeyPairsFirstError(convert: Converter, typeName: string, entity: Value,
                                              keys: seq<ResourceProperty>, j: nat)
    requires j < |keys|
    requires forall i :: 0 <= i < j ==> KeyPairOf(convert, typeName, entity, keys[i]).Ok?
    requires KeyPairOf(convert, typeName, entity, keys[j]).Err?
    ensures KeyPairs(convert, typeName, entity, keys) == Err(KeyPairOf(convert, typeName, entity, keys[j]).error)
  {
    var pre := keys[..j];
    KeyPairsOk(convert, typeName, entity, pre);
    assert keys[..j + 1][..j] == pre;
    KeyPairsPrefixError(convert, typeName, entity, keys, j + 1);
  }

  /** getEntryInstanceKey succeeds exactly when there is a key property and each has a primitive type
      and a set value; the key is then `Container(name1=literal1,...,nameN=literalN)` in key-property
      order. */
  lemma EntryInstanceKeyOk(convert: Converter, entity: Value, rt: ResourceType, containerName: string)
    ensures EntryInstanceKey(convert, entity, rt, containerName).Ok? <==>
      |rt.keyProperties| > 0 &&
      forall i :: 0 <= i < |rt.keyProperties| ==>
        rt.keyProperties[i].propertyType.typeKind.PrimitiveKind? &&
        IsSet(Property(entity, rt.keyProperties[i].name))
    ensures EntryInstanceKey(convert, entity, rt, containerName).Ok? ==>
      var keys := rt.keyProperties;
      var ps := seq(|keys|, i requires 0 <= i < |keys| =>
        (keys[i].name, convert(keys[i].propertyType.typeKind.instanceType, Property(entity, keys[i].name))));
      EntryInstanceKey(convert, entity, rt, containerName) == Ok(KeyString(containerName, ps))
  {
    var keys := rt.keyProperties;
    KeyPairsOk(convert, rt.name, entity, keys);
    if KeyPairs(convert, rt.name, entity, keys).Ok? {
      var ps := seq(|keys|, i requires 0 <= i < |keys| =>
        (keys[i].name, convert(keys[i].propertyType.typeKind.instanceType, Property(entity, keys[i].name))));
      assert KeyPairs(convert, rt.name, entity, keys).value == ps;
    }
  }

  /** The first key property that is not an IType, or whose value is unset, decides the error:
      a failed assertion, or the internal-server-error for a null key naming the type and that key. */
  lemma EntryInstanceKeyError(convert: Converter, entity: Value, rt: ResourceType, containerName: string, j: nat)
    requires j < |rt.keyProperties|
    requires forall i :: 0 <= i < j ==>
      rt.keyProperties[i].propertyType.typeKind.PrimitiveKind? && IsSet(Property(entity, rt.keyProperties[i].name))
    requires !rt.keyProperties[j].propertyType.typeKind.PrimitiveKind? ||
             !IsSet(Property(entity, rt.keyProperties[j].name))
    ensures EntryInstanceKey(convert, entity, rt, containerName) ==
      if !rt.keyProperties[j].propertyType.typeKind.PrimitiveKind? then Err(AssertionFailed(KeyTypeIsIType))
      else Err(NullKeyNotSupported(rt.name, rt.keyProperties[j].name))
  {
    KeyPairsFirstError(convert, rt.name, entity, rt.keyProperties, j);
  }

  // Reading a key string back.

  function IndexOf(s: string, c: char): (r: Option<nat>)
    ensures r.Some? ==> r.value < |s| && s[r.value] == c && c !in s[..r.value]
    ensures r.None? ==> c !in s
  {
    if s == [] then None
    else if s[0] == c then Some(0)
    else match IndexOf(s[1..], c)
      case None => None
      case Some(k) => assert s[..k + 1] == [s[0]] + s[1..][..k]; Some(k + 1)
  }

  /** The pieces of `s` between separators; there is always at least one. */
  function SplitOn(s: string, sep: char): (r: seq<string>)
    ensures |r| > 0
  {
    if s == [] then [""]
    else
      var rest := SplitOn(s[1..], sep);
      if s[0] == sep then [""] + rest else [[s[0]] + rest[0]] + rest[1..]
  }

  function ParsePair(s: string): Option<(string, string)> {
    match IndexOf(s, '=')
    case None => None
    case Some(k) => Some((s[..k], s[k + 1..]))
  }

  function ParsePairs(parts: seq<string>): Option<seq<(string, string)>> {
    if parts == [] then Some([])
    else match (ParsePair(parts[0]), ParsePairs(parts[1..]))
      case (Some(p), Some(ps)) => Some([p] + ps)
      case _ => None
  }

  /** Container name and key pairs of `Container(k1=v1,...)`. */
  function ParseEntryKey(s: string): Option<(string, seq<(string, string)>)> {
    match IndexOf(s, '(')
    case None => None
    case Some(k) =>
      if |s| < k + 2 || s[|s| - 1] != ')' then None
      else match ParsePairs(SplitOn(s[k + 1..|s| - 1], ','))
        case None => None
        case Some(ps) => Some((s[..k], ps))
  }

  lemma {:induction false} SplitOnNoSeparator(x: string, sep: char)
    requires sep !in x
    ensures SplitOn(x, sep) == [x]
  {
    if x != [] {
      SplitOnNoSeparator(x[1..], sep);
      assert [x[0]] + x[1..] == x;
    }
  }

  lemma {:induction false} SplitOnConcat(a: string, b: string, sep: char)
    ensures SplitOn(a + [sep] + b, sep) == SplitOn(a, sep) + SplitOn(b, sep)
  {
    if a == [] {
      assert a + [sep] + b == [sep] + b;
      assert ([sep] + b)[1..] == b;
    } else {
      var s := a + [sep] + b;
      assert s[0] == a[0];
      assert s[1..] == a[1..] + [sep] + b;
      SplitOnConcat(a[1..], b, sep);
    }
  }

  lemma {:induction false} SplitJoin(parts: seq<string>, sep: char)
    requires |parts| > 0
    requires forall i :: 0 <= i < |parts| ==> sep !in parts[i]
    ensures SplitOn(JoinWith(parts, sep), sep) == parts
  {
    if |parts| == 1 {
      SplitOnNoSeparator(parts[0], sep);
    } else {
      var init := parts[..|parts| - 1];
      SplitJoin(init, sep);
      SplitOnConcat(JoinWith(init, sep), parts[|parts| - 1], sep);
      SplitOnNoSeparator(parts[|parts| - 1], sep);
      assert init + [parts[|parts| - 1]] == parts;
    }
  }

  lemma ParseKeyPair(name: string, value: string)
    requires '=' !in name
    ensures ParsePair(KeyPair((name, value))) == Some((name, value))
  {
    var s := name + "=" + value;
    assert s == name + ['='] + value;
    assert s[|name|] == '=';
    var k := IndexOf(s, '=');
    assert k.Some? && k.value <= |name|;
    assert s[..|name|] == name;
    assert s[|name| + 1..] == value;
  }

  lemma {:induction false} ParseRenderedPairs(ps: seq<(string, string)>)
    requires forall i :: 0 <= i < |ps| ==> '=' !in ps[i].0
    ensures ParsePairs(RenderPairs(ps)) == Some(ps)
  {
    if ps != [] {
      ParseKeyPair(ps[0].0, ps[0].1);
      ParseRenderedPairs(ps[1..]);
      assert RenderPairs(ps)[1..] == RenderPairs(ps[1..]);
      assert [ps[0]] + ps[1..] == ps;
    }
  }

  /** Round trip: a key string built from a container name without `(`, key names without `=` or `,`
      and literals without `,` parses back to that container name and those pairs, in order. Since the
      pieces between commas are exactly the pairs, a comma stands only between two pairs. */
  lemma ParseKeyString(containerName: string, ps: seq<(string, string)>)
    requires |ps| > 0
    requires '(' !in containerName
    requires forall i :: 0 <= i < |ps| ==> '=' !in ps[i].0 && ',' !in ps[i].0 && ',' !in ps[i].1
    ensures ParseEntryKey(KeyString(containerName, ps)) == Some((containerName, ps))
  {
    var inner := JoinWith(RenderPairs(ps), ',');
    var s := KeyString(containerName, ps);
    assert s == containerName + ['('] + (inner + ")");
    assert s[|containerName|] == '(';
    var k := IndexOf(s, '(');
    assert k.Some? && k.value <= |containerName|;
    assert s[..|containerName|] == containerName;
    assert s[|containerName| + 1..|s| - 1] == inner;
    forall i | 0 <= i < |ps| ensures ',' !in RenderPairs(ps)[i] {
      assert RenderPairs(ps)[i] == ps[i].0 + ['='] + ps[i].1;
    }
    SplitJoin(RenderPairs(ps), ',');
    ParseRenderedPairs(ps);
  }
}

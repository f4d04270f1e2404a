/** The wire codec of src/infra/controlAgent/mcm.ts, on JSON trees (RFC 8259) rather than on characters. */
module Codec {

  type byte = b: int | 0 <= b < 256

  /** A parsed JSON text. Objects have distinct keys; key order is not represented. */
  datatype Json =
    | JNull
    | JBool(b: bool)
    | JNum(n: real)
    | JStr(s: string)
    | JArr(items: seq<Json>)
    | JObj(fields: map<string, Json>)

  /** A JavaScript value that a message can hold: JSON data with Buffer leaves. */
  datatype Value =
    | Null
    | Bool(b: bool)
    | Num(n: real)
    | Str(s: string)
    | Arr(items: seq<Value>)
    | Obj(fields: map<string, Value>)
    | Buffer(bytes: seq<byte>)

  /** How `Buffer.from(array)` turns one array element into a byte. Only its effect on bytes is fixed. */
  type Coercion = Value -> byte

  function ByteValue(b: byte): Value {
    Num(b as real)
  }

  ghost predicate KeepsBytes(coerce: Coercion) {
    forall b: byte :: coerce(ByteValue(b)) == b
  }

  function ByteItems(bytes: seq<byte>): seq<Json> {
    seq(|bytes|, i requires 0 <= i < |bytes| => JNum(bytes[i] as real))
  }

  /** A Buffer is written through its `toJSON`, as an object with `type` and `data`. */
  function Serialise(v: Value): Json {
    match v
    case Null => JNull
    case Bool(b) => JBool(b)
    case Num(n) => JNum(n)
    case Str(s) => JStr(s)
    case Arr(items) => JArr(seq(|items|, i requires 0 <= i < |items| => Serialise(items[i])))
    case Obj(fields) => JObj(map k | k in fields :: Serialise(fields[k]))
    case Buffer(bytes) => JObj(map["type" := JStr("Buffer"), "data" := JArr(ByteItems(bytes))])
  }

  /** The reviver of `deserialise`, on a value whose children were revived. */
  function Reviver(v: Value, coerce: Coercion): Value {
    if v.Obj? && "type" in v.fields && v.fields["type"] == Str("Buffer")
       && "data" in v.fields && v.fields["data"].Arr? then
      var items := v.fields["data"].items;
      Buffer(seq(|items|, i requires 0 <= i < |items| => coerce(items[i])))
    else v
  }

  /** `JSON.parse` with the reviver, which sees each value after its children were revived. */
  function Deserialise(j: Json, coerce: Coercion): Value {
    match j
    case JNull => Null
    case JBool(b) => Bool(b)
    case JNum(n) => Num(n)
    case JStr(s) => Str(s)
    case JArr(items) => Arr(seq(|items|, i requires 0 <= i < |items| => Deserialise(items[i], coerce)))
    case JObj(fields) => Reviver(Obj(map k | k in fields :: Deserialise(fields[k], coerce)), coerce)
  }

  /** A plain object that looks like an encoded Buffer, whatever else it holds. */
  predicate Collides(v: Value) {
    match v
    case Obj(fields) =>
      && {"type", "data"} <= fields.Keys && fields["type"] == Str("Buffer")
      && (match fields["data"] case Arr(_) => true case _ => false)
    case _ => false
  }

  /** No object at any depth is taken for an encoded Buffer. */
  predicate CollisionFree(v: Value) {
    match v
    case Arr(items) => forall i | 0 <= i < |items| :: CollisionFree(items[i])
    case Obj(fields) => !Collides(v) && forall k | k in fields :: CollisionFree(fields[k])
    case _ => true
  }

  // ---- Exact round trip -------------------------------------------------------------------------------------------

  ghost predicate Survives(v: Value, coerce: Coercion) {
    Deserialise(Serialise(v), coerce) == v
  }

  lemma BufferSurvives(bytes: seq<byte>, coerce: Coercion)
    requires KeepsBytes(coerce)
    ensures Survives(Buffer(bytes), coerce)
  {
    var j := Serialise(Buffer(bytes));
    var revived := Obj(map k | k in j.fields :: Deserialise(j.fields[k], coerce));
    assert revived.fields["type"] == Str("Buffer");
    var items := Deserialise(JArr(ByteItems(bytes)), coerce).items;
    assert revived.fields["data"] == Arr(items);
    forall i | 0 <= i < |bytes| ensures coerce(items[i]) == bytes[i] {
      assert items[i] == Deserialise(ByteItems(bytes)[i], coerce) == ByteValue(bytes[i]);
    }
    assert Reviver(revived, coerce) == Buffer(bytes);
  }

  /** Encoding keeps the shape the reviver looks at: the top object collides after a round trip iff it did before. */
  lemma ShapeKept(v: Value, coerce: Coercion)
    ensures Deserialise(Serialise(v), coerce).Str? <==> v.Str?
    ensures v.Str? ==> Survives(v, coerce)
    ensures Deserialise(Serialise(v), coerce).Arr? <==> v.Arr?
  {
  }

  lemma ObjSurvives(fields: map<string, Value>, coerce: Coercion)
    requires !Collides(Obj(fields))
    requires forall k | k in fields :: Survives(fields[k], coerce)
    ensures Survives(Obj(fields), coerce)
  {
    var j := Serialise(Obj(fields));
    var revived := map k | k in j.fields :: Deserialise(j.fields[k], coerce);
    assert revived == fields;
  }

  lemma ObjSurvivesOnlyIf(fields: map<string, Value>, coerce: Coercion)
    requires Survives(Obj(fields), coerce)
    ensures !Collides(Obj(fields))
    ensures forall k | k in fields :: Survives(fields[k], coerce)
  {
    var j := Serialise(Obj(fields));
    var revived := map k | k in j.fields :: Deserialise(j.fields[k], coerce);
    assert Deserialise(j, coerce) == Reviver(Obj(revived), coerce);
    forall k | k in fields ensures Survives(fields[k], coerce) {
      assert revived[k] == fields[k];
    }
  }

  lemma ArrSurvives(items: seq<Value>, coerce: Coercion)
    ensures Survives(Arr(items), coerce) <==> forall i | 0 <= i < |items| :: Survives(items[i], coerce)
  {
    var back := Deserialise(Serialise(Arr(items)), coerce).items;
    assert forall i | 0 <= i < |items| :: back[i] == Deserialise(Serialise(items[i]), coerce);
    if forall i | 0 <= i < |items| :: Survives(items[i], coerce) {
      assert back == items;
    }
  }

  /** A value survives the wire exactly when no object inside it looks like an encoded Buffer. */
  lemma {:induction false} RoundTripExact(v: Value, coerce: Coercion)
    requires KeepsBytes(coerce)
    ensures Deserialise(Serialise(v), coerce) == v <==> CollisionFree(v)
  {
    match v
    case Arr(items) =>
      forall i | 0 <= i < |items| ensures Survives(items[i], coerce) <==> CollisionFree(items[i]) {
        RoundTripExact(items[i], coerce);
      }
      ArrSurvives(items, coerce);
    case Obj(fields) =>
      forall k | k in fields ensures Survives(fields[k], coerce) <==> CollisionFree(fields[k]) {
        RoundTripExact(fields[k], coerce);
      }
      if CollisionFree(v) {
        ObjSurvives(fields, coerce);
      } else if Survives(v, coerce) {
        ObjSurvivesOnlyIf(fields, coerce);
      }
    case Buffer(bytes) => BufferSurvives(bytes, coerce);
    case _ =>
  }

  // ---- Revival ----------------------------------------------------------------------------------------------------

  /**
   * An encoded Buffer with any further keys is revived as a Buffer of the same length, element by element; elements
   * that are encoded Buffers themselves are revived first.
   */
  lemma RevivesBuffer(fields: map<string, Json>, items: seq<Json>, coerce: Coercion)
    requires "type" in fields && fields["type"] == JStr("Buffer")
    requires "data" in fields && fields["data"] == JArr(items)
    ensures var v := Deserialise(JObj(fields), coerce);
            && v.Buffer? && |v.bytes| == |items|
            && forall i | 0 <= i < |items| :: v.bytes[i] == coerce(Deserialise(items[i], coerce))
  {
    var inner := Deserialise(JArr(items), coerce).items;
    var revived := map k | k in fields :: Deserialise(fields[k], coerce);
    assert revived["type"] == Str("Buffer");
    assert revived["data"] == Arr(inner);
    assert forall i | 0 <= i < |items| :: inner[i] == Deserialise(items[i], coerce);
  }

  // ---- Normal form ------------------------------------------------------------------------------------------------

  /** Revival leaves no colliding object behind, whatever the text was. */
  lemma {:induction false} RevivedIsCollisionFree(j: Json, coerce: Coercion)
    ensures CollisionFree(Deserialise(j, coerce))
  {
    match j
    case JArr(items) =>
      forall i | 0 <= i < |items| ensures CollisionFree(Deserialise(items[i], coerce)) {
        RevivedIsCollisionFree(items[i], coerce);
      }
    case JObj(fields) =>
      forall k | k in fields ensures CollisionFree(Deserialise(fields[k], coerce)) {
        RevivedIsCollisionFree(fields[k], coerce);
      }
    case _ =>
  }

  /** One decode reaches a normal form: re-encoding and decoding a decoded text changes nothing. */
  lemma NormalForm(j: Json, coerce: Coercion)
    requires KeepsBytes(coerce)
    ensures Deserialise(Serialise(Deserialise(j, coerce)), coerce) == Deserialise(j, coerce)
  {
    RevivedIsCollisionFree(j, coerce);
    RoundTripExact(Deserialise(j, coerce), coerce);
  }
}

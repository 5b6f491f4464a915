/**
 * The generic JSON document (serde_json::Value) the decoders read, and the way serde's derived
 * deserializers read the primitive Rust types out of it.
 *
 * serde_json keeps integers (i64/u64) apart from floating-point numbers; an integer field only
 * accepts the former, and only inside the width of its Rust type.
 */
module Json {
  import opened Wrappers

  datatype Value =
    | Null
    | Bool(b: bool)
    | Int(i: int)      // a JSON number held as i64 or u64
    | Float(f: real)   // a JSON number held as f64
    | Str(s: string)
    | Array(items: seq<Value>)
    | Object(fields: map<string, Value>)

  const I64_MIN: int := -0x8000_0000_0000_0000
  const I64_MAX: int := 0x7FFF_FFFF_FFFF_FFFF
  const I8_MIN: int := -0x80
  const I8_MAX: int := 0x7F

  /** `String` */
  function AsStr(v: Value): Option<string> {
    if v.Str? then Some(v.s) else None
  }

  /** `bool` */
  function AsBool(v: Value): Option<bool> {
    if v.Bool? then Some(v.b) else None
  }

  /** `i64`: an integer outside the 64-bit range, or any floating-point number, is rejected. */
  function AsI64(v: Value): Option<int> {
    if v.Int? && I64_MIN <= v.i <= I64_MAX then Some(v.i) else None
  }

  /** `i8` */
  function AsI8(v: Value): Option<int> {
    if v.Int? && I8_MIN <= v.i <= I8_MAX then Some(v.i) else None
  }

  /** A fieldless enum: a JSON string that names one variant, looked up in `table`. */
  function AsEnum<E>(v: Value, table: string -> Option<E>): Option<E> {
    if v.Str? then table(v.s) else None
  }

  /** `Vec<T>` from the items of a JSON array: every item must decode, in order. */
  function DecodeEach<T>(items: seq<Value>, dec: Value -> Option<T>): (r: Option<seq<T>>)
    ensures r.Some? <==> forall i :: 0 <= i < |items| ==> dec(items[i]).Some?
    ensures r.Some? ==> |r.value| == |items|
    ensures r.Some? ==> forall i :: 0 <= i < |items| ==> dec(items[i]) == Some(r.value[i])
  {
    if items == [] then Some([])
    else
      var head :- dec(items[0]);
      var tail :- DecodeEach(items[1..], dec);
      Some([head] + tail)
  }

  /** `Vec<T>` */
  function SeqOf<T>(v: Value, dec: Value -> Option<T>): (r: Option<seq<T>>)
    ensures r.Some? <==> v.Array? && forall i :: 0 <= i < |v.items| ==> dec(v.items[i]).Some?
    ensures r.Some? ==> |r.value| == |v.items|
    ensures r.Some? ==> forall i :: 0 <= i < |v.items| ==> dec(v.items[i]) == Some(r.value[i])
  {
    if v.Array? then DecodeEach(v.items, dec) else None
  }

  /** `HashMap<String, T>`: every entry must decode; the keys are kept as they are. */
  function MapOf<T>(v: Value, dec: Value -> Option<T>): (r: Option<map<string, T>>)
    ensures r.Some? <==> v.Object? && forall k :: k in v.fields ==> dec(v.fields[k]).Some?
    ensures r.Some? ==> r.value.Keys == v.fields.Keys
    ensures r.Some? ==> forall k :: k in r.value ==> dec(v.fields[k]) == Some(r.value[k])
  {
    if v.Object? && forall k :: k in v.fields ==> dec(v.fields[k]).Some? then
      Some(map k | k in v.fields :: dec(v.fields[k]).value)
    else
      None
  }

  /** A field of a derived struct whose type is not an `Option`: it must be present and decode. */
  function Required<T>(fields: map<string, Value>, key: string, dec: Value -> Option<T>): (r: Option<T>)
    ensures r.Some? <==> FieldDecodes(fields, key, dec)
    ensures r.Some? ==> FieldIs(fields, key, dec, r.value)
  {
    if key in fields then dec(fields[key]) else None
  }

  /** A field of type `Option<T>`: absent or `null` reads as `None`; anything else must decode
      as a `T`, or the enclosing struct fails (the outer `None`). */
  function Optional<T>(fields: map<string, Value>, key: string, dec: Value -> Option<T>): (r: Option<Option<T>>)
    ensures r.Some? <==> OptionalFieldDecodes(fields, key, dec)
    ensures r.Some? ==> OptionalFieldIs(fields, key, dec, r.value)
  {
    if key !in fields || fields[key] == Null then Some(None)
    else
      var x :- dec(fields[key]);
      Some(Some(x))
  }

  /** The field `key` is present and decodes. */
  predicate FieldDecodes<T>(fields: map<string, Value>, key: string, dec: Value -> Option<T>) {
    key in fields && dec(fields[key]).Some?
  }

  /** The field `key` is present and decodes to `x`. */
  ghost predicate FieldIs<T>(fields: map<string, Value>, key: string, dec: Value -> Option<T>, x: T) {
    key in fields && dec(fields[key]) == Some(x)
  }

  /** The field `key` is absent, `null`, or decodes. */
  predicate OptionalFieldDecodes<T>(fields: map<string, Value>, key: string, dec: Value -> Option<T>) {
    key !in fields || fields[key] == Null || dec(fields[key]).Some?
  }

  /** The optional field `key` reads as `x`: `None` exactly when it is absent or `null`, and
      otherwise the value it decodes to. */
  ghost predicate OptionalFieldIs<T>(fields: map<string, Value>, key: string, dec: Value -> Option<T>, x: Option<T>) {
    if x.None? then key !in fields || fields[key] == Null
    else key in fields && fields[key] != Null && dec(fields[key]) == Some(x.value)
  }
}

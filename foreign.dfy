/**
 * What the decoders rely on but this model does not define: the per-field schemas of records
 * that hold no logic, timestamp parsing, zlib inflation, and the two variant deserializers the
 * update enum names for its compressed variants but the source never defines.
 */
module Foreign {
  import opened Wrappers
  import opened Json

  datatype Externals = Externals(
    /** Whether serde accepts the value as the Rust record type of the given name
        (e.g. "WeatherData", "data::Speeds"); such values are kept as raw JSON. */
    records: (string, Value) -> bool,
    /** `parse_chrono_date`: a timestamp, as milliseconds since the epoch. */
    date: Value -> Option<int>,
    /** `inflate_zlib`: base64, DEFLATE, then JSON text to a document.  The source first reads
        the field as a string, so this is expected to accept only `Str` values; the model does
        not rely on that. */
    inflate: Value -> Option<Value>,
    /** `inflate_zlib_variant_car`: reads a whole `[tag, payload, timestamp]` triple as the
        CarData variant; on success, the payload it produced and the timestamp. */
    carVariant: Value -> Option<(Value, string)>,
    /** `inflate_zlib_variant_pos`: the same for the Positions variant. */
    positionsVariant: Value -> Option<(Value, string)>
  )

  /** A field whose record type is kept opaque. */
  function Opaque(ext: Externals, name: string): Value -> Option<Value> {
    v => if ext.records(name, v) then Some(v) else None
  }
}

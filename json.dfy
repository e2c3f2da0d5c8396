/**
 * Decoded JSON values, and the Python library conversions the core relies on,
 * kept abstract: `json.loads`, the JSON encoders and `str(...)` are total
 * functions carried by a `Codec` value rather than implemented here.
 */
module Json {
  import opened Wrappers

  datatype Json =
    | JNull
    | JBool(b: bool)
    | JNum(n: real)
    | JStr(s: string)
    | JArr(items: seq<Json>)
    | JObj(fields: map<string, Json>)

  /**
   * decode:    `json.loads`, None where it raises JSONDecodeError;
   * encode:    compact JSON encoding (`json.dumps`, pydantic's `model_dump_json`);
   * serialize: `_serialize_content` for an object or array (its fallback tiers
   *            collapse into one total function);
   * stringify: Python's `str(...)` of a bool, number or None.
   */
  datatype Codec = Codec(
    decode: string -> Option<Json>,
    encode: Json -> string,
    serialize: Json -> string,
    stringify: Json -> string)

  /** The decoder reads back what the encoder writes for `j`. */
  predicate RoundTrips(c: Codec, j: Json)
  {
    c.decode(c.encode(j)) == Some(j)
  }

  /** `d.get(key, default)` on a decoded object. */
  function Get(fields: map<string, Json>, key: string, default: Json): (v: Json)
    ensures key in fields ==> v == fields[key]
    ensures key !in fields ==> v == default
  {
    if key in fields then fields[key] else default
  }
}

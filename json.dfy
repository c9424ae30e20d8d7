/**
 * The values the reflector can store after `json.loads` succeeds. The parser
 * itself is not modelled: the reflector receives its outcome as an
 * `Option<Json>`. Python keeps integers and floats apart, and its decoder
 * also yields the floats `nan`, `inf` and `-inf` (from the tokens `NaN`,
 * `Infinity`, `-Infinity`, or from an overflowing literal such as `1e400`).
 * An object is a Python `dict`, compared by its key/value pairs, hence a `map`.
 */
module Json {

  datatype Json =
    | JNull
    | JBool(b: bool)
    | JInt(i: int)
    | JFloat(f: real)
    | JNaN
    | JInfinity(negative: bool)
    | JString(s: string)
    | JArray(items: seq<Json>)
    | JObject(fields: map<string, Json>)

  /** The empty dict `{}`. */
  const EmptyObject: Json := JObject(map[])
}

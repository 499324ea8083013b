/**
 * JSON values as the services exchange them (RFC 8259). Numbers are integers
 * here: the payloads only carry counts, codes and amounts that are added,
 * subtracted and compared.
 */
module Json {

  datatype Json =
    | JNull
    | JBool(b: bool)
    | JNumber(n: int)
    | JString(s: string)
    | JArray(items: seq<Json>)
    | JObject(fields: map<string, Json>)

  /** The members of a JSON object (section 4 of RFC 8259), keyed by name. */
  type Object = map<string, Json>

  /** The value Go's `map[key]` yields for a missing key: `nil`, which encodes as JSON null. */
  function Lookup(m: Object, key: string): Json
  {
    if key in m then m[key] else JNull
  }
}

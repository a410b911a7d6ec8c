/** Decoded JSON values as the client sees them after `json.loads`, and the two
    Python operations the typed mapper applies to them: `dict.get` and truthiness. */
module JsonValues {

  /** A decoded JSON value. `JNull` is also Python's `None`: the source never tells
      the two apart, since `json.loads` turns `null` into `None`. */
  datatype Json =
    | JNull
    | JBool(b: bool)
    | JNumber(n: int)
    | JString(s: string)
    | JArray(items: seq<Json>)
    | JObject(fields: map<string, Json>)

  /** A JSON object, the input of every `from_dict`. */
  type Object = map<string, Json>

  /** `data.get(key)`: the value under `key`, or `None` when the key is absent. */
  function Get(data: Object, key: string): (v: Json)
    ensures key in data ==> v == data[key]
    ensures key !in data ==> v == JNull
  {
    if key in data then data[key] else JNull
  }

  /** Python truthiness of a decoded value, as used by `if data.get(key):`. */
  predicate Truthy(v: Json) {
    match v
    case JNull => false
    case JBool(b) => b
    case JNumber(n) => n != 0
    case JString(s) => s != ""
    case JArray(items) => items != []
    case JObject(fields) => fields != map[]
  }
}

/**
 * JSON values as serde_json represents them. Numbers keep their literal text,
 * so no floating point enters the model.
 */
module Json {

  datatype Value =
    | Null
    | Bool(b: bool)
    | Number(text: string)
    | String(s: string)
    | Array(items: seq<Value>)
    | Object(fields: map<string, Value>)

  /**
   * `value[key]` with a string key: the member named `key` of an object, and
   * `Null` for an object without that member and for every value that is not
   * an object (serde_json's `Index` never panics on a string key).
   */
  function Index(v: Value, key: string): Value
  {
    if v.Object? && key in v.fields then v.fields[key] else Null
  }
}

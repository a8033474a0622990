/** The values `JSON.parse` produces, as a datatype. */
module JsonValue {

  /**
   * A parsed JSON value. Numbers are JSON numbers (`real`; the binary
   * floating-point rounding of JavaScript is not modelled). An object is the
   * map from its keys to its values, as `JSON.parse` builds it.
   */
  datatype Json =
    | Null
    | Bool(b: bool)
    | Num(n: real)
    | Str(s: string)
    | Arr(items: seq<Json>)
    | Obj(fields: map<string, Json>)
}

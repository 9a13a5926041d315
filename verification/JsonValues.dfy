/** `serde_json::Value` as a tree. The text syntax of JSON is not modelled. */
module JsonValues {

  /** A JSON number is either an integer or something `as_i64` cannot read. */
  datatype Number = Int(i: int) | Float(r: real)

  datatype Json =
    | Null
    | Bool(b: bool)
    | Num(n: Number)
    | Str(s: string)
    | Arr(items: seq<Json>)
    | Obj(fields: map<string, Json>)
}

/** The JSON-like values that request payloads and gateway responses are made of. */
module Json {

  /** A JSON value; an object is a map from keys to values (key order is not modelled). */
  datatype Value =
    | Null
    | Bool(b: bool)
    | Int(i: int)
    | Str(s: string)
    | Arr(items: seq<Value>)
    | Obj(fields: map<string, Value>)

  type Object = map<string, Value>
}

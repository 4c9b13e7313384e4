/** JSON values as the Go and JavaScript code handles them after decoding. */
module Json {

  /** A decoded JSON value. Objects are maps, as in Go's map[string]interface{}:
      member order is not significant and keys are unique. Numbers are integers
      (request ids and error codes are the only numbers the model looks at). */
  datatype Json =
    | Null
    | Bool(b: bool)
    | Number(n: int)
    | Str(s: string)
    | Array(items: seq<Json>)
    | Object(fields: map<string, Json>)

  /** The word Go's decoder uses for a value's kind in an UnmarshalTypeError. */
  function KindName(v: Json): string
  {
    match v
    case Null => "null"
    case Bool(_) => "bool"
    case Number(_) => "number"
    case Str(_) => "string"
    case Array(_) => "array"
    case Object(_) => "object"
  }
}

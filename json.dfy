/**
 * The loosely typed attribute values the handlers work on. In the source they are
 * `interface{}` values produced by decoding JSON (or BSON): nil, bool, number, string,
 * `[]interface{}` and `map[string]interface{}`. Here they are one tagged union, so every
 * runtime type assertion of the source becomes a constructor test.
 */
module JsonValues {

  datatype Json =
    | Null
    | Bool(b: bool)
    | Num(n: int)
    | Str(s: string)
    | Arr(items: seq<Json>)
    | Obj(fields: map<string, Json>)

  /** A stored or received document: a string-keyed map of values. */
  type Doc = map<string, Json>
}

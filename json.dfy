/** The values a JSON document can hold, as the template widget sees them
    after JSON.parse, and the Option wrapper used for "no value". */
module Json {

  datatype Option<+T> = None | Some(value: T)

  /** A parsed JSON value. Numbers are kept as reals (double rounding is not
      modelled); an object is a map from its keys to its values (key order,
      which only matters for the serialised text, is not modelled). */
  datatype Value =
    | Null
    | Bool(b: bool)
    | Num(n: real)
    | Str(s: string)
    | Arr(items: seq<Value>)
    | Obj(fields: map<string, Value>)
}

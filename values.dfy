/** The dynamically typed values that flow through configuration dictionaries,
    log records and execution outputs. */
module Values {

  datatype Value =
    | Null
    | Bool(b: bool)
    | Int(i: int)
    | Str(s: string)
    | Time(t: int)          // a datetime, as a point on an abstract clock
    | List(items: seq<Value>)
    | Dict(entries: map<string, Value>)

  /** A Python dictionary with string keys. */
  type Dictionary = map<string, Value>
}

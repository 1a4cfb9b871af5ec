/** Decoded JSON values, as the web layer hands them to the helpers.
    Python's `int` and `float` both become `Num`: the helpers only store and
    echo numbers, and Python compares `1 == 1.0` as equal. */
module JsonValues {

  datatype Json =
    | Null
    | Bool(b: bool)
    | Num(x: real)
    | Str(s: string)
    | Arr(items: seq<Json>)
    | Obj(members: map<string, Json>)

  /** Python truthiness of a decoded value: `not json_data` holds exactly
      when this is false. */
  predicate Truthy(j: Json) {
    match j
    case Null => false
    case Bool(b) => b
    case Num(x) => x != 0.0
    case Str(s) => s != ""
    case Arr(a) => a != []
    case Obj(m) => m != map[]
  }
}

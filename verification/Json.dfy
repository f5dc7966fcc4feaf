/** JSON values as the connector receives and stores them.  Booleans are not integers here,
    as the source's isinstance tests insist; dictionaries are compared without order, as the
    canonical form with sorted keys compares them. */
module Json {
  datatype Json =
    | Null
    | Bool(flag: bool)
    | Int(n: int)
    | Real(r: real)
    | Str(s: string)
    | Arr(items: seq<Json>)
    | Obj(fields: map<string, Json>)

  type Object = map<string, Json>

  /** dict.get with a default. */
  function GetOr(o: Object, name: string, default: Json): Json {
    if name in o then o[name] else default
  }

  function Get(o: Object, name: string): Json {
    GetOr(o, name, Null)
  }

  /** Python's truth value. */
  predicate Truthy(j: Json) {
    match j
    case Null => false
    case Bool(flag) => flag
    case Int(n) => n != 0
    case Real(r) => r != 0.0
    case Str(s) => s != ""
    case Arr(items) => items != []
    case Obj(fields) => fields != map[]
  }
}

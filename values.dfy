/** Values exchanged between the Django backend, the holiday provider and the
    React client: decoded JSON documents, and the Option wrapper used for
    lookups that may fail. */
module Values {

  datatype Option<+T> = None | Some(value: T)

  /** A decoded JSON document. Numbers are modelled as integers only. */
  datatype Json =
    | Null
    | Bool(b: bool)
    | Num(n: int)
    | Str(s: string)
    | Arr(items: seq<Json>)
    | Obj(fields: map<string, Json>)

  /** Python truthiness of a decoded JSON value (`if value:`): `None`, `False`,
      zero and empty strings, lists and dicts are false. */
  predicate PyTruthy(v: Json) {
    match v
    case Null => false
    case Bool(b) => b
    case Num(n) => n != 0
    case Str(s) => s != ""
    case Arr(items) => items != []
    case Obj(fields) => fields != map[]
  }

  /** Python's `d.get(key, default)` on a dict. */
  function GetOr(fields: map<string, Json>, key: string, default: Json): (r: Json)
    ensures key in fields ==> r == fields[key]
    ensures key !in fields ==> r == default
  {
    if key in fields then fields[key] else default
  }
}

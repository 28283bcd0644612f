/** Decoded JSON values, as the App Server client and the mapper see them. */
module Json {

  /** A Python value produced by `json.loads`. An object is an order-insensitive map: two
      dicts are equal in Python exactly when their entries are. */
  datatype Json =
    | Null
    | Bool(b: bool)
    | Int(n: int)
    | Float(r: real)
    | Str(s: string)
    | Arr(items: seq<Json>)
    | Obj(fields: map<string, Json>)

  type Object = map<string, Json>

  /** `dict.get(key)`: a missing key and an explicit null are the same Python `None`. */
  function Get(o: Object, key: string): Json {
    if key in o then o[key] else Null
  }

  /** `value.get(key)` where a value that is not a dict reads as an absent entry. */
  function GetIn(v: Json, key: string): Json {
    if v.Obj? then Get(v.fields, key) else Null
  }
}

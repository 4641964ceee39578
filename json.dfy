/** JSON values, the shape of the dictionaries that `json.load` produces
    and `json.dump` consumes, and the typed `dict.get(key, default)` reads
    that the serialisers perform on them. */
module Json {

  datatype Value =
    | JNull
    | JBool(b: bool)
    | JInt(i: int)
    | JReal(r: real)
    | JStr(s: string)
    | JArr(items: seq<Value>)
    | JObj(fields: map<string, Value>)

  type Object = map<string, Value>

  /** `d.get(key, default)` for an integer field. A value of another JSON
      type cannot be held by the typed record and reads as `default`. */
  function GetInt(d: Object, key: string, default: int): int {
    if key in d && d[key].JInt? then d[key].i else default
  }

  function GetBool(d: Object, key: string, default: bool): bool {
    if key in d && d[key].JBool? then d[key].b else default
  }

  function GetStr(d: Object, key: string, default: string): string {
    if key in d && d[key].JStr? then d[key].s else default
  }

  /** A float field: JSON integers are accepted as well, as Python would. */
  function GetReal(d: Object, key: string, default: real): real {
    if key in d && d[key].JReal? then d[key].r
    else if key in d && d[key].JInt? then d[key].i as real
    else default
  }

  /** A list field whose items are kept as raw JSON values. */
  function GetArr(d: Object, key: string, default: seq<Value>): seq<Value> {
    if key in d && d[key].JArr? then d[key].items else default
  }
}

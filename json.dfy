/** Decoded JSON values, as the log parser receives them from its JSON decoder,
    and the two Python idioms the parser applies to them: `dict.get(key, default)`
    and truthiness. */
module Json {

  /** A decoded JSON value. Numbers are integers only (floating point is not modelled);
      an object is a map from keys to values, as a Python dict built by the decoder is. */
  datatype Value =
    | JNull
    | JBool(b: bool)
    | JInt(n: int)
    | JStr(s: string)
    | JArr(items: seq<Value>)
    | JObj(fields: map<string, Value>)

  const EmptyObj: Value := JObj(map[])
  const EmptyArr: Value := JArr([])

  /** `obj.get(key, default)` on a dict. */
  function Get(obj: Value, key: string, default: Value): (r: Value)
    requires obj.JObj?
    ensures key in obj.fields ==> r == obj.fields[key]
    ensures key !in obj.fields ==> r == default
  {
    if key in obj.fields then obj.fields[key] else default
  }

  /** Python truthiness: `None`, `False`, `0`, `""`, `[]` and `{}` are false, everything else true. */
  predicate Truthy(v: Value)
    ensures !Truthy(v) <==> v in {JNull, JBool(false), JInt(0), JStr(""), JArr([]), EmptyObj}
  {
    match v
    case JNull => false
    case JBool(b) => b
    case JInt(n) => n != 0
    case JStr(s) => s != []
    case JArr(items) => items != []
    case JObj(fields) => fields != map[]
  }
}

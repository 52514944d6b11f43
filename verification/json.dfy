/** JSON documents as the backend builds, stores and returns them. A Python
    dict becomes an object whose keys are unordered; key order plays no part
    in any decision of the backend. */
module Json {

  datatype Value =
    | Null
    | Bool(b: bool)
    | Int(i: int)
    | Str(s: string)
    | Arr(items: seq<Value>)
    | Obj(fields: map<string, Value>)

  /** `{}` */
  const EmptyObject: Value := Obj(map[])

  /** `d.get(key, default)` on an object. */
  function Get(v: Value, key: string, default: Value): (r: Value)
    requires v.Obj?
    ensures key in v.fields ==> r == v.fields[key]
    ensures key !in v.fields ==> r == default
  {
    if key in v.fields then v.fields[key] else default
  }
}

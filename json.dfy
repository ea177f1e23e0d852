/** Request bodies and route parameters as parsed JSON values (numbers as integers). */
module Json {
  import opened Wrappers

  datatype Json =
    | JNull
    | JBool(b: bool)
    | JNum(n: int)
    | JStr(s: string)
    | JArr(items: seq<Json>)
    | JObj(fields: map<string, Json>)

  /** `v[key]`: the property's value, or undefined (None) when it is missing or `v` is not
      an object. */
  function Get(v: Json, key: string): Option<Json> {
    if v.JObj? && key in v.fields then Some(v.fields[key]) else None
  }

  /** `v ?? fallback`: the value unless it is undefined or null. */
  function Coalesce(v: Option<Json>, fallback: Json): Json {
    if v.None? || v.value.JNull? then fallback else v.value
  }

  /** `{ k1: v.k1, k2: v.k2, ... }` as stored: a property whose value is undefined is
      not kept. */
  function Pick(v: Json, keys: seq<string>): (r: map<string, Json>)
    ensures forall k :: k in r <==> k in keys && Get(v, k).Some?
    ensures forall k :: k in r ==> Some(r[k]) == Get(v, k)
  {
    map k | k in keys && Get(v, k).Some? :: Get(v, k).value
  }

  /** The name zod gives to the type of the value it received. */
  function TypeName(v: Option<Json>): string {
    match v
    case None => "undefined"
    case Some(JNull) => "null"
    case Some(JBool(_)) => "boolean"
    case Some(JNum(_)) => "number"
    case Some(JStr(_)) => "string"
    case Some(JArr(_)) => "array"
    case Some(JObj(_)) => "object"
  }
}

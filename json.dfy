/** The values `json.loads` produces, as far as the pipeline inspects them.
    Python's `float` is kept as its exact real value; NaN and the infinities,
    which `json.loads` also accepts, are one separate case. */
module Json {
  import opened Common

  datatype Json =
    | JNull
    | JBool(b: bool)
    | JInt(i: int)
    | JFloat(r: real)
    | JNonFinite
    | JStr(s: string)
    | JArr(items: seq<Json>)
    | JObj(fields: map<string, Json>)

  /** Python truthiness of a decoded value (`bool(v)`). */
  predicate Truthy(v: Json) {
    match v
    case JNull => false
    case JBool(b) => b
    case JInt(i) => i != 0
    case JFloat(r) => r != 0.0
    case JNonFinite => true
    case JStr(s) => s != []
    case JArr(items) => items != []
    case JObj(fields) => fields != map[]
  }

  /** `d.get(key)` on a dict, with `None` for a missing key. */
  function Get(fields: map<string, Json>, key: string): (r: Option<Json>)
    ensures r.Some? <==> key in fields
    ensures r.Some? ==> r.value == fields[key]
  {
    if key in fields then Some(fields[key]) else None
  }

  /** Python `a or b` over two optional values: the first truthy one, else `None`
      (a present but falsy value behaves like an absent one for the pipeline). */
  function OrElse(a: Option<Json>, b: Option<Json>): (r: Option<Json>)
    ensures r.Some? ==> Truthy(r.value)
    ensures r.Some? ==> r == a || r == b
    ensures r.None? <==> (a.None? || !Truthy(a.value)) && (b.None? || !Truthy(b.value))
  {
    if a.Some? && Truthy(a.value) then a
    else if b.Some? && Truthy(b.value) then b
    else None
  }
}

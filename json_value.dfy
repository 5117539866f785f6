/** Decoded JSON values, as Go's encoding/json hands them to map[string]interface{}. */
module JsonValue {
  import opened Wrappers

  /** A JSON number is a float64 in Go; it is modelled by a real. */
  datatype Json =
    | Null
    | Bool(b: bool)
    | Num(n: real)
    | Str(s: string)
    | Arr(items: seq<Json>)
    | Obj(fields: map<string, Json>)

  /** The value under key k, absent as None (Go's `m[k]` with its `ok`). */
  function Get(m: map<string, Json>, k: string): (r: Option<Json>)
    ensures r.Some? <==> k in m
  {
    if k in m then Some(m[k]) else None
  }

  /** The type assertion `v.(map[string]interface{})`. */
  function AsObj(v: Option<Json>): (r: Option<map<string, Json>>)
    ensures r.Some? <==> v.Some? && v.value.Obj?
  {
    if v.Some? && v.value.Obj? then Some(v.value.fields) else None
  }

  /** The type assertion `v.(string)`. */
  function AsStr(v: Option<Json>): (r: Option<string>)
    ensures r.Some? <==> v.Some? && v.value.Str?
  {
    if v.Some? && v.value.Str? then Some(v.value.s) else None
  }

  /** The type assertion `v.(float64)`. */
  function AsNum(v: Option<Json>): (r: Option<real>)
    ensures r.Some? <==> v.Some? && v.value.Num?
  {
    if v.Some? && v.value.Num? then Some(v.value.n) else None
  }

  /** The type assertion `v.([]interface{})`. */
  function AsArr(v: Option<Json>): (r: Option<seq<Json>>)
    ensures r.Some? <==> v.Some? && v.value.Arr?
  {
    if v.Some? && v.value.Arr? then Some(v.value.items) else None
  }

  /** Go's conversion of a float64 to an integer: the fraction is dropped, rounding toward zero. */
  function Trunc(x: real): (r: int)
    ensures x >= 0.0 ==> 0 <= r && r as real <= x < r as real + 1.0
    ensures x < 0.0 ==> r <= 0 && r as real - 1.0 < x <= r as real
  {
    if x >= 0.0 then x.Floor else -((-x).Floor)
  }

  /** An error body written by gin: {"error": message}. */
  function ErrorBody(message: string): Json {
    Obj(map["error" := Str(message)])
  }
}

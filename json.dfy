/**
 * The JSON value tree the bot manipulates (a model of `serde_json::Value`)
 * and the small accessor
 * chains (`get`, `as_str`, `as_i64`, `as_array`, ...) the source builds its
 * tolerant parsers from.
 */
module Json {

  import opened Wrappers

  /**
   * A JSON value. Numbers are split the way `serde_json::Number` answers
   * `as_i64`: integers (`JInt`, any magnitude) and non-integral numbers
   * (`JReal`). Objects are finite maps from keys to values.
   */
  datatype Json =
    | JNull
    | JBool(b: bool)
    | JInt(i: int)
    | JReal(r: real)
    | JStr(s: string)
    | JArr(items: seq<Json>)
    | JObj(fields: map<string, Json>)

  const I64_MIN: int := -0x8000_0000_0000_0000
  const I64_MAX: int := 0x7FFF_FFFF_FFFF_FFFF

  predicate InI64(i: int) { I64_MIN <= i <= I64_MAX }

  newtype i32 = x: int | -0x8000_0000 <= x < 0x8000_0000

  /** `Value::get(key)`: a field of an object; `None` for a missing key or any non-object. */
  function Get(v: Json, key: string): Option<Json> {
    if v.JObj? && key in v.fields then Some(v.fields[key]) else None
  }

  /** `opt.and_then(|v| v.get(key))`. */
  function GetOpt(o: Option<Json>, key: string): Option<Json> {
    if o.Some? then Get(o.value, key) else None
  }

  /** A chain of `get` calls starting at `v`. */
  function At(v: Json, path: seq<string>): Option<Json>
    decreases |path|
  {
    if path == [] then Some(v)
    else
      var next := Get(v, path[0]);
      if next.Some? then At(next.value, path[1..]) else None
  }

  /** `opt.and_then(|v| v.as_str())`. */
  function AsStr(o: Option<Json>): Option<string> {
    if o.Some? && o.value.JStr? then Some(o.value.s) else None
  }

  /** `opt.and_then(|v| v.as_i64())`: integers outside the i64 range answer `None`. */
  function AsI64(o: Option<Json>): Option<int> {
    if o.Some? && o.value.JInt? && InI64(o.value.i) then Some(o.value.i) else None
  }

  /** `opt.and_then(|v| v.as_bool())`. */
  function AsBool(o: Option<Json>): Option<bool> {
    if o.Some? && o.value.JBool? then Some(o.value.b) else None
  }

  /** `opt.and_then(|v| v.as_array())`. */
  function AsArray(o: Option<Json>): Option<seq<Json>> {
    if o.Some? && o.value.JArr? then Some(o.value.items) else None
  }

  /** `opt.and_then(|v| v.as_object())`. */
  function AsObject(o: Option<Json>): Option<map<string, Json>> {
    if o.Some? && o.value.JObj? then Some(o.value.fields) else None
  }

  /** The two's-complement truncation of Rust's `x as i32` on an `i64`. */
  function WrapI32(x: int): (r: i32)
    ensures -0x8000_0000 <= x < 0x8000_0000 ==> r as int == x
    ensures (r as int - x) % 0x1_0000_0000 == 0
  {
    if -0x8000_0000 <= x < 0x8000_0000 then x as i32
    else ((x + 0x8000_0000) % 0x1_0000_0000 - 0x8000_0000) as i32
  }

  /** `as_i32` of match_data.rs: `v.as_i64().unwrap_or(0) as i32`. */
  function AsI32(v: Json): i32 {
    WrapI32(AsI64(Some(v)).GetOr(0))
  }

  /** `opt.map(as_i32).unwrap_or(0)`: a present value of any kind goes through `as_i32`. */
  function I32Or0(o: Option<Json>): i32 {
    if o.Some? then AsI32(o.value) else 0
  }

  /** `root.get("data").unwrap_or(root)`: the payload proper, wrapped or not. */
  function DataView(root: Json): Json {
    Get(root, "data").GetOr(root)
  }

  /** `s` of match_data.rs: `v.and_then(as_str).unwrap_or("")`. */
  function StrOrEmpty(o: Option<Json>): string {
    AsStr(o).GetOr("")
  }
}

/**
 * The JSON value the Rust code walks (`serde_json::Value`) and the accessors
 * it calls on it: `get`, `as_i64`, `as_str` and `as_array`.
 */
module JsonValue {
  import opened Wrappers
  import opened Int64

  /**
   * `Int` is a JSON number written as an integer (serde_json keeps those as
   * `i64` or `u64`); `NonIntNum` is any other number (a float). Object keys are
   * unique, so an object is a map.
   */
  datatype Json =
    | Null
    | Bool(b: bool)
    | Int(i: int)
    | NonIntNum
    | Str(s: string)
    | Arr(items: seq<Json>)
    | Obj(fields: map<string, Json>)

  /** `Value::get(key)`: the member named `key` of an object; None for any other value. */
  function Get(v: Json, key: string): Option<Json> {
    if v.Obj? && key in v.fields then Some(v.fields[key]) else None
  }

  /** `Value::as_i64`: an integer number that fits in `i64`. */
  function AsI64(v: Json): Option<i64> {
    if v.Int? && MIN <= v.i <= MAX then Some(v.i as i64) else None
  }

  /** `Value::as_str`. */
  function AsStr(v: Json): Option<string> {
    if v.Str? then Some(v.s) else None
  }

  /** `Value::as_array`. */
  function AsArray(v: Json): Option<seq<Json>> {
    if v.Arr? then Some(v.items) else None
  }

  /** `opt.and_then(|v| v.get(key))`. */
  function GetIn(v: Option<Json>, key: string): Option<Json> {
    if v.Some? then Get(v.value, key) else None
  }

  /** `opt.and_then(|v| v.as_str())`. */
  function StrIn(v: Option<Json>): Option<string> {
    if v.Some? then AsStr(v.value) else None
  }

  /** `opt.and_then(|v| v.as_i64())`. */
  function I64In(v: Option<Json>): Option<i64> {
    if v.Some? then AsI64(v.value) else None
  }

  /** `opt.and_then(|v| v.as_array())`. */
  function AsArrayIn(v: Option<Json>): Option<seq<Json>> {
    if v.Some? then AsArray(v.value) else None
  }
}

/** JSON values as `serde_json::Value` offers them, and its accessors. */
module Json {
  import opened Options

  type Word64 = n: int | 0 <= n < 0x1_0000_0000_0000_0000

  /** A number: one that fits an unsigned 64-bit word, or a negative or fractional one. */
  datatype Json =
    | Null
    | Bool(flag: bool)
    | Number(value: Word64)
    | OtherNumber
    | Str(text: string)
    | Arr(items: seq<Json>)
    | Obj(fields: map<string, Json>)

  function Get(j: Json, key: string): Option<Json> {
    if j.Obj? && key in j.fields then Some(j.fields[key]) else None
  }

  /** `Value::pointer` with two object keys. */
  function Pointer(j: Json, outer: string, inner: string): Option<Json> {
    match Get(j, outer)
    case None => None
    case Some(v) => Get(v, inner)
  }

  function AsStr(v: Option<Json>): Option<string> {
    if v.Some? && v.value.Str? then Some(v.value.text) else None
  }

  function AsU64(v: Option<Json>): Option<Word64> {
    if v.Some? && v.value.Number? then Some(v.value.value) else None
  }

  function OrNull(v: Option<Json>): Json {
    if v.Some? then v.value else Null
  }

  /** An optional value as `json!` writes it. */
  function StrOrNull(v: Option<string>): Json {
    if v.Some? then Str(v.value) else Null
  }

  function NumberOrNull(v: Option<Word64>): Json {
    if v.Some? then Number(v.value) else Null
  }

  lemma Written(s: Option<string>, n: Option<Word64>)
    ensures AsStr(Some(StrOrNull(s))) == s && AsU64(Some(NumberOrNull(n))) == n
  {
  }
}

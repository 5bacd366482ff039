/**
 * The values Foundation's JSONSerialization produces and consumes, as far as the
 * call controller looks at them: a dictionary `[String: Any]`, a string, a
 * number, a boolean, and everything else (arrays, null). A number keeps the
 * value it was written with; a boolean is an NSNumber too, so the casts below
 * treat it as the number 0 or 1.
 */
module Json {
  import opened Wrappers

  datatype Json = Object(fields: Dict) | Str(text: string) | Number(value: real) | Bool(flag: bool) | Other

  type Dict = map<string, Json>

  /** The range of Swift's `Int` on the 64-bit platforms the library runs on. */
  predicate InInt64Range(x: int) {
    -0x8000_0000_0000_0000 <= x < 0x8000_0000_0000_0000
  }

  /** `value as? Int`: an NSNumber converts when its value is a whole number that fits in 64 bits. */
  function AsInt(value: Json): (n: Option<int>)
    ensures n.Some? ==> InInt64Range(n.value)
    ensures value.Number? ==> (n.Some? <==> value.value == value.value.Floor as real && InInt64Range(value.value.Floor))
    ensures value.Number? && n.Some? ==> n.value as real == value.value
    ensures value.Bool? ==> n == Some(if value.flag then 1 else 0)
    ensures !value.Number? && !value.Bool? ==> n.None?
  {
    match value
    case Number(r) => if r == r.Floor as real && InInt64Range(r.Floor) then Some(r.Floor) else None
    case Bool(b) => Some(if b then 1 else 0)
    case _ => None
  }

  /** `dict[key] as? String` */
  function StringField(dict: Dict, key: string): Option<string> {
    if key in dict && dict[key].Str? then Some(dict[key].text) else None
  }

  /** `dict[key] as? Int` */
  function IntField(dict: Dict, key: string): Option<int> {
    if key in dict then AsInt(dict[key]) else None
  }

  /** `dict[key] as? [String: Any]` */
  function ObjectField(dict: Dict, key: string): Option<Dict> {
    if key in dict && dict[key].Object? then Some(dict[key].fields) else None
  }
}

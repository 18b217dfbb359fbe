/** JSON values as Python sees them after decoding: dynamic types, truthiness, `str()`. */
module JsonValues {
  import opened PythonText

  type Positive = n: int | n > 0 witness 1

  datatype Json =
    | Null
    | Bool(b: bool)
    | Num(n: int)
    | Flt(num: int, den: Positive)      // a float, as a fraction
    | Str(s: string)
    | Arr(items: seq<Json>)
    | Obj(fields: map<string, Json>)

  type JsonMap = map<string, Json>

  function Get(d: JsonMap, key: string): Json {
    if key in d then d[key] else Null
  }

  predicate Truthy(j: Json) {
    match j
    case Null => false
    case Bool(b) => b
    case Num(n) => n != 0
    case Flt(num, _) => num != 0
    case Str(s) => s != ""
    case Arr(items) => items != []
    case Obj(fields) => fields != map[]
  }

  /** `str(j)`. Containers and floats never name a type, a state or an id; their text is not
      modelled and reads as the empty string. */
  function PyStr(j: Json): string {
    match j
    case Null => "None"
    case Bool(b) => if b then "True" else "False"
    case Num(n) => PrintInt(n)
    case Str(s) => s
    case _ => ""
  }

  /** `str(j or "")`. */
  function TextOf(j: Json): string {
    if Truthy(j) then PyStr(j) else ""
  }

  /** `int(j)`, with `None` for `TypeError` and `ValueError`. */
  function IntOf(j: Json): Option<int> {
    match j
    case Bool(b) => Some(if b then 1 else 0)
    case Num(n) => Some(n)
    case Flt(num, den) => Some(if num >= 0 then num / den else -(-num / den))
    case Str(s) => ParseInt(s)
    case _ => None
  }
}

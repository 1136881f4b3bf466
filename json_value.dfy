/** JSON-like Python values (what `json.loads` and `argparse` produce) and the
    handful of interpreter operations the modelled code applies to them:
    truthiness, `dict.get`, `**` unpacking, `str()`, `in` and iteration.
    A Python `dict` with string keys is an `Object`; `{**a, **b}` is `a + b`. */
module JsonValue {
  import opened Outcomes
  import PyStrings

  datatype Json =
    | JNull
    | JBool(b: bool)
    | JInt(i: int)
    | JStr(s: string)
    | JArr(items: seq<Json>)
    | JObj(fields: map<string, Json>)

  type Object = map<string, Json>

  const Empty: Json := JObj(map[])

  /** Python's `bool(j)`. */
  predicate Truthy(j: Json) {
    match j
    case JNull => false
    case JBool(b) => b
    case JInt(i) => i != 0
    case JStr(s) => s != []
    case JArr(a) => a != []
    case JObj(m) => m != map[]
  }

  /** `m.get(key, default)` on a dict. */
  function Get(m: Object, key: string, default: Json): Json {
    if key in m then m[key] else default
  }

  /** The receiver of a `.get(...)` or `.items()` call: only a dict has them. */
  function AsDict(j: Json): Result<Object> {
    if j.JObj? then Ok(j.fields) else Err(AttributeError)
  }

  /** The operand of `**j` in a dict display: only a mapping can be unpacked. */
  function Unpack(j: Json): Result<Object> {
    if j.JObj? then Ok(j.fields) else Err(TypeError)
  }

  /** A value that may be a dict key or a set element. */
  predicate Hashable(j: Json) {
    !j.JArr? && !j.JObj?
  }

  /** `m.get(key, default)` where the key is any value: the keys of a loaded
      dict are strings, so any other hashable key is simply absent. */
  function GetByValue(m: Object, key: Json, default: Json): Result<Json> {
    if !Hashable(key) then Err(TypeError)
    else if key.JStr? then Ok(Get(m, key.s, default))
    else Ok(default)
  }

  function DigitsText(n: nat): string
    decreases n
  {
    var d := ['0' + (n % 10) as char];
    if n < 10 then d else DigitsText(n / 10) + d
  }

  /** `str(j)` (and an f-string field) for the scalar values. */
  function Text(j: Json): Result<string> {
    match j
    case JNull => Ok("None")
    case JBool(b) => Ok(if b then "True" else "False")
    case JInt(i) => Ok(if i < 0 then "-" + DigitsText(-i) else DigitsText(i))
    case JStr(s) => Ok(s)
    case _ => Err(Unsupported("str() of a list or dict"))
  }

  /** `x in c`: element equality in a list, substring in a string, key
      membership in a dict. */
  function In(x: Json, c: Json): Result<bool> {
    match c
    case JArr(a) => Ok(x in a)
    case JStr(s) => if x.JStr? then Ok(PyStrings.IsSubstring(x.s, s)) else Err(TypeError)
    case JObj(m) => if !Hashable(x) then Err(TypeError) else Ok(x.JStr? && x.s in m)
    case _ => Err(TypeError)
  }

  /** The one-character strings of `s`, in order (iterating a `str`). */
  function Chars(s: string): (r: seq<Json>)
    ensures |r| == |s|
  {
    seq(|s|, i requires 0 <= i < |s| => JStr([s[i]]))
  }

  /** `for x in j`: the items of a list, the characters of a string, the keys
      of an empty dict. The order of a non-empty dict's keys is not modelled. */
  function Iterate(j: Json): Result<seq<Json>> {
    match j
    case JArr(a) => Ok(a)
    case JStr(s) => Ok(Chars(s))
    case JObj(m) => if m == map[] then Ok([]) else Err(Unsupported("iteration order of a dict"))
    case _ => Err(TypeError)
  }
}

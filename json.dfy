/** JSON values as `json.loads` produces them and `json.dumps` consumes them,
    together with the two Python views of a value the client relies on:
    truthiness (`if body:`) and `str()` (the text of a proxy error). */
module JsonValue {
  import Text

  /** A JSON value. `JNull` also stands for Python's `None` where the client
      receives an optional argument. Floating-point numbers are not modelled. */
  datatype Json =
    | JNull
    | JBool(b: bool)
    | JInt(i: int)
    | JStr(s: string)
    | JList(items: seq<Json>)
    | JObject(fields: map<string, Json>)

  /** Python truthiness: `None`, `False`, `0`, `""`, `[]` and `{}` are false. */
  predicate Truthy(v: Json) {
    match v
    case JNull => false
    case JBool(b) => b
    case JInt(i) => i != 0
    case JStr(s) => s != ""
    case JList(items) => items != []
    case JObject(fields) => fields != map[]
  }

  /** A value whose Python `str()` this model renders. */
  predicate IsScalar(v: Json) {
    !v.JList? && !v.JObject?
  }

  /** Python `str()` of a scalar: `None`, `True`/`False`, the decimal
      numeral of an integer, the string itself. */
  function ScalarText(v: Json): (t: string)
    requires IsScalar(v)
    ensures v.JNull? ==> t == "None"
    ensures v.JBool? ==> t == (if v.b then "True" else "False")
    ensures v.JInt? ==> t == Text.IntText(v.i) && Text.ParseInt(t) == v.i
    ensures v.JStr? ==> t == v.s
  {
    match v
    case JNull => "None"
    case JBool(b) => if b then "True" else "False"
    case JInt(i) => Text.ParseIntOfIntText(i); Text.IntText(i)
    case JStr(s) => s
  }

  /** The JSON object holding a `dict[str, str]`, as a header mapping is
      stored in a payload. */
  function StringMap(m: map<string, string>): (v: Json)
    ensures v.JObject? && v.fields.Keys == m.Keys
    ensures forall k :: k in m ==> v.fields[k] == JStr(m[k])
  {
    JObject(map k | k in m :: JStr(m[k]))
  }
}

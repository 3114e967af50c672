/** JSON values as `json.loads` returns them, and the Python operations the
    modelled code applies to them. */
module PyJson {
  import opened Wrappers
  import opened PyText

  /** A decoded JSON document: None, bool, int, float, str, list or dict. A
      float is held as the exact value of its numeral. */
  datatype Json =
    | JNull
    | JBool(b: bool)
    | JInt(i: int)
    | JFloat(r: real)
    | JStr(s: string)
    | JArr(items: seq<Json>)
    | JObj(fields: map<string, Json>)

  /** The outcome of `json.loads` on one text: a value, or JSONDecodeError. */
  datatype Decoded = NotJson | Value(value: Json)

  /** The decoder itself is foreign: every component receives it as a parameter. */
  type Loads = string -> Decoded

  /** Python truthiness: None, False, 0, "", [] and {} are false. */
  predicate Truthy(v: Json) {
    match v
    case JNull => false
    case JBool(b) => b
    case JInt(i) => i != 0
    case JFloat(r) => r != 0.0
    case JStr(s) => s != ""
    case JArr(items) => items != []
    case JObj(fields) => fields != map[]
  }

  predicate IsDict(v: Json) { v.JObj? }

  /** `v.get(key, default)`: only a dict has `.get`. */
  function Get(v: Json, key: string, default: Json): (r: Result<Json>)
    ensures r.Err? <==> !IsDict(v)
    ensures r.Err? ==> r.exc == AttributeError
    ensures IsDict(v) && key in v.fields ==> r == Ok(v.fields[key])
    ensures IsDict(v) && key !in v.fields ==> r == Ok(default)
  {
    match v
    case JObj(m) => Ok(if key in m then m[key] else default)
    case _ => Err(AttributeError)
  }

  /** The value under key in a dict, None when missing (`d.get(key)` with d a dict). */
  function Field(v: Json, key: string): Json
    requires IsDict(v)
  {
    if key in v.fields then v.fields[key] else JNull
  }

  /** `v[key]` with a string key. */
  function Subscript(v: Json, key: string): (r: Result<Json>)
    ensures r.Ok? <==> IsDict(v) && key in v.fields
  {
    match v
    case JObj(m) => if key in m then Ok(m[key]) else Err(KeyError)
    case _ => Err(TypeError)
  }

  /** `v[0]`. */
  function Index0(v: Json): (r: Result<Json>)
    ensures r.Ok? <==> (v.JArr? && v.items != []) || (v.JStr? && v.s != "")
    ensures v.JArr? && v.items == [] ==> r == Err(IndexError)
  {
    match v
    case JArr(items) => if items != [] then Ok(items[0]) else Err(IndexError)
    case JStr(s) => if s != "" then Ok(JStr([s[0]])) else Err(IndexError)
    case JObj(_) => Err(KeyError)
    case _ => Err(TypeError)
  }

  /** `v == 1` in Python, where True == 1 and 1.0 == 1. */
  predicate EqualsOne(v: Json) {
    v == JInt(1) || v == JBool(true) || v == JFloat(1.0)
  }

  /** `v in (0, None)` in Python, where False == 0 and 0.0 == 0. */
  predicate IsZeroOrNone(v: Json) {
    v == JNull || v == JInt(0) || v == JBool(false) || v == JFloat(0.0)
  }

  /** `v == "text"`. */
  predicate IsText(v: Json, text: string) {
    v == JStr(text)
  }

  /** `v.strip()`: only a string has it. */
  function StripValue(v: Json): (r: Result<string>)
    ensures r.Ok? <==> v.JStr?
    ensures v.JStr? ==> r == Ok(Strip(v.s))
  {
    if v.JStr? then Ok(Strip(v.s)) else Err(AttributeError)
  }

  /** `a or b`. */
  function Or(a: Json, b: Json): (r: Json)
    ensures Truthy(a) ==> r == a
    ensures !Truthy(a) ==> r == b
  {
    if Truthy(a) then a else b
  }

  /** The number a bool, int or float stands for. */
  function Number(v: Json): real
    requires v.JBool? || v.JInt? || v.JFloat?
  {
    match v
    case JBool(x) => if x then 1.0 else 0.0
    case JInt(n) => n as real
    case JFloat(r) => r
  }

  /** Python `==` on the values this model compares: bools, ints and floats
      compare as numbers, anything else structurally. */
  predicate PyEq(a: Json, b: Json) {
    if (a.JBool? || a.JInt? || a.JFloat?) && (b.JBool? || b.JInt? || b.JFloat?) then Number(a) == Number(b)
    else a == b
  }

  /** `v == 1` is Python equality with 1. */
  lemma EqualsOneIsPyEq(v: Json)
    ensures EqualsOne(v) <==> PyEq(v, JInt(1))
  {
  }

  /** `v in (0, None)` is being None or equal to 0. */
  lemma IsZeroOrNoneIsPyEq(v: Json)
    ensures IsZeroOrNone(v) <==> v == JNull || PyEq(v, JInt(0))
  {
  }
}

/** JSON values as the Python code holds them after `json.loads`, and the
    few Python operations on them that the core performs, with the
    exceptions those operations raise on values of the wrong shape. */
module PyJson {
  import opened PyStr

  /** A decoded JSON value: `None`, `bool`, `int`, `str`, `list` or `dict`.
      Floating-point numbers are not modelled. */
  datatype Json =
    | JNull
    | JBool(b: bool)
    | JInt(i: int)
    | JStr(s: string)
    | JArr(items: seq<Json>)
    | JObj(fields: map<string, Json>)

  /** The Python exception classes the core can raise on JSON values. */
  datatype Exc = KeyError | TypeError | AttributeError

  /** A Python evaluation: a value, or an exception raised on the way. */
  datatype Py<+T> = Ok(value: T) | Raised(exc: Exc)

  /** The outcome of `json.loads`: a value, or a `JSONDecodeError` whose
      `str(e)` is `msg`. */
  datatype Decoded = Parsed(value: Json) | DecodeError(msg: string)

  /** `json.loads` is deterministic, so it is modelled as a total function
      that the caller supplies; nothing is assumed about which texts it
      accepts. */
  type Decoder = string -> Decoded

  /** Python truthiness: `None`, `False`, `0`, `""`, `[]` and `{}` are false. */
  predicate Truthy(v: Json) {
    match v
    case JNull => false
    case JBool(b) => b
    case JInt(i) => i != 0
    case JStr(s) => s != ""
    case JArr(items) => items != []
    case JObj(fields) => fields != map[]
  }

  /** Python `v == n` for an integer literal `n`: `bool` compares as 0 or 1. */
  predicate EqualsInt(v: Json, n: int) {
    match v
    case JInt(i) => i == n
    case JBool(b) => (if b then 1 else 0) == n
    case _ => false
  }

  /** Python `key in v` for a string `key`: key membership in a dict,
      element equality in a list, substring in a str, `TypeError` otherwise. */
  function In(key: string, v: Json): (r: Py<bool>)
    ensures r.Raised? <==> (v.JNull? || v.JBool? || v.JInt?)
    ensures v.JObj? ==> r == Ok(key in v.fields)
    ensures v.JArr? ==> r == Ok(JStr(key) in v.items)
    ensures v.JStr? ==> r == Ok(Contains(v.s, key))
    ensures r.Raised? ==> r.exc == TypeError
  {
    match v
    case JObj(fields) => Ok(key in fields)
    case JArr(items) => Ok(JStr(key) in items)
    case JStr(s) => Ok(Contains(s, key))
    case _ => Raised(TypeError)
  }

  /** Python `v[key]` for a string `key`: the value in a dict, `KeyError`
      when the dict lacks the key, `TypeError` for every other value. */
  function Item(v: Json, key: string): (r: Py<Json>)
    ensures r.Ok? <==> v.JObj? && key in v.fields
    ensures r.Ok? ==> r.value == v.fields[key]
    ensures r == Raised(KeyError) <==> v.JObj? && key !in v.fields
  {
    match v
    case JObj(fields) => if key in fields then Ok(fields[key]) else Raised(KeyError)
    case _ => Raised(TypeError)
  }

  /** Python `d.get(key, default)` on a dict. */
  function Get(d: map<string, Json>, key: string, default: Json): Json {
    if key in d then d[key] else default
  }

  /** Python `d[key]` on a dict. */
  function Lookup(d: map<string, Json>, key: string): (r: Py<Json>)
    ensures r.Ok? <==> key in d
    ensures r.Ok? ==> r.value == d[key]
    ensures r.Raised? ==> r.exc == KeyError
  {
    if key in d then Ok(d[key]) else Raised(KeyError)
  }

  /** Python `v.get(key, default)`: only a dict has `.get`. */
  function GetAttr(v: Json, key: string, default: Json): (r: Py<Json>)
    ensures r.Raised? <==> !v.JObj?
    ensures v.JObj? ==> r == Ok(Get(v.fields, key, default))
    ensures r.Raised? ==> r.exc == AttributeError
  {
    match v
    case JObj(fields) => Ok(Get(fields, key, default))
    case _ => Raised(AttributeError)
  }

  /** The text of the `TypeError` that `v["status"] = ...` raises when `v`
      is not a dict, as CPython words it. */
  function ItemAssignmentError(v: Json): string {
    match v
    case JArr(_) => "list indices must be integers or slices, not str"
    case JStr(_) => "'str' object does not support item assignment"
    case JInt(_) => "'int' object does not support item assignment"
    case JBool(_) => "'bool' object does not support item assignment"
    case _ => "'NoneType' object does not support item assignment"
  }

  /** The strings of `vs`, when every element is a str. */
  function AllStrings(vs: seq<Json>): (r: Py<seq<string>>)
    ensures r.Ok? <==> forall k :: 0 <= k < |vs| ==> vs[k].JStr?
    ensures r.Ok? ==> |r.value| == |vs| && forall k :: 0 <= k < |vs| ==> vs[k] == JStr(r.value[k])
  {
    if vs == [] then Ok([])
    else match (vs[0], AllStrings(vs[1..]))
      case (JStr(s), Ok(rest)) => Ok([s] + rest)
      case _ => Raised(TypeError)
  }
}

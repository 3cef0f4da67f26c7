/** JSON values as the `requests` library hands them to the bot, and Python truthiness on them. */
module Json {
  import opened Wrappers

  datatype Json =
    | JNull
    | JBool(b: bool)
    | JInt(i: int)
    | JFloat(r: real)
    | JStr(s: string)
    | JList(items: seq<Json>)
    | JObj(fields: map<string, Json>)

  /** A JSON object: Python's `dict` decoded from a response body. */
  type Obj = map<string, Json>

  /** `bool(v)`: null, false, zero and empty strings, lists and objects are false. */
  predicate Truthy(j: Json)
  {
    match j
    case JNull => false
    case JBool(b) => b
    case JInt(i) => i != 0
    case JFloat(r) => r != 0.0
    case JStr(s) => s != ""
    case JList(xs) => xs != []
    case JObj(m) => |m| > 0
  }

  predicate TruthyObj(o: Obj) { |o| > 0 }

  /** `o.get(key)`, with Python's `None` read as JSON null. */
  function Get(o: Obj, key: string): (r: Json)
    ensures key !in o ==> r == JNull
  {
    if key in o then o[key] else JNull
  }

  /** `o.get(key, default)`: a key that is present wins, even with a null value. */
  function GetOr(o: Obj, key: string, default: Json): (r: Json)
    ensures key in o ==> r == o[key]
    ensures key !in o ==> r == default
  {
    if key in o then o[key] else default
  }

  /**
   * `o.get(outer, {}).get(inner)`: null when `outer` is absent; an error when
   * it is present but not an object (Python raises `AttributeError`).
   */
  /** The text of the `AttributeError` raised by `.get` on a value that is not a dict. */
  const NO_GET := "AttributeError: object has no attribute 'get'"

  function GetNested(o: Obj, outer: string, inner: string): (r: Result<Json, string>)
    ensures outer !in o ==> r == Ok(JNull)
    ensures r.Ok? && Truthy(r.value) ==> outer in o && o[outer].JObj? && inner in o[outer].fields
    ensures r.Err? <==> outer in o && !o[outer].JObj?
  {
    if outer !in o then Ok(JNull)
    else match o[outer]
      case JObj(m) => Ok(Get(m, inner))
      case _ => Err(NO_GET)
  }

  /** Whether `len(j)` is defined: strings, lists and objects; anything else raises `TypeError`. */
  predicate HasLen(j: Json) { j.JStr? || j.JList? || j.JObj? }

  /** `len(j)` for a value that has one; it is positive exactly when the value is truthy. */
  function Len(j: Json): (n: nat)
    requires HasLen(j)
    ensures n > 0 <==> Truthy(j)
  {
    match j
    case JStr(s) => |s|
    case JList(xs) => |xs|
    case JObj(m) => |m|
  }

  /** `len(o.get('data', []))` does not raise: `data` is absent or has a length. */
  predicate DataHasLen(o: Obj) { "data" !in o || HasLen(o["data"]) }

  /** A Python list of strings as the JSON array sent for it. */
  function Strings(xs: seq<string>): (j: Json)
    ensures j.JList? && |j.items| == |xs|
    ensures forall i :: 0 <= i < |xs| ==> j.items[i] == JStr(xs[i])
  {
    JList(seq(|xs|, i requires 0 <= i < |xs| => JStr(xs[i])))
  }

  function StrOrNull(s: Option<string>): Json
  {
    if s.Some? then JStr(s.value) else JNull
  }
}

/**
 * JSON values as Python holds them after `json.loads` (dicts keep their key
 * order), with the bits of Python's object protocol the analysed code uses on
 * them: `dict.get`, truthiness, `float(...)`, `len(...)` and `str(...)`.
 */
module Json {
  import opened Wrappers
  import opened Text

  datatype Json =
    | JNull
    | JBool(b: bool)
    | JInt(i: int)
    | JFloat(f: real)
    | JString(s: string)
    | JArray(items: seq<Json>)
    | JObject(fields: seq<Field>)

  /** One key of a dict, in insertion order. Objects are taken to have distinct keys. */
  datatype Field = Field(key: string, value: Json)

  /** `json.loads`: a value, or the text of the `JSONDecodeError`. */
  type Parser = string -> Result<Json, string>

  /** `float(s)` on a string: the number it spells, or None when Python raises `ValueError`. */
  type FloatParser = string -> Option<real>

  /** `repr(x)` of a Python float. */
  type FloatRepr = real -> string

  /** `d.get(key)`: the value stored under `key` in a field list. */
  function Lookup(fields: seq<Field>, key: string): (r: Option<Json>)
    ensures r.Some? <==> exists k :: 0 <= k < |fields| && fields[k].key == key
    ensures r.Some? ==> exists k :: 0 <= k < |fields| && fields[k] == Field(key, r.value)
  {
    if |fields| == 0 then None
    else if fields[0].key == key then Some(fields[0].value)
    else
      var r := Lookup(fields[1..], key);
      assert forall k :: 1 <= k < |fields| ==> fields[k] == fields[1..][k - 1];
      r
  }

  /** `key in d` for a JSON value that is a dict. */
  predicate HasKey(j: Json, key: string) {
    j.JObject? && Lookup(j.fields, key).Some?
  }

  /** `d.get(key, default)`. */
  function GetOr(fields: seq<Field>, key: string, default: Json): Json {
    match Lookup(fields, key)
    case Some(v) => v
    case None => default
  }

  /** Python's `bool(x)`. */
  predicate Truthy(j: Json) {
    match j
    case JNull => false
    case JBool(b) => b
    case JInt(i) => i != 0
    case JFloat(f) => f != 0.0
    case JString(s) => s != ""
    case JArray(items) => items != []
    case JObject(fields) => fields != []
  }

  /** `type(x).__name__`. */
  function TypeName(j: Json): string {
    match j
    case JNull => "NoneType"
    case JBool(_) => "bool"
    case JInt(_) => "int"
    case JFloat(_) => "float"
    case JString(_) => "str"
    case JArray(_) => "list"
    case JObject(_) => "dict"
  }

  /** `repr(s)` of a string; Python's escaping of quotes and control characters is not reproduced. */
  function StrRepr(s: string): string {
    "'" + s + "'"
  }

  /** `float(x)`: the number, or the text of the `ValueError`/`TypeError` Python raises. */
  function ToFloat(j: Json, parseFloat: FloatParser): (r: Result<real, string>)
    ensures j.JFloat? ==> r == Success(j.f)
    ensures j.JInt? ==> r == Success(j.i as real)
    ensures (j.JNull? || j.JArray? || j.JObject?) ==> r.Failure?
  {
    match j
    case JInt(i) => Success(i as real)
    case JFloat(f) => Success(f)
    case JBool(b) => Success(if b then 1.0 else 0.0)
    case JString(s) =>
      (match parseFloat(s)
       case Some(x) => Success(x)
       case None => Failure("could not convert string to float: " + StrRepr(s)))
    case _ => Failure("float() argument must be a string or a real number, not '" + TypeName(j) + "'")
  }

  /** `int` arithmetic on a value: Python treats `True`/`False` as 1/0. */
  function AsInt(j: Json): Option<int> {
    match j
    case JInt(i) => Some(i)
    case JBool(b) => Some(if b then 1 else 0)
    case _ => None
  }

  /** A value Python can compare with `<=` against an int. */
  function AsNumber(j: Json): Option<real> {
    match j
    case JInt(i) => Some(i as real)
    case JBool(b) => Some(if b then 1.0 else 0.0)
    case JFloat(f) => Some(f)
    case _ => None
  }

  /** `len(x)`: defined for strings, lists and dicts. */
  function Len(j: Json): Option<nat> {
    match j
    case JString(s) => Some(|s|)
    case JArray(items) => Some(|items|)
    case JObject(fields) => Some(|fields|)
    case _ => None
  }

  /** What `len(x)` or `iter(x)` sees of a value: a list's items, a string's characters, a dict's keys. */
  function Iterate(j: Json): (r: Option<seq<Json>>)
    ensures r.Some? <==> Len(j).Some?
    ensures r.Some? ==> |r.value| == Len(j).value
  {
    match j
    case JArray(items) => Some(items)
    case JString(s) => Some(seq(|s|, k requires 0 <= k < |s| => JString([s[k]])))
    case JObject(fields) => Some(seq(|fields|, k requires 0 <= k < |fields| => JString(fields[k].key)))
    case _ => None
  }

  /** A value Python can put in a set or use as a dict key: lists and dicts cannot. */
  predicate Hashable(j: Json) {
    !j.JArray? && !j.JObject?
  }

  /** The text of the `TypeError` for an unhashable value. */
  function UnhashableError(j: Json): string {
    "unhashable type: '" + TypeName(j) + "'"
  }

  /** What Python compares set elements and dict keys by: `1`, `1.0` and `True` are one key. */
  datatype Key = KNone | KNumber(n: real) | KText(s: string)

  /** The key of a hashable value (an unhashable one never reaches a set or a dict, and is given `KNone`). */
  function KeyOf(j: Json): Key {
    match j
    case JBool(b) => KNumber(if b then 1.0 else 0.0)
    case JInt(i) => KNumber(i as real)
    case JFloat(f) => KNumber(f)
    case JString(s) => KText(s)
    case _ => KNone
  }

  /** `repr(x)`. */
  function Repr(j: Json, floatRepr: FloatRepr): string
    decreases j
  {
    match j
    case JNull => "None"
    case JBool(b) => if b then "True" else "False"
    case JInt(i) => IntToString(i)
    case JFloat(f) => floatRepr(f)
    case JString(s) => StrRepr(s)
    case JArray(items) =>
      "[" + Join(seq(|items|, k requires 0 <= k < |items| => Repr(items[k], floatRepr)), ", ") + "]"
    case JObject(fields) =>
      "{" + Join(seq(|fields|, k requires 0 <= k < |fields| =>
                       StrRepr(fields[k].key) + ": " + Repr(fields[k].value, floatRepr)), ", ") + "}"
  }

  /** `str(x)`: a string is itself, anything else is its `repr`. */
  function Str(j: Json, floatRepr: FloatRepr): (r: string)
    ensures j.JString? ==> r == j.s
  {
    if j.JString? then j.s else Repr(j, floatRepr)
  }
}

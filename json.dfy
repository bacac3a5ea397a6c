/**
 * Parsed JSON values as the Python code sees them (dicts, lists, strings,
 * numbers, booleans, None), with the few Python operations the modelled code
 * applies to them: truthiness, `v[key]`, `dict.get`, `str(v)` and `for` loops.
 */
module Json {
  import opened Wrappers
  import opened Errors
  import opened Text

  datatype Json =
    | JNull
    | JBool(b: bool)
    | JNum(n: int)
    | JStr(s: string)
    | JArr(items: seq<Json>)
    | JObj(fields: map<string, Json>)

  /** Python truthiness: None, False, 0 and empty strings, lists and dicts are false. */
  predicate Truthy(j: Json)
  {
    match j
    case JNull => false
    case JBool(b) => b
    case JNum(n) => n != 0
    case JStr(s) => s != ""
    case JArr(items) => items != []
    case JObj(fields) => fields != map[]
  }

  /** `j[key]` with a string key: a dict lookup, a KeyError when absent, a TypeError on anything but a dict. */
  function Subscript(j: Json, key: string): (r: Result<Json, Raised>)
    ensures r.Success? <==> j.JObj? && key in j.fields
    ensures r.Success? ==> r.value == j.fields[key]
    ensures j.JObj? && key !in j.fields ==> r == Failure(KeyError(key))
    ensures !j.JObj? ==> r.Failure? && r.error.TypeError?
  {
    match j
    case JObj(fields) => if key in fields then Success(fields[key]) else Failure(KeyError(key))
    case JArr(_) => Failure(TypeError("list indices must be integers or slices, not str"))
    case JStr(_) => Failure(TypeError("string indices must be integers"))
    case JNull => Failure(TypeError("'NoneType' object is not subscriptable"))
    case JBool(_) => Failure(TypeError("'bool' object is not subscriptable"))
    case JNum(_) => Failure(TypeError("'int' object is not subscriptable"))
  }

  /** `d.get(key, default)`. */
  function GetOr(d: map<string, Json>, key: string, default: Json): (r: Json)
    ensures key in d ==> r == d[key]
    ensures key !in d ==> r == default
  {
    if key in d then d[key] else default
  }

  /** `str(v)` for strings, None, booleans and integers (lists and dicts are not rendered). */
  function Str(j: Json): string
  {
    match j
    case JStr(s) => s
    case JNull => "None"
    case JBool(b) => if b then "True" else "False"
    case JNum(n) => IntToString(n)
    case JArr(_) => "[...]"
    case JObj(_) => "{...}"
  }

  /**
   * What `for f in v:` hands to a loop body that starts with `f['file_path']`:
   * the items of a list, the one-character strings of a string, nothing for an
   * empty dict. A non-empty dict yields its keys, which are strings, so the first
   * `f['file_path']` raises the TypeError given here; None, booleans and numbers
   * are not iterable.
   */
  function FileRecords(v: Json): (r: Result<seq<Json>, Raised>)
    ensures v.JArr? ==> r == Success(v.items)
    ensures v.JStr? ==> r.Success? && |r.value| == |v.s| && forall i :: 0 <= i < |r.value| ==> r.value[i] == JStr([v.s[i]])
    ensures (v.JNull? || v.JBool? || v.JNum?) ==> r.Failure? && r.error.TypeError?
    ensures v.JObj? ==> r == if v.fields == map[] then Success([]) else Failure(TypeError("string indices must be integers"))
  {
    match v
    case JArr(items) => Success(items)
    case JStr(s) => Success(seq(|s|, i requires 0 <= i < |s| => JStr([s[i]])))
    case JObj(fields) => if fields == map[] then Success([]) else Failure(TypeError("string indices must be integers"))
    case JNull => Failure(TypeError("'NoneType' object is not iterable"))
    case JBool(_) => Failure(TypeError("'bool' object is not iterable"))
    case JNum(_) => Failure(TypeError("'int' object is not iterable"))
  }
}

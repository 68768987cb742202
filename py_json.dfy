/**
 * The decoded provider body, as Python sees it after `response.json()`,
 * and the three Python operations the handler applies to it:
 * `key in v`, `v[key]` and `v[0]`. Each raises on the value kinds for
 * which Python raises; the raised exception becomes a `Failure`.
 */
module PyJson {
  import opened Wrappers

  datatype Json =
    | JNull
    | JBool(b: bool)
    | JNumber(n: real)
    | JString(s: string)
    | JArray(items: seq<Json>)
    | JObject(fields: map<string, Json>)

  /** The Python exceptions the field mapping can raise. `ValidationError`
      is pydantic's, raised when a model field receives a value of the wrong kind. */
  datatype PyError = KeyError | IndexError | TypeError | ValidationError

  /** `t` occurs as a contiguous piece of `s` (Python's `t in s` on strings). */
  predicate IsSubstring(t: string, s: string)
    decreases |s|
  {
    (|t| <= |s| && s[..|t|] == t) || (|s| > 0 && IsSubstring(t, s[1..]))
  }

  /** Python `key in v`: key membership on a dict, element equality on a
      list, substring on a str; `TypeError` on None, bool and numbers. */
  function Contains(v: Json, key: string): (r: Result<bool, PyError>)
    ensures v.JObject? ==> r == Success(key in v.fields)
    ensures v.JArray? ==> r == Success(JString(key) in v.items)
    ensures v.JString? ==> r == Success(IsSubstring(key, v.s))
    ensures r.Failure? <==> v.JNull? || v.JBool? || v.JNumber?
    ensures r.Failure? ==> r.error == TypeError
  {
    match v
    case JObject(fields) => Success(key in fields)
    case JArray(items) => Success(JString(key) in items)
    case JString(s) => Success(IsSubstring(key, s))
    case _ => Failure(TypeError)
  }

  /** Python `v[key]` with a string key: a dict lookup that raises `KeyError`
      when the key is absent, `TypeError` on every other kind of value. */
  function Subscript(v: Json, key: string): (r: Result<Json, PyError>)
    ensures r.Success? <==> v.JObject? && key in v.fields
    ensures r.Success? ==> r.value == v.fields[key]
    ensures r == Failure(KeyError) <==> v.JObject? && key !in v.fields
  {
    match v
    case JObject(fields) => if key in fields then Success(fields[key]) else Failure(KeyError)
    case _ => Failure(TypeError)
  }

  /** Python `v[0]`: the first element of a list or the first character of a
      str (`IndexError` when empty); a dict never has the key 0 (`KeyError`). */
  function First(v: Json): (r: Result<Json, PyError>)
    ensures v.JArray? ==> (r.Success? <==> |v.items| > 0)
    ensures v.JArray? && |v.items| > 0 ==> r == Success(v.items[0])
    ensures r.Success? ==> v.JArray? || v.JString?
  {
    match v
    case JArray(items) => if |items| > 0 then Success(items[0]) else Failure(IndexError)
    case JString(s) => if |s| > 0 then Success(JString(s[..1])) else Failure(IndexError)
    case JObject(_) => Failure(KeyError)
    case _ => Failure(TypeError)
  }

  /** Pydantic validation of a `str` field: only a JSON string is accepted. */
  function AsStr(v: Json): (r: Result<string, PyError>)
    ensures r.Success? <==> v.JString?
    ensures r.Success? ==> v == JString(r.value)
  {
    if v.JString? then Success(v.s) else Failure(ValidationError)
  }

  /** Pydantic validation of a `float` field: only a JSON number is accepted. */
  function AsFloat(v: Json): (r: Result<real, PyError>)
    ensures r.Success? <==> v.JNumber?
    ensures r.Success? ==> v == JNumber(r.value)
  {
    if v.JNumber? then Success(v.n) else Failure(ValidationError)
  }

  /** The value reached by following `keys` through nested objects, if every
      step is an object holding the next key. */
  function Path(v: Json, keys: seq<string>): Option<Json>
    decreases |keys|
  {
    if keys == [] then Some(v)
    else if v.JObject? && keys[0] in v.fields then Path(v.fields[keys[0]], keys[1..])
    else None
  }
}

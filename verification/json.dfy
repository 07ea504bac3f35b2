/** A decoded JSON document and the two Python operations the summarizer applies
    to it: the membership test `key in value` and the subscript `value[key]`. */
module Json {
  import opened Results

  datatype Json =
    | JNull
    | JBool(b: bool)
    | JNumber(n: int)
    | JString(s: string)
    | JArray(items: seq<Json>)
    | JObject(fields: map<string, Json>)

  /** The exceptions these two operations can raise. */
  datatype PyError =
    | TypeError   // `in` on a scalar, or a string key used on a str, a list or a scalar
    | KeyError    // a dict subscripted with a key it does not hold

  /** `needle` occurs as a contiguous piece of `hay` (Python's `needle in hay` on str). */
  predicate Occurs(needle: string, hay: string)
    decreases |hay|
  {
    if |hay| < |needle| then false
    else hay[..|needle|] == needle || Occurs(needle, hay[1..])
  }

  /** Python's `key in value` for a str key: key lookup on a dict, substring test on a
      str, element test on a list; every other JSON value raises TypeError. */
  function Contains(value: Json, key: string): (r: Result<bool, PyError>)
    ensures r.Failure? <==> !(value.JObject? || value.JString? || value.JArray?)
    ensures r.Failure? ==> r.error == TypeError
    ensures value.JObject? ==> r == Success(key in value.fields)
  {
    match value
    case JObject(fields) => Success(key in fields)
    case JString(s) => Success(Occurs(key, s))
    case JArray(items) => Success(JString(key) in items)
    case _ => Failure(TypeError)
  }

  /** Python's `value[key]` for a str key: only a dict can be subscripted with one. */
  function Subscript(value: Json, key: string): (r: Result<Json, PyError>)
    ensures r.Success? <==> value.JObject? && key in value.fields
    ensures r.Success? ==> r.value == value.fields[key]
    ensures value.JObject? && key !in value.fields ==> r == Failure(KeyError)
    ensures !value.JObject? ==> r == Failure(TypeError)
  {
    match value
    case JObject(fields) => if key in fields then Success(fields[key]) else Failure(KeyError)
    case _ => Failure(TypeError)
  }
}

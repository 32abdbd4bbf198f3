/**
 * JavaScript values as the popup code sees them: the result of `JSON.parse`
 * (what `request.json()` and `response.json()` yield), and the few
 * operations the popup code applies to them — optional member access
 * (`v?.key`), the `typeof` tests for "boolean" and "string", and
 * truthiness.
 */
module Json {

  datatype Option<T> = None | Some(value: T)

  /** A parsed JSON value. Numbers are exact reals; JSON has no NaN. */
  datatype Json =
    | JNull
    | JBool(b: bool)
    | JNumber(n: real)
    | JString(s: string)
    | JArray(items: seq<Json>)
    | JObject(fields: map<string, Json>)

  /** What `await request.json()` gives the server: a value, or it threw. */
  datatype ParseResult = Malformed | Parsed(value: Json)

  /**
   * What a client's `fetch(url)` followed by `r.json()` gives: a value,
   * or the promise rejected (network failure or a body that is not JSON).
   * An HTTP error status with a JSON body is a `Responded`.
   */
  datatype FetchResult = Failed | Responded(body: Json)

  /**
   * `v?.key` for the member names the popup code reads (`show`, `content`):
   * an object's own member, and `undefined` (None) for every other value,
   * since no primitive or array carries a member of those names.
   */
  function Member(v: Json, key: string): Option<Json>
  {
    if v.JObject? && key in v.fields then Some(v.fields[key]) else None
  }

  /** `typeof v?.key === "boolean"`, with the boolean when it holds. */
  function BoolMember(v: Json, key: string): Option<bool>
  {
    match Member(v, key)
    case Some(JBool(b)) => Some(b)
    case _ => None
  }

  /** `typeof v?.key === "string"`, with the string when it holds. */
  function StringMember(v: Json, key: string): Option<string>
  {
    match Member(v, key)
    case Some(JString(s)) => Some(s)
    case _ => None
  }

  /** JavaScript's ToBoolean on a parsed value. */
  predicate Truthy(v: Json)
  {
    match v
    case JNull => false
    case JBool(b) => b
    case JNumber(n) => n != 0.0
    case JString(s) => s != ""
    case JArray(_) => true
    case JObject(_) => true
  }

  /** Truthiness of `v.key`, where an absent member is `undefined` and falsy. */
  predicate MemberTruthy(v: Json, key: string)
  {
    match Member(v, key)
    case Some(x) => Truthy(x)
    case None => false
  }
}

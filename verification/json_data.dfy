/**
 * JSON values as JavaScript sees them after `JSON.parse` or `req.json()`,
 * with the two operations the application applies to them: reading a
 * property (undefined is None) and testing truthiness.
 */
module JsonData {
  import opened Common

  datatype Json =
    | JNull
    | JBool(b: bool)
    | JNumber(n: real)
    | JString(s: string)
    | JArray(items: seq<Json>)
    | JObject(fields: map<string, Json>)

  /**
   * `v.name` on a value that is not null: an object's own field, and
   * undefined otherwise (no primitive or array has the data fields read in
   * this application).
   */
  function Get(v: Json, name: string): (r: Option<Json>)
    ensures r.Some? <==> v.JObject? && name in v.fields
    ensures r.Some? ==> r.value == v.fields[name]
  {
    if v.JObject? && name in v.fields then Some(v.fields[name]) else None
  }

  /**
   * JavaScript truthiness of a possibly undefined value: undefined, null,
   * false, 0 and the empty string are falsy; objects and arrays, even empty
   * ones, are truthy.
   */
  predicate Truthy(v: Option<Json>)
  {
    match v
    case None => false
    case Some(JNull) => false
    case Some(JBool(b)) => b
    case Some(JNumber(n)) => n != 0.0
    case Some(JString(s)) => s != ""
    case Some(JArray(_)) => true
    case Some(JObject(_)) => true
  }

  /** The falsy values are exactly undefined, null, false, 0 and "". */
  lemma FalsyValues(v: Option<Json>)
    ensures !Truthy(v) <==>
      v == None || v == Some(JNull) || v == Some(JBool(false)) || v == Some(JNumber(0.0)) || v == Some(JString(""))
  {
  }

  /** A string-valued field that is present and non-empty. */
  function NonEmptyString(v: Option<Json>): (r: Option<string>)
    ensures r.Some? <==> Truthy(v) && v.value.JString?
    ensures r.Some? ==> r.value != [] && v == Some(JString(r.value))
  {
    if v.Some? && v.value.JString? && v.value.s != "" then Some(v.value.s) else None
  }
}

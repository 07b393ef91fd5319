/** JSON values as JavaScript sees them after `JSON.parse`: truthiness,
    property access (which throws on `null`), and `String(v)`, the conversion
    `new Error(v)` and template literals apply. Numbers are integers here. */
module Json {
  import opened JsText

  datatype Json =
    | JNull
    | JBool(b: bool)
    | JInt(i: int)
    | JString(s: String)
    | JArray(items: seq<Json>)
    | JObject(fields: map<String, Json>)

  /** JavaScript truthiness: `null`, `false`, `0` and `""` are falsy. */
  predicate Truthy(j: Json)
  {
    match j
    case JNull => false
    case JBool(b) => b
    case JInt(i) => i != 0
    case JString(s) => s != []
    case _ => true
  }

  /** The outcome of reading `v.key`. */
  datatype Access = Undefined | Value(v: Json) | ThrowsTypeError

  /** `v.key`: a `TypeError` on `null`, the field of an object, and
      `undefined` for a missing field or a primitive. */
  function Get(j: Json, key: String): (a: Access)
    ensures a == ThrowsTypeError <==> j == JNull
    ensures j.JObject? && key in j.fields ==> a == Value(j.fields[key])
  {
    match j
    case JNull => ThrowsTypeError
    case JObject(f) => if key in f then Value(f[key]) else Undefined
    case _ => Undefined
  }

  /** The access yields a truthy value. */
  predicate HasTruthy(a: Access)
  {
    a.Value? && Truthy(a.v)
  }

  /** `String(v)`: arrays join their elements' strings with commas, with
      `null` elements becoming empty; objects print as `[object Object]`. */
  function StringOf(j: Json): String
  {
    match j
    case JNull => "null"
    case JBool(b) => if b then "true" else "false"
    case JInt(i) => IntToString(i)
    case JString(s) => s
    case JArray(items) =>
      Join(seq(|items|, k requires 0 <= k < |items| => if items[k] == JNull then [] else StringOf(items[k])), ',')
    case JObject(_) => "[object Object]"
  }

  /** A list of error objects, as a validation error's `detail` usually is,
      prints as one `[object Object]` per entry. */
  lemma ObjectListString(fields: map<String, Json>)
    ensures StringOf(JArray([JObject(fields), JObject(fields)])) == "[object Object],[object Object]"
  {
    var items := [JObject(fields), JObject(fields)];
    var parts := seq(|items|, k requires 0 <= k < |items| => if items[k] == JNull then [] else StringOf(items[k]));
    assert parts == ["[object Object]", "[object Object]"];
    assert parts[1..] == ["[object Object]"];
    assert Join(parts[1..], ',') == "[object Object]";
    assert Join(parts, ',') == parts[0] + [','] + Join(parts[1..], ',');
  }
}

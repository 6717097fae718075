/** JSON values as the schema layer sees them after `JSON.parse`.

    Objects are finite maps from keys to values (a JavaScript object has at
    most one value per key).  Numbers are kept as an opaque `real`: the
    schemas only ever ask whether a value IS a number, never what it is.
 */
module Json {

  /** `None` plays the part of JavaScript's `undefined`: the value read from
      an object at a key the object does not have. */
  datatype Option<+T> = None | Some(value: T)

  datatype Json =
    | JNull
    | JBool(b: bool)
    | JNumber(n: real)
    | JString(s: string)
    | JArray(items: seq<Json>)
    | JObject(fields: map<string, Json>)

  /** `j[key]` in JavaScript: the member at `key`, or absent when `j` is not an
      object or has no such key. */
  function Member(j: Json, key: string): Option<Json>
  {
    if j.JObject? && key in j.fields then Some(j.fields[key]) else None
  }

  // Plain-JSON vocabulary used to state what each schema demands.

  predicate IsString(v: Option<Json>) {
    v.Some? && v.value.JString?
  }

  predicate IsNumber(v: Option<Json>) {
    v.Some? && v.value.JNumber?
  }

  predicate IsBool(v: Option<Json>) {
    v.Some? && v.value.JBool?
  }

  predicate IsObject(v: Option<Json>) {
    v.Some? && v.value.JObject?
  }

  predicate IsStringOrNumber(v: Option<Json>) {
    IsString(v) || IsNumber(v)
  }

  predicate OptionalString(v: Option<Json>) {
    v.None? || IsString(v)
  }

  predicate OptionalNumber(v: Option<Json>) {
    v.None? || IsNumber(v)
  }

  predicate OptionalBool(v: Option<Json>) {
    v.None? || IsBool(v)
  }

  predicate OptionalObject(v: Option<Json>) {
    v.None? || IsObject(v)
  }

  /** Every member of the object `v` is itself an object. */
  predicate IsObjectOfObjects(v: Option<Json>) {
    && IsObject(v)
    && forall k :: k in v.value.fields ==> v.value.fields[k].JObject?
  }
}

/** JSON request bodies as the routes see them after `await req.json()`. */
module Json {
  import opened Wrappers

  datatype Json =
    | JNull
    | JBool(b: bool)
    | JNumber(n: real)
    | JString(s: string)
    | JArray(items: seq<Json>)
    | JObject(fields: map<string, Json>)

  /** The body of a request: text that is not JSON makes `req.json()` throw. */
  datatype Body = Malformed | Parsed(value: Json)

  /** `z.string()` on a field: present and a string. */
  function StringField(v: Json, key: string): (r: Option<string>)
    ensures r.Some? <==> v.JObject? && key in v.fields && v.fields[key].JString?
    ensures r.Some? ==> v.fields[key] == JString(r.value)
  {
    if v.JObject? && key in v.fields && v.fields[key].JString? then Some(v.fields[key].s) else None
  }

  /** `z.boolean()` on a field: present and a boolean. */
  function BoolField(v: Json, key: string): (r: Option<bool>)
    ensures r.Some? <==> v.JObject? && key in v.fields && v.fields[key].JBool?
    ensures r.Some? ==> v.fields[key] == JBool(r.value)
  {
    if v.JObject? && key in v.fields && v.fields[key].JBool? then Some(v.fields[key].b) else None
  }

  /** `z.string().optional()` on a field of an object: absent, or a string
      (JSON has no `undefined`, so `null` is rejected). */
  predicate OptionalStringOk(v: Json, key: string)
    requires v.JObject?
  {
    key !in v.fields || v.fields[key].JString?
  }
}

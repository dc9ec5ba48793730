/** The parts of zod's object schemas the handlers use. Zod's own
    construction of the issue list is not modelled: a caller passes the list
    zod reports for a body as an opaque JSON value. */
module Zod {
  import opened JsValues

  /** What `schema.parse(body)` throws: an error with an own `issues` list. */
  function ZodError(issues: Json): Thrown {
    Thrown(Some("ZodError"), None, Some(issues))
  }

  /** A `z.string()` field: the body is an object and the key holds a string. */
  function StringField(body: Json, key: string): (r: Option<string>)
    ensures r.Some? <==> body.JObj? && key in body.fields && body.fields[key].JStr?
    ensures r.Some? ==> body.fields[key] == JStr(r.value)
  {
    if body.JObj? && key in body.fields && body.fields[key].JStr? then Some(body.fields[key].s)
    else None
  }

  /** A `z.string().optional()` field: absent, or a string. A `null` is
      neither and is refused. Gives None for a field that does not parse,
      Some(None) for an absent one. */
  function OptionalStringField(body: Json, key: string): (r: Option<Option<string>>)
    requires body.JObj?
    ensures r.Some? <==> key !in body.fields || body.fields[key].JStr?
    ensures r == Some(None) <==> key !in body.fields
  {
    if key !in body.fields then Some(None)
    else if body.fields[key].JStr? then Some(Some(body.fields[key].s))
    else None
  }
}

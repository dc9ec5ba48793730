/** JavaScript values as the three API handlers see them: JSON request and
    response bodies, thrown error objects, and HTTP requests and responses. */
module JsValues {

  datatype Option<+T> = None | Some(value: T)

  datatype Result<+R, +E> = Success(value: R) | Failure(error: E)

  /** A JSON value. Numbers are integers: no handler reads a fractional number. */
  datatype Json =
    | JNull
    | JBool(b: bool)
    | JNum(n: int)
    | JStr(s: string)
    | JArr(items: seq<Json>)
    | JObj(fields: map<string, Json>)

  /** A thrown JavaScript value, reduced to what the handlers inspect:
      `error.name`, `error.message` (None when the property is undefined)
      and an own `issues` property (None when the object has none). */
  datatype Thrown = Thrown(name: Option<string>, message: Option<string>, issues: Option<Json>)

  /** `new Error(message)`: its `name` is the inherited "Error" and it has no own `issues`. */
  function NewError(message: string): Thrown
  {
    Thrown(Some("Error"), Some(message), None)
  }

  /** The HTTP request fields the handlers read. `authorization` is the
      (lower-cased) Authorization header, None when it was not sent. */
  datatype Request = Request(httpMethod: string, authorization: Option<string>, body: Json)

  /** What a handler writes with `res.status(status).json(body)`. */
  datatype Response = Response(status: int, body: Json)

  /** The body `{ message: m }` every handler uses for its simple replies. */
  function MessageBody(m: string): Json
  {
    JObj(map["message" := JStr(m)])
  }
}

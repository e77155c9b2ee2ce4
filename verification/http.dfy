/**
 Abstract HTTP exchanges and UI effects. A call to the external API is a
 `Request` record; its answer is a `Reply` supplied as an input, so the
 transport itself never appears in the model.
 */
module Http {
  import opened Js

  datatype Method = Get | Post | Put | Delete

  /** One call to the external API: verb, path below the base URL, and the JSON
      body (or query parameters for a GET) as a field map. */
  datatype Request = Request(verb: Method, path: string, body: map<string, Value>)

  /** The `data` of an error response: absent, plain text, or a JSON object
      whose `message` field may be set. */
  datatype ErrorBody = NoBody | TextBody(text: string) | JsonBody(message: Value)

  /** A rejected call: no response at all (network failure), or a status with a body. */
  datatype HttpError = NoResponse | Status(code: int, data: ErrorBody)

  /** The settled outcome of one call. */
  datatype Reply<+T> = Ok(data: T) | Err(error: HttpError)

  /** What a handler shows or does after a call settles. */
  datatype Effect = NoEffect | Alert(text: string) | NavigateTo(path: string)

  /** `err.response?.status === 404`. */
  predicate IsNotFound(e: HttpError) {
    e.Status? && e.code == 404
  }

  /** `err.response?.data?.message`. */
  function ServerMessage(e: HttpError): Value {
    match e
    case NoResponse => Undefined
    case Status(_, body) => if body.JsonBody? then body.message else Undefined
  }

  /** The text shown by `alert(err.response?.data?.message || fallback)`. */
  function MessageOr(e: HttpError, fallback: string): (text: string)
    ensures Truthy(ServerMessage(e)) ==> text == ToString(ServerMessage(e))
    ensures !Truthy(ServerMessage(e)) ==> text == fallback
  {
    ToString(Or(ServerMessage(e), Str(fallback)))
  }

  /** The text shown by `alert(err.response?.data || fallback)`: a text body as
      is, an object body as `String` of an object, "[object Object]". */
  function DataOr(e: HttpError, fallback: string): string {
    match e
    case NoResponse => fallback
    case Status(_, body) =>
      match body
      case NoBody => fallback
      case TextBody(t) => if t != "" then t else fallback
      case JsonBody(_) => ObjectText
  }
}

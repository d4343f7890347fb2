/**
 * Values shared by every slice of the storefront's state layer: optional
 * values, results, and the ways a request to the remote API can fail.
 *
 * JavaScript's `a || b` on strings treats the empty string, `null` and
 * `undefined` alike; the model writes all three as "".
 */
module Common {

  datatype Option<+T> = None | Some(value: T)

  datatype Result<+T, +E> = Ok(value: T) | Err(error: E)

  /** `a || b` on strings. */
  function Or(a: string, b: string): string
  {
    if a != "" then a else b
  }

  /**
   * The fields of an error response body that the code reads:
   * `message`, `error`, `details`, and the `msg` of each element of
   * `errors`. Absent fields are "".
   */
  datatype ErrorBody = ErrorBody(message: string, error: string, details: string, errors: seq<string>)

  /**
   * The three kinds of failure an HTTP request can end in, as the request
   * library reports them: the server answered with an error status
   * (`error.response` is set, its `data` may be missing), the request was
   * sent but nothing came back (`error.request` is set), or the request
   * could not be built. Each carries the JavaScript error's `message`.
   */
  datatype Failure =
    | ServerError(status: int, data: Option<ErrorBody>, message: string)
    | NoResponse(message: string)
    | ConfigError(message: string)

  /** How a request settles: a response body, or a failure. */
  datatype Outcome<+T> = Success(body: T) | Failed(failure: Failure)

  /** `error.response?.data` */
  function ResponseData(f: Failure): Option<ErrorBody>
  {
    if f.ServerError? then f.data else None
  }

  /** `error.response?.data?.message` */
  function DataMessage(f: Failure): string
  {
    match ResponseData(f)
    case Some(b) => b.message
    case None => ""
  }

  /** `error.response?.data?.error` */
  function DataError(f: Failure): string
  {
    match ResponseData(f)
    case Some(b) => b.error
    case None => ""
  }

  /** `error.response?.data?.details` */
  function DataDetails(f: Failure): string
  {
    match ResponseData(f)
    case Some(b) => b.details
    case None => ""
  }

  /** `error.response?.data?.errors?.[0]?.msg` */
  function FirstErrorMsg(f: Failure): string
  {
    match ResponseData(f)
    case Some(b) => if |b.errors| > 0 then b.errors[0] else ""
    case None => ""
  }

  /**
   * What a rejected operation stores in a slice's `error` field: a plain
   * string, an object `{message, status, details}`, the raw error body of
   * the response, or `undefined` (the operation threw instead of calling
   * `rejectWithValue`).
   */
  datatype ErrorPayload =
    | Text(text: string)
    | Detailed(message: string, status: Option<int>, details: Option<ErrorBody>)
    | Body(data: ErrorBody)
    | Undefined

  /**
   * How an asynchronous operation settles, together with whether it issued
   * its network request at all.
   */
  datatype Settled<+T> = Settled(result: Result<T, ErrorPayload>, requested: bool)
}

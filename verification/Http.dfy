/**
  The client's view of the remote REST API, reduced to values: the request a handler issues,
  the outcome it eventually observes, the value a rejected promise carries, and the visible
  effects (navigation, callbacks to the parent component, dialogs) a handler produces.
  Transport is not modelled: each request's outcome is a parameter of the handler that awaits it.
 */
module Http {
  import opened Js

  datatype Method = Get | Post | Put | Delete

  /** The JSON bodies the client sends. */
  datatype Body =
    | NoBody
    | ContentBody(content: string)
    | ProfileBody(name: string, imageUrl: Option<string>)
    | LoginBody(username: string, password: string)
    /** `imageUrl: None` is a field left `undefined`, which the JSON encoding omits. */
    | RegisterBody(name: string, username: string, password: string, imageUrl: Option<string>)

  datatype Request = Request(verb: Method, path: string, body: Body)

  /** `error.response`: the status and the `message` field of the JSON error body, if any. */
  datatype ErrorResponse = ErrorResponse(status: int, message: Option<string>)

  /** What a failed `await` throws. */
  datatype Thrown =
    /** An axios error; `response` is None when no response arrived. */
    | HttpError(response: Option<ErrorResponse>)
    /** Any other `Error` instance, with its `message`. */
    | PlainError(message: string)
    /** A thrown value that is not an `Error`. */
    | OtherThrown

  /** How an awaited request settles, as seen by the handler. */
  datatype Outcome<+T> = Success(data: T) | Failure(error: Thrown)

  /** A promise after it settles. */
  datatype Settled<+T> = Resolved(value: T) | Rejected(error: Thrown)

  /** `err.response?.data?.message`, when it is truthy. */
  function ServerMessage(e: Thrown): (m: Option<string>)
    ensures m.Some? ==> Truthy(m.value)
    ensures m.Some? <==> e.HttpError? && e.response.Some? && OrNull(e.response.value.message).Some?
    ensures m.Some? ==> m == e.response.value.message
  {
    if e.HttpError? && e.response.Some? then OrNull(e.response.value.message) else None
  }

  /**
    The message a form shows for a failed submission, in the order the forms test: an HTTP
    error shows the server's message or else `httpFallback`; another `Error` shows its own
    message; any other thrown value shows `generic`.
   */
  function FormErrorMessage(e: Thrown, httpFallback: string, generic: string): (msg: string)
    ensures e.HttpError? ==> msg == ServerMessage(e).GetOr(httpFallback)
    ensures e.PlainError? ==> msg == e.message
    ensures e.OtherThrown? ==> msg == generic
    ensures Truthy(httpFallback) && e.HttpError? ==> Truthy(msg)
  {
    match e
    case HttpError(_) => ServerMessage(e).GetOr(httpFallback)
    case PlainError(m) => m
    case OtherThrown => generic
  }

  /** `error.response && error.response.status === 401`: only an HTTP error that got a 401 response. */
  function IsUnauthorized(e: Thrown): (unauthorized: bool)
    ensures unauthorized ==> e.HttpError? && e.response.Some? && e.response.value.status == 401
    ensures e.HttpError? && e.response.Some? && e.response.value.status == 401 ==> unauthorized
    ensures e.PlainError? || e.OtherThrown? || (e.HttpError? && e.response.None?) ==> !unauthorized
  {
    match e
    case HttpError(Some(r)) => r.status == 401
    case _ => false
  }

  /** Visible results of a handler besides its own state: navigation, parent callbacks, dialogs. */
  datatype Effect =
    | Navigate(path: string)
    /** Navigation scheduled on a timer. */
    | NavigateLater(path: string)
    | TweetPosted
    | ReplySucceeded
    | ProfileSaved(name: string, imageUrl: Option<string>)
    | Closed
    /** A blocking alert or a dialog showing a text. */
    | Alert(text: string)
}

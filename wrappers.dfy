/** Failure-carrying values shared by every service model, and the two ways the
    services turn a failed backend call into what their callers see. */
module Wrappers {

  datatype Option<+T> = None | Some(value: T) {
    function GetOr(default: T): T {
      if Some? then value else default
    }
  }

  datatype Result<+T, +E> = Ok(value: T) | Err(error: E)

  /** A failed backend call as the HTTP client reports it: the status code when a
      response arrived at all, and the `message` field of the response body when
      the body has one. */
  datatype ApiError = ApiError(status: Option<int>, message: Option<string>)

  /** JavaScript truthiness of an optional string: present and not empty. */
  predicate Truthy(s: Option<string>) {
    s.Some? && s.value != ""
  }

  /** `error.response?.data?.message || fallback` */
  function MessageOr(e: ApiError, fallback: string): string {
    if Truthy(e.message) then e.message.value else fallback
  }

  /** The read-path pattern of every service call: the response data on success,
      otherwise a new error whose text is the backend's message or the
      operation's fallback text. */
  function Rethrow<T>(answer: Result<T, ApiError>, fallback: string): (r: Result<T, string>)
    ensures r.Ok? <==> answer.Ok?
    ensures r.Ok? ==> r.value == answer.value
    ensures r.Err? && Truthy(answer.error.message) ==> r.error == answer.error.message.value
    ensures r.Err? && !Truthy(answer.error.message) ==> r.error == fallback
    ensures r.Err? && fallback != "" ==> r.error != ""
  {
    match answer
    case Ok(v) => Ok(v)
    case Err(e) => Err(MessageOr(e, fallback))
  }

  /** The lookup pattern that treats "not found" as an ordinary answer: a 404
      becomes `null`, any other failure is rethrown as in `Rethrow`. */
  function NotFoundAsNull<T>(answer: Result<T, ApiError>, fallback: string): (r: Result<Option<T>, string>)
    ensures answer.Ok? ==> r == Ok(Some(answer.value))
    ensures answer.Err? && answer.error.status == Some(404) ==> r == Ok(None)
    ensures answer.Err? && answer.error.status != Some(404) ==> r == Err(MessageOr(answer.error, fallback))
  {
    match answer
    case Ok(v) => Ok(Some(v))
    case Err(e) => if e.status == Some(404) then Ok(None) else Err(MessageOr(e, fallback))
  }
}

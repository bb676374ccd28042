/**
 * The error taxonomy of the REST client and `raise_for_status`: which HTTP
 * statuses raise which subclass of ConfluenceError, and the detail text the
 * raised error carries.
 */
module Errors {
  import opened Wrappers
  import opened Strings
  import opened JsonValues

  /** The subclasses of ConfluenceError. */
  datatype ErrorKind = AuthError | NotFound | Conflict | RateLimited | ServerError | ValidationError

  /**
   * A raised ConfluenceError: every error of the taxonomy is one, and `str(e)`
   * gives its detail text.
   */
  datatype ConfluenceError = ConfluenceError(kind: ErrorKind, detail: string)

  /** The statuses each kind stands for, read from the class documentation. */
  predicate Covers(kind: ErrorKind, status: int) {
    match kind
    case AuthError => status == 401 || status == 403
    case NotFound => status == 404
    case Conflict => status == 409
    case RateLimited => status == 429
    case ServerError => 500 <= status < 600
    case ValidationError =>
      400 <= status < 500 && status != 401 && status != 403 && status != 404 && status != 409 && status != 429
  }

  /** The kind `raise_for_status` raises for a status; None when it returns normally. */
  function Classify(status: int): (k: Option<ErrorKind>)
    ensures k.Some? <==> 400 <= status < 600
    ensures k.Some? ==> Covers(k.value, status)
  {
    if status == 401 || status == 403 then Some(AuthError)
    else if status == 404 then Some(NotFound)
    else if status == 409 then Some(Conflict)
    else if status == 429 then Some(RateLimited)
    else if 500 <= status < 600 then Some(ServerError)
    else if 400 <= status < 500 then Some(ValidationError)
    else None
  }

  /** Each status in 400-599 belongs to exactly one kind, and that kind is the one raised. */
  lemma ClassifyIsTheCoveringKind(status: int, kind: ErrorKind)
    ensures Classify(status) == Some(kind) <==> Covers(kind, status)
  {
  }

  /**
   * The detail text: the request description, extended by the payload's
   * `message` (or else `title`) and `reason` when either is present.
   */
  function Detail(message: string, payload: Json): string {
    if !Truthy(payload) then message
    else
      var title := Or(Or(GetOrNull(payload, "message"), GetOrNull(payload, "title")), JStr(""));
      var reason := Or(GetOrNull(payload, "reason"), JStr(""));
      if Truthy(title) || Truthy(reason) then Strip(message + Extra(title, reason))
      else message
  }

  /** The text that follows the description in `f"{message} {title} {reason}"`. */
  function Extra(title: Json, reason: Json): string {
    " " + PyStr(title) + " " + PyStr(reason)
  }

  /** `raise_for_status`: the error it raises, or None when it returns normally. */
  function RaiseForStatus(status: int, message: string, payload: Json): (e: Option<ConfluenceError>)
    ensures e.Some? <==> 400 <= status < 600
    ensures e.Some? ==> Covers(e.value.kind, status) && e.value.detail == Detail(message, payload)
  {
    match Classify(status)
    case Some(kind) => Some(ConfluenceError(kind, Detail(message, payload)))
    case None => None
  }

  /**
   * The detail is composed from the description and the payload only: with no
   * `message`, `title` or `reason` in the payload it is the description itself,
   * whatever the status.
   */
  lemma DetailWithoutPayloadFields(message: string, payload: Json)
    requires !Truthy(GetOrNull(payload, "message")) && !Truthy(GetOrNull(payload, "title"))
    requires !Truthy(GetOrNull(payload, "reason"))
    ensures Detail(message, payload) == message
  {
  }

  /** `message` is preferred over `title`, and `reason` follows it. */
  lemma DetailPrefersMessage(message: string, payload: Json)
    requires Truthy(payload) && Truthy(GetOrNull(payload, "message"))
    ensures Detail(message, payload)
         == Strip(message + Extra(GetOrNull(payload, "message"), Or(GetOrNull(payload, "reason"), JStr(""))))
  {
  }

  /** A description without surrounding blanks always survives at the front of the detail. */
  lemma {:induction false} DetailStartsWithMessage(message: string, payload: Json)
    requires message != [] && !IsSpace(message[0]) && !IsSpace(message[|message| - 1])
    ensures StartsWith(Detail(message, payload), message)
  {
    if Truthy(payload) {
      var title := Or(Or(GetOrNull(payload, "message"), GetOrNull(payload, "title")), JStr(""));
      var reason := Or(GetOrNull(payload, "reason"), JStr(""));
      if Truthy(title) || Truthy(reason) {
        StripStartsWith(message, Extra(title, reason));
      }
    }
  }
}

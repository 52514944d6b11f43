/** The three exception handlers of backend/main.py, which turn an error into
    the JSON envelope `{"error": ..., "message": ..., "details": ...}` the
    frontend reads. `render` stands for Python's `str()` on a JSON value. */
module ErrorHandlers {
  import Json
  import opened Wrappers
  import opened Exceptions

  datatype Response = Response(status: int, body: Json.Value, headers: map<string, string>)

  /** The envelope every handler answers with. */
  function Envelope(error: string, message: Json.Value, details: Json.Value): Json.Value {
    Json.Obj(map["error" := Json.Str(error), "message" := message, "details" := details])
  }

  /** The `message` of an HTTP error: the detail itself when it is a string,
      its `str()` rendering otherwise; either way a string. */
  function HttpErrorMessage(detail: Json.Value, render: Json.Value -> string): (m: Json.Value)
    ensures m.Str?
    ensures detail.Str? ==> m == detail
  {
    if detail.Str? then detail else Json.Str(render(detail))
  }

  /** `custom_http_exception_handler` as written: the status is kept, the error
      is "http_error", the details repeat the status, and the exception's own
      headers are not passed on. */
  function HttpExceptionResponse(e: HttpException, render: Json.Value -> string): (r: Response)
    ensures r.status == e.status && r.headers == map[]
    ensures r.body == Envelope("http_error", HttpErrorMessage(e.detail, render),
                               Json.Obj(map["status_code" := Json.Int(e.status)]))
  {
    Response(e.status,
             Envelope("http_error", HttpErrorMessage(e.detail, render),
                      Json.Obj(map["status_code" := Json.Int(e.status)])),
             map[])
  }

  /** The same handler passing the exception's headers on with the response,
      as FastAPI's default handler does. */
  function HttpExceptionResponseWithHeaders(e: HttpException, render: Json.Value -> string): (r: Response)
    ensures r.headers == e.headers
    ensures r.(headers := map[]) == HttpExceptionResponse(e, render)
  {
    HttpExceptionResponse(e, render).(headers := e.headers)
  }

  /** `validation_exception_handler`: a request the framework could not
      validate is a 422 with a fixed message and the framework's error list. */
  function RequestValidationResponse(errors: seq<Json.Value>): (r: Response)
    ensures r.status == 422 && r.headers == map[]
    ensures r.body == Envelope("validation_error", Json.Str("Request validation failed"), Json.Arr(errors))
  {
    Response(422, Envelope("validation_error", Json.Str("Request validation failed"), Json.Arr(errors)), map[])
  }

  /** `custom_validation_exception_handler`: with an object detail the message
      and details are read from it, with defaults; any other detail becomes
      the message, with empty details. */
  function ValidationExceptionResponse(e: HttpException): (r: Response)
    ensures r.status == e.status && r.headers == map[]
    ensures e.detail.Obj? ==> r.body == Envelope("validation_error",
      Json.Get(e.detail, "message", Json.Str("Validation error occurred")),
      Json.Get(e.detail, "details", Json.EmptyObject))
    ensures !e.detail.Obj? ==> r.body == Envelope("validation_error", e.detail, Json.EmptyObject)
  {
    if e.detail.Obj? then
      Response(e.status, Envelope("validation_error",
        Json.Get(e.detail, "message", Json.Str("Validation error occurred")),
        Json.Get(e.detail, "details", Json.EmptyObject)), map[])
    else
      Response(e.status, Envelope("validation_error", e.detail, Json.EmptyObject), map[])
  }

  /** The handler the application picks for a raised exception: the most
      specific registered class, so a `ValidationException` gets its own
      handler and every other HTTP error the generic one, which as written
      drops the exception's headers. */
  function Handle(e: HttpException, render: Json.Value -> string): (r: Response)
    ensures r.headers == map[]
    ensures e.cls == ValidationException ==> r == ValidationExceptionResponse(e)
    ensures e.cls != ValidationException ==> r == HttpExceptionResponse(e, render)
  {
    if e.cls == ValidationException then ValidationExceptionResponse(e)
    else HttpExceptionResponse(e, render)
  }

  /** The same dispatch with the generic handler passing the exception's
      headers on: it differs from `Handle` in the headers of non-validation
      errors only. */
  function HandleFixed(e: HttpException, render: Json.Value -> string): (r: Response)
    ensures r.(headers := map[]) == Handle(e, render)
    ensures r.headers == (if e.cls == ValidationException then map[] else e.headers)
  {
    if e.cls == ValidationException then ValidationExceptionResponse(e)
    else HttpExceptionResponseWithHeaders(e, render)
  }

  /** Every handled error keeps its status; its envelope says "validation_error"
      exactly for validation errors and "http_error" otherwise. */
  lemma HandleKeepsStatus(e: HttpException, render: Json.Value -> string)
    ensures Handle(e, render).status == e.status
    ensures Handle(e, render).body.Obj? && "error" in Handle(e, render).body.fields
    ensures Handle(e, render).body.fields["error"] ==
      Json.Str(if e.cls == ValidationException then "validation_error" else "http_error")
  {
  }

  /** Round trip: the envelope of `ValidationException(m, d)` gives back the
      message `m` and the details `d`, or `{}` when none were given. */
  lemma ValidationRoundTrip(message: string, details: Option<map<string, Json.Value>>, render: Json.Value -> string)
    ensures Handle(Validation(message, details), render) ==
      Response(422, Envelope("validation_error", Json.Str(message), DetailsOrEmpty(details)), map[])
  {
    ValidationDetailCarriesArguments(message, details);
  }

  /** A task-not-found error reaches the client as a 404 whose message names the task. */
  lemma TaskNotFoundResponse(taskId: int, render: Json.Value -> string)
    ensures var r := Handle(TaskNotFound(taskId), render);
      && r.status == 404 && r.headers == map[]
      && r.body == Envelope("http_error", TaskNotFound(taskId).detail, Json.Obj(map["status_code" := Json.Int(404)]))
  {
  }

  /** As written, the 401 of an invalid token reaches the client without the
      `WWW-Authenticate: Bearer` challenge the exception carries. */
  lemma InvalidTokenChallengeDropped(render: Json.Value -> string)
    ensures InvalidToken.headers["WWW-Authenticate"] == "Bearer"
    ensures Handle(InvalidToken, render).status == 401
    ensures "WWW-Authenticate" !in Handle(InvalidToken, render).headers
  {
  }

  /** With the headers passed on, the 401 keeps its bearer challenge. */
  lemma InvalidTokenChallengeKept(render: Json.Value -> string)
    ensures HandleFixed(InvalidToken, render).status == 401
    ensures HandleFixed(InvalidToken, render).headers == BearerChallenge
  {
  }
}

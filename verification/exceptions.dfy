/** The HTTP errors the backend raises: FastAPI's `HTTPException` and the four
    subclasses of backend/exceptions.py. Each carries a status code, a detail
    (a string, or a JSON object for validation errors) and extra headers. */
module Exceptions {
  import opened Wrappers
  import opened Text
  import Json
  import Seqs

  /** Which class the exception was raised as; the error handlers dispatch on it. */
  datatype ExceptionClass =
    | HTTPException
    | TaskNotFoundException
    | UnauthorizedAccessException
    | InvalidTokenException
    | ValidationException

  datatype HttpException = HttpException(
    cls: ExceptionClass,
    status: int,
    detail: Json.Value,
    headers: map<string, string>)

  /** The header every 401 of the backend sends: a challenge for a bearer token. */
  const BearerChallenge: map<string, string> := map["WWW-Authenticate" := "Bearer"]

  /** `HTTPException(status_code=status, detail=detail)`, optionally with headers. */
  function Raise(status: int, detail: string, headers: map<string, string> := map[]): HttpException {
    HttpException(HTTPException, status, Json.Str(detail), headers)
  }

  /** `TaskNotFoundException(task_id)`. */
  function TaskNotFound(taskId: int): HttpException {
    HttpException(TaskNotFoundException, 404,
      Json.Str("Task with id " + IntToString(taskId) + " not found"), map[])
  }

  /** `UnauthorizedAccessException()`. */
  const UnauthorizedAccess: HttpException :=
    HttpException(UnauthorizedAccessException, 403, Json.Str("Not authorized to access this resource"), map[])

  /** `InvalidTokenException()`: a 401 that asks for a bearer token. */
  const InvalidToken: HttpException :=
    HttpException(InvalidTokenException, 401, Json.Str("Could not validate credentials"), BearerChallenge)

  /** `details or {}`: a missing (or empty) details object is sent as `{}`. */
  function DetailsOrEmpty(details: Option<map<string, Json.Value>>): (r: Json.Value)
    ensures r.Obj?
    ensures details.Some? ==> r.fields == details.value
    ensures details.None? ==> r.fields == map[]
  {
    if details.Some? then Json.Obj(details.value) else Json.EmptyObject
  }

  /** `ValidationException(message, details)`: a 422 whose detail is the object
      `{"error": "validation_error", "message": message, "details": details or {}}`. */
  function Validation(message: string, details: Option<map<string, Json.Value>> := None): HttpException {
    HttpException(ValidationException, 422,
      Json.Obj(map["error" := Json.Str("validation_error"),
                   "message" := Json.Str(message),
                   "details" := DetailsOrEmpty(details)]),
      map[])
  }

  /** A task-not-found error is a 404 whose detail names the task: two such
      errors carry the same detail only for the same id. */
  lemma {:induction false} TaskNotFoundNamesTheTask(a: int, b: int)
    ensures TaskNotFound(a).status == 404 && TaskNotFound(a).headers == map[]
    ensures TaskNotFound(a).detail == TaskNotFound(b).detail ==> a == b
  {
    if TaskNotFound(a).detail == TaskNotFound(b).detail {
      Seqs.SameFrameSameMiddle("Task with id ", IntToString(a), IntToString(b), " not found");
      IntToStringInjective(a, b);
    }
  }

  /** The message and details given to a validation error are what its detail
      object carries, under the keys the error handler reads. */
  lemma ValidationDetailCarriesArguments(message: string, details: Option<map<string, Json.Value>>)
    ensures var e := Validation(message, details);
      && e.status == 422 && e.cls == ValidationException && e.detail.Obj?
      && Json.Get(e.detail, "message", Json.Null) == Json.Str(message)
      && Json.Get(e.detail, "details", Json.Null) == DetailsOrEmpty(details)
      && Json.Get(e.detail, "error", Json.Null) == Json.Str("validation_error")
  {
  }
}

/** The request dependencies of backend/dependencies.py that resolve who the
    caller is from the optional bearer credentials (None when the request has
    no usable Authorization header). `freshUuid` stands for `uuid.uuid4()`.
    The task and chat routes take their current user from
    `FlexibleCurrentUser`, the dependency bound to `CurrentUser`. */
module Dependencies {
  import opened Wrappers
  import opened Exceptions
  import opened Auth
  import opened AuthUtils
  import AuthRoutes

  /** `flexible_current_user`: a present, non-empty token must verify (401
      otherwise) and yields its user id; no token, or an empty one, yields a
      freshly generated id and never fails. */
  function FlexibleCurrentUser(credentials: Option<string>, decode: string -> Option<Claims>, now: int, freshUuid: string)
    : (r: Result<string, HttpException>)
    ensures credentials.None? || credentials.value == "" ==> r == Success(freshUuid)
    ensures credentials.Some? && credentials.value != "" ==>
      && (r.Failure? <==> VerifyToken(credentials.value, decode, now).None?)
      && (r.Failure? ==> r.error == CredentialsError)
      && (r.Success? ==> r.value == VerifyToken(credentials.value, decode, now).value)
  {
    if credentials.Some? && credentials.value != "" then
      GetCurrentUser(credentials.value, decode, now)
    else
      Success(freshUuid)
  }

  /** The id `get_current_user_or_mock` gives a request without credentials. */
  const MockUser := "mock-user-dev"

  /** `get_current_user_or_mock`: any presented token, even an empty one, must
      verify (401 otherwise); without credentials the fixed mock user. */
  function GetCurrentUserOrMock(credentials: Option<string>, decode: string -> Option<Claims>, now: int)
    : (r: Result<string, HttpException>)
    ensures credentials.None? ==> r == Success(MockUser)
    ensures credentials.Some? ==> r == GetCurrentUser(credentials.value, decode, now)
  {
    if credentials.Some? then GetCurrentUser(credentials.value, decode, now) else Success(MockUser)
  }

  /** The two dependencies agree on every non-empty token. */
  lemma DependenciesAgreeOnTokens(token: string, decode: string -> Option<Claims>, now: int, freshUuid: string)
    requires token != ""
    ensures FlexibleCurrentUser(Some(token), decode, now, freshUuid) == GetCurrentUserOrMock(Some(token), decode, now)
  {
  }

  /** Revocation is consulted by `/auth/me` only: a logged-out token that still
      verifies is refused there but accepted as the current user of every task
      and chat route. */
  lemma RevokedTokenStillAccepted(blacklist: TokenBlacklist, table: AuthRoutes.UserTable, token: string,
                                  decode: string -> Option<Claims>, now: int, freshUuid: string)
    requires blacklist.IsBlacklisted(token) && token != ""
    requires VerifyToken(token, decode, now).Some?
    ensures AuthRoutes.Me(blacklist, table, token, decode, now).Failure?
    ensures FlexibleCurrentUser(Some(token), decode, now, freshUuid) == Success(VerifyToken(token, decode, now).value)
  {
  }
}

/** Bearer-token verification of backend/auth.py. Signature checking is the
    JWT library's: `decode` stands for its signature check and payload
    parsing with the server secret, and answers None where the library
    raises for a bad signature or a malformed token; `JwtDecode` adds the
    expiry check the library makes itself. Times are integer seconds. */
module Auth {
  import opened Wrappers
  import opened Exceptions

  /** The claims of a decoded token the backend reads. */
  datatype Claims = Claims(userId: Option<string>, exp: Option<int>)

  /** `jwt.decode` at `now`: the signed claims, unless the token carries an
      `exp` that is already past (the library raises `ExpiredSignatureError`,
      a `JWTError`, when `exp < now`). */
  function JwtDecode(token: string, decode: string -> Option<Claims>, now: int): (r: Option<Claims>)
    ensures r.Some? <==>
      decode(token).Some? && (decode(token).value.exp.None? || now <= decode(token).value.exp.value)
    ensures r.Some? ==> r == decode(token)
  {
    match decode(token)
    case None => None
    case Some(claims) => if claims.exp.Some? && claims.exp.value < now then None else Some(claims)
  }

  /** `verify_token`: the user id of a token that decodes, carries a userId,
      and has not expired at `now`; expiry is strict, so a token is still
      accepted at the very second of its `exp`. */
  function VerifyToken(token: string, decode: string -> Option<Claims>, now: int): (r: Option<string>)
    ensures r.Some? <==>
      && decode(token).Some?
      && decode(token).value.userId.Some?
      && (decode(token).value.exp.None? || now <= decode(token).value.exp.value)
    ensures r.Some? ==> r.value == decode(token).value.userId.value
  {
    match JwtDecode(token, decode, now)
    case None => None
    case Some(claims) =>
      if claims.userId.None? then None
      else if claims.exp.Some? && now > claims.exp.value then None
      else Some(claims.userId.value)
  }

  /** A token accepted at some time was accepted at every earlier time. */
  lemma VerifyTokenEarlier(token: string, decode: string -> Option<Claims>, earlier: int, later: int)
    requires earlier <= later && VerifyToken(token, decode, later).Some?
    ensures VerifyToken(token, decode, earlier) == VerifyToken(token, decode, later)
  {
  }

  /** The 401 the dependencies raise for a token that does not verify. */
  const CredentialsError := Raise(401, "Could not validate credentials", BearerChallenge)

  /** `get_current_user`: the verified user id, or 401 with a bearer challenge. */
  function GetCurrentUser(token: string, decode: string -> Option<Claims>, now: int): (r: Result<string, HttpException>)
    ensures r.Failure? <==> VerifyToken(token, decode, now).None?
    ensures r.Failure? ==> r.error == CredentialsError
    ensures r.Success? ==> r.value == VerifyToken(token, decode, now).value
  {
    match VerifyToken(token, decode, now)
    case None => Failure(CredentialsError)
    case Some(userId) => Success(userId)
  }
}

/** The `/auth` routes of backend/routes/auth.py and their helpers: password
    truncation to bcrypt's 72-byte limit, hashing and checking through the
    hash library (`bcryptHash`, `bcryptVerify`), access tokens through the JWT
    library (`encode`, `decode`), and the register, login, me and logout
    decisions over the user table and the revocation set. */
module AuthRoutes {
  import opened Wrappers
  import opened Text
  import opened Models
  import opened Exceptions
  import opened Auth
  import opened AuthUtils
  import opened Utf8

  /** The number of password bytes bcrypt looks at. */
  const BcryptLimit: nat := 72

  /** `_truncate_password`: a password whose UTF-8 encoding is longer than 72
      bytes is cut to its first 72 bytes and decoded back, dropping a
      character the cut splits; a shorter one is returned as it is. */
  function TruncatePassword(password: string): (r: string)
    ensures |Encode(password)| <= BcryptLimit ==> r == password
  {
    var bytes := Encode(password);
    if |bytes| > BcryptLimit then DecodeIgnore(bytes[..BcryptLimit]) else password
  }

  /** The truncated password is the longest character prefix of the password
      whose encoding fits in 72 bytes. */
  lemma TruncateIsLongestFittingPrefix(password: string)
    ensures var r := TruncatePassword(password);
      && r == FittingPrefix(password, BcryptLimit)
      && r == password[..|r|]
      && |Encode(r)| <= BcryptLimit
      && (|r| < |password| ==> |Encode(r)| + |EncodeChar(password[|r|])| > BcryptLimit)
  {
    if |Encode(password)| > BcryptLimit {
      DecodeEncodedPrefix(password, BcryptLimit);
    } else {
      FittingPrefixWhole(password, BcryptLimit);
    }
  }

  /** Truncating twice is truncating once. */
  lemma TruncateIdempotent(password: string)
    ensures TruncatePassword(TruncatePassword(password)) == TruncatePassword(password)
  {
    TruncateIsLongestFittingPrefix(password);
  }

  /** `verify_password`: the hash library's verdict on the truncated password;
      false when the library raises (None). */
  function VerifyPassword(plain: string, hashed: string, bcryptVerify: (string, string) -> Option<bool>): (r: bool)
    ensures r <==> bcryptVerify(TruncatePassword(plain), hashed) == Some(true)
  {
    match bcryptVerify(TruncatePassword(plain), hashed)
    case None => false
    case Some(ok) => ok
  }

  /** `get_password_hash`: the hash of the truncated password. */
  function GetPasswordHash(password: string, bcryptHash: string -> string): string {
    bcryptHash(TruncatePassword(password))
  }

  /** Hashing and checking both see only the truncated password: passwords
      with the same first 72 bytes' worth of characters hash alike and pass or
      fail alike, so a password checks against its own hash whenever the
      library accepts the pair it hashed. */
  lemma HashAndCheckSeeTruncation(p1: string, p2: string, hashed: string,
                                  bcryptHash: string -> string, bcryptVerify: (string, string) -> Option<bool>)
    requires TruncatePassword(p1) == TruncatePassword(p2)
    ensures GetPasswordHash(p1, bcryptHash) == GetPasswordHash(p2, bcryptHash)
    ensures VerifyPassword(p1, hashed, bcryptVerify) == VerifyPassword(p2, hashed, bcryptVerify)
    ensures bcryptVerify(TruncatePassword(p1), GetPasswordHash(p1, bcryptHash)) == Some(true) ==>
      VerifyPassword(p2, GetPasswordHash(p1, bcryptHash), bcryptVerify)
  {
  }

  /** The lifetime `create_access_token` gives a token without a delta (or
      with a zero one, which Python treats as false): 15 minutes. */
  const DefaultLifetime := 15 * 60

  /** The lifetime login and register pass: 24 hours. */
  const SessionLifetime := 24 * 60 * 60

  /** The expiry time of a token issued at `now`. */
  function ExpiryOf(delta: Option<int>, now: int): (exp: int)
    ensures delta.Some? && delta.value != 0 ==> exp == now + delta.value
    ensures delta.None? || delta.value == 0 ==> exp == now + DefaultLifetime
  {
    if delta.Some? && delta.value != 0 then now + delta.value else now + DefaultLifetime
  }

  /** The `exp` claim `create_access_token` writes on a host whose local
      time is `utcOffset` seconds ahead of UTC: `datetime.utcnow()` is a
      naive time, and `timestamp()` reads a naive time as local time, so the
      claim is the intended expiry moved back by the offset. */
  function WrittenExpiry(delta: Option<int>, now: int, utcOffset: int): (exp: int)
    ensures utcOffset == 0 <==> exp == ExpiryOf(delta, now)
    ensures utcOffset > 0 <==> exp < ExpiryOf(delta, now)
  {
    ExpiryOf(delta, now) - utcOffset
  }

  /** As written, on a host one hour ahead of UTC a token issued with the
      default lifetime is expired the moment it is issued, and a login token
      is refused after 23 of its 24 hours. */
  lemma WrittenTokenExpiresEarly(userId: string, now: int, decode: string -> Option<Claims>, token: string, login: string)
    requires decode(token) == Some(Claims(Some(userId), Some(WrittenExpiry(None, now, 3600))))
    requires decode(login) == Some(Claims(Some(userId), Some(WrittenExpiry(Some(SessionLifetime), now, 3600))))
    ensures VerifyToken(token, decode, now) == None
    ensures VerifyToken(login, decode, now + 23 * 60 * 60) == Some(userId)
    ensures VerifyToken(login, decode, now + 23 * 60 * 60 + 1) == None
  {
  }

  /** The claims `create_access_token` signs: the user id and the expiry. */
  function AccessClaims(userId: string, delta: Option<int>, now: int): Claims {
    Claims(Some(userId), Some(ExpiryOf(delta, now)))
  }

  /** `create_access_token(data={"userId": userId}, expires_delta=delta)`. */
  function CreateAccessToken(userId: string, delta: Option<int>, now: int, encode: Claims -> string): string {
    encode(AccessClaims(userId, delta, now))
  }

  /** `decode_access_token`: the userId claim of a token the library
      decodes at `now`, which includes the library's expiry check. */
  function DecodeAccessToken(token: string, decode: string -> Option<Claims>, now: int): (r: Option<string>)
    ensures r.Some? <==>
      && decode(token).Some?
      && decode(token).value.userId.Some?
      && (decode(token).value.exp.None? || now <= decode(token).value.exp.value)
    ensures r.Some? ==> r.value == decode(token).value.userId.value
  {
    match JwtDecode(token, decode, now)
    case None => None
    case Some(claims) => claims.userId
  }

  /** `decode_access_token` and `verify_token` accept the same tokens, for
      the same user: the expiry check `verify_token` makes of its own repeats
      the library's. */
  lemma VerifiedTokenDecodes(token: string, decode: string -> Option<Claims>, now: int)
    ensures DecodeAccessToken(token, decode, now) == VerifyToken(token, decode, now)
  {
  }

  /** A token issued for a user, read back by a library that returns the
      claims it signed, is accepted by both decoders for that user up to and
      including its expiry second, and by neither after it. */
  lemma IssuedTokenLifetime(userId: string, delta: Option<int>, now: int, t: int,
                            encode: Claims -> string, decode: string -> Option<Claims>)
    requires decode(CreateAccessToken(userId, delta, now, encode)) == Some(AccessClaims(userId, delta, now))
    ensures DecodeAccessToken(CreateAccessToken(userId, delta, now, encode), decode, t) ==
      (if t <= ExpiryOf(delta, now) then Some(userId) else None)
    ensures VerifyToken(CreateAccessToken(userId, delta, now, encode), decode, t) ==
      (if t <= ExpiryOf(delta, now) then Some(userId) else None)
  {
  }

  /** The first user of `users` that `matches` accepts. */
  function FindUser(users: seq<User>, matches: User -> bool): (r: Option<User>)
    ensures r.Some? ==> r.value in users && matches(r.value)
    ensures r.None? ==> forall i :: 0 <= i < |users| ==> !matches(users[i])
  {
    if users == [] then None
    else if matches(users[0]) then Some(users[0])
    else FindUser(users[1..], matches)
  }

  /** `User.email == email` */
  function HasEmail(email: string): User -> bool {
    (u: User) => u.email == email
  }

  /** `User.id == id` */
  function HasId(id: string): User -> bool {
    (u: User) => u.id == id
  }

  predicate IdsUnique(users: seq<User>) {
    forall i, j :: 0 <= i < j < |users| ==> users[i].id != users[j].id
  }

  /** The `user` table, in insertion order. */
  class UserTable {
    var users: seq<User>

    /** The primary key and the unique email constraint. */
    ghost predicate Valid()
      reads this
    {
      IdsUnique(users) && EmailsUnique(users)
    }

    constructor ()
      ensures Valid() && users == []
    {
      users := [];
    }

    /** `select(User).where(User.email == email)` then `scalar_one_or_none()`. */
    function FindByEmail(email: string): Option<User>
      reads this
    {
      FindUser(users, HasEmail(email))
    }

    /** `select(User).where(User.id == id)` then `scalar_one_or_none()`. */
    function FindById(id: string): Option<User>
      reads this
    {
      FindUser(users, HasId(id))
    }

    /** `session.add(user)` and commit of a user whose id and email are new. */
    method Add(u: User)
      requires Valid() && FindByEmail(u.email).None? && FindById(u.id).None?
      modifies this
      ensures Valid() && users == old(users) + [u]
    {
      users := users + [u];
    }
  }

  /** The name `register` stores: the given one, or when it is missing or
      empty the part of the email before its first '@'. */
  function DisplayName(email: string, name: Option<string>): (r: string)
    ensures name.Some? && name.value != "" ==> r == name.value
    ensures (name.None? || name.value == "") ==> StartsWith(email, r) && '@' !in r
    ensures (name.None? || name.value == "") && |r| < |email| ==> email[|r|] == '@'
  {
    if name.None? || name.value == "" then BeforeFirst(email, '@') else name.value
  }

  /** The 401 of a failed login. */
  const LoginFailed := Raise(401, "Incorrect email or password", BearerChallenge)

  /** POST `/auth/register`: 400 for an email already registered; otherwise a
      new user with the generated id `freshId`, the hashed truncated password
      and the display name, and a 24-hour token for it. An insert the database
      rejects (an id already taken) is a 500 carrying the database's message
      `dbError`, and adds nothing. */
  method Register(table: UserTable, email: string, name: Option<string>, password: string, freshId: string,
                  now: int, bcryptHash: string -> string, encode: Claims -> string, dbError: string)
    returns (r: Result<string, HttpException>)
    requires table.Valid()
    modifies table
    ensures table.Valid()
    ensures r.Failure? ==> table.users == old(table.users)
    ensures old(table.FindByEmail(email)).Some? ==> r == Failure(Raise(400, "Email already registered"))
    ensures old(table.FindByEmail(email)).None? && old(table.FindById(freshId)).Some? ==>
      r == Failure(Raise(500, "Registration failed: " + dbError))
    ensures old(table.FindByEmail(email)).None? && old(table.FindById(freshId)).None? ==>
      && table.users == old(table.users) + [User(freshId, email, DisplayName(email, name), GetPasswordHash(password, bcryptHash), now, now)]
      && r == Success(CreateAccessToken(freshId, Some(SessionLifetime), now, encode))
  {
    if table.FindByEmail(email).Some? {
      return Failure(Raise(400, "Email already registered"));
    }
    var hashed := GetPasswordHash(password, bcryptHash);
    var userName := DisplayName(email, name);
    if table.FindById(freshId).Some? {
      return Failure(Raise(500, "Registration failed: " + dbError));
    }
    table.Add(User(freshId, email, userName, hashed, now, now));
    r := Success(CreateAccessToken(freshId, Some(SessionLifetime), now, encode));
  }

  /** POST `/auth/login`: a 24-hour token for the user with that email when the
      password checks against the stored hash; 401 otherwise, the same for an
      unknown email as for a wrong password. Nothing changes. */
  function Login(table: UserTable, email: string, password: string, now: int,
                 bcryptVerify: (string, string) -> Option<bool>, encode: Claims -> string)
    : (r: Result<string, HttpException>)
    reads table
    ensures r.Success? <==>
      table.FindByEmail(email).Some? && VerifyPassword(password, table.FindByEmail(email).value.password, bcryptVerify)
    ensures r.Failure? ==> r.error == LoginFailed
    ensures r.Success? ==> r.value == CreateAccessToken(table.FindByEmail(email).value.id, Some(SessionLifetime), now, encode)
  {
    match table.FindByEmail(email)
    case None => Failure(LoginFailed)
    case Some(u) =>
      if !VerifyPassword(password, u.password, bcryptVerify) then Failure(LoginFailed)
      else Success(CreateAccessToken(u.id, Some(SessionLifetime), now, encode))
  }

  /** The body of GET `/auth/me`. */
  datatype UserResponse = UserResponse(id: string, email: string, name: string)

  /** GET `/auth/me` at `now`: a revoked token is refused before it is even
      decoded; then a token that does not decode to a user id (expired ones
      included), then one whose user is not stored, each with its own 401. */
  function Me(blacklist: TokenBlacklist, table: UserTable, token: string, decode: string -> Option<Claims>, now: int)
    : (r: Result<UserResponse, HttpException>)
    reads blacklist, table
    ensures blacklist.IsBlacklisted(token) ==> r == Failure(Raise(401, "Token has been revoked", BearerChallenge))
    ensures !blacklist.IsBlacklisted(token) && DecodeAccessToken(token, decode, now).None? ==> r == Failure(CredentialsError)
    ensures !blacklist.IsBlacklisted(token) && DecodeAccessToken(token, decode, now).Some? ==>
      var u := table.FindById(DecodeAccessToken(token, decode, now).value);
      && (u.None? ==> r == Failure(Raise(401, "User not found", BearerChallenge)))
      && (u.Some? ==> r == Success(UserResponse(u.value.id, u.value.email, u.value.name)))
  {
    if blacklist.IsBlacklisted(token) then Failure(Raise(401, "Token has been revoked", BearerChallenge))
    else match DecodeAccessToken(token, decode, now)
      case None => Failure(CredentialsError)
      case Some(userId) =>
        match table.FindById(userId)
        case None => Failure(Raise(401, "User not found", BearerChallenge))
        case Some(u) => Success(UserResponse(u.id, u.email, u.name))
  }

  /** POST `/auth/logout`: revokes the presented token. */
  method Logout(blacklist: TokenBlacklist, token: string) returns (message: string)
    modifies blacklist
    ensures blacklist.tokens == old(blacklist.tokens) + {token}
    ensures message == "Successfully logged out"
  {
    blacklist.Blacklist(token);
    message := "Successfully logged out";
  }
}

/**
 * The two endpoints of backend/api/auth.py: registration, which refuses a taken username before
 * it looks at the email, and the token endpoint, which turns the outcome of authentication into
 * a 401 error or a bearer token. Password hashing, `authenticate_user` and token signing live
 * in backend/auth/auth.py, which is not part of this model: the hash is a function parameter,
 * the authentication outcome is an input, and a token is represented by its claims.
 */
module AuthApi {
  import opened Wrappers
  import opened Records
  import opened Crud

  /** An `HTTPException`: status code, detail message and extra response headers. */
  datatype HttpError = HttpError(status: int, detail: string, headers: seq<(string, string)>)

  /** The claims of an access token: its subject and how many minutes it stays valid. */
  datatype AccessToken = AccessToken(sub: string, expiresInMinutes: int)

  /** The `Token` response body. */
  datatype TokenResponse = TokenResponse(accessToken: AccessToken, tokenType: string)

  const UsernameRegistered: HttpError := HttpError(400, "Username already registered", [])
  const EmailRegistered: HttpError := HttpError(400, "Email already registered", [])
  const BadCredentials: HttpError :=
    HttpError(401, "Incorrect username or password", [("WWW-Authenticate", "Bearer")])

  /**
   * `register`: a taken username is refused first, then a taken email; otherwise exactly one
   * user is created from the payload. A refused registration changes nothing.
   */
  method Register(db: Store, u: UserCreate, hash: string -> string) returns (r: Result<User, HttpError>)
    requires db.Valid()
    modifies db`users, db`nextId
    ensures db.Valid()
    ensures UsernameTaken(old(db.users), u.username) ==>
      r == Failure(UsernameRegistered) && db.users == old(db.users) && db.nextId == old(db.nextId)
    ensures !UsernameTaken(old(db.users), u.username) && EmailTaken(old(db.users), u.email) ==>
      r == Failure(EmailRegistered) && db.users == old(db.users) && db.nextId == old(db.nextId)
    ensures !UsernameTaken(old(db.users), u.username) && !EmailTaken(old(db.users), u.email) ==>
      && r.Success? && r.value.id !in old(db.users)
      && r.value == User(r.value.id, u.username, u.email, hash(u.password), u.defaultCurrency)
      && db.users == old(db.users)[r.value.id := r.value]
  {
    var byName := db.GetUserByUsername(u.username);
    if byName.Some? {
      return Failure(UsernameRegistered);
    }
    var byEmail := db.GetUserByEmail(u.email);
    if byEmail.Some? {
      return Failure(EmailRegistered);
    }
    var user := db.CreateUser(u, hash);
    return Success(user);
  }

  /**
   * `login_for_access_token`, given what `authenticate_user` returned: no user is a 401 that
   * asks for bearer authentication; a user gets a bearer token whose subject is the username.
   */
  function LoginForAccessToken(authenticated: Option<User>, expireMinutes: int): (r: Result<TokenResponse, HttpError>)
    ensures r.Failure? <==> authenticated.None?
    ensures r.Failure? ==> r.error.status == 401 && ("WWW-Authenticate", "Bearer") in r.error.headers
    ensures r.Success? ==>
      && r.value.tokenType == "bearer"
      && r.value.accessToken.sub == authenticated.value.username
      && r.value.accessToken.expiresInMinutes == expireMinutes
  {
    if authenticated.None? then Failure(BadCredentials)
    else Success(TokenResponse(AccessToken(authenticated.value.username, expireMinutes), "bearer"))
  }

  /**
   * Because usernames are unique, the subject of an issued token names exactly one stored
   * user: the one who logged in.
   */
  lemma TokenSubjectIdentifiesUser(users: map<Id, User>, user: User, expireMinutes: int)
    requires UniqueLogins(users) && user.id in users && users[user.id] == user
    ensures LoginForAccessToken(Some(user), expireMinutes).Success?
    ensures forall k :: k in users ==>
      (users[k].username == LoginForAccessToken(Some(user), expireMinutes).value.accessToken.sub <==> k == user.id)
  {
  }
}

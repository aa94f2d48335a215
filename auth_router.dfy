/**
 * The login endpoint (simple_webapp_k8s/routers/auth.py): the password grant
 * of section 4.3 of RFC 6749. A username and password are looked up in the
 * fixed user table and checked; the answer is a bearer token whose subject
 * is the stored username, or a 401 error.
 *
 * bcrypt is foreign code: the password check is a function parameter, and
 * the stored hash (made at start-up with a random salt) is a parameter of the
 * user table.
 */
module AuthRouter {
  import opened Wrappers
  import opened AuthUtils

  type Bytes = seq<bv8>

  /** A row of the user table. */
  datatype UserRecord = UserRecord(username: string, hashedPassword: Bytes)

  /** The form fields of the password grant. */
  datatype LoginForm = LoginForm(username: string, password: string)

  /** The success body: the signed token and its type. */
  datatype TokenResponse = TokenResponse(accessToken: string, tokenType: string)

  const TestUsername: string := "testuser"

  /** The token lifetime the endpoint asks for, in minutes (the settings' default). */
  const AccessTokenExpireMinutes: int := 30

  /** The exception the endpoint raises for an unknown user or a wrong password. */
  const LoginError: HttpError :=
    HttpError(Unauthorized, "Incorrect username or password", map["WWW-Authenticate" := "Bearer"])

  /** `FAKE_USERS_DB`: the single test user, with the hash computed at start-up. */
  function FakeUsersDb(hashedPassword: Bytes): (db: map<string, UserRecord>)
    ensures db.Keys == {TestUsername}
    ensures db[TestUsername].username == TestUsername
    ensures db[TestUsername].hashedPassword == hashedPassword
  {
    map[TestUsername := UserRecord(TestUsername, hashedPassword)]
  }

  /**
   * `login_for_access_token`. The password check runs only for a known user;
   * on success the token carries exactly `sub` (the stored username) and an
   * `exp` 30 minutes after `now`.
   */
  function LoginForAccessToken(form: LoginForm, db: map<string, UserRecord>,
                               checkPassword: (string, Bytes) -> bool,
                               now: int, encode: Claims -> string): (r: Result<TokenResponse, HttpError>)
    ensures r.Success? <==> form.username in db
                            && checkPassword(form.password, db[form.username].hashedPassword)
    ensures r.Failure? ==> r.error == LoginError
    ensures r.Success? ==> r.value.tokenType == "bearer"
    ensures r.Success? ==>
              r.value.accessToken == encode(map["sub" := Str(db[form.username].username),
                                                "exp" := Int(now + AccessTokenExpireMinutes * 60)])
  {
    if form.username !in db then Failure(LoginError)
    else
      var user := db[form.username];
      if !checkPassword(form.password, user.hashedPassword) then Failure(LoginError)
      else
        var claims := map["sub" := Str(user.username)];
        var token := CreateAccessToken(claims, Some(AccessTokenExpireMinutes * 60), now, encode);
        Success(TokenResponse(token, "bearer"))
  }

  /** An unknown user is refused whatever the password checker would say: it is never consulted. */
  lemma UnknownUserSkipsCheck(form: LoginForm, db: map<string, UserRecord>,
                              check1: (string, Bytes) -> bool, check2: (string, Bytes) -> bool,
                              now: int, encode: Claims -> string)
    requires form.username !in db
    ensures LoginForAccessToken(form, db, check1, now, encode)
            == LoginForAccessToken(form, db, check2, now, encode)
            == Failure(LoginError)
  {
  }

  /** With the fixed table, only "testuser" with a password that matches the stored hash logs in. */
  lemma FakeDbLogin(form: LoginForm, hashedPassword: Bytes,
                    checkPassword: (string, Bytes) -> bool, now: int, encode: Claims -> string)
    ensures LoginForAccessToken(form, FakeUsersDb(hashedPassword), checkPassword, now, encode).Success?
            <==> form.username == TestUsername && checkPassword(form.password, hashedPassword)
  {
  }

  /**
   * The token issued at login identifies the stored user to
   * `get_current_user` for the next 30 minutes: the 15-minute default never
   * applies at login.
   */
  lemma LoginTokenIdentifiesUser(form: LoginForm, db: map<string, UserRecord>,
                                 checkPassword: (string, Bytes) -> bool,
                                 issuedAt: int, now: int, encode: Claims -> string,
                                 decode: (string, int) -> Result<Claims, DecodeError>)
    requires DecodesLikeJose(encode, decode)
    requires LoginForAccessToken(form, db, checkPassword, issuedAt, encode).Success?
    requires now <= issuedAt + AccessTokenExpireMinutes * 60
    ensures GetCurrentUser(LoginForAccessToken(form, db, checkPassword, issuedAt, encode).value.accessToken,
                           now, decode)
            == Success(db[form.username].username)
  {
  }

  /** Once those 30 minutes have passed, the login token gets the 401. */
  lemma LoginTokenExpires(form: LoginForm, db: map<string, UserRecord>,
                          checkPassword: (string, Bytes) -> bool,
                          issuedAt: int, now: int, encode: Claims -> string,
                          decode: (string, int) -> Result<Claims, DecodeError>)
    requires DecodesLikeJose(encode, decode)
    requires LoginForAccessToken(form, db, checkPassword, issuedAt, encode).Success?
    requires now > issuedAt + AccessTokenExpireMinutes * 60
    ensures GetCurrentUser(LoginForAccessToken(form, db, checkPassword, issuedAt, encode).value.accessToken,
                           now, decode)
            == Failure(Raised(CredentialsError))
  {
  }
}
